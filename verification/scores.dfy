/**
 * Score bookkeeping on the leaderboard table: look a player up by name
 * (case-insensitively, first in the default ordering), apply a signed delta
 * clamped at zero, and report what happened as a result record instead of
 * raising.
 */
module Scores {
  import opened Optional
  import opened Leaderboard

  /** The dictionary `add_score_delta` returns. */
  datatype DeltaResult =
    | Applied(player: string, oldScore: int, newScore: int, delta: int)
    | Failed(error: string)

  /** The dictionary `get_player_score` returns. */
  datatype ScoreQuery = Found(player: string, score: int) | NotFound(error: string)

  /** `f'Player "{player_name}" not found'`. */
  function NotFoundMessage(name: string): string {
    "Player \"" + name + "\" not found"
  }

  /** A score never drops below zero. */
  function ClampAtZero(x: int): int {
    if x < 0 then 0 else x
  }

  /** At most one row of the table answers to `name`. */
  predicate UniqueMatch(table: seq<Entry>, name: string) {
    forall i, j :: 0 <= i < |table| && 0 <= j < |table| && NameMatches(table[i], name) && NameMatches(table[j], name) ==> i == j
  }

  predicate AllNonNegative(table: seq<Entry>) {
    forall i :: 0 <= i < |table| ==> table[i].score >= 0
  }

  /**
   * `add_score_delta`: fails, leaving the table alone, when no player
   * matches; otherwise stores `max(0, old + delta)` on the matched row only
   * and reports the old score, the new score and the requested delta.
   */
  function AddScoreDelta(table: seq<Entry>, name: string, delta: int, now: int): (r: (seq<Entry>, DeltaResult))
    ensures r.1.Failed? <==> forall x :: x in table ==> !NameMatches(x, name)
    ensures r.1.Failed? ==> r.0 == table && r.1.error == NotFoundMessage(name)
    ensures r.1.Applied? ==>
              && FindByName(table, name).Some?
              && var e := FindByName(table, name).value;
              && r.1 == Applied(e.name, e.score, ClampAtZero(e.score + delta), delta)
              && |r.0| == |table|
              && (forall i :: 0 <= i < |table| && table[i].id != e.id ==> r.0[i] == table[i])
              && (forall i :: 0 <= i < |table| && table[i].id == e.id ==>
                    r.0[i] == table[i].(score := r.1.newScore, updatedAt := now))
    ensures r.1.Applied? ==> r.1.newScore >= 0 && (delta >= 0 ==> r.1.newScore >= r.1.oldScore)
  {
    match FindByName(table, name)
    case None => (table, Failed(NotFoundMessage(name)))
    case Some(player) =>
      var newScore := ClampAtZero(player.score + delta);
      (SetScore(table, player.id, newScore, now), Applied(player.name, player.score, newScore, delta))
  }

  /** No two rows share an id, as the primary key guarantees. */
  predicate UniqueIds(table: seq<Entry>) {
    forall i, j :: 0 <= i < |table| && 0 <= j < |table| && table[i].id == table[j].id ==> i == j
  }

  /**
   * With ids unique, an applied update changes exactly one row: a row that
   * matches the name, which gets the new score and timestamp.
   */
  lemma OnlyMatchedRowChanges(table: seq<Entry>, name: string, delta: int, now: int)
    requires UniqueIds(table)
    ensures var (t, r) := AddScoreDelta(table, name, delta, now);
      r.Applied? ==>
        exists k :: 0 <= k < |table| && NameMatches(table[k], name)
          && t[k] == table[k].(score := r.newScore, updatedAt := now)
          && forall i :: 0 <= i < |table| && i != k ==> t[i] == table[i]
  {
    var (t, r) := AddScoreDelta(table, name, delta, now);
    if r.Applied? {
      var e := FindByName(table, name).value;
      var k :| 0 <= k < |table| && table[k] == e;
      assert forall i :: 0 <= i < |table| && i != k ==> table[i].id != e.id;
    }
  }

  /** Updating a score keeps every score non-negative and every name within bounds. */
  lemma AddScoreDeltaPreservesInvariants(table: seq<Entry>, name: string, delta: int, now: int)
    requires AllNonNegative(table) && AllValid(table)
    ensures AllNonNegative(AddScoreDelta(table, name, delta, now).0)
    ensures AllValid(AddScoreDelta(table, name, delta, now).0)
  {
  }

  /** `increase_score`: the delta is the amount itself. */
  function IncreaseScore(table: seq<Entry>, name: string, amount: int, now: int): (r: (seq<Entry>, DeltaResult))
    ensures r == AddScoreDelta(table, name, amount, now)
    ensures r.1.Failed? <==> forall x :: x in table ==> !NameMatches(x, name)
    ensures r.1.Applied? ==> r.1.delta == amount && r.1.newScore == ClampAtZero(r.1.oldScore + amount)
  {
    AddScoreDelta(table, name, amount, now)
  }

  /** `decrease_score`: the delta is the negated amount, so the reported delta is negative for a positive amount. */
  function DecreaseScore(table: seq<Entry>, name: string, amount: int, now: int): (r: (seq<Entry>, DeltaResult))
    ensures r == AddScoreDelta(table, name, -amount, now)
    ensures r.1.Failed? <==> forall x :: x in table ==> !NameMatches(x, name)
    ensures r.1.Applied? ==> r.1.delta == -amount && r.1.newScore == ClampAtZero(r.1.oldScore - amount)
    ensures r.1.Applied? && amount >= 0 && r.1.oldScore >= 0 ==> r.1.newScore <= r.1.oldScore
  {
    var r := AddScoreDelta(table, name, -amount, now);
    assert r.1.Applied? ==> r.1.oldScore + -amount == r.1.oldScore - amount;
    r
  }

  /**
   * After updating a uniquely named player, that player is still the only
   * match and the lookup finds the updated row.
   */
  lemma {:induction false} UpdatedPlayerIsFoundAgain(table: seq<Entry>, name: string, delta: int, now: int)
    requires UniqueMatch(table, name)
    ensures var (t, r) := AddScoreDelta(table, name, delta, now);
            r.Applied? ==> UniqueMatch(t, name) && FindByName(t, name).Some?
                           && FindByName(t, name).value.name == r.player
                           && FindByName(t, name).value.score == r.newScore
  {
    var (t, r) := AddScoreDelta(table, name, delta, now);
    if r.Applied? {
      var e := FindByName(table, name).value;
      var i :| 0 <= i < |table| && table[i] == e;
      assert t[i] == e.(score := r.newScore, updatedAt := now);
      assert UniqueMatch(t, name) && NameMatches(t[i], name) by {
        assert forall k :: 0 <= k < |t| ==> t[k].name == table[k].name;
      }
      var e1 := FindByName(t, name).value;
      var i1 :| 0 <= i1 < |t| && t[i1] == e1;
      assert i1 == i by {
        assert t[i1].name == table[i1].name;
        assert NameMatches(table[i1], name);
      }
    }
  }

  /**
   * Increasing a uniquely named player's non-negative score by `n` and then
   * decreasing it by `n` gives the original score back.
   */
  lemma {:induction false} IncreaseThenDecreaseRestores(table: seq<Entry>, name: string, n: nat, now: int, later: int)
    requires UniqueMatch(table, name)
    requires AllNonNegative(table)
    ensures var (t1, r1) := IncreaseScore(table, name, n, now);
            var (_, r2) := DecreaseScore(t1, name, n, later);
            r1.Applied? ==> r2.Applied? && r2.oldScore == r1.newScore && r2.newScore == r1.oldScore
  {
    var (t1, r1) := IncreaseScore(table, name, n, now);
    if r1.Applied? {
      UpdatedPlayerIsFoundAgain(table, name, n, now);
      var e := FindByName(table, name).value;
      assert e in table;
      assert e.score >= 0;
      var (_, r2) := DecreaseScore(t1, name, n, later);
      assert r2.oldScore == r1.newScore == e.score + n;
    }
  }

  /**
   * `random_score_increase`: `random.randint(min, max)` picks the delta, so
   * an applied delta lies in `[min, max]`; an empty range raises `ValueError`
   * (here `None`) before the table is touched. `choice` stands for the
   * random draw.
   */
  function RandomScoreIncrease(table: seq<Entry>, name: string, minAmount: int, maxAmount: int, choice: nat, now: int)
    : (r: Option<(seq<Entry>, DeltaResult)>)
    ensures r.None? <==> minAmount > maxAmount
    ensures r.Some? ==> exists d :: minAmount <= d <= maxAmount && r.value == AddScoreDelta(table, name, d, now)
    ensures r.Some? ==> (r.value.1.Failed? <==> forall x :: x in table ==> !NameMatches(x, name))
    ensures r.Some? && r.value.1.Applied? ==> minAmount <= r.value.1.delta <= maxAmount
    ensures r.Some? && r.value.1.Applied? && minAmount >= 0 ==> r.value.1.newScore >= r.value.1.oldScore
  {
    if minAmount > maxAmount then None
    else
      var delta := minAmount + choice % (maxAmount - minAmount + 1);
      assert minAmount <= delta <= maxAmount;
      Some(AddScoreDelta(table, name, delta, now))
  }

  /** `get_player_score`: read-only lookup of the same player `add_score_delta` would change. */
  function GetPlayerScore(table: seq<Entry>, name: string): (r: ScoreQuery)
    ensures r.NotFound? <==> forall x :: x in table ==> !NameMatches(x, name)
    ensures r.NotFound? ==> r.error == NotFoundMessage(name)
    ensures r.Found? ==> exists x :: x in table && NameMatches(x, name) && r == Found(x.name, x.score)
                                      && forall y :: y in table && NameMatches(y, name) ==> Precedes(x, y)
  {
    match FindByName(table, name)
    case None => NotFound(NotFoundMessage(name))
    case Some(player) => Found(player.name, player.score)
  }

  /** After a successful update of a uniquely named player, reading the score gives the reported new score. */
  lemma ReadAfterUpdate(table: seq<Entry>, name: string, delta: int, now: int)
    requires UniqueMatch(table, name)
    ensures var (t, r) := AddScoreDelta(table, name, delta, now);
            r.Applied? ==> GetPlayerScore(t, name) == Found(r.player, r.newScore)
  {
    UpdatedPlayerIsFoundAgain(table, name, delta, now);
  }
}
