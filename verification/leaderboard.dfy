/**
 * The `LeaderboardEntry` model: its fields, the `max_length` bound on the
 * name, the default ordering (score descending, then creation time
 * ascending) that every query without an explicit order uses, and `__str__`.
 */
module Leaderboard {
  import opened Optional
  import opened Text

  /** A row of the leaderboard table. `id` is the primary key; times are clock readings. */
  datatype Entry = Entry(id: nat, name: string, score: int, createdAt: int, updatedAt: int)

  /** `CharField(max_length=100)`. */
  const NameMaxLength: nat := 100

  predicate ValidEntry(e: Entry) {
    |e.name| <= NameMaxLength
  }

  predicate AllValid(table: seq<Entry>) {
    forall i :: 0 <= i < |table| ==> ValidEntry(table[i])
  }

  /** `ordering = ['-score', 'created_at']`: `a` may be listed before `b`. */
  predicate Precedes(a: Entry, b: Entry) {
    a.score > b.score || (a.score == b.score && a.createdAt <= b.createdAt)
  }

  /** The default ordering is a total preorder: reflexive, total and transitive. */
  lemma PrecedesIsTotalPreorder(a: Entry, b: Entry, c: Entry)
    ensures Precedes(a, a)
    ensures Precedes(a, b) || Precedes(b, a)
    ensures Precedes(a, b) && Precedes(b, c) ==> Precedes(a, c)
  {
  }

  predicate Sorted(s: seq<Entry>) {
    forall i, j :: 0 <= i < j < |s| ==> Precedes(s[i], s[j])
  }

  /** `x` may be listed before every element of `s`. */
  predicate PrecedesAll(x: Entry, s: seq<Entry>) {
    forall k :: 0 <= k < |s| ==> Precedes(x, s[k])
  }

  /** Inserts `e` into an ordered list, ahead of the entries it ties with. */
  function Insert(e: Entry, s: seq<Entry>): (r: seq<Entry>)
    requires Sorted(s)
    ensures Sorted(r)
    ensures multiset(r) == multiset(s) + multiset{e}
    ensures forall k :: 0 <= k < |r| ==> r[k] == e || r[k] in s
  {
    if s == [] then [e]
    else if Precedes(e, s[0]) then [e] + s
    else
      var rest := Insert(e, s[1..]);
      PrecedesAllDrawnFrom(s[0], e, s[1..], rest);
      assert s == [s[0]] + s[1..];
      [s[0]] + rest
  }

  /** An entry ahead of `e` and of all of `s` is ahead of any list drawn from `e` and `s`. */
  lemma PrecedesAllDrawnFrom(x: Entry, e: Entry, s: seq<Entry>, r: seq<Entry>)
    requires PrecedesAll(x, s) && Precedes(x, e)
    requires forall k :: 0 <= k < |r| ==> r[k] == e || r[k] in s
    ensures PrecedesAll(x, r)
  {
    forall k | 0 <= k < |r| ensures Precedes(x, r[k]) {
      if r[k] != e {
        var j :| 0 <= j < |s| && s[j] == r[k];
      }
    }
  }

  /** The rows of the table in the model's default order. */
  function SortDefault(table: seq<Entry>): (r: seq<Entry>)
    ensures Sorted(r)
    ensures multiset(r) == multiset(table)
  {
    if table == [] then []
    else
      assert table == [table[0]] + table[1..];
      Insert(table[0], SortDefault(table[1..]))
  }

  /** `__str__`: `f"{self.name} - {self.score}"`. */
  function Display(e: Entry): string {
    e.name + " - " + IntToString(e.score)
  }

  /** The display text starts with the name and the score can be read back from what follows `" - "`. */
  lemma DisplayRoundTrip(e: Entry)
    ensures var d := Display(e); var k := |e.name| + 3;
      && |d| > k && d[..|e.name|] == e.name && d[|e.name|..k] == " - "
      && (AllDigits(d[k..]) || (|d[k..]| > 0 && d[k..][0] == '-' && AllDigits(d[k..][1..])))
      && ParseInt(d[k..]) == e.score
  {
    var d := Display(e);
    var k := |e.name| + 3;
    assert d[k..] == IntToString(e.score);
    assert d[..|e.name|] == e.name;
    assert d[|e.name|..k] == " - ";
    IntToStringRoundTrip(e.score);
  }

  /** `name__iexact=name`. */
  predicate NameMatches(e: Entry, name: string) {
    EqualsIgnoreCase(e.name, name)
  }

  /** Position of the first entry of `s` whose name matches. */
  function FirstMatching(s: seq<Entry>, name: string): (r: Option<nat>)
    ensures r.Some? ==> r.value < |s| && NameMatches(s[r.value], name)
    ensures r.Some? ==> forall j :: 0 <= j < r.value ==> !NameMatches(s[j], name)
    ensures r.None? <==> forall j :: 0 <= j < |s| ==> !NameMatches(s[j], name)
  {
    if s == [] then None
    else if NameMatches(s[0], name) then Some(0)
    else
      match FirstMatching(s[1..], name)
      case None => None
      case Some(i) => Some(i + 1)
  }

  /**
   * `LeaderboardEntry.objects.filter(name__iexact=name).first()`: the
   * case-insensitive match that comes first in the default ordering, i.e. one
   * with the highest score and, among those, the earliest creation time.
   */
  function FindByName(table: seq<Entry>, name: string): (r: Option<Entry>)
    ensures r.Some? ==> r.value in table && NameMatches(r.value, name)
    ensures r.Some? ==> forall x :: x in table && NameMatches(x, name) ==> Precedes(r.value, x)
    ensures r.None? <==> forall x :: x in table ==> !NameMatches(x, name)
  {
    var sorted := SortDefault(table);
    SortDefaultSameMembers(table);
    match FirstMatching(sorted, name)
    case None => None
    case Some(i) =>
      FirstMatchLeads(sorted, name, i);
      Some(sorted[i])
  }

  /** Sorting neither adds nor drops an entry. */
  lemma SortDefaultSameMembers(table: seq<Entry>)
    ensures forall x :: x in table <==> x in SortDefault(table)
  {
    var sorted := SortDefault(table);
    forall x ensures x in table <==> x in sorted {
      assert x in table <==> x in multiset(table);
      assert x in sorted <==> x in multiset(sorted);
    }
  }

  /** In a sorted list, the first match comes ahead of every match. */
  lemma FirstMatchLeads(sorted: seq<Entry>, name: string, i: nat)
    requires Sorted(sorted) && FirstMatching(sorted, name) == Some(i)
    ensures forall x :: x in sorted && NameMatches(x, name) ==> Precedes(sorted[i], x)
  {
    forall x | x in sorted && NameMatches(x, name) ensures Precedes(sorted[i], x) {
      var j :| 0 <= j < |sorted| && sorted[j] == x;
      if j != i {
        assert j > i;
        assert Precedes(sorted[i], sorted[j]);
      }
    }
    PrecedesIsTotalPreorder(sorted[i], sorted[i], sorted[i]);
  }

  /** `player.save()` after changing the score: that row gets the new score and an `updated_at` stamp. */
  function SetScore(table: seq<Entry>, id: nat, score: int, now: int): (r: seq<Entry>)
    ensures |r| == |table|
    ensures forall i :: 0 <= i < |table| && table[i].id != id ==> r[i] == table[i]
    ensures forall i :: 0 <= i < |table| && table[i].id == id ==> r[i] == table[i].(score := score, updatedAt := now)
  {
    seq(|table|, i requires 0 <= i < |table| =>
      if table[i].id == id then table[i].(score := score, updatedAt := now) else table[i])
  }
}
