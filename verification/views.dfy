/**
 * The leaderboard and text-processing views: CORS decoration, the ranked
 * leaderboard listing, and `process_text`, which bumps Henry Davis's score on
 * every well-formed POST and answers with a small analysis of the text.
 */
module Views {
  import opened Optional
  import opened Json
  import opened Text
  import opened Http
  import opened Leaderboard
  import opened Scores

  const AllowOrigin: string := "Access-Control-Allow-Origin"
  const AllowMethods: string := "Access-Control-Allow-Methods"
  const AllowHeaders: string := "Access-Control-Allow-Headers"

  predicate HasCors(r: Response) {
    && AllowOrigin in r.headers && r.headers[AllowOrigin] == "*"
    && AllowMethods in r.headers && r.headers[AllowMethods] == "GET, POST, OPTIONS"
    && AllowHeaders in r.headers && r.headers[AllowHeaders] == "Content-Type"
  }

  /**
   * `add_cors_headers`: the same response with exactly the three CORS headers
   * set to their fixed values; status, body and every other header unchanged.
   */
  function AddCors(r: Response): (c: Response)
    ensures HasCors(c)
    ensures c.status == r.status && c.body == r.body
    ensures c.headers.Keys == r.headers.Keys + {AllowOrigin, AllowMethods, AllowHeaders}
    ensures forall k :: k in r.headers && k !in {AllowOrigin, AllowMethods, AllowHeaders} ==> c.headers[k] == r.headers[k]
  {
    r.(headers := r.headers[AllowOrigin := "*"][AllowMethods := "GET, POST, OPTIONS"][AllowHeaders := "Content-Type"])
  }

  /** The avatar emoji `get_random_avatar` chooses from: a woman, a man and a person, then women and men at work. */
  const Avatars: seq<string> := [
    "\U{1F469}", "\U{1F468}", "\U{1F9D1}", "\U{1F469}\U{200D}\U{1F4BC}",
    "\U{1F468}\U{200D}\U{1F4BC}", "\U{1F469}\U{200D}\U{1F52C}", "\U{1F468}\U{200D}\U{1F52C}", "\U{1F469}\U{200D}\U{1F4BB}",
    "\U{1F468}\U{200D}\U{1F4BB}", "\U{1F469}\U{200D}\U{1F3EB}", "\U{1F468}\U{200D}\U{1F3EB}", "\U{1F469}\U{200D}\U{2695}\U{FE0F}",
    "\U{1F468}\U{200D}\U{2695}\U{FE0F}", "\U{1F469}\U{200D}\U{1F3A8}", "\U{1F468}\U{200D}\U{1F3A8}", "\U{1F469}\U{200D}\U{1F680}",
    "\U{1F468}\U{200D}\U{1F680}", "\U{1F469}\U{200D}\U{1F33E}", "\U{1F468}\U{200D}\U{1F33E}", "\U{1F469}\U{200D}\U{1F373}",
    "\U{1F468}\U{200D}\U{1F373}", "\U{1F469}\U{200D}\U{1F3A4}", "\U{1F468}\U{200D}\U{1F3A4}", "\U{1F469}\U{200D}\U{1F3AC}",
    "\U{1F468}\U{200D}\U{1F3AC}"
  ]

  /** One line of the leaderboard listing. */
  datatype Row = Row(rank: nat, name: string, score: int, avatar: string)

  /** `enumerate(entries, 1)`: ranks 1..n in entry order, name and score copied; `choice` stands for `random.choice`. */
  function Rank(entries: seq<Entry>, choice: nat -> nat): (rows: seq<Row>)
    ensures |rows| == |entries|
    ensures forall i :: 0 <= i < |rows| ==> rows[i].rank == i + 1
    ensures forall i :: 0 <= i < |rows| ==> rows[i].name == entries[i].name && rows[i].score == entries[i].score
    ensures forall i :: 0 <= i < |rows| ==> rows[i].avatar in Avatars
  {
    seq(|entries|, i requires 0 <= i < |entries| =>
      Row(i + 1, entries[i].name, entries[i].score, Avatars[choice(i) % |Avatars|]))
  }

  /** The `(name, score)` pairs of a list of entries. */
  function Pairs(s: seq<Entry>): seq<(string, int)> {
    if s == [] then [] else [(s[0].name, s[0].score)] + Pairs(s[1..])
  }

  function RowPairs(rows: seq<Row>): seq<(string, int)> {
    seq(|rows|, i requires 0 <= i < |rows| => (rows[i].name, rows[i].score))
  }

  lemma {:induction false} PairsIndex(s: seq<Entry>)
    ensures |Pairs(s)| == |s|
    ensures forall i :: 0 <= i < |s| ==> Pairs(s)[i] == (s[i].name, s[i].score)
    decreases |s|
  {
    if s != [] {
      PairsIndex(s[1..]);
    }
  }

  lemma {:induction false} InsertPairs(e: Entry, s: seq<Entry>)
    requires Sorted(s)
    ensures multiset(Pairs(Insert(e, s))) == multiset(Pairs(s)) + multiset{(e.name, e.score)}
    decreases |s|
  {
    if s == [] {
    } else if Precedes(e, s[0]) {
      var r := [e] + s;
      assert r[1..] == s;
      assert Pairs(r) == [(e.name, e.score)] + Pairs(s);
    } else {
      var rest := Insert(e, s[1..]);
      InsertPairs(e, s[1..]);
      var r := [s[0]] + rest;
      assert r[1..] == rest;
      assert Pairs(r) == [(s[0].name, s[0].score)] + Pairs(rest);
      assert Pairs(s) == [(s[0].name, s[0].score)] + Pairs(s[1..]);
    }
  }

  lemma {:induction false} SortDefaultPairs(table: seq<Entry>)
    ensures multiset(Pairs(SortDefault(table))) == multiset(Pairs(table))
    decreases |table|
  {
    if table != [] {
      SortDefaultPairs(table[1..]);
      InsertPairs(table[0], SortDefault(table[1..]));
    }
  }

  /** The rows `get_leaderboard` lists: every entry once, in the default order, ranked from 1. */
  function LeaderboardRows(table: seq<Entry>, choice: nat -> nat): (rows: seq<Row>)
    ensures |rows| == |table|
  {
    assert |SortDefault(table)| == |multiset(SortDefault(table))| == |table|;
    Rank(SortDefault(table), choice)
  }

  /**
   * The listing ranks 1..n consecutively, never lists a lower score above a
   * higher one, and holds exactly the table's names and scores.
   */
  lemma LeaderboardListing(table: seq<Entry>, choice: nat -> nat)
    ensures var rows := LeaderboardRows(table, choice);
      && |rows| == |table|
      && (forall i :: 0 <= i < |rows| ==> rows[i].rank == i + 1)
      && (forall i, j :: 0 <= i < j < |rows| ==> rows[i].score >= rows[j].score)
      && multiset(RowPairs(rows)) == multiset(Pairs(table))
  {
    var sorted := SortDefault(table);
    var rows := Rank(sorted, choice);
    assert forall i, j :: 0 <= i < j < |rows| ==> Precedes(sorted[i], sorted[j]);
    SortDefaultPairs(table);
    PairsIndex(sorted);
    assert RowPairs(rows) == Pairs(sorted);
  }

  function RowJson(row: Row): Value {
    Dict(map["rank" := Int(row.rank), "name" := Str(row.name), "score" := Int(row.score), "avatar" := Str(row.avatar)])
  }

  /** `get_leaderboard`: OPTIONS gets `{'success': True}`; anything else gets the ranked listing. */
  function GetLeaderboard(verb: Method, table: seq<Entry>, choice: nat -> nat): (r: Response)
    ensures HasCors(r) && r.status == 200
    ensures verb == OPTIONS ==> r.body == JsonBody(map["success" := Bool(true)])
    ensures verb != OPTIONS ==> r.body.JsonBody? && r.body.fields.Keys == {"success", "leaderboard"}
    ensures verb != OPTIONS ==> r.body.fields["success"] == Bool(true)
    ensures verb != OPTIONS ==> r.body.fields["leaderboard"].List? && |r.body.fields["leaderboard"].items| == |table|
    ensures verb != OPTIONS ==>
              && r.body.JsonBody? && "leaderboard" in r.body.fields && r.body.fields["leaderboard"].List?
              && forall i :: 0 <= i < |table| ==>
                   r.body.fields["leaderboard"].items[i] == RowJson(LeaderboardRows(table, choice)[i])
  {
    if verb == OPTIONS then AddCors(JsonResponse(map["success" := Bool(true)]))
    else
      var rows := LeaderboardRows(table, choice);
      var listing := seq(|rows|, i requires 0 <= i < |rows| => RowJson(rows[i]));
      AddCors(JsonResponse(map["success" := Bool(true), "leaderboard" := List(listing)]))
  }

  /** The listing in the response numbers its rows 1..n in order. */
  lemma LeaderboardResponseRanks(verb: Method, table: seq<Entry>, choice: nat -> nat)
    requires verb != OPTIONS
    ensures var items := GetLeaderboard(verb, table, choice).body.fields["leaderboard"].items;
      forall i :: 0 <= i < |items| ==> items[i].Dict? && "rank" in items[i].fields && items[i].fields["rank"] == Int(i + 1)
  {
    var rows := LeaderboardRows(table, choice);
    var items := GetLeaderboard(verb, table, choice).body.fields["leaderboard"].items;
    forall i | 0 <= i < |items|
      ensures items[i].Dict? && "rank" in items[i].fields && items[i].fields["rank"] == Int(i + 1)
    {
      RowJsonFields(rows[i]);
    }
  }

  /** The listing in the response never puts a lower score above a higher one. */
  lemma LeaderboardResponseOrdered(verb: Method, table: seq<Entry>, choice: nat -> nat)
    requires verb != OPTIONS
    ensures var items := GetLeaderboard(verb, table, choice).body.fields["leaderboard"].items;
      forall i, j :: 0 <= i < j < |items| ==> ScoreField(items[i]) >= ScoreField(items[j])
  {
    LeaderboardListing(table, choice);
    var rows := LeaderboardRows(table, choice);
    var items := GetLeaderboard(verb, table, choice).body.fields["leaderboard"].items;
    forall i | 0 <= i < |items| ensures ScoreField(items[i]) == rows[i].score {
      RowJsonFields(rows[i]);
    }
  }

  /** The `score` of a listed row, read back from its JSON. */
  function ScoreField(v: Value): int {
    if v.Dict? && "score" in v.fields && v.fields["score"].Int? then v.fields["score"].i else 0
  }

  lemma RowJsonFields(row: Row)
    ensures var v := RowJson(row);
      v.Dict? && "rank" in v.fields && "score" in v.fields && "avatar" in v.fields
      && v.fields["rank"] == Int(row.rank) && v.fields["score"] == Int(row.score)
      && v.fields["avatar"] == Str(row.avatar)
  {
  }

  /** Every row of the response carries one of the avatar emoji as a string. */
  lemma LeaderboardResponseAvatars(verb: Method, table: seq<Entry>, choice: nat -> nat)
    requires verb != OPTIONS
    ensures var items := GetLeaderboard(verb, table, choice).body.fields["leaderboard"].items;
      forall i :: 0 <= i < |items| ==>
        items[i].Dict? && "avatar" in items[i].fields && items[i].fields["avatar"].Str?
        && items[i].fields["avatar"].s in Avatars
  {
    var rows := LeaderboardRows(table, choice);
    var items := GetLeaderboard(verb, table, choice).body.fields["leaderboard"].items;
    forall i | 0 <= i < |items|
      ensures items[i].Dict? && "avatar" in items[i].fields && items[i].fields["avatar"].Str?
              && items[i].fields["avatar"].s in Avatars
    {
      RowJsonFields(rows[i]);
    }
  }

  /**
   * The body of a request as `json.loads` sees it: bytes that are not text in
   * any of the encodings it detects (a `UnicodeDecodeError`, carrying its
   * message), text that is not JSON, or the parsed value.
   */
  datatype RequestBody = Undecodable(message: string) | Malformed | Parsed(data: Value)

  const HenryDavis: string := "Henry Davis"
  const NoTextMessage: string := "No text provided. Please enter some text to process."

  /** What `process_text` reports about a non-blank text. */
  datatype TextReport = TextReport(
    length: nat, words: nat, reversed: string, uppercase: string, original: string, bonus: Option<DeltaResult>)

  /**
   * The analysis of a non-blank text: its length in code points, its number
   * of whitespace-separated words and its reversal. `upper` stands for
   * `str.upper`, which the model leaves abstract.
   */
  function Analyse(text: string, upper: string -> string, bonus: Option<DeltaResult>): (rep: TextReport)
    ensures rep.length == |text|
    ensures rep.words == WordStarts(text, true)
    ensures |rep.reversed| == |text| && forall i :: 0 <= i < |text| ==> rep.reversed[i] == text[|text| - 1 - i]
    ensures rep.original == text && rep.uppercase == upper(text) && rep.bonus == bonus
  {
    SplitCountsWordStarts(text);
    TextReport(|text|, |Split(text)|, Reverse(text), upper(text), text, bonus)
  }

  function Dashes(n: nat): string {
    seq(n, _ => '-')
  }

  /** The analysis part of the processed text, before any bonus lines. */
  function ReportBody(rep: TextReport): string {
    "\U{2728} Processed Text \U{2728}\n\n"
    + "Original length: " + IntToString(rep.length) + " characters\n"
    + "Word count: " + IntToString(rep.words) + "\n"
    + "Reversed: " + rep.reversed + "\n\n"
    + "Uppercase: " + rep.uppercase + "\n\n"
    + "Formatted:\n" + Dashes(20) + "\n" + rep.original + "\n" + Dashes(20)
  }

  /** The bonus lines about Henry's bump. */
  function BonusLines(h: DeltaResult): string
    requires h.Applied?
  {
    "\n\n\U{1F389} Bonus Info:\n"
    + "Henry Davis gained " + IntToString(h.delta) + " points!\n"
    + "New score: " + IntToString(h.newScore) + " (was " + IntToString(h.oldScore) + ")"
  }

  /**
   * The text `process_text` builds from a report: the analysis, followed by
   * the bonus lines exactly when the bump succeeded.
   */
  function RenderReport(rep: TextReport): (out: string)
    ensures ReportBody(rep) <= out
    ensures |out| > |ReportBody(rep)| <==> rep.bonus.Some? && rep.bonus.value.Applied?
    ensures rep.bonus.Some? && rep.bonus.value.Applied? ==> out[|ReportBody(rep)|..] == BonusLines(rep.bonus.value)
  {
    match rep.bonus
    case Some(Applied(_, _, _, _)) => ReportBody(rep) + BonusLines(rep.bonus.value)
    case _ => ReportBody(rep)
  }

  /** The `score_update` dictionary: `add_score_delta`'s successful result. */
  function ScoreUpdateJson(r: DeltaResult): Value
    requires r.Applied?
  {
    Dict(map["success" := Bool(true), "player" := Str(r.player), "old_score" := Int(r.oldScore),
             "new_score" := Int(r.newScore), "delta" := Int(r.delta)])
  }

  /** Henry's bump: a random delta in [100, 200]. */
  function HenryBump(table: seq<Entry>, choice: nat, now: int): (r: (seq<Entry>, DeltaResult))
    ensures r.1.Applied? ==> 100 <= r.1.delta <= 200
    ensures r.1.Failed? <==> forall x :: x in table ==> !NameMatches(x, HenryDavis)
  {
    RandomScoreIncrease(table, HenryDavis, 100, 200, choice, now).value
  }

  /** `data.get('text', '')`. */
  function TextField(d: Object): Value {
    GetOr(d, "text", Str(""))
  }

  /** The reply for a text: the processed text, the original, and Henry's `score_update` when the bump applied. */
  function TextReply(text: string, henry: DeltaResult, upper: string -> string): (fields: Object)
    ensures "success" in fields && fields["success"] == Bool(true)
    ensures "original_text" in fields && fields["original_text"] == Str(text)
    ensures "processed_text" in fields
    ensures Strip(text) == [] ==> fields["processed_text"] == Str(NoTextMessage)
    ensures Strip(text) != [] ==>
              fields["processed_text"] == Str(RenderReport(Analyse(text, upper, if henry.Applied? then Some(henry) else None)))
    ensures "score_update" in fields <==> henry.Applied?
    ensures henry.Applied? ==> fields["score_update"] == ScoreUpdateJson(henry)
    ensures Strip(text) != [] ==>
              var plain := RenderReport(Analyse(text, upper, None));
              && fields["processed_text"].Str?
              && plain <= fields["processed_text"].s
              && (henry.Applied? <==> |fields["processed_text"].s| > |plain|)
  {
    var responseText :=
      if Strip(text) == [] then NoTextMessage
      else RenderReport(Analyse(text, upper, if henry.Applied? then Some(henry) else None));
    var fields := map["success" := Bool(true), "processed_text" := Str(responseText), "original_text" := Str(text)];
    if henry.Applied? then fields["score_update" := ScoreUpdateJson(henry)] else fields
  }

  /**
   * The part of `process_text` after `json.loads` produced a dictionary:
   * Henry's bump comes first, then the `text` field is stripped (a 500 when
   * it is not a string) and answered.
   */
  function ProcessPayload(d: Object, table: seq<Entry>, choice: nat, now: int, upper: string -> string)
    : (r: (seq<Entry>, Response))
    ensures r.0 == HenryBump(table, choice, now).0
    ensures !TextField(d).Str? ==>
              r.1.status == 500
              && r.1.body == JsonBody(map["success" := Bool(false), "error" := Str(NoAttributeMessage(TextField(d), "strip"))])
    ensures TextField(d).Str? ==>
              r.1.status == 200 && r.1.body == JsonBody(TextReply(TextField(d).s, HenryBump(table, choice, now).1, upper))
    ensures r.1.headers == map[]
  {
    var inputText := TextField(d);
    var (table', henry) := HenryBump(table, choice, now);
    if !inputText.Str? then
      (table', JsonResponse(map["success" := Bool(false), "error" := Str(NoAttributeMessage(inputText, "strip"))], 500))
    else
      (table', JsonResponse(TextReply(inputText.s, henry, upper)))
  }

  /**
   * `process_text`. Henry Davis's score is bumped before the text is even
   * looked at, so the bump also happens for blank text and for a `text`
   * that is not a string (which then fails with a 500).
   */
  function ProcessText(verb: Method, body: RequestBody, table: seq<Entry>, choice: nat, now: int,
                       upper: string -> string): (r: (seq<Entry>, Response))
    ensures HasCors(r.1)
    ensures verb == OPTIONS ==> r.0 == table && r.1.status == 200 && r.1.body == JsonBody(map["success" := Bool(true)])
    ensures verb != OPTIONS && verb != POST ==>
              r.0 == table && r.1.status == 405
              && r.1.body == JsonBody(map["success" := Bool(false), "error" := Str("Method not allowed")])
    ensures verb == POST && body.Undecodable? ==>
              r.0 == table && r.1.status == 500
              && r.1.body == JsonBody(map["success" := Bool(false), "error" := Str(body.message)])
    ensures verb == POST && body.Malformed? ==>
              r.0 == table && r.1.status == 400
              && r.1.body == JsonBody(map["success" := Bool(false), "error" := Str("Invalid JSON data")])
    ensures verb == POST && body.Parsed? && !body.data.Dict? ==>
              r.0 == table && r.1.status == 500
              && r.1.body == JsonBody(map["success" := Bool(false), "error" := Str(NoAttributeMessage(body.data, "get"))])
    ensures verb == POST && body.Parsed? && body.data.Dict? ==>
              var p := ProcessPayload(body.data.fields, table, choice, now, upper);
              r.0 == p.0 && r.1.status == p.1.status && r.1.body == p.1.body
  {
    if verb == OPTIONS then
      (table, AddCors(JsonResponse(map["success" := Bool(true)])))
    else if verb != POST then
      (table, AddCors(JsonResponse(map["success" := Bool(false), "error" := Str("Method not allowed")], 405)))
    else
      match body
      case Undecodable(message) =>
        (table, AddCors(JsonResponse(map["success" := Bool(false), "error" := Str(message)], 500)))
      case Malformed =>
        (table, AddCors(JsonResponse(map["success" := Bool(false), "error" := Str("Invalid JSON data")], 400)))
      case Parsed(data) =>
        if !data.Dict? then
          (table, AddCors(JsonResponse(map["success" := Bool(false), "error" := Str(NoAttributeMessage(data, "get"))], 500)))
        else
          var p := ProcessPayload(data.fields, table, choice, now, upper);
          (p.0, AddCors(p.1))
  }

  /**
   * Every well-formed POST whose data is a dictionary costs Henry Davis's
   * row a bump of 100 to 200 points when he is on the board, even when the
   * text is blank or is not a string, while the rest of the table stays as it was.
   */
  lemma HenryBumpedOnEveryPayload(d: Object, table: seq<Entry>, choice: nat, now: int, upper: string -> string)
    ensures var r := ProcessText(POST, Parsed(Dict(d)), table, choice, now, upper);
      var h := HenryBump(table, choice, now).1;
      && |r.0| == |table|
      && (h.Failed? ==> r.0 == table)
      && (h.Applied? ==>
            exists e :: (e in table && NameMatches(e, HenryDavis)
              && (forall i :: 0 <= i < |table| && table[i].id != e.id ==> r.0[i] == table[i])
              && (forall i :: 0 <= i < |table| && table[i].id == e.id ==> r.0[i].score == h.newScore)))
      && (h.Applied? ==> 100 <= h.delta <= 200)
  {
  }
}
