/**
 * Matching messages to rows of the provider's statistics, and a worker's Tick over them.
 *
 * Which runes are digits or spaces is a parameter: the results hold for any such classes.
 */
module Statistics {
  import opened Common

  datatype Runes = Runes(isDigit: char -> bool, isSpace: char -> bool)

  datatype StatRow = StatRow(id: string, incoming: bool, sender: string, receiver: string, text: string)

  datatype Sms = Sms(sender: string, receiver: string, text: string)

  function DigitsOnly(u: Runes, s: string): string {
    if s == [] then [] else DigitsOnly(u, s[..|s| - 1]) + (if u.isDigit(s[|s| - 1]) then [s[|s| - 1]] else [])
  }

  function TrimLeft(u: Runes, s: string): string {
    if s != [] && u.isSpace(s[0]) then TrimLeft(u, s[1..]) else s
  }

  function TrimRight(u: Runes, s: string): string {
    if s != [] && u.isSpace(s[|s| - 1]) then TrimRight(u, s[..|s| - 1]) else s
  }

  function Trim(u: Runes, s: string): string {
    TrimRight(u, TrimLeft(u, s))
  }

  // ---------------------------------------------------------------- one message

  /** An outgoing row between the message's numbers whose id was not taken yet. */
  predicate Candidate(u: Runes, msg: Sms, used: set<string>, row: StatRow) {
    && !row.incoming
    && DigitsOnly(u, row.sender) == DigitsOnly(u, msg.sender)
    && DigitsOnly(u, row.receiver) == DigitsOnly(u, msg.receiver)
    && (row.id == "" || row.id !in used)
  }

  predicate Exact(u: Runes, msg: Sms, used: set<string>, row: StatRow) {
    Candidate(u, msg, used, row) && Trim(u, row.text) != "" && Trim(u, row.text) == Trim(u, msg.text)
  }

  predicate Blank(u: Runes, msg: Sms, used: set<string>, row: StatRow) {
    Candidate(u, msg, used, row) && Trim(u, row.text) == ""
  }

  function Filter(rows: seq<StatRow>, keep: StatRow -> bool): seq<StatRow> {
    if rows == [] then []
    else Filter(rows[..|rows| - 1], keep) + (if keep(rows[|rows| - 1]) then [rows[|rows| - 1]] else [])
  }

  function Exacts(u: Runes, msg: Sms, used: set<string>, rows: seq<StatRow>): seq<StatRow> {
    Filter(rows, (row: StatRow) => Exact(u, msg, used, row))
  }

  function Blanks(u: Runes, msg: Sms, used: set<string>, rows: seq<StatRow>): seq<StatRow> {
    Filter(rows, (row: StatRow) => Blank(u, msg, used, row))
  }

  function Matched(u: Runes, msg: Sms, used: set<string>, rows: seq<StatRow>): Option<StatRow> {
    var exact := Exacts(u, msg, used, rows);
    var blank := Blanks(u, msg, used, rows);
    if |exact| > 0 then Some(exact[0])
    else if |blank| == 1 && blank[0].id != "" then Some(blank[0])
    else None
  }

  lemma FilterNext(rows: seq<StatRow>, row: StatRow, keep: StatRow -> bool)
    ensures Filter(rows + [row], keep) == Filter(rows, keep) + (if keep(row) then [row] else [])
  {
    assert (rows + [row])[..|rows|] == rows;
  }

  method MatchStatistic(u: Runes, msg: Sms, rows: seq<StatRow>, used: set<string>) returns (found: Option<StatRow>)
    ensures found == Matched(u, msg, used, rows)
  {
    var wantFrom := DigitsOnly(u, msg.sender);
    var wantTo := DigitsOnly(u, msg.receiver);
    var wantText := Trim(u, msg.text);
    var exact: seq<StatRow>, blank: seq<StatRow> := [], [];
    for i := 0 to |rows|
      invariant exact == Exacts(u, msg, used, rows[..i]) && blank == Blanks(u, msg, used, rows[..i])
    {
      hide DigitsOnly, Trim;
      var row := rows[i];
      assert rows[..i + 1] == rows[..i] + [row];
      FilterNext(rows[..i], row, (r: StatRow) => Exact(u, msg, used, r));
      FilterNext(rows[..i], row, (r: StatRow) => Blank(u, msg, used, r));
      if row.incoming {
        continue;
      }
      if DigitsOnly(u, row.sender) != wantFrom {
        continue;
      }
      if DigitsOnly(u, row.receiver) != wantTo {
        continue;
      }
      if row.id != "" && row.id in used {
        continue;
      }
      var text := Trim(u, row.text);
      if text != "" {
        if text != wantText {
          continue;
        }
        exact := exact + [row];
        continue;
      }
      blank := blank + [row];
    }
    assert rows[..|rows|] == rows;
    if |exact| > 0 {
      return Some(exact[0]);
    }
    if |blank| == 1 && blank[0].id != "" {
      return Some(blank[0]);
    }
    return None;
  }

  lemma {:induction false} FilterIn(rows: seq<StatRow>, keep: StatRow -> bool, row: StatRow)
    ensures row in Filter(rows, keep) <==> row in rows && keep(row)
  {
    if rows != [] {
      FilterIn(rows[..|rows| - 1], keep, row);
      assert rows == rows[..|rows| - 1] + [rows[|rows| - 1]];
    }
  }

  lemma {:induction false} FilterFirst(rows: seq<StatRow>, keep: StatRow -> bool)
    ensures Filter(rows, keep) != [] ==>
      exists i :: 0 <= i < |rows| && rows[i] == Filter(rows, keep)[0] && keep(rows[i]) && forall j ::
            0 <= j < i ==> !keep(rows[j])
    ensures Filter(rows, keep) == [] ==> forall j :: 0 <= j < |rows| ==> !keep(rows[j])
  {
    if rows != [] {
      var init := rows[..|rows| - 1];
      FilterFirst(init, keep);
      if Filter(init, keep) == [] {
        assert forall j :: 0 <= j < |init| ==> !keep(rows[j]) by {
          forall j | 0 <= j < |init| ensures !keep(rows[j]) {
            assert init[j] == rows[j];
          }
        }
        if keep(rows[|rows| - 1]) {
          assert rows[|rows| - 1] == Filter(rows, keep)[0];
        }
      } else {
        var i :| 0 <= i < |init| && init[i] == Filter(init, keep)[0] && keep(init[i]) && forall j ::
              0 <= j < i ==> !keep(init[j]);
        assert rows[i] == init[i];
        forall j | 0 <= j < i ensures !keep(rows[j]) {
          assert rows[j] == init[j];
        }
      }
    }
  }

  /** A match is a row of the page between the same numbers, not taken, with the same text or none. */
  lemma MatchAgrees(u: Runes, msg: Sms, used: set<string>, rows: seq<StatRow>)
    ensures var m := Matched(u, msg, used, rows);
      m.Some? ==>
        && m.value in rows && Candidate(u, msg, used, m.value)
        && (Trim(u, m.value.text) != "" ==> Trim(u, m.value.text) == Trim(u, msg.text))
        && (Trim(u, m.value.text) == "" ==> m.value.id != "")
  {
    hide DigitsOnly, Trim;
    var m := Matched(u, msg, used, rows);
    if m.Some? {
      FilterIn(rows, (row: StatRow) => Exact(u, msg, used, row), m.value);
      FilterIn(rows, (row: StatRow) => Blank(u, msg, used, row), m.value);
    }
  }

  /** No match means no row says the text, and the rows that say nothing do not single one out. */
  lemma NoMatchMeans(u: Runes, msg: Sms, used: set<string>, rows: seq<StatRow>)
    requires Matched(u, msg, used, rows).None?
    ensures forall i :: 0 <= i < |rows| ==> !Exact(u, msg, used, rows[i])
    ensures forall i :: 0 <= i < |rows| && Blank(u, msg, used, rows[i]) ==>
      |Blanks(u, msg, used, rows)| >= 2 || rows[i].id == ""
  {
    hide DigitsOnly, Trim, Exact, Blank;
    FilterFirst(rows, (row: StatRow) => Exact(u, msg, used, row));
    forall i | 0 <= i < |rows| && Blank(u, msg, used, rows[i])
      ensures |Blanks(u, msg, used, rows)| >= 2 || rows[i].id == ""
    {
      FilterIn(rows, (row: StatRow) => Blank(u, msg, used, row), rows[i]);
    }
  }

  /** The earliest row with the message's text wins over every later one and over blank rows. */
  lemma FirstExactWins(u: Runes, msg: Sms, used: set<string>, rows: seq<StatRow>, i: nat)
    requires i < |rows| && Exact(u, msg, used, rows[i])
    requires forall j :: 0 <= j < i ==> !Exact(u, msg, used, rows[j])
    ensures Matched(u, msg, used, rows) == Some(rows[i])
  {
    hide DigitsOnly, Trim, Exact, Blank;
    FilterFirst(rows, (row: StatRow) => Exact(u, msg, used, row));
  }

  /** A row between the message's numbers, outgoing, not taken and with its text, first of its kind: that one. */
  lemma MatchFound(u: Runes, msg: Sms, used: set<string>, rows: seq<StatRow>, i: nat)
    requires i < |rows| && !rows[i].incoming && (rows[i].id == "" || rows[i].id !in used)
    requires DigitsOnly(u, rows[i].sender) == DigitsOnly(u, msg.sender)
    requires DigitsOnly(u, rows[i].receiver) == DigitsOnly(u, msg.receiver)
    requires Trim(u, rows[i].text) == Trim(u, msg.text) != ""
    requires forall j :: 0 <= j < i ==> rows[j].incoming || Trim(u, rows[j].text) != Trim(u, msg.text)
    ensures Matched(u, msg, used, rows) == Some(rows[i])
  {
    hide DigitsOnly, Trim, Matched;
    assert Exact(u, msg, used, rows[i]);
    forall j | 0 <= j < i ensures !Exact(u, msg, used, rows[j]) {
    }
    FirstExactWins(u, msg, used, rows, i);
  }

  lemma {:induction false} FilterOne(rows: seq<StatRow>, keep: StatRow -> bool, i: nat)
    requires i < |rows| && keep(rows[i]) && forall j :: 0 <= j < |rows| && j != i ==> !keep(rows[j])
    ensures Filter(rows, keep) == [rows[i]]
  {
    var init := rows[..|rows| - 1];
    if i < |init| {
      assert forall j :: 0 <= j < |init| && j != i ==> init[j] == rows[j];
      FilterOne(init, keep, i);
    } else {
      FilterNone(init, keep);
    }
  }

  lemma {:induction false} FilterNone(rows: seq<StatRow>, keep: StatRow -> bool)
    requires forall j :: 0 <= j < |rows| ==> !keep(rows[j])
    ensures Filter(rows, keep) == []
  {
    if rows != [] {
      var init := rows[..|rows| - 1];
      assert forall j :: 0 <= j < |init| ==> init[j] == rows[j];
      FilterNone(init, keep);
    }
  }

  lemma {:induction false} FilterTwo(rows: seq<StatRow>, keep: StatRow -> bool, i: nat, j: nat)
    requires i < j < |rows| && keep(rows[i]) && keep(rows[j])
    ensures |Filter(rows, keep)| >= 2
  {
    var init := rows[..|rows| - 1];
    if j < |init| {
      FilterTwo(init, keep, i, j);
    } else {
      assert init[i] == rows[i] && rows[i] in init;
      FilterIn(init, keep, rows[i]);
    }
  }

  predicate OnlyBlank(u: Runes, msg: Sms, used: set<string>, rows: seq<StatRow>, i: int) {
    && 0 <= i < |rows| && Blank(u, msg, used, rows[i])
    && forall j :: 0 <= j < |rows| && j != i ==> !Blank(u, msg, used, rows[j])
  }

  /** Rows without a text decide only if no row has the message's text, there is one of them, and it has an id. */
  lemma BlankMatches(u: Runes, msg: Sms, used: set<string>, rows: seq<StatRow>)
    requires forall i :: 0 <= i < |rows| ==> !Exact(u, msg, used, rows[i])
    ensures forall i :: OnlyBlank(u, msg, used, rows, i) && rows[i].id != "" ==>
      Matched(u, msg, used, rows) == Some(rows[i])
    ensures forall i, j :: 0 <= i < j < |rows| && Blank(u, msg, used, rows[i]) && Blank(u, msg, used, rows[j]) ==>
      Matched(u, msg, used, rows) == None
    ensures (forall i :: 0 <= i < |rows| ==> !Blank(u, msg, used, rows[i]) || rows[i].id == "") ==>
      Matched(u, msg, used, rows) == None
  {
    hide DigitsOnly, Trim, Exact, Blank;
    FilterNone(rows, (row: StatRow) => Exact(u, msg, used, row));
    forall i | OnlyBlank(u, msg, used, rows, i) && rows[i].id != ""
      ensures Matched(u, msg, used, rows) == Some(rows[i])
    {
      FilterOne(rows, (row: StatRow) => Blank(u, msg, used, row), i);
    }
    forall i, j | 0 <= i < j < |rows| && Blank(u, msg, used, rows[i]) && Blank(u, msg, used, rows[j])
      ensures Matched(u, msg, used, rows) == None
    {
      FilterTwo(rows, (row: StatRow) => Blank(u, msg, used, row), i, j);
    }
    if Blanks(u, msg, used, rows) != [] {
      FilterIn(rows, (row: StatRow) => Blank(u, msg, used, row), Blanks(u, msg, used, rows)[0]);
    }
  }

  /** A row without a text is one whose trimmed text is empty, and otherwise as a match must be. */
  lemma BlankExactly(u: Runes, msg: Sms, used: set<string>, row: StatRow)
    ensures Blank(u, msg, used, row) <==>
      && !row.incoming && (row.id == "" || row.id !in used) && Trim(u, row.text) == ""
      && DigitsOnly(u, row.sender) == DigitsOnly(u, msg.sender)
      && DigitsOnly(u, row.receiver) == DigitsOnly(u, msg.receiver)
  {
  }

  // ---------------------------------------------------------------- texts

  /** The digits of a text, one by one and in order. */
  lemma DigitsOfParts(u: Runes, a: string, c: char)
    ensures DigitsOnly(u, a + [c]) == if u.isDigit(c) then DigitsOnly(u, a) + [c] else DigitsOnly(u, a)
    ensures DigitsOnly(u, "") == ""
  {
    assert (a + [c])[..|a|] == a;
  }

  predicate AllSpace(u: Runes, s: string) {
    forall i :: 0 <= i < |s| ==> u.isSpace(s[i])
  }

  lemma {:induction false} TrimmedLeft(u: Runes, s: string)
    ensures exists a :: AllSpace(u, a) && s == a + TrimLeft(u, s)
    ensures TrimLeft(u, s) != "" ==> !u.isSpace(TrimLeft(u, s)[0])
  {
    if s != [] && u.isSpace(s[0]) {
      TrimmedLeft(u, s[1..]);
      var a :| AllSpace(u, a) && s[1..] == a + TrimLeft(u, s[1..]);
      assert AllSpace(u, [s[0]] + a) && s == ([s[0]] + a) + TrimLeft(u, s);
    } else {
      assert AllSpace(u, []) && s == [] + TrimLeft(u, s);
    }
  }

  lemma {:induction false} TrimmedRight(u: Runes, s: string)
    ensures exists b :: AllSpace(u, b) && s == TrimRight(u, s) + b
    ensures TrimRight(u, s) != "" ==> !u.isSpace(TrimRight(u, s)[|TrimRight(u, s)| - 1]) && TrimRight(u, s)[0] == s[0]
  {
    if s != [] && u.isSpace(s[|s| - 1]) {
      var init := s[..|s| - 1];
      TrimmedRight(u, init);
      var b :| AllSpace(u, b) && init == TrimRight(u, init) + b;
      assert AllSpace(u, b + [s[|s| - 1]]) && s == TrimRight(u, s) + (b + [s[|s| - 1]]);
    } else {
      assert AllSpace(u, []) && s == TrimRight(u, s) + [];
    }
  }

  /** Trimming takes spaces off both ends, all of them, and nothing else. */
  lemma TrimExactly(u: Runes, s: string)
    ensures exists a, b :: AllSpace(u, a) && AllSpace(u, b) && s == a + Trim(u, s) + b
    ensures Trim(u, s) != "" ==> !u.isSpace(Trim(u, s)[0]) && !u.isSpace(Trim(u, s)[|Trim(u, s)| - 1])
  {
    TrimmedLeft(u, s);
    TrimmedRight(u, TrimLeft(u, s));
    var a :| AllSpace(u, a) && s == a + TrimLeft(u, s);
    var b :| AllSpace(u, b) && TrimLeft(u, s) == Trim(u, s) + b;
    assert s == a + Trim(u, s) + b;
  }

  // ---------------------------------------------------------------- one Tick

  /** A job or stale message looked up in one page (None: the query failed), or a send that was accepted. */
  datatype Work = Lookup(msg: Sms, page: Option<seq<StatRow>>) | Sent(id: string, marked: bool)

  datatype Hit = Hit(msg: Sms, row: StatRow)

  function Note(used: set<string>, id: string): set<string> {
    if id == "" then used else used + {id}
  }

  function MatchOf(u: Runes, w: Work, used: set<string>): Option<StatRow> {
    if w.Lookup? && w.page.Some? then Matched(u, w.msg, used, w.page.value) else None
  }

  function UsedAfter(u: Runes, w: Work, used: set<string>): set<string> {
    match w
    case Sent(id, marked) => if marked then Note(used, id) else used
    case Lookup(_, _) => var m := MatchOf(u, w, used); if m.Some? then Note(used, m.value.id) else used
  }

  /** The matches made while working through the list, starting from the ids already taken. */
  function Hits(u: Runes, works: seq<Work>, used: set<string>): seq<Hit>
    decreases |works|
  {
    if works == [] then []
    else
      var m := MatchOf(u, works[0], used);
      (if m.Some? then [Hit(works[0].msg, m.value)] else []) + Hits(u, works[1..], UsedAfter(u, works[0], used))
  }

  lemma {:induction false} HitsFresh(u: Runes, works: seq<Work>, used: set<string>, k: nat)
    requires k < |Hits(u, works, used)|
    ensures var h := Hits(u, works, used)[k]; h.row.id != "" ==> h.row.id !in used
    decreases |works|
  {
    hide Matched;
    var m := MatchOf(u, works[0], used);
    if m.Some? {
      MatchAgrees(u, works[0].msg, used, works[0].page.value);
    }
    if m.None? || k > 0 {
      HitsFresh(u, works[1..], UsedAfter(u, works[0], used), if m.Some? then k - 1 else k);
    }
  }

  /** Over one Tick no provider id is matched twice. */
  lemma {:induction false} HitsDistinct(u: Runes, works: seq<Work>, used: set<string>, j: nat, k: nat)
    requires j < k < |Hits(u, works, used)|
    ensures var h := Hits(u, works, used); h[k].row.id != "" ==> h[j].row.id != h[k].row.id
    decreases |works|
  {
    hide Matched;
    var m := MatchOf(u, works[0], used);
    var next := UsedAfter(u, works[0], used);
    if m.None? {
      HitsDistinct(u, works[1..], next, j, k);
    } else if j > 0 {
      HitsDistinct(u, works[1..], next, j - 1, k - 1);
    } else {
      HitsFresh(u, works[1..], next, k - 1);
    }
  }

  /** And every match agrees with its message. */
  lemma {:induction false} HitsAgree(u: Runes, works: seq<Work>, used: set<string>, k: nat)
    requires k < |Hits(u, works, used)|
    ensures var h := Hits(u, works, used)[k];
      && !h.row.incoming
      && DigitsOnly(u, h.row.sender) == DigitsOnly(u, h.msg.sender)
      && DigitsOnly(u, h.row.receiver) == DigitsOnly(u, h.msg.receiver)
      && (Trim(u, h.row.text) != "" ==> Trim(u, h.row.text) == Trim(u, h.msg.text))
    decreases |works|
  {
    hide Matched, DigitsOnly, Trim;
    var m := MatchOf(u, works[0], used);
    if m.Some? && k == 0 {
      MatchAgrees(u, works[0].msg, used, works[0].page.value);
    } else {
      HitsAgree(u, works[1..], UsedAfter(u, works[0], used), if m.Some? then k - 1 else k);
    }
  }

  lemma {:induction false} HitsJoin(u: Runes, a: seq<Work>, w: Work, used: set<string>)
    ensures Hits(u, a + [w], used) == Hits(u, a, used) + Hits(u, [w], UsedAll(u, a, used))
    ensures UsedAll(u, a + [w], used) == UsedAfter(u, w, UsedAll(u, a, used))
    decreases |a|
  {
    hide MatchOf, UsedAfter;
    if a == [] {
      assert a + [w] == [w];
      assert UsedAll(u, [w], used) == UsedAll(u, [], UsedAfter(u, w, used));
    } else {
      assert (a + [w])[1..] == a[1..] + [w];
      HitsJoin(u, a[1..], w, UsedAfter(u, a[0], used));
    }
  }

  function UsedAll(u: Runes, works: seq<Work>, used: set<string>): set<string>
    decreases |works|
  {
    if works == [] then used else UsedAll(u, works[1..], UsedAfter(u, works[0], used))
  }

  /** What one piece of work adds: the match of a lookup whose query succeeded, and the ids it takes. */
  lemma WorkAdds(u: Runes, msg: Sms, rows: seq<StatRow>, used: set<string>, id: string)
    ensures Hits(u, [Lookup(msg, Some(rows))], used) ==
      (match Matched(u, msg, used, rows) case None => [] case Some(row) => [Hit(msg, row)])
    ensures Hits(u, [Lookup(msg, None)], used) == [] && Hits(u, [Sent(id, true)], used) == []
    ensures forall row :: Matched(u, msg, used, rows) == Some(row) && row.id != "" ==>
      UsedAfter(u, Lookup(msg, Some(rows)), used) == used + {row.id}
    ensures id != "" ==> UsedAfter(u, Sent(id, true), used) == used + {id}
    ensures UsedAfter(u, Sent(id, false), used) == used && UsedAfter(u, Lookup(msg, None), used) == used
  {
    hide Matched;
    assert [Lookup(msg, Some(rows))][1..] == [] && [Lookup(msg, None)][1..] == [] && [Sent(id, true)][1..] == [];
  }

  class Worker {
    var statUsed: set<string>

    constructor ()
      ensures statUsed == {}
    {
      statUsed := {};
    }

    method NoteSmsId(id: string)
      modifies this
      ensures statUsed == Note(old(statUsed), id)
    {
      if id == "" {
        return;
      }
      statUsed := statUsed + {id};
    }

    method Process(u: Runes, w: Work) returns (hits: seq<Hit>)
      modifies this
      ensures statUsed == UsedAfter(u, w, old(statUsed))
      ensures hits == Hits(u, [w], old(statUsed))
    {
      hits := [];
      match w
      case Sent(id, marked) =>
        if marked {
          NoteSmsId(id);
        }
      case Lookup(msg, page) =>
        if page.Some? {
          var row := MatchStatistic(u, msg, page.value, statUsed);
          if row.Some? {
            NoteSmsId(row.value.id);
            hits := [Hit(msg, row.value)];
          }
        }
    }

    /** The claimed jobs first, then the stale messages; the taken ids are forgotten at the start only. */
    method Tick(u: Runes, jobs: seq<Work>, stale: seq<Work>) returns (hits: seq<Hit>)
      modifies this
      ensures hits == Hits(u, jobs + stale, {})
      ensures forall j, k :: 0 <= j < k < |hits| && hits[k].row.id != "" ==> hits[j].row.id != hits[k].row.id
    {
      statUsed := {};
      hits := [];
      var works := jobs + stale;
      for i := 0 to |works|
        invariant hits == Hits(u, works[..i], {}) && statUsed == UsedAll(u, works[..i], {})
      {
        hide Hits, UsedAfter;
        assert works[..i + 1] == works[..i] + [works[i]];
        HitsJoin(u, works[..i], works[i], {});
        var more := Process(u, works[i]);
        hits := hits + more;
      }
      assert works[..|works|] == works;
      forall j, k | 0 <= j < k < |hits| && hits[k].row.id != "" ensures hits[j].row.id != hits[k].row.id {
        HitsDistinct(u, works, {}, j, k);
      }
    }
  }
}
