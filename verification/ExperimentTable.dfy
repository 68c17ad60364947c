/** The experiment table (data/experiment.go): rows with a unique uid and an auto-incremented id,
    changed by uid and read through filtered, ordered and limited queries. */
module ExperimentTable {
  import opened Text
  import opened Wrappers

  datatype Status = Created | Success | Error | Destroyed

  datatype Row = Row(id: nat, uid: string, command: string, subCommand: string, flags: string,
                     status: Status, error: string)

  function StatusText(s: Status): string {
    match s
    case Created => "Created"
    case Success => "Success"
    case Error => "Error"
    case Destroyed => "Destroyed"
  }

  /** Rows are kept in insertion order, so ids increase along the table. */
  ghost predicate Valid(rows: seq<Row>, nextId: nat) {
    && (forall i, j :: 0 <= i < j < |rows| ==> rows[i].id < rows[j].id && rows[i].uid != rows[j].uid)
    && (forall i :: 0 <= i < |rows| ==> rows[i].id < nextId)
  }

  predicate Recorded(rows: seq<Row>, uid: string) {
    exists i :: 0 <= i < |rows| && rows[i].uid == uid
  }

  /** The first row with the uid, which is the only one in a valid table. */
  function Find(rows: seq<Row>, uid: string): (found: Option<Row>)
    ensures found.Some? <==> Recorded(rows, uid)
    ensures found.Some? ==> found.value in rows && found.value.uid == uid
  {
    if rows == [] then None
    else if rows[0].uid == uid then Some(rows[0])
    else
      var rest := Find(rows[1..], uid);
      assert forall i :: 0 < i < |rows| ==> rows[i] == rows[1..][i - 1];
      rest
  }

  function Updated(rows: seq<Row>, uid: string, status: Status, error: string): (after: seq<Row>)
    ensures |after| == |rows|
    ensures forall i :: 0 <= i < |rows| ==>
              after[i] == if rows[i].uid == uid then rows[i].(status := status, error := error) else rows[i]
  {
    seq(|rows|, i requires 0 <= i < |rows| =>
      if rows[i].uid == uid then rows[i].(status := status, error := error) else rows[i])
  }

  function Deleted(rows: seq<Row>, uid: string): (after: seq<Row>)
    ensures forall r :: r in after <==> r in rows && r.uid != uid
  {
    if rows == [] then []
    else if rows[0].uid == uid then Deleted(rows[1..], uid)
    else [rows[0]] + Deleted(rows[1..], uid)
  }

  // ---------------------------------------------------------------- what every change keeps

  lemma InsertKeepsValid(rows: seq<Row>, nextId: nat, row: Row)
    requires Valid(rows, nextId) && row.id == nextId && !Recorded(rows, row.uid)
    ensures Valid(rows + [row], nextId + 1)
  {
  }

  lemma UpdateKeepsValid(rows: seq<Row>, nextId: nat, uid: string, status: Status, error: string)
    requires Valid(rows, nextId)
    ensures Valid(Updated(rows, uid, status, error), nextId)
  {
  }

  lemma ValidTail(rows: seq<Row>, nextId: nat)
    requires rows != [] && Valid(rows, nextId)
    ensures Valid(rows[1..], nextId)
    ensures forall r :: r in rows[1..] ==> rows[0].id < r.id && rows[0].uid != r.uid
  {
  }

  lemma ValidPrepend(row: Row, rows: seq<Row>, nextId: nat)
    requires Valid(rows, nextId) && row.id < nextId
    requires forall r :: r in rows ==> row.id < r.id && row.uid != r.uid
    ensures Valid([row] + rows, nextId)
  {
    var all := [row] + rows;
    forall i, j | 0 <= i < j < |all| ensures all[i].id < all[j].id && all[i].uid != all[j].uid {
      assert all[j] == rows[j - 1];
      assert i > 0 ==> all[i] == rows[i - 1];
    }
  }

  lemma {:induction false} DeleteKeepsValid(rows: seq<Row>, nextId: nat, uid: string)
    requires Valid(rows, nextId)
    ensures Valid(Deleted(rows, uid), nextId)
  {
    if rows != [] {
      ValidTail(rows, nextId);
      DeleteKeepsValid(rows[1..], nextId, uid);
      if rows[0].uid != uid {
        ValidPrepend(rows[0], Deleted(rows[1..], uid), nextId);
      }
    }
  }

  // ---------------------------------------------------------------- queries

  datatype Criteria = Criteria(command: string, subCommand: string, flag: string, status: string)

  function UpperFirst(s: string): string
    requires s != ""
  {
    [if 'a' <= s[0] <= 'z' then s[0] - 'a' + 'A' else s[0]] + s[1..]
  }

  /** Only the non-empty criteria filter; `like` stands for the database's LIKE. */
  predicate Selects(c: Criteria, like: (string, string) -> bool, r: Row) {
    && (c.command != "" ==> r.command == c.command)
    && (c.subCommand != "" ==> r.subCommand == c.subCommand)
    && (c.flag != "" ==> like(r.flags, "%" + c.flag + "%"))
    && (c.status != "" ==> StatusText(r.status) == UpperFirst(c.status))
  }

  /** What a query without a limit means: exactly the selected rows, ordered by id. */
  ghost predicate IsAnswer(rows: seq<Row>, c: Criteria, like: (string, string) -> bool, asc: bool, answer: seq<Row>) {
    && (forall i, j :: 0 <= i < j < |answer| ==>
          if asc then answer[i].id < answer[j].id else answer[i].id > answer[j].id)
    && (forall r :: r in answer <==> r in rows && Selects(c, like, r))
  }

  function Reverse(s: seq<Row>): (r: seq<Row>)
    ensures |r| == |s|
    ensures forall i :: 0 <= i < |s| ==> r[i] == s[|s| - 1 - i]
  {
    seq(|s|, i requires 0 <= i < |s| => s[|s| - 1 - i])
  }

  /** LIMIT offset,count of the database: a negative offset is none, a negative count is no bound. */
  function Window(s: seq<Row>, offset: int, count: int): seq<Row> {
    var from := if offset < 0 then 0 else if offset > |s| then |s| else offset;
    var to := if count < 0 || from + count > |s| then |s| else from + count;
    s[from..to]
  }

  /** The limit text "count" or "offset,count"; further parts are ignored. `number` is the
      database's conversion of a bound text, which may refuse it. */
  function ParseLimit(limit: string, number: string -> Option<int>): Option<(int, int)> {
    var values := Split(limit, ',');
    var offset := if |values| > 1 then number(values[0]) else number("0");
    var count := if |values| > 1 then number(values[1]) else number(values[0]);
    if offset.Some? && count.Some? then Some((offset.value, count.value)) else None
  }

  /** A table has one answer to a query. */
  lemma {:induction false} AnswersAreUnique(s: seq<Row>, t: seq<Row>)
    requires forall i, j :: 0 <= i < j < |s| ==> s[i].id < s[j].id
    requires forall i, j :: 0 <= i < j < |t| ==> t[i].id < t[j].id
    requires forall r :: r in s <==> r in t
    ensures s == t
    decreases |s|
  {
    assert t != [] ==> t[0] in t;
    if s != [] {
      assert s[0] in t;
      assert t[0] in s;
      assert s[0] == t[0];
      forall r ensures r in s[1..] <==> r in t[1..] {
        assert r in s[1..] <==> r in s && r != s[0];
        assert r in t[1..] <==> r in t && r != t[0];
      }
      AnswersAreUnique(s[1..], t[1..]);
    }
  }

  lemma ReversedAnswer(
      rows: seq<Row>, c: Criteria, like: (string, string) -> bool, asc: bool, answer: seq<Row>)
    requires IsAnswer(rows, c, like, asc, answer)
    ensures IsAnswer(rows, c, like, !asc, Reverse(answer))
  {
    var reversed := Reverse(answer);
    forall r ensures r in reversed <==> r in answer {
      if r in answer {
        var i :| 0 <= i < |answer| && answer[i] == r;
        assert reversed[|answer| - 1 - i] == r;
      }
    }
  }

  /** Whatever answers the database gives, the descending one is the reverse of the ascending one. */
  lemma DescendingIsReversedAscending(rows: seq<Row>, c: Criteria, like: (string, string) -> bool,
                                      up: seq<Row>, down: seq<Row>)
    requires IsAnswer(rows, c, like, true, up) && IsAnswer(rows, c, like, false, down)
    ensures down == Reverse(up)
  {
    ReversedAnswer(rows, c, like, false, down);
    AnswersAreUnique(up, Reverse(down));
    assert Reverse(Reverse(down)) == down;
  }

  /** A table has one answer to a query, in either order. */
  lemma AnswerIsDetermined(rows: seq<Row>, c: Criteria, like: (string, string) -> bool, asc: bool,
                           s: seq<Row>, t: seq<Row>)
    requires IsAnswer(rows, c, like, asc, s) && IsAnswer(rows, c, like, asc, t)
    ensures s == t
  {
    if asc {
      AnswersAreUnique(s, t);
    } else {
      ReversedAnswer(rows, c, like, false, s);
      DescendingIsReversedAscending(rows, c, like, Reverse(s), s);
      DescendingIsReversedAscending(rows, c, like, Reverse(s), t);
    }
  }

  /** What a query with a limit text returns: the whole answer, or its window. */
  ghost predicate IsResult(rows: seq<Row>, c: Criteria, like: (string, string) -> bool, limit: string,
                           number: string -> Option<int>, asc: bool, result: seq<Row>) {
    exists answer ::
      && IsAnswer(rows, c, like, asc, answer)
      && if limit == "" then result == answer
         else var window := ParseLimit(limit, number);
              window.Some? && result == Window(answer, window.value.0, window.value.1)
  }

  function Times(k: nat, n: nat): nat {
    if k == 0 then 0 else Times(k - 1, n) + n
  }

  function Concat(pages: seq<seq<Row>>): seq<Row> {
    if pages == [] then [] else Concat(pages[..|pages| - 1]) + pages[|pages| - 1]
  }

  function Clip(s: seq<Row>, k: nat): nat {
    if k > |s| then |s| else k
  }

  lemma WindowIsSlice(s: seq<Row>, m: nat, n: nat)
    ensures Window(s, m, n) == s[Clip(s, m)..Clip(s, m + n)]
  {
  }

  lemma SlicesJoin(s: seq<Row>, i: nat, j: nat)
    requires i <= j <= |s|
    ensures s[..i] + s[i..j] == s[..j]
  {
  }

  /** The k-th page holds n rows from row k * n on. */
  ghost predicate IsPage(answer: seq<Row>, n: nat, k: nat, page: seq<Row>) {
    page == Window(answer, Times(k, n), n)
  }

  ghost predicate ArePages(answer: seq<Row>, n: nat, pages: seq<seq<Row>>) {
    forall k :: 0 <= k < |pages| ==> IsPage(answer, n, k, pages[k])
  }

  function FirstPages(answer: seq<Row>, n: nat, m: nat): seq<Row> {
    answer[..Clip(answer, Times(m, n))]
  }

  lemma PageJoins(answer: seq<Row>, n: nat, pages: seq<seq<Row>>, k: nat)
    requires ArePages(answer, n, pages) && k < |pages|
    ensures FirstPages(answer, n, k) + pages[k] == FirstPages(answer, n, k + 1)
  {
    assert IsPage(answer, n, k, pages[k]);
    WindowIsSlice(answer, Times(k, n), n);
    SlicesJoin(answer, Clip(answer, Times(k, n)), Clip(answer, Times(k, n) + n));
  }

  lemma {:induction false} PagesArePrefixes(answer: seq<Row>, n: nat, pages: seq<seq<Row>>, m: nat)
    requires ArePages(answer, n, pages) && m <= |pages|
    ensures Concat(pages[..m]) == FirstPages(answer, n, m)
  {
    if m > 0 {
      PagesArePrefixes(answer, n, pages, m - 1);
      ConcatTake(pages, m);
      PageJoins(answer, n, pages, m - 1);
    }
  }

  lemma {:induction false} ConcatTake(pages: seq<seq<Row>>, m: nat)
    requires 0 < m <= |pages|
    ensures Concat(pages[..m]) == Concat(pages[..m - 1]) + pages[m - 1]
  {
    assert pages[..m][..m - 1] == pages[..m - 1];
  }

  /** The k-th limit text asks for n rows from row k * n on. */
  ghost predicate ArePageLimits(limits: seq<string>, number: string -> Option<int>, n: nat) {
    forall k :: 0 <= k < |limits| ==> limits[k] != "" && ParseLimit(limits[k], number) == Some((Times(k, n), n))
  }

  /** Query a table page by page, in either order: once the pages reach the size of the answer, their
      concatenation is what the query returns without a limit. */
  lemma {:induction false} PagesConcatenate(
      rows: seq<Row>, c: Criteria, like: (string, string) -> bool, number: string -> Option<int>, asc: bool,
      n: nat, limits: seq<string>, pages: seq<seq<Row>>, all: seq<Row>)
    requires ArePageLimits(limits, number, n) && |pages| == |limits| && Times(|pages|, n) >= |all|
    requires forall k :: 0 <= k < |pages| ==> IsResult(rows, c, like, limits[k], number, asc, pages[k])
    requires IsResult(rows, c, like, "", number, asc, all)
    ensures Concat(pages) == all
  {
    forall k | 0 <= k < |pages| ensures IsPage(all, n, k, pages[k]) {
      var answer :| IsAnswer(rows, c, like, asc, answer) && pages[k] == Window(answer, Times(k, n), n);
      AnswerIsDetermined(rows, c, like, asc, answer, all);
    }
    PagesArePrefixes(all, n, pages, |pages|);
    assert pages[..|pages|] == pages;
  }

  // ---------------------------------------------------------------- matchers

  /** Every non-empty flag asked for is in the record with the same value. */
  predicate FlagsMatch(wanted: map<string, string>, recorded: map<string, string>) {
    forall k :: k in wanted && wanted[k] != "" ==> k in recorded && recorded[k] == wanted[k]
  }

  /** A destroy by matchers: `parse` reads the flags of a record (sub-command, command, flag text). */
  datatype Matcher = Matcher(command: string, subCommand: string, flags: map<string, string>)

  predicate Matches(m: Matcher, parse: (string, string, string) -> map<string, string>, r: Row) {
    && (m.command != "" ==> r.command == m.command)
    && (m.subCommand != "" ==> r.subCommand == m.subCommand)
    && FlagsMatch(m.flags, parse(m.subCommand, m.command, r.flags))
  }

  // ---------------------------------------------------------------- the store

  /** The table as the commands change it. Every call may fail: `ok` is the database's verdict. */
  class ExperimentStore {
    var rows: seq<Row>
    var nextId: nat

    ghost predicate Consistent()
      reads this
    {
      Valid(rows, nextId)
    }

    constructor ()
      ensures Consistent() && rows == [] && nextId == 0
    {
      rows, nextId := [], 0;
    }

    /** The uid is unique, so inserting a recorded uid fails. */
    method Insert(uid: string, command: string, subCommand: string, flags: string, ok: bool)
      returns (inserted: bool)
      requires Consistent()
      modifies this
      ensures Consistent()
      ensures inserted <==> ok && !Recorded(old(rows), uid)
      ensures rows == if inserted then old(rows) + [Row(old(nextId), uid, command, subCommand, flags, Created, "")]
                      else old(rows)
      ensures nextId == old(nextId) + if inserted then 1 else 0
    {
      inserted := ok && !Recorded(rows, uid);
      if inserted {
        var row := Row(nextId, uid, command, subCommand, flags, Created, "");
        InsertKeepsValid(rows, nextId, row);
        rows, nextId := rows + [row], nextId + 1;
      }
    }

    method Update(uid: string, status: Status, error: string, ok: bool)
      requires Consistent()
      modifies this`rows
      ensures Consistent()
      ensures rows == if ok then Updated(old(rows), uid, status, error) else old(rows)
    {
      if ok {
        UpdateKeepsValid(rows, nextId, uid, status, error);
        rows := Updated(rows, uid, status, error);
      }
    }

    method Delete(uid: string, ok: bool)
      requires Consistent()
      modifies this`rows
      ensures Consistent()
      ensures rows == if ok then Deleted(old(rows), uid) else old(rows)
    {
      if ok {
        DeleteKeepsValid(rows, nextId, uid);
        rows := Deleted(rows, uid);
      }
    }

    /** QueryExperimentModels: none when the database refuses the query or a limit text. */
    method Query(c: Criteria, like: (string, string) -> bool, limit: string, number: string -> Option<int>,
                 asc: bool, ok: bool)
      returns (result: Option<seq<Row>>)
      requires Consistent()
      ensures result.Some? <==> ok && (limit == "" || ParseLimit(limit, number).Some?)
      ensures result.Some? ==> IsResult(rows, c, like, limit, number, asc, result.value)
    {
      if !ok {
        return None;
      }
      var answer := Select(c, like);
      if !asc {
        ReversedAnswer(rows, c, like, true, answer);
        answer := Reverse(answer);
      }
      assert IsAnswer(rows, c, like, asc, answer);
      if limit == "" {
        return Some(answer);
      }
      var window := ParseLimit(limit, number);
      if window.None? {
        return None;
      }
      return Some(Window(answer, window.value.0, window.value.1));
    }

    method Select(c: Criteria, like: (string, string) -> bool) returns (answer: seq<Row>)
      requires Consistent()
      ensures IsAnswer(rows, c, like, true, answer)
    {
      answer := [];
      for i := 0 to |rows|
        invariant forall j, k :: 0 <= j < k < |answer| ==> answer[j].id < answer[k].id
        invariant forall r :: r in answer <==> r in rows[..i] && Selects(c, like, r)
      {
        assert rows[..i + 1] == rows[..i] + [rows[i]];
        forall j | 0 <= j < |answer| ensures answer[j].id < rows[i].id {
          assert answer[j] in rows[..i];
        }
        if Selects(c, like, rows[i]) {
          answer := answer + [rows[i]];
        }
      }
      assert rows[..|rows|] == rows;
    }

    /** QueryExperimentModelsByCommand: exactly the matching rows, in table order. */
    method QueryByCommand(m: Matcher, parse: (string, string, string) -> map<string, string>, ok: bool)
      returns (result: Option<seq<Row>>)
      requires Consistent()
      ensures result.Some? <==> ok
      ensures result.Some? ==>
                && (forall r :: r in result.value <==> r in rows && Matches(m, parse, r))
                && (forall i, j :: 0 <= i < j < |result.value| ==> result.value[i].id < result.value[j].id)
    {
      var never := (a: string, b: string) => false;
      var c := Criteria(m.command, m.subCommand, "", "");
      var selected := Query(c, never, "", (s: string) => None, true, ok);
      if selected.None? {
        return None;
      }
      if m.flags == map[] {
        return selected;
      }
      var models := FilterByFlags(m, parse, selected.value);
      return Some(models);
    }
  }

  method FilterByFlags(m: Matcher, parse: (string, string, string) -> map<string, string>, candidates: seq<Row>)
    returns (models: seq<Row>)
    requires forall i, j :: 0 <= i < j < |candidates| ==> candidates[i].id < candidates[j].id
    ensures forall r :: r in models <==>
              r in candidates && FlagsMatch(m.flags, parse(m.subCommand, m.command, r.flags))
    ensures forall i, j :: 0 <= i < j < |models| ==> models[i].id < models[j].id
  {
    models := [];
    for i := 0 to |candidates|
      invariant forall j, k :: 0 <= j < k < |models| ==> models[j].id < models[k].id
      invariant forall r :: r in models <==>
                  r in candidates[..i] && FlagsMatch(m.flags, parse(m.subCommand, m.command, r.flags))
    {
      assert candidates[..i + 1] == candidates[..i] + [candidates[i]];
      forall j | 0 <= j < |models| ensures models[j].id < candidates[i].id {
        assert models[j] in candidates[..i];
      }
      var matched := MatchFlags(m.flags, parse(m.subCommand, m.command, candidates[i].flags));
      if matched {
        models := models + [candidates[i]];
      }
    }
    assert candidates[..|candidates|] == candidates;
  }

  /** The loop over the wanted flags, in any order, leaving at the first mismatch. */
  method MatchFlags(wanted: map<string, string>, recorded: map<string, string>) returns (matched: bool)
    ensures matched <==> FlagsMatch(wanted, recorded)
  {
    var left := wanted.Keys;
    while left != {}
      invariant left <= wanted.Keys
      invariant forall k :: k in wanted && k !in left && wanted[k] != "" ==> k in recorded && recorded[k] == wanted[k]
      decreases |left|
    {
      var k :| k in left;
      left := left - {k};
      if wanted[k] == "" {
        continue;
      }
      if k !in recorded || recorded[k] != wanted[k] {
        return false;
      }
    }
    return true;
  }
}
