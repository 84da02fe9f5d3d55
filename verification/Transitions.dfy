/** The predictive pager's transition matrix: how often each page of a process was followed
    by each other page. */
module Transitions {

  datatype PageData = PageData(page: int, freq: int)

  /** How often b directly follows a on the path. */
  function Steps(path: seq<int>, a: int, b: int): nat {
    if |path| < 2 then 0
    else
      Steps(path[..|path| - 1], a, b) + if path[|path| - 2] == a && path[|path| - 1] == b then 1 else 0
  }

  lemma StepsNext(path: seq<int>, c: int, a: int, b: int)
    requires path != []
    ensures Steps(path + [c], a, b) == Steps(path, a, b) + if path[|path| - 1] == a && c == b then 1 else 0
  {
    assert (path + [c])[..|path|] == path;
  }

  /** Departures from a to the first n pages, and arrivals at a from them. */
  function Departures(path: seq<int>, a: int, n: nat): nat {
    if n == 0 then 0 else Departures(path, a, n - 1) + Steps(path, a, n - 1)
  }

  function Arrivals(path: seq<int>, a: int, n: nat): nat {
    if n == 0 then 0 else Arrivals(path, a, n - 1) + Steps(path, n - 1, a)
  }

  function One(b: bool): int { if b then 1 else 0 }

  lemma {:induction false} DeparturesNext(path: seq<int>, c: int, a: int, n: nat)
    requires path != [] && c >= 0
    ensures Departures(path + [c], a, n) == Departures(path, a, n) + One(path[|path| - 1] == a && c < n)
  {
    if n > 0 {
      StepsNext(path, c, a, n - 1);
      DeparturesNext(path, c, a, n - 1);
    }
  }

  lemma {:induction false} ArrivalsNext(path: seq<int>, c: int, a: int, n: nat)
    requires path != [] && path[|path| - 1] >= 0
    ensures Arrivals(path + [c], a, n) == Arrivals(path, a, n) + One(c == a && path[|path| - 1] < n)
  {
    if n > 0 {
      StepsNext(path, c, n - 1, a);
      ArrivalsNext(path, c, a, n - 1);
    }
  }

  predicate PathOk(path: seq<int>, n: nat) {
    && path != [] && path[0] == 0
    && (forall k :: 0 <= k < |path| ==> 0 <= path[k] < n)
    && (forall k :: 0 <= k < |path| - 1 ==> path[k] != path[k + 1])
  }

  /** The balance of a path: it leaves each page as often as it reaches it, but for the page
      it starts on and the page it ends on. */
  lemma {:induction false} PathBalance(path: seq<int>, a: int, n: nat)
    requires PathOk(path, n)
    ensures Departures(path, a, n) - Arrivals(path, a, n) == One(a == 0) - One(a == path[|path| - 1])
    decreases |path|
  {
    if |path| == 1 {
      NoSteps(path, a, n);
    } else {
      var before, c := path[..|path| - 1], path[|path| - 1];
      assert path == before + [c];
      PathBalance(before, a, n);
      DeparturesNext(before, c, a, n);
      ArrivalsNext(before, c, a, n);
    }
  }

  lemma {:induction false} NoSteps(path: seq<int>, a: int, n: nat)
    requires |path| < 2
    ensures Departures(path, a, n) == 0 && Arrivals(path, a, n) == 0
  {
    if n > 0 {
      NoSteps(path, a, n - 1);
    }
  }

  lemma {:induction false} NoSelfSteps(path: seq<int>, n: nat, a: int)
    requires PathOk(path, n)
    ensures Steps(path, a, a) == 0
    decreases |path|
  {
    if |path| >= 2 {
      var before := path[..|path| - 1];
      assert forall k :: 0 <= k < |before| ==> before[k] == path[k];
      NoSelfSteps(before, n, a);
    }
  }

  // ---- the matrix of one process

  type Matrix = seq<seq<PageData>>

  predicate MatrixOk(m: Matrix, n: nat) {
    && |m| == n
    && forall a :: 0 <= a < n ==> RowOk(m[a], n, a)
  }

  /** Every entry names its own column, and no page follows itself. */
  predicate RowOk(row: seq<PageData>, n: nat, a: nat) {
    && |row| == n
    && (forall b :: 0 <= b < n ==> row[b].page == b && row[b].freq >= 0)
    && (a < n ==> row[a].freq == 0)
  }

  function Recorded(m: Matrix, n: nat, a: nat, b: nat): (r: Matrix)
    requires MatrixOk(m, n) && a < n && b < n && a != b
    ensures MatrixOk(r, n)
  {
    m[a := m[a][b := PageData(b, m[a][b].freq + 1)]]
  }

  /** The matrix counts exactly the steps of the path. */
  predicate Counts(m: Matrix, n: nat, path: seq<int>)
    requires MatrixOk(m, n)
  {
    forall a, b :: 0 <= a < n && 0 <= b < n ==> m[a][b].freq == Steps(path, a, b)
  }

  lemma RecordKeepsCounts(m: Matrix, n: nat, path: seq<int>, b: nat)
    requires MatrixOk(m, n) && PathOk(path, n) && Counts(m, n, path)
    requires b < n && b != path[|path| - 1]
    ensures Counts(Recorded(m, n, path[|path| - 1], b), n, path + [b])
    ensures PathOk(path + [b], n)
  {
    forall a, c | 0 <= a < n && 0 <= c < n
      ensures Recorded(m, n, path[|path| - 1], b)[a][c].freq == Steps(path + [b], a, c)
    {
      StepsNext(path, b, a, c);
    }
  }

  function RowSum(m: Matrix, a: nat, n: nat): int
    requires a < |m| && n <= |m[a]|
  {
    if n == 0 then 0 else RowSum(m, a, n - 1) + m[a][n - 1].freq
  }

  function ColumnSum(m: Matrix, a: nat, n: nat): int
    requires n <= |m| && forall k :: 0 <= k < n ==> a < |m[k]|
  {
    if n == 0 then 0 else ColumnSum(m, a, n - 1) + m[n - 1][a].freq
  }

  lemma {:induction false} SumsAreFlows(m: Matrix, size: nat, path: seq<int>, a: nat, n: nat)
    requires MatrixOk(m, size) && Counts(m, size, path) && a < size && n <= size
    ensures RowSum(m, a, n) == Departures(path, a, n) && ColumnSum(m, a, n) == Arrivals(path, a, n)
  {
    if n > 0 {
      SumsAreFlows(m, size, path, a, n - 1);
    }
  }

  /** In the matrix itself: row sum minus column sum of page a is 1 for the page the process
      started on, -1 for the page it is on, and 0 for all others (or if they coincide). */
  lemma MatrixBalance(m: Matrix, n: nat, path: seq<int>, a: nat)
    requires MatrixOk(m, n) && PathOk(path, n) && Counts(m, n, path) && a < n
    ensures RowSum(m, a, n) - ColumnSum(m, a, n) == One(a == 0) - One(a == path[|path| - 1])
  {
    SumsAreFlows(m, n, path, a, n);
    PathBalance(path, a, n);
  }

  // ---- the matrices of all slots, and what a call does to them

  /** `last[i]` is the page slot i was last seen on, or -1. */
  datatype Table = Table(trans: seq<Matrix>, last: seq<int>)

  /** Slot 0 starts, and stays, at -1: it never records a transition. Any other slot starts on
      page 0, and its matrix counts the steps of its path as long as nothing has decayed. */
  predicate SlotTable(m: Matrix, last: int, path: seq<int>, i: nat, n: nat, exact: bool) {
    && MatrixOk(m, n)
    && if i == 0 then last == -1 && Counts(m, n, [])
       else PathOk(path, n) && last == path[|path| - 1] && (exact ==> Counts(m, n, path))
  }

  predicate TableOk(tb: Table, paths: seq<seq<int>>, n: nat, exact: bool) {
    && |tb.trans| == |tb.last| == |paths|
    && forall i: nat :: i < |paths| ==> SlotTable(tb.trans[i], tb.last[i], paths[i], i, n, exact)
  }

  /** A decay never raises a count, and keeps it from going below zero. */
  ghost predicate Decays(d: int -> int) {
    forall f :: f >= 0 ==> 0 <= d(f) <= f
  }

  function FadedRow(row: seq<PageData>, d: int -> int): (r: seq<PageData>)
    ensures |r| == |row|
  {
    seq(|row|, b requires 0 <= b < |row| => PageData(row[b].page, d(row[b].freq)))
  }

  function Faded(m: Matrix, n: nat, d: int -> int): (r: Matrix)
    requires MatrixOk(m, n)
  {
    seq(n, a requires 0 <= a < n => FadedRow(m[a], d))
  }

  function FadedAll(trans: seq<Matrix>, n: nat, d: int -> int): (r: seq<Matrix>)
    requires forall i :: 0 <= i < |trans| ==> MatrixOk(trans[i], n)
  {
    seq(|trans|, i requires 0 <= i < |trans| => Faded(trans[i], n, d))
  }

  /** Whether slot i, now on page `cur` (-1 if idle), records a transition. */
  predicate Moves(last: int, cur: int) { cur >= 0 && last != -1 && last != cur }

  predicate CurOk(cur: seq<int>, n: nat) {
    forall i :: 0 <= i < |cur| ==> -1 <= cur[i] < n
  }

  predicate Ready(tb: Table, n: nat, k: nat) {
    k <= |tb.trans| == |tb.last|
    && (forall i :: 0 <= i < |tb.trans| ==> MatrixOk(tb.trans[i], n))
    && (forall i :: 0 <= i < |tb.last| ==> -1 <= tb.last[i] < n)
  }

  function TransitOne(tb: Table, i: nat, cur: int, n: nat, decay: bool, d: int -> int): (r: Table)
    requires Ready(tb, n, i + 1) && -1 <= cur < n
  {
    if !Moves(tb.last[i], cur) then tb
    else
      var trans := tb.trans[i := Recorded(tb.trans[i], n, tb.last[i], cur)];
      Table(if decay then FadedAll(trans, n, d) else trans, tb.last[i := cur])
  }

  function PathOne(path: seq<int>, last: int, cur: int): seq<int> {
    if Moves(last, cur) then path + [cur] else path
  }

  lemma FadedOk(m: Matrix, n: nat, d: int -> int)
    requires MatrixOk(m, n) && Decays(d)
    ensures MatrixOk(Faded(m, n, d), n)
    ensures Counts(m, n, []) ==> Counts(Faded(m, n, d), n, [])
  {
    var r := Faded(m, n, d);
    forall a: nat | a < n ensures RowOk(r[a], n, a) {
      assert RowOk(m[a], n, a);
    }
  }

  lemma RecordedSlot(m: Matrix, last: int, path: seq<int>, i: nat, n: nat, exact: bool, cur: int)
    requires SlotTable(m, last, path, i, n, exact) && Moves(last, cur) && cur < n
    ensures SlotTable(Recorded(m, n, last, cur), cur, path + [cur], i, n, exact)
  {
    var next := path + [cur];
    assert PathOk(next, n) by {
      assert forall k :: 0 <= k < |path| ==> next[k] == path[k];
    }
    if exact {
      RecordKeepsCounts(m, n, path, cur);
    }
  }

  /** What a call does for slot i keeps the table right: the path grows by the page the slot
      has moved to, and only a decay makes the counts inexact. */
  lemma TransitOneOk(tb: Table, paths: seq<seq<int>>, i: nat, cur: int, n: nat, decay: bool, d: int -> int, exact: bool)
    requires TableOk(tb, paths, n, exact) && Ready(tb, n, i + 1) && -1 <= cur < n && Decays(d)
    requires decay ==> !exact
    ensures TableOk(TransitOne(tb, i, cur, n, decay, d), paths[i := PathOne(paths[i], tb.last[i], cur)], n, exact)
    ensures TransitOne(tb, i, cur, n, decay, d).last == if Moves(tb.last[i], cur) then tb.last[i := cur] else tb.last
  {
    var r := TransitOne(tb, i, cur, n, decay, d);
    var paths' := paths[i := PathOne(paths[i], tb.last[i], cur)];
    forall k: nat | k < |paths| ensures SlotTable(r.trans[k], r.last[k], paths'[k], k, n, exact) {
      assert SlotTable(tb.trans[k], tb.last[k], paths[k], k, n, exact);
      if Moves(tb.last[i], cur) {
        if k == i {
          RecordedSlot(tb.trans[i], tb.last[i], paths[i], i, n, exact, cur);
        }
        var m := if k == i then Recorded(tb.trans[i], n, tb.last[i], cur) else tb.trans[k];
        FadedOk(m, n, d);
      }
    }
  }

  lemma TransitOneReady(tb: Table, i: nat, cur: int, n: nat, decay: bool, d: int -> int, k: nat)
    requires Ready(tb, n, k) && i < k && -1 <= cur < n && Decays(d)
    ensures Ready(TransitOne(tb, i, cur, n, decay, d), n, k)
  {
    if Moves(tb.last[i], cur) {
      var trans := tb.trans[i := Recorded(tb.trans[i], n, tb.last[i], cur)];
      forall j | 0 <= j < |trans| ensures MatrixOk(Faded(trans[j], n, d), n) {
        FadedOk(trans[j], n, d);
      }
    }
  }

  /** The first k slots' moves, in order; on a decay tick each of them fades all matrices. */
  ghost function Transit(tb: Table, cur: seq<int>, k: nat, n: nat, decay: bool, d: int -> int): (r: Table)
    requires k <= |cur| && Ready(tb, n, |cur|) && CurOk(cur, n) && Decays(d)
    ensures Ready(r, n, |cur|) && |r.trans| == |tb.trans|
  {
    if k == 0 then tb
    else
      var before := Transit(tb, cur, k - 1, n, decay, d);
      TransitOneReady(before, k - 1, cur[k - 1], n, decay, d, |cur|);
      TransitOne(before, k - 1, cur[k - 1], n, decay, d)
  }

  function PathsAfter(paths: seq<seq<int>>, last: seq<int>, cur: seq<int>, k: nat): seq<seq<int>>
    requires k <= |paths| == |last| == |cur|
  {
    seq(|paths|, i requires 0 <= i < |paths| => if i < k then PathOne(paths[i], last[i], cur[i]) else paths[i])
  }

  lemma TableReady(tb: Table, paths: seq<seq<int>>, n: nat, exact: bool, exact': bool)
    requires TableOk(tb, paths, n, exact) && (exact' ==> exact) && n >= 1
    ensures Ready(tb, n, |paths|) && TableOk(tb, paths, n, exact')
  {
    forall i: nat | i < |paths|
      ensures SlotTable(tb.trans[i], tb.last[i], paths[i], i, n, exact') && -1 <= tb.last[i] < n
    {
      assert SlotTable(tb.trans[i], tb.last[i], paths[i], i, n, exact);
    }
  }

  lemma PathsNext(paths: seq<seq<int>>, last: seq<int>, cur: seq<int>, k: nat)
    requires k < |paths| == |last| == |cur|
    ensures |PathsAfter(paths, last, cur, k)| == |paths|
    ensures PathsAfter(paths, last, cur, k + 1)
         == PathsAfter(paths, last, cur, k)[k := PathOne(PathsAfter(paths, last, cur, k)[k], last[k], cur[k])]
  {
    hide PathOne;
  }

  lemma NoPathYet(paths: seq<seq<int>>, last: seq<int>, cur: seq<int>)
    requires |paths| == |last| == |cur|
    ensures PathsAfter(paths, last, cur, 0) == paths
  {
  }

  /** A whole pass over the slots keeps the table right. */
  lemma {:induction false} TransitOk(tb: Table, paths: seq<seq<int>>, cur: seq<int>, k: nat, n: nat,
                                     decay: bool, d: int -> int, exact: bool)
    requires k <= |cur| == |paths| && Ready(tb, n, |cur|) && CurOk(cur, n) && Decays(d)
    requires TableOk(tb, paths, n, exact) && (decay ==> !exact)
    ensures TableOk(Transit(tb, cur, k, n, decay, d), PathsAfter(paths, tb.last, cur, k), n, exact)
    ensures forall i :: k <= i < |cur| ==> Transit(tb, cur, k, n, decay, d).last[i] == tb.last[i]
  {
    hide SlotTable, MatrixOk, TransitOne, PathOne, PathsAfter, Decays;
    if k == 0 {
      NoPathYet(paths, tb.last, cur);
    } else {
      TransitOk(tb, paths, cur, k - 1, n, decay, d, exact);
      PathsNext(paths, tb.last, cur, k - 1);
      TransitOneOk(Transit(tb, cur, k - 1, n, decay, d), PathsAfter(paths, tb.last, cur, k - 1), k - 1, cur[k - 1],
                   n, decay, d, exact);
    }
  }

  // ---- what a pass over the slots does, entry by entry

  /** Said of the slots' pages alone: slot i, last seen on page last[i], is now on another. */
  predicate Elsewhere(last: seq<int>, cur: seq<int>, i: nat)
    requires i < |last| == |cur|
  {
    last[i] >= 0 && cur[i] >= 0 && cur[i] != last[i]
  }

  function Movers(last: seq<int>, cur: seq<int>, k: nat): nat
    requires k <= |last| == |cur|
  {
    if k == 0 then 0 else Movers(last, cur, k - 1) + if Elsewhere(last, cur, k - 1) then 1 else 0
  }

  /** f after m decays. */
  function Fades(d: int -> int, m: nat, f: int): int { if m == 0 then f else d(Fades(d, m - 1, f)) }

  /** One more for the entry of the page slot i was on and the page it is on now. */
  function Gain(last: seq<int>, cur: seq<int>, i: nat, a: int, b: int): int
    requires i < |last| == |cur|
  {
    One(Elsewhere(last, cur, i) && a == last[i] && b == cur[i])
  }

  /** An entry of slot i after the first k slots have been looked at. If counts decay, every
      slot that has moved fades all counts once, after it has recorded its own move. */
  function EntryAfter(last: seq<int>, cur: seq<int>, k: nat, decay: bool, d: int -> int, i: nat, a: int, b: int,
                      f: int): int
    requires i < |last| == |cur| && k <= |cur|
  {
    if !decay then f + if i < k then Gain(last, cur, i, a, b) else 0
    else if i < k then
      MoversGrow(last, cur, i, k);
      Fades(d, Movers(last, cur, k) - Movers(last, cur, i),
            Fades(d, Movers(last, cur, i), f) + Gain(last, cur, i, a, b))
    else Fades(d, Movers(last, cur, k), f)
  }

  lemma {:induction false} MoversGrow(last: seq<int>, cur: seq<int>, i: nat, k: nat)
    requires i <= k <= |last| == |cur|
    ensures Movers(last, cur, i) <= Movers(last, cur, k)
    decreases k
  {
    if i < k {
      MoversGrow(last, cur, i, k - 1);
    }
  }

  lemma TransitOneEntry(tb: Table, i: nat, cur: int, n: nat, decay: bool, d: int -> int, j: nat, a: nat, b: nat)
    requires Ready(tb, n, i + 1) && -1 <= cur < n && Decays(d) && j < |tb.trans| && a < n && b < n
    ensures Ready(TransitOne(tb, i, cur, n, decay, d), n, i + 1)
    ensures var r, moved := TransitOne(tb, i, cur, n, decay, d), tb.last[i] >= 0 && cur >= 0 && cur != tb.last[i];
      var f := tb.trans[j][a][b].freq + One(j == i && moved && a == tb.last[i] && b == cur);
      && |r.trans| == |r.last| == |tb.last|
      && r.last == (if moved then tb.last[i := cur] else tb.last)
      && MatrixOk(r.trans[j], n) && r.trans[j][a][b].freq == if moved && decay then d(f) else f
  {
    TransitOneReady(tb, i, cur, n, decay, d, i + 1);
  }

  lemma EntryNext(last: seq<int>, cur: seq<int>, k: nat, decay: bool, d: int -> int, i: nat, a: int, b: int, f: int)
    requires i < |last| == |cur| && k < |cur|
    ensures var moved := Elsewhere(last, cur, k);
            var g := EntryAfter(last, cur, k, decay, d, i, a, b, f)
                     + One(i == k && moved && a == last[k] && b == cur[k]);
      EntryAfter(last, cur, k + 1, decay, d, i, a, b, f) == if moved && decay then d(g) else g
  {
    if i < k {
      MoversGrow(last, cur, i, k);
    }
    if decay && Elsewhere(last, cur, k) {
      var m, before := Movers(last, cur, k), Movers(last, cur, i);
      FadesNext(d, m, f);
      if i < k {
        FadesNext(d, m - before, Fades(d, before, f) + Gain(last, cur, i, a, b));
      } else if i == k {
        FadesNext(d, 0, Fades(d, m, f) + Gain(last, cur, i, a, b));
      }
    }
  }

  lemma FadesNext(d: int -> int, m: nat, f: int)
    ensures Fades(d, m + 1, f) == d(Fades(d, m, f))
  {
  }

  lemma {:induction false} TransitLast(tb: Table, cur: seq<int>, k: nat, n: nat, decay: bool, d: int -> int, i: nat)
    requires k <= |cur| == |tb.last| && Ready(tb, n, |cur|) && CurOk(cur, n) && Decays(d) && i < |cur| && n > 0
    ensures var r := Transit(tb, cur, k, n, decay, d);
      && |r.trans| == |r.last| == |cur|
      && r.last[i] == if i < k && Elsewhere(tb.last, cur, i) then cur[i] else tb.last[i]
  {
    hide MatrixOk, TransitOne;
    if k > 0 {
      TransitLast(tb, cur, k - 1, n, decay, d, i);
      TransitOneEntry(Transit(tb, cur, k - 1, n, decay, d), k - 1, cur[k - 1], n, decay, d, i, 0, 0);
    }
  }

  /** The pass, entry by entry. */
  lemma {:induction false} TransitEntry(tb: Table, cur: seq<int>, k: nat, n: nat, decay: bool, d: int -> int,
                                        i: nat, a: nat, b: nat)
    requires k <= |cur| == |tb.last| && Ready(tb, n, |cur|) && CurOk(cur, n) && Decays(d) && i < |cur| && a < n && b < n
    ensures var r := Transit(tb, cur, k, n, decay, d);
      && |r.trans| == |cur| && MatrixOk(r.trans[i], n)
      && r.trans[i][a][b].freq == EntryAfter(tb.last, cur, k, decay, d, i, a, b, tb.trans[i][a][b].freq)
  {
    hide TransitOne, EntryAfter;
    if k == 0 {
      NoEntryYet(tb.last, cur, decay, d, i, a, b, tb.trans[i][a][b].freq);
    } else {
      TransitEntry(tb, cur, k - 1, n, decay, d, i, a, b);
      TransitLast(tb, cur, k - 1, n, decay, d, k - 1);
      TransitOneEntry(Transit(tb, cur, k - 1, n, decay, d), k - 1, cur[k - 1], n, decay, d, i, a, b);
      EntryNext(tb.last, cur, k - 1, decay, d, i, a, b, tb.trans[i][a][b].freq);
    }
  }

  lemma NoEntryYet(last: seq<int>, cur: seq<int>, decay: bool, d: int -> int, i: nat, a: int, b: int, f: int)
    requires i < |last| == |cur|
    ensures EntryAfter(last, cur, 0, decay, d, i, a, b, f) == f
  {
  }

  // ---- paths without repetitions

  /** The pages a slot has been on, without standing still. */
  function NoRepeats(pages: seq<int>): seq<int> {
    if |pages| < 2 then pages
    else
      var before := NoRepeats(pages[..|pages| - 1]);
      if pages[|pages| - 1] == pages[|pages| - 2] then before else before + [pages[|pages| - 1]]
  }

  lemma {:induction false} NoRepeatsEnds(pages: seq<int>)
    requires pages != []
    ensures NoRepeats(pages) != [] && NoRepeats(pages)[|NoRepeats(pages)| - 1] == pages[|pages| - 1]
    decreases |pages|
  {
    if |pages| >= 2 {
      NoRepeatsEnds(pages[..|pages| - 1]);
    }
  }

  // ---- prediction

  predicate Descending(row: seq<PageData>) {
    forall i, j :: 0 <= i < j < |row| ==> row[i].freq >= row[j].freq
  }

  /** What qsort promises: a rearrangement in descending order, ties in any order. */
  predicate SortedFrom(row: seq<PageData>, sorted: seq<PageData>) {
    |sorted| == |row| && multiset(sorted) == multiset(row) && Descending(sorted)
  }

  /** No page follows more often than b. */
  predicate MostFrequent(row: seq<PageData>, b: int) {
    0 <= b < |row| && forall c :: 0 <= c < |row| ==> row[c].freq <= row[b].freq
  }

  lemma FirstIsMostFrequent(row: seq<PageData>, sorted: seq<PageData>, n: nat, a: nat)
    requires RowOk(row, n, a) && n >= 1 && SortedFrom(row, sorted)
    ensures |sorted| == n && MostFrequent(row, sorted[0].page) && row[sorted[0].page] == sorted[0]
  {
    assert sorted[0] in multiset(sorted);
    assert sorted[0] in row;
    forall c | 0 <= c < n ensures row[c].freq <= sorted[0].freq {
      assert row[c] in multiset(row);
      assert row[c] in sorted;
    }
  }

  /** The predicted next page is a most frequent successor, and never the current page: so
      the pager's third case, a prediction equal to the current page, cannot arise. */
  lemma PredictionIsAnother(row: seq<PageData>, sorted: seq<PageData>, n: nat, cur: nat)
    requires RowOk(row, n, cur) && cur < n && SortedFrom(row, sorted)
    ensures |sorted| == n && MostFrequent(row, sorted[0].page)
    ensures sorted[0].freq != 0 ==> sorted[0].page != cur
    ensures sorted[0].freq == 0 <==> forall b :: 0 <= b < n ==> row[b].freq == 0
  {
    FirstIsMostFrequent(row, sorted, n, cur);
  }

  lemma NothingToSort()
    ensures Descending([])
  {
  }

  /** A sorted copy: each entry is moved up past the less frequent ones before it. */
  method Sort(row: seq<PageData>) returns (sorted: seq<PageData>)
    ensures SortedFrom(row, sorted)
  {
    hide Descending;
    sorted := [];
    assert row[..0] == [] && Descending(sorted) by {
      NothingToSort();
    }
    for i := 0 to |row|
      invariant SortedFrom(row[..i], sorted)
    {
      var k := |sorted|;
      while k > 0 && sorted[k - 1].freq < row[i].freq
        invariant 0 <= k <= |sorted|
        invariant forall j :: k <= j < |sorted| ==> sorted[j].freq < row[i].freq
      {
        k := k - 1;
      }
      InsertSorted(row[..i], sorted, row[i], k);
      sorted := sorted[..k] + [row[i]] + sorted[k..];
      assert row[..i + 1] == row[..i] + [row[i]];
    }
    assert row[..|row|] == row;
  }

  lemma InsertSorted(row: seq<PageData>, sorted: seq<PageData>, x: PageData, k: nat)
    requires SortedFrom(row, sorted) && k <= |sorted|
    requires forall j :: k <= j < |sorted| ==> sorted[j].freq < x.freq
    requires k > 0 ==> sorted[k - 1].freq >= x.freq
    ensures SortedFrom(row + [x], sorted[..k] + [x] + sorted[k..])
  {
    hide Descending;
    InsertKeepsOrder(sorted, x, k);
    assert multiset(sorted[..k] + [x] + sorted[k..]) == multiset(row + [x]) by {
      assert sorted == sorted[..k] + sorted[k..];
    }
  }

  lemma InsertKeepsOrder(sorted: seq<PageData>, x: PageData, k: nat)
    requires Descending(sorted) && k <= |sorted|
    requires forall j :: k <= j < |sorted| ==> sorted[j].freq < x.freq
    requires k > 0 ==> sorted[k - 1].freq >= x.freq
    ensures Descending(sorted[..k] + [x] + sorted[k..])
  {
    var r := sorted[..k] + [x] + sorted[k..];
    forall i, j | 0 <= i < j < |r| ensures r[i].freq >= r[j].freq {
      assert r[i] == if i < k then sorted[i] else if i == k then x else sorted[i - 1];
      assert r[j] == if j < k then sorted[j] else if j == k then x else sorted[j - 1];
    }
  }
}
