/** Soft wrapping of one logical line into visual rows, from scratch and incrementally. */
module Wrapping {
  import opened Utf8

  /** Where the first grapheme cluster of a text ends, and how many cells a cluster takes. */
  datatype Segmenter = Segmenter(first: seq<Byte> -> nat, cells: seq<Byte> -> nat)

  /** The length of the first cluster. */
  function First(g: Segmenter, s: seq<Byte>): (n: nat)
    requires s != []
    ensures 1 <= n <= |s|
  {
    if 1 <= g.first(s) <= |s| then g.first(s) else |s|
  }

  /** A cluster that ended before the end of the text is not changed by more text
      (section 3.1.1 of UAX #29). */
  ghost predicate Lawful(g: Segmenter) {
    forall s, t :: s != [] && First(g, s) < |s| ==> First(g, s + t) == First(g, s)
  }

  /** The cluster that goes on while `joins` accepts the next byte after the bytes so far. */
  function ClusterFrom(joins: (seq<Byte>, Byte) -> bool, s: seq<Byte>, n: nat): (m: nat)
    requires 1 <= n <= |s|
    ensures n <= m <= |s|
    decreases |s| - n
  {
    if n < |s| && joins(s[..n], s[n]) then ClusterFrom(joins, s, n + 1) else n
  }

  lemma {:induction false} ClusterFromExtends(joins: (seq<Byte>, Byte) -> bool, s: seq<Byte>, t: seq<Byte>, n: nat)
    requires 1 <= n <= |s|
    requires ClusterFrom(joins, s, n) < |s|
    ensures ClusterFrom(joins, s + t, n) == ClusterFrom(joins, s, n)
    decreases |s| - n
  {
    assert (s + t)[..n] == s[..n];
    if n < |s| && joins(s[..n], s[n]) {
      ClusterFromExtends(joins, s, t, n + 1);
    }
  }

  /** The law asks for no more than boundaries decided by what lies before them. */
  lemma LeftContextIsLawful(joins: (seq<Byte>, Byte) -> bool, cells: seq<Byte> -> nat)
    ensures Lawful(Segmenter(s => if s == [] then 0 else ClusterFrom(joins, s, 1), cells))
  {
    var g := Segmenter(s => if s == [] then 0 else ClusterFrom(joins, s, 1), cells);
    forall s, t | s != [] && First(g, s) < |s| ensures First(g, s + t) == First(g, s) {
      ClusterFromExtends(joins, s, t, 1);
    }
  }

  /** The offsets at which rows start behind `at`, when `columns` cells of the row are taken. */
  function Wrap(g: Segmenter, text: seq<Byte>, at: nat, columns: nat, width: nat): (starts: seq<nat>)
    requires at <= |text|
    decreases |text| - at
  {
    if at == |text| then []
    else
      var n := First(g, text[at..]);
      var cells := g.cells(text[at..at + n]);
      if columns > 0 && columns + cells > width
      then [at] + Wrap(g, text, at + n, cells, width)
      else Wrap(g, text, at + n, columns + cells, width)
  }

  /** The row starts of a text that is wrapped from scratch. */
  function Rows(g: Segmenter, text: seq<Byte>, width: nat): (starts: seq<nat>)
    ensures |starts| >= 1 && starts[0] == 0
  {
    [0] + Wrap(g, text, 0, 0, width)
  }

  predicate Increasing(starts: seq<nat>) {
    forall i, j :: 0 <= i < j < |starts| ==> starts[i] < starts[j]
  }

  lemma {:induction false} WrapIncreasing(g: Segmenter, text: seq<Byte>, at: nat, columns: nat, width: nat)
    requires at <= |text|
    ensures var w := Wrap(g, text, at, columns, width);
            && Increasing(w)
            && (forall i :: 0 <= i < |w| ==> at <= w[i] < |text|)
            && (columns == 0 && w != [] ==> at < w[0])
    decreases |text| - at
  {
    if at < |text| {
      var n := First(g, text[at..]);
      var cells := g.cells(text[at..at + n]);
      WrapIncreasing(g, text, at + n, cells, width);
      WrapIncreasing(g, text, at + n, columns + cells, width);
    }
  }

  /** Rows start at the beginning, one strictly after the other, inside the text. */
  lemma RowsIncreasing(g: Segmenter, text: seq<Byte>, width: nat)
    ensures var r := Rows(g, text, width);
            Increasing(r) && forall i :: 0 < i < |r| ==> r[i] < |text|
  {
    WrapIncreasing(g, text, 0, 0, width);
  }

  // ---- What a row is ----

  /** The cells of the clusters of `text` between two offsets. */
  function Columns(g: Segmenter, text: seq<Byte>, from: nat, to: nat): nat
    requires to <= |text|
    decreases if from < to then to - from else 0
  {
    if from >= to then 0
    else
      var n := First(g, text[from..]);
      g.cells(text[from..from + n]) + Columns(g, text, from + n, to)
  }

  /** Where row `i` ends. */
  function RowEnd(text: seq<Byte>, starts: seq<nat>, i: nat): nat
    requires i < |starts|
  {
    if i + 1 < |starts| then starts[i + 1] else |text|
  }

  /** The row has room for all it holds, unless that is one wide cluster behind clusters
      that take no cells. */
  ghost predicate HasRoom(g: Segmenter, text: seq<Byte>, from: nat, to: nat, width: nat)
    requires from <= to <= |text|
  {
    || Columns(g, text, from, to) <= width
    || exists mid :: from <= mid < to && Columns(g, text, from, mid) == 0 && First(g, text[mid..]) == to - mid
  }

  /** There is something in the row, and the next cluster would not fit as well. */
  ghost predicate NoMoreRoom(g: Segmenter, text: seq<Byte>, from: nat, to: nat, width: nat)
    requires from <= to < |text|
  {
    && 0 < Columns(g, text, from, to)
    && Columns(g, text, from, to) + g.cells(text[to..to + First(g, text[to..])]) > width
  }

  ghost predicate Greedy(g: Segmenter, text: seq<Byte>, starts: seq<nat>, i: nat, width: nat)
    requires i < |starts|
  {
    && starts[i] <= RowEnd(text, starts, i) <= |text|
    && HasRoom(g, text, starts[i], RowEnd(text, starts, i), width)
    && (i + 1 < |starts| ==> starts[i + 1] < |text| && NoMoreRoom(g, text, starts[i], starts[i + 1], width))
  }

  ghost predicate AllGreedy(g: Segmenter, text: seq<Byte>, starts: seq<nat>, width: nat) {
    forall i :: 0 <= i < |starts| ==> Greedy(g, text, starts, i, width)
  }

  /** `at` is a cluster boundary of the text that starts at `from`. */
  ghost predicate Reaches(g: Segmenter, text: seq<Byte>, from: nat, at: nat)
    requires from <= at <= |text|
    decreases at - from
  {
    from == at || (from + First(g, text[from..]) <= at && Reaches(g, text, from + First(g, text[from..]), at))
  }

  lemma {:induction false} ReachesOneMore(g: Segmenter, text: seq<Byte>, from: nat, at: nat)
    requires from <= at < |text| && Reaches(g, text, from, at)
    ensures var n := First(g, text[at..]);
            && Reaches(g, text, from, at + n)
            && Columns(g, text, from, at + n) == Columns(g, text, from, at) + g.cells(text[at..at + n])
    decreases at - from
  {
    if from < at {
      ReachesOneMore(g, text, from + First(g, text[from..]), at);
    }
  }

  lemma {:induction false} WrapIsGreedy(g: Segmenter, text: seq<Byte>, from: nat, at: nat, width: nat)
    requires from <= at <= |text| && Reaches(g, text, from, at)
    requires HasRoom(g, text, from, at, width)
    ensures AllGreedy(g, text, [from] + Wrap(g, text, at, Columns(g, text, from, at), width), width)
    decreases |text| - at
  {
    var columns := Columns(g, text, from, at);
    if at < |text| {
      var n := First(g, text[at..]);
      var cells := g.cells(text[at..at + n]);
      if columns > 0 && columns + cells > width {
        ReachesOneMore(g, text, at, at);
        NewRowHasRoom(g, text, from, at, width);
        hide First, Reaches, HasRoom, NoMoreRoom, Columns, AllGreedy;
        WrapIsGreedy(g, text, at, at + n, width);
        GreedyBefore(g, text, from, [at] + Wrap(g, text, at + n, cells, width), width);
      } else {
        ReachesOneMore(g, text, from, at);
        assert HasRoom(g, text, from, at + n, width);
        hide First, Reaches, HasRoom, NoMoreRoom, Columns, AllGreedy;
        WrapIsGreedy(g, text, from, at + n, width);
      }
    } else {
      LastRowIsGreedy(g, text, from, at, width);
    }
  }

  lemma NewRowHasRoom(g: Segmenter, text: seq<Byte>, from: nat, at: nat, width: nat)
    requires from <= at < |text|
    requires var cells := g.cells(text[at..at + First(g, text[at..])]);
             Columns(g, text, from, at) > 0 && Columns(g, text, from, at) + cells > width
    ensures var n := First(g, text[at..]);
            && Reaches(g, text, at, at) && Columns(g, text, at, at) == 0 && Columns(g, text, at, at + n) == g.cells(text[at..at + n])
            && HasRoom(g, text, at, at + n, width) && NoMoreRoom(g, text, from, at, width)
  {
    ReachesOneMore(g, text, at, at);
    hide Reaches;
  }

  lemma LastRowIsGreedy(g: Segmenter, text: seq<Byte>, from: nat, at: nat, width: nat)
    requires from <= at == |text| && HasRoom(g, text, from, at, width)
    ensures AllGreedy(g, text, [from] + Wrap(g, text, at, Columns(g, text, from, at), width), width)
  {
    hide HasRoom, NoMoreRoom, Columns;
  }

  lemma GreedyBefore(g: Segmenter, text: seq<Byte>, from: nat, starts: seq<nat>, width: nat)
    requires starts != [] && from <= starts[0] < |text|
    requires HasRoom(g, text, from, starts[0], width) && NoMoreRoom(g, text, from, starts[0], width)
    requires AllGreedy(g, text, starts, width)
    ensures AllGreedy(g, text, [from] + starts, width)
  {
    var all := [from] + starts;
    forall i | 0 <= i < |all| ensures Greedy(g, text, all, i, width) {
      if i > 0 {
        assert Greedy(g, text, starts, i - 1, width);
        assert RowEnd(text, all, i) == RowEnd(text, starts, i - 1);
      }
    }
  }

  /** Every row is as long as it can be and no wider than the view, unless it is one wide
      cluster behind clusters without cells. */
  lemma RowsAreGreedy(g: Segmenter, text: seq<Byte>, width: nat)
    ensures AllGreedy(g, text, Rows(g, text, width), width)
  {
    WrapIsGreedy(g, text, 0, 0, width);
    assert Columns(g, text, 0, 0) == 0;
  }

  // ---- Wrapping again after the text has grown ----

  lemma WrapStep(g: Segmenter, text: seq<Byte>, at: nat, columns: nat, width: nat)
    requires at <= |text|
    ensures at == |text| ==> Wrap(g, text, at, columns, width) == []
    ensures at < |text| ==>
              var n := First(g, text[at..]);
              var cells := g.cells(text[at..at + n]);
              Wrap(g, text, at, columns, width) ==
              if columns > 0 && columns + cells > width then [at] + Wrap(g, text, at + n, cells, width)
              else Wrap(g, text, at + n, columns + cells, width)
  {
  }

  lemma FirstStays(g: Segmenter, text: seq<Byte>, k: nat, at: nat)
    requires Lawful(g) && at < k <= |text|
    requires at + First(g, text[..k][at..]) < k
    ensures First(g, text[at..]) == First(g, text[..k][at..])
    ensures text[at..at + First(g, text[at..])] == text[..k][at..at + First(g, text[at..])]
  {
    assert text[at..] == text[..k][at..] + text[k..];
  }

  /** Every row but the last is final as soon as it has a successor: only the last cluster
      of a text can still change. Wrapping may restart at the row before the last. */
  lemma {:induction false} WrapRestarts(g: Segmenter, text: seq<Byte>, k: nat, at: nat, columns: nat, width: nat, j: nat)
    requires Lawful(g) && at <= k <= |text|
    requires j + 1 < |Wrap(g, text[..k], at, columns, width)|
    ensures var w := Wrap(g, text[..k], at, columns, width);
            w[j] <= k && Wrap(g, text, at, columns, width) == w[..j + 1] + Wrap(g, text, w[j], 0, width)
    decreases k - at
  {
    hide *;
    var p := text[..k];
    WrapStep(g, p, at, columns, width);
    var n := First(g, p[at..]);
    var cells := g.cells(p[at..at + n]);
    WrapStep(g, p, at + n, cells, width);
    WrapStep(g, p, at + n, columns + cells, width);
    if at + n < k {
      FirstStays(g, text, k, at);
      WrapStep(g, text, at, columns, width);
      if columns > 0 && columns + cells > width {
        var rest := Wrap(g, p, at + n, cells, width);
        assert Wrap(g, p, at, columns, width) == [at] + rest;
        if j > 0 {
          WrapRestarts(g, text, k, at + n, cells, width, j - 1);
          FirstRowMore(at, rest, j, Wrap(g, text, rest[j - 1], 0, width));
        } else {
          WrapStep(g, text, at, 0, width);
          assert ([at] + rest)[..1] == [at];
        }
      } else {
        WrapRestarts(g, text, k, at + n, columns + cells, width, j);
      }
    }
  }

  lemma FirstRowMore(at: nat, rest: seq<nat>, j: nat, more: seq<nat>)
    requires 0 < j <= |rest|
    ensures [at] + (rest[..j] + more) == ([at] + rest)[..j + 1] + more && ([at] + rest)[j] == rest[j - 1]
  {
  }

  lemma RowsRestart(g: Segmenter, text: seq<Byte>, k: nat, width: nat)
    requires Lawful(g) && k <= |text|
    ensures var prior := Rows(g, text[..k], width);
            var keep := if |prior| < 2 then 0 else |prior| - 2;
            && prior[keep] <= k
            && Rows(g, text, width) == prior[..keep + 1] + Wrap(g, text, prior[keep], 0, width)
  {
    var w := Wrap(g, text[..k], 0, 0, width);
    var prior := Rows(g, text[..k], width);
    if |w| >= 2 {
      WrapRestarts(g, text, k, 0, 0, width, |w| - 2);
      assert prior[..|prior| - 1] == [0] + w[..|w| - 1];
    } else {
      assert prior[..1] == [0];
    }
  }
}
