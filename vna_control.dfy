/**
 * The parts of RSVNAControl that do not talk to the instrument: the
 * S-parameter to trace-number formula of _index2traceid, the trace lists
 * that setup builds for its three display windows, the resource string that
 * connect opens, and the connected / not-connected state that the
 * _check_connected decorator guards.
 *
 * Every command written to the instrument is an output of the model, not an
 * effect: setup returns the trace definitions, the layout and the windows
 * it would send. The resource manager is reduced to "the string that was
 * opened".
 */
module VnaControl {
  import opened Wrappers

  /** The Python exceptions raised by the modelled operations. */
  datatype VnaError = IndexError | RuntimeError | ValueError | TypeError

  /** The RuntimeWarnings of connect and disconnect. */
  datatype Warning = AlreadyConnected | NotConnected

  /** How an operation on the controller ended. */
  datatype Status = Ok | Warned(warning: Warning) | Raised(error: VnaError)

  // ---------------------------------------------------------------------
  // Trace numbers

  /** The S-parameter S(i)(j): signal received at port j, sent from port i. */
  datatype SParam = S(i: int, j: int)

  /** A pair that _index2traceid accepts for `total` ports. */
  predicate ValidPair(p: SParam, total: int)
  {
    1 <= p.i <= p.j <= total
  }

  /** The integer formula of _index2traceid (floor division by 2). */
  function TraceNumber(ik: int, ij: int, total: int): int
  {
    ((ik - 1) * (2 * total - ik + 2)) / 2 + ij
  }

  /** _index2traceid: the range check first, then the order check. */
  function TraceId(ik: int, ij: int, total: int): (r: Result<int, VnaError>)
    ensures r == Failure(IndexError) <==> !(1 <= ik <= total && 1 <= ij <= total)
    ensures r == Failure(RuntimeError) <==> 1 <= ik <= total && 1 <= ij <= total && ij < ik
    ensures r.Success? <==> ValidPair(S(ik, ij), total)
    ensures r.Success? ==> r.value == RowOffset(ik, total) + ij
  {
    if ik < 1 || ij < 1 || ik > total || ij > total then Failure(IndexError)
    else if ij < ik then Failure(RuntimeError)
    else
      OffsetClosedForm(ik, total);
      Success(TraceNumber(ik, ij, total))
  }

  /**
   * The number of trace ids used by the rows before row ik: row r holds the
   * pairs (r, r) .. (r, total) but advances the base by total - r + 2.
   */
  function RowOffset(ik: int, total: int): int
    decreases ik
  {
    if ik <= 1 then 0 else RowOffset(ik - 1, total) + (total - ik + 2)
  }

  lemma {:induction false} OffsetClosedForm(ik: int, total: int)
    requires ik >= 1
    ensures TraceNumber(ik, 0, total) == RowOffset(ik, total)
    ensures (ik - 1) * (2 * total - ik + 2) == 2 * RowOffset(ik, total)
  {
    if ik > 1 {
      OffsetClosedForm(ik - 1, total);
      calc {
        (ik - 1) * (2 * total - ik + 2);
        (ik - 2) * (2 * total - ik + 3) + 2 * (total - ik + 2);
      }
    }
  }

  /** The first row is numbered by its second index: id(1, j) == j. */
  lemma FirstRowIsIdentity(ij: int, total: int)
    requires 1 <= ij <= total
    ensures TraceId(1, ij, total) == Success(ij)
  {
  }

  /** RowOffset grows by at least total - a + 1 from any row a to a later one. */
  lemma {:induction false} OffsetGrowth(a: int, c: int, total: int)
    requires 1 <= a < c <= total + 1
    ensures RowOffset(c, total) >= RowOffset(a, total) + total - a + 1
  {
    if c > a + 1 {
      OffsetGrowth(a, c - 1, total);
    }
  }

  /** Row-major order of valid pairs. */
  predicate LexLess(p: SParam, q: SParam)
  {
    p.i < q.i || (p.i == q.i && p.j < q.j)
  }

  /** Over valid pairs the trace number strictly increases in row-major order. */
  lemma TraceNumberMonotone(p: SParam, q: SParam, total: int)
    requires ValidPair(p, total) && ValidPair(q, total) && LexLess(p, q)
    ensures TraceId(p.i, p.j, total).value < TraceId(q.i, q.j, total).value
  {
    if p.i < q.i {
      OffsetGrowth(p.i, q.i, total);
    }
  }

  /** Distinct S-parameters get distinct trace numbers. */
  lemma TraceNumberInjective(p: SParam, q: SParam, total: int)
    requires ValidPair(p, total) && ValidPair(q, total) && p != q
    ensures TraceId(p.i, p.j, total).value != TraceId(q.i, q.j, total).value
  {
    if LexLess(p, q) {
      TraceNumberMonotone(p, q, total);
    } else {
      TraceNumberMonotone(q, p, total);
    }
  }

  /**
   * The numbering is not contiguous: the diagonal entry that opens a row
   * sits two past the last entry of the previous row.
   */
  lemma RowGap(k: int, total: int)
    requires 1 <= k < total
    ensures TraceId(k + 1, k + 1, total).value == TraceId(k, total, total).value + 2
  {
  }

  /** With two ports S11, S12 are traces 1, 2 and S22 is trace 4: no pair uses trace 3. */
  lemma TwoPortNumbers()
    ensures TraceId(2, 2, 2) == Success(4)
  {
    assert TraceNumber(2, 2, 2) == 4;
  }

  /** S21 is rejected as out of order, S03 as out of range (range is checked first). */
  lemma TwoPortErrors()
    ensures TraceId(2, 1, 2) == Failure(RuntimeError)
    ensures TraceId(0, 3, 2) == Failure(IndexError)
    ensures TraceId(3, 1, 2) == Failure(IndexError)
  {
  }

  // ---------------------------------------------------------------------
  // Pair lists

  function Count(n: int): nat
  {
    if n < 0 then 0 else n
  }

  predicate NoDup<T(==)>(s: seq<T>)
  {
    forall a, b :: 0 <= a < b < |s| ==> s[a] != s[b]
  }

  predicate StrictlyLex(s: seq<SParam>)
  {
    forall a, b :: 0 <= a < b < |s| ==> LexLess(s[a], s[b])
  }

  lemma StrictlyLexNoDup(s: seq<SParam>)
    requires StrictlyLex(s)
    ensures NoDup(s)
  {
    forall a, b | 0 <= a < b < |s| ensures s[a] != s[b] {
      assert LexLess(s[a], s[b]);
    }
  }

  lemma StrictlyLexConcat(x: seq<SParam>, y: seq<SParam>)
    requires StrictlyLex(x) && StrictlyLex(y)
    requires forall p: SParam, q: SParam :: p in x && q in y ==> LexLess(p, q)
    ensures StrictlyLex(x + y)
  {
    forall a, b | 0 <= a < b < |x + y| ensures LexLess((x + y)[a], (x + y)[b]) {
      if b < |x| {
        assert (x + y)[a] == x[a] && (x + y)[b] == x[b];
      } else if a >= |x| {
        assert (x + y)[a] == y[a - |x|] && (x + y)[b] == y[b - |x|];
      } else {
        assert (x + y)[a] in x && (x + y)[b] in y;
      }
    }
  }

  lemma NoDupConcat<T>(x: seq<T>, y: seq<T>)
    requires NoDup(x) && NoDup(y)
    requires forall p :: p in x ==> p !in y
    ensures NoDup(x + y)
  {
    forall a, b | 0 <= a < b < |x + y| ensures (x + y)[a] != (x + y)[b] {
      if b < |x| {
        assert (x + y)[a] == x[a] && (x + y)[b] == x[b];
      } else if a >= |x| {
        assert (x + y)[a] == y[a - |x|] && (x + y)[b] == y[b - |x|];
      } else {
        assert (x + y)[a] in x && (x + y)[b] in y;
      }
    }
  }

  /** The trace definitions of setup: every pair ik <= ij, row by row. */
  function AllPairs(n: int): seq<SParam>
  {
    PairsFrom(n, 1)
  }

  function PairsRow(n: int, ik: int): seq<SParam>
  {
    seq(Count(n - ik + 1), m => S(ik, ik + m))
  }

  function PairsFrom(n: int, ik: int): seq<SParam>
    decreases n - ik
  {
    if ik > n then [] else PairsRow(n, ik) + PairsFrom(n, ik + 1)
  }

  lemma {:induction false} PairsFromShape(n: int, ik: int)
    requires ik >= 1
    ensures forall p: SParam :: p in PairsFrom(n, ik) <==> ik <= p.i && ValidPair(p, n)
    ensures StrictlyLex(PairsFrom(n, ik))
    decreases n - ik
  {
    if ik <= n {
      PairsFromShape(n, ik + 1);
      var row := PairsRow(n, ik);
      forall p: SParam | ik <= p.i && ValidPair(p, n) ensures p in PairsFrom(n, ik) {
        if p.i == ik {
          assert p == row[p.j - ik];
        }
      }
      StrictlyLexConcat(row, PairsFrom(n, ik + 1));
    }
  }

  /** Every valid pair is defined once, and the definitions are in increasing id order. */
  lemma AllPairsExactlyOnce(n: int)
    ensures forall p: SParam :: p in AllPairs(n) <==> ValidPair(p, n)
    ensures NoDup(AllPairs(n))
    ensures forall a, b :: 0 <= a < b < |AllPairs(n)| ==>
      TraceId(AllPairs(n)[a].i, AllPairs(n)[a].j, n).value
        < TraceId(AllPairs(n)[b].i, AllPairs(n)[b].j, n).value
  {
    PairsFromShape(n, 1);
    StrictlyLexNoDup(AllPairs(n));
    var s := AllPairs(n);
    forall a, b | 0 <= a < b < |s|
      ensures TraceId(s[a].i, s[a].j, n).value < TraceId(s[b].i, s[b].j, n).value
    {
      assert s[a] in s && s[b] in s;
      TraceNumberMonotone(s[a], s[b], n);
    }
  }

  /** The "Reflection" window: the n diagonal entries S11 .. Snn. */
  function ReflectionPairs(n: int): seq<SParam>
  {
    seq(Count(n), k => S(k + 1, k + 1))
  }

  /** The "Neighbour" window: S(k)(k+1) for k < n, closed by S1n. */
  function NeighbourPairs(n: int): seq<SParam>
  {
    seq(Count(n), k => if k + 1 < n then S(k + 1, k + 2) else S(1, n))
  }

  /** Row ik of the "Transmission" window: S(ik)(ik+2) up to S(ik)(n), stopping before S1n. */
  function TransmissionRow(n: int, ik: int): seq<SParam>
  {
    var stop := if ik == 1 then n else n + 1;
    seq(Count(stop - (ik + 2)), m => S(ik, ik + 2 + m))
  }

  function TransmissionFrom(n: int, ik: int): seq<SParam>
    decreases n - ik
  {
    if ik >= n - 1 then [] else TransmissionRow(n, ik) + TransmissionFrom(n, ik + 1)
  }

  /** The "Transmission" window: every pair two or more apart, except S1n. */
  function TransmissionPairs(n: int): seq<SParam>
  {
    TransmissionFrom(n, 1)
  }

  lemma {:induction false} TransmissionFromShape(n: int, ik: int)
    requires ik >= 1
    ensures forall p: SParam :: p in TransmissionFrom(n, ik) <==>
      (ik <= p.i && p.i + 2 <= p.j <= n && p != S(1, n))
    ensures StrictlyLex(TransmissionFrom(n, ik))
    decreases n - ik
  {
    if ik < n - 1 {
      TransmissionFromShape(n, ik + 1);
      var row := TransmissionRow(n, ik);
      forall p: SParam | ik <= p.i && p.i + 2 <= p.j <= n && p != S(1, n)
        ensures p in TransmissionFrom(n, ik)
      {
        if p.i == ik {
          assert p == row[p.j - ik - 2];
        }
      }
      StrictlyLexConcat(row, TransmissionFrom(n, ik + 1));
    }
  }

  lemma NeighbourShape(n: int)
    requires n >= 3
    ensures forall p: SParam :: p in NeighbourPairs(n) <==>
      ((1 <= p.i < n && p.j == p.i + 1) || p == S(1, n))
    ensures NoDup(NeighbourPairs(n))
  {
    var s := NeighbourPairs(n);
    forall p: SParam | (1 <= p.i < n && p.j == p.i + 1) || p == S(1, n) ensures p in s {
      if p == S(1, n) {
        assert p == s[n - 1];
      } else {
        assert p == s[p.i - 1];
      }
    }
  }

  /** For n >= 3 the three windows show every S-parameter exactly once. */
  lemma WindowsCoverOnce(n: int)
    requires n >= 3
    ensures forall p: SParam ::
      (p in ReflectionPairs(n) + NeighbourPairs(n) + TransmissionPairs(n)) <==> ValidPair(p, n)
    ensures NoDup(ReflectionPairs(n) + NeighbourPairs(n) + TransmissionPairs(n))
  {
    var r, nb, t := ReflectionPairs(n), NeighbourPairs(n), TransmissionPairs(n);
    NeighbourShape(n);
    TransmissionFromShape(n, 1);
    StrictlyLexNoDup(t);
    forall p: SParam | ValidPair(p, n) ensures p in r + nb + t {
      if p.j == p.i {
        assert p == r[p.i - 1];
      } else if p.j == p.i + 1 || p == S(1, n) {
        assert p in nb;
      } else {
        assert p in t;
      }
    }
    NoDupConcat(r, nb);
    NoDupConcat(r + nb, t);
  }

  /** For two ports the neighbour window lists S12 twice. */
  lemma NeighbourDuplicateForTwo()
    ensures NeighbourPairs(2) == [S(1, 2), S(1, 2)]
    ensures !NoDup(NeighbourPairs(2))
  {
    assert NeighbourPairs(2)[0] == NeighbourPairs(2)[1];
  }

  /** The trace numbers of a list of pairs. */
  function IdsOf(ps: seq<SParam>, n: int): (ids: seq<int>)
    ensures |ids| == |ps|
  {
    seq(|ps|, k requires 0 <= k < |ps| => RowOffset(ps[k].i, n) + ps[k].j)
  }

  /** Distinct valid pairs give distinct trace numbers. */
  lemma IdsOfNoDup(ps: seq<SParam>, n: int)
    requires forall p: SParam :: p in ps ==> ValidPair(p, n)
    requires NoDup(ps)
    ensures NoDup(IdsOf(ps, n))
  {
    var ids := IdsOf(ps, n);
    forall a, b | 0 <= a < b < |ps| ensures ids[a] != ids[b] {
      assert ps[a] in ps && ps[b] in ps;
      TraceNumberInjective(ps[a], ps[b], n);
    }
  }

  /** For n >= 3 the windows show every defined trace number exactly once. */
  lemma WindowIdsCoverOnce(n: int)
    requires n >= 3
    ensures NoDup(IdsOf(ReflectionPairs(n) + NeighbourPairs(n) + TransmissionPairs(n), n))
    ensures forall p: SParam :: ValidPair(p, n) ==>
      TraceId(p.i, p.j, n).value in IdsOf(ReflectionPairs(n) + NeighbourPairs(n) + TransmissionPairs(n), n)
  {
    var all := ReflectionPairs(n) + NeighbourPairs(n) + TransmissionPairs(n);
    WindowsCoverOnce(n);
    IdsOfNoDup(all, n);
    forall p: SParam | ValidPair(p, n)
      ensures TraceId(p.i, p.j, n).value in IdsOf(all, n)
    {
      var k :| 0 <= k < |all| && all[k] == p;
      assert IdsOf(all, n)[k] == TraceId(p.i, p.j, n).value;
    }
  }

  /** IdsOf over a list that grows by one pair. */
  lemma IdsOfSnoc(ps: seq<SParam>, p: SParam, n: int)
    ensures IdsOf(ps + [p], n) == IdsOf(ps, n) + [RowOffset(p.i, n) + p.j]
  {
    assert forall k :: 0 <= k < |ps| ==> (ps + [p])[k] == ps[k];
  }

  // ---------------------------------------------------------------------
  // The lists that setup builds

  /** The trace definitions loop of setup: ports ik <= ij, row by row. */
  method DefineTraces(n: int) returns (defs: seq<SParam>, ids: seq<int>)
    ensures defs == AllPairs(n)
    ensures ids == IdsOf(defs, n)
  {
    defs, ids := [], [];
    var ik := 1;
    while ik <= n
      invariant 1 <= ik
      invariant defs + PairsFrom(n, ik) == AllPairs(n)
      invariant ids == IdsOf(defs, n)
      decreases n - ik
    {
      ghost var before := defs;
      var ij := ik;
      while ij <= n
        invariant ik <= ij <= n + 1
        invariant defs == before + PairsRow(n, ik)[..ij - ik]
        invariant ids == IdsOf(defs, n)
        decreases n - ij
      {
        var r := TraceId(ik, ij, n);
        IdsOfSnoc(defs, S(ik, ij), n);
        assert PairsRow(n, ik)[..ij - ik + 1] == PairsRow(n, ik)[..ij - ik] + [S(ik, ij)];
        defs, ids := defs + [S(ik, ij)], ids + [r.value];
        ij := ij + 1;
      }
      assert PairsRow(n, ik)[..ij - ik] == PairsRow(n, ik);
      ik := ik + 1;
    }
  }

  /** The list of the "Reflection" window. */
  method ReflectionList(n: int) returns (ids: seq<int>)
    ensures ids == IdsOf(ReflectionPairs(n), n)
  {
    ids := [];
    var ik := 1;
    while ik <= n
      invariant 1 <= ik <= Count(n) + 1
      invariant |ids| == ik - 1
      invariant forall k :: 0 <= k < |ids| ==> ids[k] == IdsOf(ReflectionPairs(n), n)[k]
      decreases n - ik
    {
      var r := TraceId(ik, ik, n);
      ids := ids + [r.value];
      ik := ik + 1;
    }
  }

  /** The list of the "Neighbour" window. */
  method NeighbourList(n: int) returns (ids: seq<int>)
    ensures ids == IdsOf(NeighbourPairs(n), n)
  {
    ids := [];
    var ik := 1;
    while ik <= n
      invariant 1 <= ik <= Count(n) + 1
      invariant |ids| == ik - 1
      invariant forall k :: 0 <= k < |ids| ==> ids[k] == IdsOf(NeighbourPairs(n), n)[k]
      decreases n - ik
    {
      var r;
      if ik < n {
        r := TraceId(ik, ik + 1, n);
      } else {
        r := TraceId(1, ik, n);
      }
      ids := ids + [r.value];
      ik := ik + 1;
    }
  }

  lemma IdsOfConcat(x: seq<SParam>, y: seq<SParam>, n: int)
    ensures IdsOf(x + y, n) == IdsOf(x, n) + IdsOf(y, n)
  {
    assert forall k :: 0 <= k < |x| ==> (x + y)[k] == x[k];
    assert forall k :: |x| <= k < |x + y| ==> (x + y)[k] == y[k - |x|];
  }

  /** The inner loop of the "Transmission" window: row ik. */
  method TransmissionRowList(n: int, ik: int) returns (ids: seq<int>)
    requires 1 <= ik < n - 1
    ensures ids == IdsOf(TransmissionRow(n, ik), n)
  {
    ids := [];
    var ijEnd := if ik == 1 then n else n + 1;
    var ij := ik + 2;
    while ij < ijEnd
      invariant ik + 2 <= ij <= ijEnd
      invariant |ids| == ij - (ik + 2)
      invariant forall k :: 0 <= k < |ids| ==> ids[k] == IdsOf(TransmissionRow(n, ik), n)[k]
      decreases ijEnd - ij
    {
      var r := TraceId(ik, ij, n);
      ids := ids + [r.value];
      ij := ij + 1;
    }
  }

  /** The nested loop that fills the "Transmission" window. */
  method TransmissionList(n: int) returns (ids: seq<int>)
    ensures ids == IdsOf(TransmissionPairs(n), n)
  {
    ids := [];
    var ik := 1;
    while ik < n - 1
      invariant 1 <= ik
      invariant ids + IdsOf(TransmissionFrom(n, ik), n) == IdsOf(TransmissionPairs(n), n)
      decreases n - ik
    {
      var row := TransmissionRowList(n, ik);
      IdsOfConcat(TransmissionRow(n, ik), TransmissionFrom(n, ik + 1), n);
      ids := ids + row;
      ik := ik + 1;
    }
  }

  /** A display window with its traces, its dB scale and its title. */
  datatype Window = Window(number: int, traces: seq<int>, bottom: real, top: real, title: string)

  /** The windows that setup fills: the second only for n > 1, the third only for n > 2. */
  function SetupWindows(n: int): seq<Window>
  {
    [Window(1, IdsOf(ReflectionPairs(n), n), -60.0, 10.0, "Reflection")]
    + (if n > 1 then [Window(2, IdsOf(NeighbourPairs(n), n), -120.0, 0.0, "Neighbour")] else [])
    + (if n > 2 then [Window(3, IdsOf(TransmissionPairs(n), n), -120.0, 0.0, "Transmission")] else [])
  }

  /** The layout grid: rows separated by ';', each a height followed by its panel widths. */
  function LayoutGrid(n: int): string
  {
    if n == 1 then "1.00,1.00"
    else if n < 4 then "1.00,0.50,0.50"
    else "0.50,0.50,0.50;0.50,1.00"
  }

  function LayoutCommand(n: int): string
  {
    ":DISPlay:LAYout:DEFine 1, Horizontal, '" + LayoutGrid(n) + "'"
  }

  /** Every width in a grid row is preceded by one ',', so the commas count the panels. */
  function Panels(grid: string): nat
  {
    multiset(grid)[',']
  }

  /**
   * The layout has one panel per window, except for three ports: the
   * layout then has two panels while setup fills three windows.
   */
  lemma LayoutVersusWindows(n: int)
    ensures n >= 1 && n != 3 ==> Panels(LayoutGrid(n)) == |SetupWindows(n)|
    ensures n == 3 ==> Panels(LayoutGrid(n)) == 2 && |SetupWindows(n)| == 3
  {
    WindowCount(n);
    GridPanels(n);
  }

  lemma WindowCount(n: int)
    ensures |SetupWindows(n)| == if n > 2 then 3 else if n > 1 then 2 else 1
  {
  }

  lemma GridPanels(n: int)
    ensures Panels(LayoutGrid(n)) == if n == 1 then 1 else if n < 4 then 2 else 3
  {
    if n == 1 {
      SinglePanel();
    } else if n < 4 {
      TwoPanels();
    } else {
      ThreePanels();
    }
  }

  lemma SinglePanel()
    ensures multiset("1.00,1.00")[','] == 1
  {
  }

  lemma TwoPanels()
    ensures multiset("1.00,0.50,0.50")[','] == 2
  {
  }

  lemma ThreePanels()
    ensures multiset("0.50,0.50,0.50;0.50,1.00")[','] == 3
  {
  }

  /** For n >= 3 the setup windows show every trace exactly once. */
  lemma SetupWindowsCoverOnce(n: int)
    requires n >= 3
    ensures |SetupWindows(n)| == 3
    ensures NoDup(SetupWindows(n)[0].traces + SetupWindows(n)[1].traces + SetupWindows(n)[2].traces)
    ensures forall p: SParam :: ValidPair(p, n) ==>
      (TraceId(p.i, p.j, n).value in
         SetupWindows(n)[0].traces + SetupWindows(n)[1].traces + SetupWindows(n)[2].traces)
  {
    var r, nb, t := ReflectionPairs(n), NeighbourPairs(n), TransmissionPairs(n);
    var w := SetupWindows(n);
    assert w == [Window(1, IdsOf(r, n), -60.0, 10.0, "Reflection"),
                 Window(2, IdsOf(nb, n), -120.0, 0.0, "Neighbour"),
                 Window(3, IdsOf(t, n), -120.0, 0.0, "Transmission")];
    WindowIdsCoverOnce(n);
    IdsOfConcat(r, nb, n);
    IdsOfConcat(r + nb, t, n);
  }

  // ---------------------------------------------------------------------
  // Connection

  /** ASCII lower-casing of str.lower (other characters are kept). */
  function LowerChar(c: char): (d: char)
    ensures !('A' <= d <= 'Z')
    ensures 'a' <= c <= 'z' ==> d == c
  {
    if 'A' <= c <= 'Z' then (c as int + 32) as char else c
  }

  function Lower(s: string): (r: string)
    ensures |r| == |s|
    ensures forall k :: 0 <= k < |s| ==> r[k] == LowerChar(s[k])
  {
    seq(|s|, k requires 0 <= k < |s| => LowerChar(s[k]))
  }

  /** Lower-casing twice is lower-casing once, so any spelling of "usb" selects USB. */
  lemma LowerIdempotent(s: string)
    ensures Lower(Lower(s)) == Lower(s)
  {
  }

  lemma LinkSpellings()
    ensures Lower("USB") == "usb" && Lower("Lan") == "lan" && Lower("HiSLIP") == "hislip"
  {
  }

  const UsbResource: string := "USB0::0x0AAD::0x01BE::102631"
  const DefaultIpAddress: string := "192.168.1.58"

  /** The VISA resource opened by connect for a lower-cased link name. */
  function ResourceString(lnk: string, ip: string): (r: Result<string, VnaError>)
    ensures r.Success? <==> lnk == "usb" || lnk == "lan" || lnk == "hislip"
    ensures r.Failure? ==> r.error == ValueError
    ensures r.Success? ==> |r.value| >= 7 && r.value[|r.value| - 7..] == "::INSTR"
  {
    var rsrc :=
      if lnk == "usb" then Success(UsbResource)
      else if lnk == "lan" then Success("TCPIP0::" + ip + "::inst0")
      else if lnk == "hislip" then Success("TCPIP0::" + ip + "::hislip0")
      else Failure(ValueError);
    if rsrc.Failure? then Failure(ValueError) else Success(rsrc.value + "::INSTR")
  }

  /** The address can be read back from a network resource, and USB ignores it. */
  lemma ResourceCarriesAddress(ip: string)
    ensures ResourceString("lan", ip).value[8..8 + |ip|] == ip
    ensures ResourceString("hislip", ip).value[8..8 + |ip|] == ip
    ensures ResourceString("lan", ip).value[..8] == "TCPIP0::"
    ensures ResourceString("usb", ip) == ResourceString("usb", DefaultIpAddress)
    ensures ResourceString("lan", ip) != ResourceString("hislip", ip)
  {
    var lan := ResourceString("lan", ip).value;
    var his := ResourceString("hislip", ip).value;
    assert lan == "TCPIP0::" + ip + "::inst0::INSTR";
    assert his == "TCPIP0::" + ip + "::hislip0::INSTR";
    assert lan[8 + |ip| + 2] == 'i' && his[8 + |ip| + 2] == 'h';
  }

  /** A value given to the ip_address setter. */
  datatype PyValue = Str(text: string) | NotStr

  /** The argument of setup_user_interface: a dict's keys (button labels), or anything else. */
  datatype Buttons = Dict(labels: seq<string>) | NotADict

  /** The VNA supports at most eight user buttons. */
  const MaxButtons: nat := 8

  /**
   * The controller's state: the address to connect to, the opened resource
   * (None when disconnected), whether the service-request handler is
   * installed (_event_data), the channel count of the last setup, the
   * calibration flag, whether the backend is pyvisa-py (which has no event
   * support), and the user-key labels shown on the VNA screen.
   */
  class RSVNAControl {
    var ipAddress: string
    var vna: Option<string>
    var eventInstalled: bool
    var numChannels: Option<int>
    var calibrated: bool
    const libPy: bool
    var userKeys: seq<string>

    /** A handler is only ever installed on an open connection of an event-capable backend. */
    ghost predicate Valid()
      reads this
    {
      eventInstalled ==> vna.Some? && !libPy
    }

    constructor (pyBackend: bool)
      ensures Valid()
      ensures ipAddress == DefaultIpAddress && vna == None && !eventInstalled
      ensures numChannels == None && !calibrated && libPy == pyBackend && userKeys == []
    {
      ipAddress := DefaultIpAddress;
      vna := None;
      eventInstalled := false;
      numChannels := None;
      calibrated := false;
      libPy := pyBackend;
      userKeys := [];
    }

    /** _check_connected: a guarded call raises RuntimeError without a connection. */
    function CheckConnected(): (r: Result<(), VnaError>)
      reads this
      ensures r.Success? <==> vna.Some?
      ensures r.Failure? ==> r.error == RuntimeError
    {
      if vna.None? then Failure(RuntimeError) else Success(())
    }

    /** The ip_address setter. */
    method SetIpAddress(v: PyValue) returns (s: Status)
      modifies this`ipAddress
      ensures v.NotStr? ==> s == Raised(TypeError) && ipAddress == old(ipAddress)
      ensures v.Str? ==> s == Ok && ipAddress == v.text
    {
      if v.NotStr? {
        return Raised(TypeError);
      }
      ipAddress := v.text;
      s := Ok;
    }

    /** connect: a no-op with a warning when connected, otherwise opens the resource for the link. */
    method Connect(link: string) returns (s: Status)
      requires Valid()
      modifies this`vna
      ensures Valid()
      ensures old(vna).Some? ==> s == Warned(AlreadyConnected) && vna == old(vna)
      ensures old(vna).None? && ResourceString(Lower(link), ipAddress).Success? ==>
        s == Ok && vna == Some(ResourceString(Lower(link), ipAddress).value)
      ensures old(vna).None? && ResourceString(Lower(link), ipAddress).Failure? ==>
        s == Raised(ValueError) && vna == None
    {
      if vna.Some? {
        return Warned(AlreadyConnected);
      }
      var rsrc := ResourceString(Lower(link), ipAddress);
      if rsrc.Failure? {
        return Raised(rsrc.error);
      }
      vna := Some(rsrc.value);
      s := Ok;
    }

    /** disconnect: a no-op with a warning when not connected; otherwise detaches the handler and closes. */
    method Disconnect() returns (s: Status)
      requires Valid()
      modifies this`vna, this`eventInstalled
      ensures Valid()
      ensures old(vna).None? ==> s == Warned(NotConnected) && vna == None && eventInstalled == old(eventInstalled)
      ensures old(vna).Some? ==> s == Ok && vna == None && !eventInstalled
    {
      if vna.None? {
        return Warned(NotConnected);
      }
      eventInstalled := false;
      vna := None;
      s := Ok;
    }

    /** setup: defines every trace, sets the layout and fills the windows, then records n. */
    method Setup(n: int) returns (s: Status, defs: seq<SParam>, defIds: seq<int>, layout: string, windows: seq<Window>)
      modifies this`numChannels
      ensures old(vna).None? ==> s == Raised(RuntimeError) && numChannels == old(numChannels)
      ensures old(vna).None? ==> defs == [] && defIds == [] && layout == "" && windows == []
      ensures old(vna).Some? ==> s == Ok && numChannels == Some(n)
      ensures old(vna).Some? ==> defs == AllPairs(n) && defIds == IdsOf(defs, n)
      ensures old(vna).Some? ==> layout == LayoutCommand(n) && windows == SetupWindows(n)
    {
      defs, defIds, layout, windows := [], [], "", [];
      var guard := CheckConnected();
      if guard.Failure? {
        return Raised(guard.error), defs, defIds, layout, windows;
      }
      defs, defIds := DefineTraces(n);
      layout := LayoutCommand(n);
      var reflection := ReflectionList(n);
      windows := [Window(1, reflection, -60.0, 10.0, "Reflection")];
      if n > 1 {
        var neighbour := NeighbourList(n);
        windows := windows + [Window(2, neighbour, -120.0, 0.0, "Neighbour")];
      }
      if n > 2 {
        var transmission := TransmissionList(n);
        windows := windows + [Window(3, transmission, -120.0, 0.0, "Transmission")];
      }
      numChannels := Some(n);
      s := Ok;
    }

    /**
     * setup_user_interface: a non-dict disconnects and raises ValueError;
     * the keys are reset; no buttons stops there; more than eight
     * disconnects and raises ValueError; otherwise the labels are shown and,
     * unless the backend is pyvisa-py, the service-request handler is
     * installed.
     */
    method SetupUserInterface(buttons: Buttons) returns (s: Status)
      requires Valid()
      modifies this`vna, this`eventInstalled, this`userKeys
      ensures Valid()
      ensures old(vna).None? ==>
        s == Raised(RuntimeError) && vna == None
        && eventInstalled == old(eventInstalled) && userKeys == old(userKeys)
      ensures old(vna).Some? && buttons.NotADict? ==>
        s == Raised(ValueError) && vna == None && !eventInstalled && userKeys == old(userKeys)
      ensures old(vna).Some? && buttons.Dict? && |buttons.labels| == 0 ==>
        s == Ok && vna == old(vna) && eventInstalled == old(eventInstalled) && userKeys == []
      ensures old(vna).Some? && buttons.Dict? && |buttons.labels| > MaxButtons ==>
        s == Raised(ValueError) && vna == None && !eventInstalled && userKeys == []
      ensures old(vna).Some? && buttons.Dict? && 0 < |buttons.labels| <= MaxButtons ==>
        s == Ok && vna == old(vna) && userKeys == buttons.labels
        && eventInstalled == (old(eventInstalled) || !libPy)
    {
      var guard := CheckConnected();
      if guard.Failure? {
        return Raised(guard.error);
      }
      if buttons.NotADict? {
        var _ := Disconnect();
        return Raised(ValueError);
      }
      var nb := |buttons.labels|;
      userKeys := [];
      if nb == 0 {
        return Ok;
      }
      if nb > MaxButtons {
        var _ := Disconnect();
        return Raised(ValueError);
      }
      userKeys := buttons.labels;
      if !libPy {
        eventInstalled := true;
      }
      s := Ok;
    }
  }
}
