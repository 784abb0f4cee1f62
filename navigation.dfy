/**
 * Moving between demos: the reverse lookup of the mounted demo by name
 * (getCurrentPageIndex), the selection of a row (selectedRowsChanged) and the
 * wrap-around move (moveDemoPages).
 */
module Navigation {
  import opened Wrappers
  import opened DemoRegistry

  /** A multiple of a positive n that lies strictly between -n and n is zero. */
  lemma MultipleInOpenRange(n: int, x: int)
    requires n > 0 && -n < n * x < n
    ensures x == 0
  {
  }

  /** Euclidean division is unique: any q, r with a == n * q + r and 0 <= r < n are a / n and a % n. */
  lemma DivModUnique(a: int, n: int, q: int, r: int)
    requires n > 0 && 0 <= r < n && a == n * q + r
    ensures a % n == r && a / n == q
  {
    var q0, r0 := a / n, a % n;
    assert n * (q - q0) == r0 - r;
    MultipleInOpenRange(n, q - q0);
  }

  /** C++ `%` with a positive divisor: it truncates toward zero, so the remainder has the dividend's sign. */
  function TruncatedRemainder(a: int, b: int): (r: int)
    requires b > 0
    ensures a >= 0 ==> 0 <= r < b
    ensures a < 0 ==> -b < r <= 0
    ensures (a - r) % b == 0
  {
    if a >= 0 then
      DivModUnique(a - a % b, b, a / b, 0);
      a % b
    else
      var q, m := (-a) / b, (-a) % b;
      assert a + m == b * -q;
      DivModUnique(a + m, b, -q, 0);
      -m
  }

  /** negativeAwareModulo: the truncated remainder shifted into [0, divisor). */
  function NegativeAwareModulo(dividend: int, divisor: int): (r: int)
    requires divisor > 0
    ensures 0 <= r < divisor
    ensures r == dividend % divisor
  {
    var m := TruncatedRemainder(dividend, divisor);
    var q := (dividend - m) / divisor;
    assert dividend == divisor * q + m;
    if m < 0 then
      DivModUnique(dividend, divisor, q - 1, m + divisor);
      m + divisor
    else
      DivModUnique(dividend, divisor, q, m);
      m
  }

  /** The last position whose descriptor is called name, or -1. */
  function LastIndexOfName(s: seq<Descriptor>, name: string): (i: int)
    ensures -1 <= i < |s|
    ensures 0 <= i ==> s[i].name == name
    ensures forall j :: i < j < |s| ==> s[j].name != name
  {
    if s == [] then -1
    else if s[|s| - 1].name == name then |s| - 1
    else LastIndexOfName(s[..|s| - 1], name)
  }

  /** getCurrentPageIndex: -1 with no mounted demo, else the last row carrying its name, else -1. */
  function PageIndex(s: seq<Descriptor>, demo: Option<string>): (i: int)
    ensures -1 <= i < |s|
    ensures demo.None? ==> i == -1
    ensures 0 <= i ==> demo.Some? && s[i].name == demo.value
    ensures demo.Some? ==> forall j :: i < j < |s| ==> s[j].name != demo.value
  {
    if demo.None? then -1 else LastIndexOfName(s, demo.value)
  }

  /** selectedRowsChanged: the name of the demo mounted after row is selected. */
  function SelectedDemo(s: seq<Descriptor>, demo: Option<string>, row: int): (r: Option<string>)
    ensures 0 <= row < |s| ==> r == Some(s[row].name)
    ensures !(0 <= row < |s|) ==> r == demo
  {
    match EntryAt(s, row)
    case Some(d) => Some(d.name)
    case None => demo
  }

  /** The row moveDemoPages selects. */
  function MoveTarget(s: seq<Descriptor>, demo: Option<string>, delta: int): (row: int)
    requires |s| > 0
    ensures 0 <= row < |s|
    ensures row == (PageIndex(s, demo) + delta) % |s|
  {
    NegativeAwareModulo(PageIndex(s, demo) + delta, |s|)
  }

  /** The demo mounted after moveDemoPages (delta). */
  function MovedDemo(s: seq<Descriptor>, demo: Option<string>, delta: int): (r: Option<string>)
    requires |s| > 0
    ensures r == Some(s[MoveTarget(s, demo, delta)].name)
  {
    SelectedDemo(s, demo, MoveTarget(s, demo, delta))
  }

  /** No two descriptors share a name. */
  predicate DistinctNames(s: seq<Descriptor>)
  {
    forall i, j :: 0 <= i < j < |s| ==> s[i].name != s[j].name
  }

  /** From the first row, "previous" wraps to the last row. */
  lemma PreviousFromFirst(s: seq<Descriptor>, demo: Option<string>)
    requires |s| > 0 && PageIndex(s, demo) == 0
    ensures MoveTarget(s, demo, -1) == |s| - 1
  {
  }

  /** With nothing mounted the page index is -1, so "next" selects row 0. */
  lemma NextFromNothing(s: seq<Descriptor>)
    requires |s| > 0
    ensures MoveTarget(s, None, 1) == 0
  {
  }

  /** Moving by the registry size lands on the row already shown. */
  lemma MoveByCountIsNoop(s: seq<Descriptor>, demo: Option<string>)
    requires |s| > 0 && 0 <= PageIndex(s, demo)
    ensures MoveTarget(s, demo, |s|) == PageIndex(s, demo)
    ensures MovedDemo(s, demo, |s|) == demo
  {
    var p := PageIndex(s, demo);
    DivModUnique(p + |s|, |s|, 1, p);
    assert MoveTarget(s, demo, |s|) == p;
    assert s[p].name == demo.value;
  }

  /** With distinct names, the name of row i looks up as row i. */
  lemma PageIndexOfRow(s: seq<Descriptor>, i: int)
    requires DistinctNames(s) && 0 <= i < |s|
    ensures PageIndex(s, Some(s[i].name)) == i
  {
  }

  /** Stepping k places round a ring of n and then k places back returns to the start. */
  lemma RingStepBack(i: int, k: int, n: int)
    requires n > 0 && 0 <= i < n
    ensures ((i + k) % n - k) % n == i
  {
    var q, t := (i + k) / n, (i + k) % n;
    assert i + k == n * q + t;
    DivModUnique(t - k, n, -q, i);
  }

  /** Moving by k and then by -k returns to the starting demo. */
  lemma MoveThereAndBack(s: seq<Descriptor>, i: int, k: int)
    requires DistinctNames(s) && 0 <= i < |s|
    ensures MovedDemo(s, MovedDemo(s, Some(s[i].name), k), -k) == Some(s[i].name)
  {
    PageIndexOfRow(s, i);
    var t := MoveTarget(s, Some(s[i].name), k);
    assert t == (i + k) % |s|;
    PageIndexOfRow(s, t);
    RingStepBack(i, k, |s|);
    assert MoveTarget(s, Some(s[t].name), -k) == i;
  }
}
