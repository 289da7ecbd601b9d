/** The nearest-definition search of findCaller (callTree.py:256-283): the
    definition lines of a file are sorted and searched for the line of a
    call site. */
module Search {

  import opened PyStr

  predicate Sorted(a: seq<nat>) {
    forall i, j :: 0 <= i < j < |a| ==> a[i] <= a[j]
  }

  /** v is the definition line the search should pick among `lines` for a
      call at `target`: the target itself when it is a definition line,
      otherwise the largest line below it, otherwise (no line below) the
      smallest line. */
  ghost predicate IsNearest(lines: set<nat>, target: nat, v: nat) {
    && v in lines
    && (target in lines ==> v == target)
    && (target !in lines ==>
          || (v < target && forall u :: u in lines && u < target ==> u <= v)
          || (v > target && forall u :: u in lines ==> v <= u))
  }

  function Elements(a: seq<nat>): set<nat> {
    set x | x in a
  }

  /** At most one line is the nearest. */
  lemma NearestUnique(lines: set<nat>, target: nat, v: nat, w: nat)
    requires IsNearest(lines, target, v) && IsNearest(lines, target, w)
    ensures v == w
  {
  }

  /** Of two candidate lines, the one the search prefers. */
  function Closer(x: nat, w: nat, target: nat): nat {
    if x == target || w == target then target
    else if x < target && w < target then (if x < w then w else x)
    else if x < target then x
    else if w < target then w
    else if x < w then x else w
  }

  /** The nearest line of a non-empty set, picked element by element. */
  ghost function Nearest(lines: set<nat>, target: nat): (v: nat)
    requires lines != {}
    ensures IsNearest(lines, target, v)
    decreases lines
  {
    var x :| x in lines;
    if lines == {x} then x
    else
      var rest := lines - {x};
      var w := Nearest(rest, target);
      assert forall u :: u in lines <==> u in rest || u == x;
      Closer(x, w, target)
  }

  lemma NearestIs(lines: set<nat>, target: nat, v: nat)
    requires IsNearest(lines, target, v)
    ensures Nearest(lines, target) == v
  {
    NearestUnique(lines, target, v, Nearest(lines, target));
  }

  /** searchEngine.  On a non-empty ascending list it returns an index of
      the target when the target is present; otherwise the largest index
      whose value is below the target, or 0 when no value is.  It never
      returns -1, so the `middle == -1` tests after it are dead code. */
  method SearchEngine(lineNumbers: seq<nat>, lineNumber: nat) returns (middle: nat)
    requires |lineNumbers| > 0 && Sorted(lineNumbers)
    ensures middle < |lineNumbers|
    ensures lineNumber in lineNumbers ==> lineNumbers[middle] == lineNumber
    ensures lineNumber !in lineNumbers ==>
              && (lineNumbers[middle] < lineNumber || middle == 0)
              && forall j :: middle < j < |lineNumbers| ==> lineNumbers[j] > lineNumber
  {
    var callerLine := 0;
    var left: int := 0;
    var right: int := |lineNumbers| - 1;
    ghost var found := false;
    // Python binds `middle` in the first iteration, which always runs.
    middle := 0;
    while left <= right
      invariant 0 <= left <= |lineNumbers| && -1 <= right < |lineNumbers| && left <= right + 1
      invariant middle < |lineNumbers|
      invariant forall i :: 0 <= i < left ==> lineNumbers[i] < lineNumber
      invariant forall i :: right < i < |lineNumbers| ==> lineNumbers[i] > lineNumber
      invariant !found && callerLine == 0
    {
      middle := (left + right) / 2;
      if lineNumbers[middle] == lineNumber {
        callerLine := lineNumbers[middle];
        found := true;
        break;
      } else if lineNumbers[middle] > lineNumber {
        right := middle - 1;
      } else {
        left := middle + 1;
      }
    }
    assert found ==> lineNumbers[middle] == lineNumber && callerLine == lineNumber;
    assert !found ==> lineNumber !in lineNumbers;

    if callerLine == 0 {
      while middle < |lineNumbers| && lineNumbers[middle] < lineNumber
        invariant middle <= |lineNumbers|
        decreases |lineNumbers| - middle
      {
        middle := middle + 1;
      }
      assert forall j :: middle <= j < |lineNumbers| ==> lineNumbers[j] >= lineNumber;
      middle := if |lineNumbers| - 1 < middle then |lineNumbers| - 1 else middle;
      while middle > 0 && lineNumbers[middle] >= lineNumber
        invariant middle < |lineNumbers|
        invariant forall j :: middle < j < |lineNumbers| ==> lineNumbers[j] >= lineNumber
      {
        middle := middle - 1;
      }
      if found {
        // The target 0 was found, and the correction walked down to index 0.
        assert middle == 0;
        assert lineNumbers[0] <= lineNumbers[(left + right) / 2];
      }
    }
  }

  /** The index SearchEngine returns holds the nearest definition line. */
  lemma SearchFindsNearest(lineNumbers: seq<nat>, lineNumber: nat, middle: nat)
    requires Sorted(lineNumbers) && middle < |lineNumbers|
    requires lineNumber in lineNumbers ==> lineNumbers[middle] == lineNumber
    requires lineNumber !in lineNumbers ==>
               && (lineNumbers[middle] < lineNumber || middle == 0)
               && forall j :: middle < j < |lineNumbers| ==> lineNumbers[j] > lineNumber
    ensures IsNearest(Elements(lineNumbers), lineNumber, lineNumbers[middle])
  {
    var lines := Elements(lineNumbers);
    var v := lineNumbers[middle];
    if lineNumber !in lineNumbers {
      if v < lineNumber {
        forall u | u in lines && u < lineNumber ensures u <= v {
          var k :| 0 <= k < |lineNumbers| && lineNumbers[k] == u;
        }
      } else {
        forall u | u in lines ensures v <= u {
          var k :| 0 <= k < |lineNumbers| && lineNumbers[k] == u;
        }
      }
    }
  }

  /** The values of numeric dictionary keys, as `int(num)` gives them. */
  ghost function LineValues(keys: set<string>): set<nat> {
    set k | k in keys && AllDigits(k) :: ParseNat(k)
  }

  /** The number of leading elements below x. */
  function InsertionPoint(a: seq<nat>, x: nat): (k: nat)
    ensures k <= |a|
    ensures forall i :: 0 <= i < k ==> a[i] < x
    ensures k < |a| ==> a[k] >= x
  {
    if a == [] || a[0] >= x then 0 else 1 + InsertionPoint(a[1..], x)
  }

  function InsertSorted(a: seq<nat>, x: nat): (r: seq<nat>)
    requires Sorted(a)
    ensures Sorted(r)
    ensures |r| == |a| + 1
    ensures forall y :: y in r <==> y in a || y == x
    ensures multiset(r) == multiset(a) + multiset{x}
  {
    var k := InsertionPoint(a, x);
    InsertAt(a, x, k);
    a[..k] + [x] + a[k..]
  }

  /** Placing x after the elements below it keeps a sorted sequence sorted
      and adds exactly one x. */
  lemma InsertAt(a: seq<nat>, x: nat, k: nat)
    requires Sorted(a) && k <= |a|
    requires forall i :: 0 <= i < k ==> a[i] < x
    requires k < |a| ==> a[k] >= x
    ensures Sorted(a[..k] + [x] + a[k..])
    ensures |a[..k] + [x] + a[k..]| == |a| + 1
    ensures forall y :: y in a[..k] + [x] + a[k..] <==> y in a || y == x
    ensures multiset(a[..k] + [x] + a[k..]) == multiset(a) + multiset{x}
  {
    var r := a[..k] + [x] + a[k..];
    assert forall i :: 0 <= i < |r| ==> r[i] == if i < k then a[i] else if i == k then x else a[i - 1];
    forall i, j | 0 <= i < j < |r| ensures r[i] <= r[j] {
      if j > k && i < k {
        assert a[i] < x <= a[k] <= a[j - 1];
      } else if j > k && i == k {
        assert x <= a[k] <= a[j - 1];
      }
    }
    assert a == a[..k] + a[k..];
    SplicePermutes(a, x, k);
  }

  /** Splicing x in anywhere adds exactly one x. */
  lemma SplicePermutes(a: seq<nat>, x: nat, k: nat)
    requires k <= |a|
    ensures multiset(a[..k] + [x] + a[k..]) == multiset(a) + multiset{x}
  {
    assert a == a[..k] + a[k..];
  }

  /** `sorted([int(num) for num in keys])`: one number per key, ascending. */
  method SortedLineNumbers(keys: set<string>) returns (a: seq<nat>)
    requires forall k :: k in keys ==> AllDigits(k)
    ensures Sorted(a)
    ensures |a| == |keys|
    ensures Elements(a) == LineValues(keys)
  {
    a := [];
    var todo := keys;
    while todo != {}
      invariant todo <= keys
      invariant Sorted(a)
      invariant |a| + |todo| == |keys|
      invariant Elements(a) == LineValues(keys - todo)
      decreases |todo|
    {
      var k :| k in todo;
      var a' := InsertSorted(a, ParseNat(k));
      assert LineValues(keys - (todo - {k})) == LineValues(keys - todo) + {ParseNat(k)};
      a := a';
      todo := todo - {k};
    }
  }
}
