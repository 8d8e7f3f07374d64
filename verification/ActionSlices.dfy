// Ranges of recorded actions as the command line gives them: by number or by date.

module ActionSlices {
  import opened Events
  import opened Recording

  /** A range option: missing, a number, a date in seconds, or neither. */
  datatype RangeOption = Missing | Number(n: int) | Date(d: int) | Unreadable

  // ----- Specification -----

  /** The first of n times that is at least d; n when there is none. */
  function FirstFrom(times: seq<int>, d: int, n: nat): (i: nat)
    requires n <= |times|
    ensures i <= n
    ensures i < n ==> times[i] >= d
    ensures forall k :: 0 <= k < i ==> times[k] < d
  {
    if n == 0 then 0
    else
      var i := FirstFrom(times, d, n - 1);
      if i < n - 1 || times[n - 1] >= d then i else n
  }

  /** One past the last of n times that is at most d; 0 when there is none. */
  function PastLastUntil(times: seq<int>, d: int, n: nat): (i: nat)
    requires n <= |times|
    ensures i <= n
    ensures i > 0 ==> times[i - 1] <= d
    ensures forall k :: i <= k < n ==> times[k] > d
  {
    if n == 0 then 0 else if times[n - 1] <= d then n else PastLastUntil(times, d, n - 1)
  }

  /** get_index_from_range_opt; actions are numbered by their position. */
  function Index(opt: RangeOption, times: seq<int>, isStart: bool): Option<int> {
    match opt
    case Missing => None
    case Unreadable => None
    case Number(n) => if n >= 0 then Some(n) else None
    case Date(d) =>
      if isStart then
        var i := FirstFrom(times, d, |times|);
        if i < |times| then Some(i) else None
      else
        var i := PastLastUntil(times, d, |times|);
        if i > 0 then Some(i) else None
  }

  /** get_action_slice: two numbers are taken as they are. */
  function ActionSlice(start: RangeOption, end: RangeOption, times: seq<int>): Slice {
    if start.Number? && end.Number? then Slice(Some(start.n), Some(end.n))
    else Slice(Index(start, times, true), Index(end, times, false))
  }

  predicate Selects(slc: Slice, n: nat, i: nat) {
    Bound(slc.start, 0, n) <= i < Bound(slc.end, n, n)
  }

  // ----- Date ranges -----

  predicate Ordered(times: seq<int>) {
    forall i, j :: 0 <= i < j < |times| ==> times[i] <= times[j]
  }

  /** The slice selects the actions within the dates and no others. */
  ghost predicate SelectsDates(times: seq<int>, from: int, until: int) {
    forall i: nat :: i < |times| ==>
      (Selects(ActionSlice(Date(from), Date(until), times), |times|, i) <==> from <= times[i] <= until)
  }

  predicate BothMatch(times: seq<int>, from: int, until: int) {
    (exists i :: 0 <= i < |times| && times[i] >= from) && (exists i :: 0 <= i < |times| && times[i] <= until)
  }

  /** A date range selects exactly its actions when both dates have actions on their side; a date
      without any is dropped, and then the range takes in actions outside. */
  lemma DateRangeIsExact(times: seq<int>, from: int, until: int)
    requires Ordered(times)
    ensures SelectsDates(times, from, until) <==> times == [] || BothMatch(times, from, until)
  {
    var n := |times|;
    var i, j := FirstFrom(times, from, n), PastLastUntil(times, until, n);
    if times != [] {
      if i < n && j > 0 {
        assert BothMatch(times, from, until) by {
          assert times[i] >= from && times[j - 1] <= until;
        }
      } else {
        assert !BothMatch(times, from, until);
        var slc := ActionSlice(Date(from), Date(until), times);
        var k := if i < n then n - 1 else 0;
        assert Selects(slc, n, k) && !(from <= times[k] <= until);
      }
    }
  }

  // ----- Numbers -----

  /** The range as numbers say it: a number that is missing leaves its side open, and so does a negative
      one unless the other one is a number as well; then it counts from the end. */
  predicate SelectsNumbers(start: RangeOption, end: RangeOption, n: nat, i: nat) {
    var both := start.Number? && end.Number?;
    && (start.Number? ==> if start.n >= 0 then start.n <= i else both ==> n + start.n <= i)
    && (end.Number? ==> if end.n >= 0 then i < end.n else both ==> i < n + end.n)
  }

  lemma NumberRangeIsExact(start: RangeOption, end: RangeOption, times: seq<int>, i: nat)
    requires (start.Number? || start.Missing?) && (end.Number? || end.Missing?) && i < |times|
    ensures Selects(ActionSlice(start, end, times), |times|, i) <==> SelectsNumbers(start, end, |times|, i)
  {
  }

  // ----- Dry runs -----

  predicate StartsAtFirst(slc: Slice) {
    slc.start.None? || slc.start.value <= 0
  }

  predicate EndsFromFront(slc: Slice) {
    slc.end.None? || slc.end.value >= 0
  }

  /** A dry run slices the listed range once more. It shows the actions a replay would run exactly
      when the range is empty, or starts at the front (or counts its start from the end) and does
      not count its end from the end. */
  lemma DryRunShowsTheReplay<T>(a: seq<T>, slc: Slice)
    ensures Sliced(Sliced(a, slc), slc) == Sliced(a, slc)
      <==> Sliced(a, slc) == [] || (StartsAtFirst(slc) && EndsFromFront(slc))
  {
  }
}
