/** The announcement history timeline (src/components/timeline-stepper.tsx):
    the AQI risk label and colour of each entry, the step navigation of the
    `TimelineStepper` component, and the loading, sorting and date filtering
    of `TimelineStepperWithData`. */
module TimelineStepper {
  import opened Wrappers
  import opened Seqs
  import opened Bands

  /** One recorded announcement. `instant` stands for
      `new Date(`${date} ${timestamp}`).getTime()`, the key the list is
      sorted by; the date parsing that produces it is not modelled. */
  datatype TimelineStep = TimelineStep(
    date: string, timestamp: string, instant: int,
    aqi: int, pm2_5: int, pm10: int, co: int, no2: int,
    scannedBy: string, scannedUsingModel: string, message: string)

  // ---------------------------------------------------------------------
  // Risk label and colour

  const RiskBounds: seq<int> := [20, 40, 90, 200, 280]
  const RiskLabels: seq<string> := ["Low Risk", "Mild Risk", "Moderate Risk",
    "Unhealthy for Sensitive Groups", "Very High Risk", "Hazardous"]

  const ColorBounds: seq<int> := [20, 40, 90, 200, 280, 900]
  const AqiColors: seq<string> := ["text-emerald-500", "text-green-500", "text-yellow-500",
    "text-orange-500", "text-red-500", "text-purple-500", "text-purple-700"]

  /** `getRiskLevel`: the chain of inclusive upper bounds, written as the
      component writes it (the `<= 900` test gives the same label as the
      fall-through). */
  function RiskLevel(aqi: int): (r: string)
    ensures r in RiskLabels
  {
    if aqi <= 20 then "Low Risk"
    else if aqi <= 40 then "Mild Risk"
    else if aqi <= 90 then "Moderate Risk"
    else if aqi <= 200 then "Unhealthy for Sensitive Groups"
    else if aqi <= 280 then "Very High Risk"
    else if aqi <= 900 then "Hazardous"
    else "Hazardous"
  }

  /** `getAqiColor`, with one more bound at 900. */
  function AqiColor(aqi: int): (r: string)
    ensures r in AqiColors
  {
    if aqi <= 20 then "text-emerald-500"
    else if aqi <= 40 then "text-green-500"
    else if aqi <= 90 then "text-yellow-500"
    else if aqi <= 200 then "text-orange-500"
    else if aqi <= 280 then "text-red-500"
    else if aqi <= 900 then "text-purple-500"
    else "text-purple-700"
  }

  /** The label is the one of the band the AQI falls in, bands being bounded
      above by 20, 40, 90, 200 and 280 inclusive. */
  lemma RiskLevelIsBand(aqi: int)
    ensures RiskLevel(aqi) == RiskLabels[BandOf(RiskBounds, aqi)]
  {
    var b := if aqi <= 20 then 0 else if aqi <= 40 then 1 else if aqi <= 90 then 2
      else if aqi <= 200 then 3 else if aqi <= 280 then 4 else 5;
    BandOfInterval(RiskBounds, aqi, b);
  }

  /** The colour is the one of the band the AQI falls in, with bounds 20, 40,
      90, 200, 280 and 900. */
  lemma AqiColorIsBand(aqi: int)
    ensures AqiColor(aqi) == AqiColors[BandOf(ColorBounds, aqi)]
  {
    var b := if aqi <= 20 then 0 else if aqi <= 40 then 1 else if aqi <= 90 then 2
      else if aqi <= 200 then 3 else if aqi <= 280 then 4 else if aqi <= 900 then 5 else 6;
    BandOfInterval(ColorBounds, aqi, b);
  }

  /** How severe a risk label is: its position in the table, -1 for any
      other text. */
  function Severity(name: string): (n: int)
    ensures -1 <= n < |RiskLabels|
    ensures 0 <= n ==> RiskLabels[n] == name
    ensures name in RiskLabels ==> 0 <= n
  {
    if name == "Low Risk" then 0
    else if name == "Mild Risk" then 1
    else if name == "Moderate Risk" then 2
    else if name == "Unhealthy for Sensitive Groups" then 3
    else if name == "Very High Risk" then 4
    else if name == "Hazardous" then 5
    else -1
  }

  /** A higher AQI never gets a less severe label. */
  lemma RiskLevelMonotone(a: int, b: int)
    requires a <= b
    ensures 0 <= Severity(RiskLevel(a)) <= Severity(RiskLevel(b))
  {
    var ba, bb := BandOf(RiskBounds, a), BandOf(RiskBounds, b);
    RiskLevelIsBand(a);
    RiskLevelIsBand(b);
    BandOfMonotone(RiskBounds, a, b);
    SeverityOfBand(ba);
    SeverityOfBand(bb);
  }

  lemma SeverityOfBand(b: nat)
    requires b < |RiskLabels|
    ensures Severity(RiskLabels[b]) == b
  {
  }

  /** The colour bands refine the risk bands: the two tables share every
      boundary up to 280, and all colours above 280 go with "Hazardous". */
  lemma ColorRefinesRisk(aqi: int)
    ensures BandOf(RiskBounds, aqi) == if BandOf(ColorBounds, aqi) > 5 then 5 else BandOf(ColorBounds, aqi)
    ensures RiskLevel(aqi) == RiskLabels[if BandOf(ColorBounds, aqi) > 5 then 5 else BandOf(ColorBounds, aqi)]
  {
    var c := BandOf(ColorBounds, aqi);
    var r := if c > 5 then 5 else c;
    assert r > 0 ==> RiskBounds[r - 1] == ColorBounds[r - 1];
    assert r < 5 ==> RiskBounds[r] == ColorBounds[r];
    BandOfInterval(RiskBounds, aqi, r);
    RiskLevelIsBand(aqi);
  }

  // ---------------------------------------------------------------------
  // Step navigation of TimelineStepper

  /** How a step is drawn relative to the current one. */
  datatype StepState = Completed | Current | Upcoming

  function StepStateOf(index: int, current: int): (s: StepState)
    ensures s == Completed <==> index < current
    ensures s == Current <==> index == current
    ensures s == Upcoming <==> index > current
  {
    if index < current then Completed else if index == current then Current else Upcoming
  }

  /** The target of the Previous button, `Math.max(0, currentStep - 1)`. */
  function PreviousTarget(current: int): (r: int)
    ensures r >= 0
    ensures current > 0 ==> r == current - 1
    ensures current <= 0 ==> r == 0
  {
    if current - 1 > 0 then current - 1 else 0
  }

  /** The target of the Next button, `Math.min(steps.length - 1, currentStep + 1)`. */
  function NextTarget(count: int, current: int): (r: int)
    ensures r <= count - 1
    ensures current < count - 1 ==> r == current + 1
    ensures current >= count - 1 ==> r == count - 1
  {
    if count - 1 < current + 1 then count - 1 else current + 1
  }

  /** With at least one step, both buttons keep a valid step valid. */
  lemma NavigationStaysInRange(count: int, current: int)
    requires 0 <= current < count
    ensures 0 <= PreviousTarget(current) < count
    ensures 0 <= NextTarget(count, current) < count
    ensures PreviousTarget(current) <= current <= NextTarget(count, current)
  {
  }

  /** The stepper's own state: the steps it is given and the current index. */
  class Stepper {
    var steps: seq<TimelineStep>
    var currentStep: int

    constructor (steps: seq<TimelineStep>, initialStep: int)
      ensures this.steps == steps && currentStep == initialStep
    {
      this.steps := steps;
      currentStep := initialStep;
    }

    ghost predicate InRange()
      reads this
    {
      0 <= currentStep < |steps|
    }

    /** The Previous button is disabled on the first step: exactly where a
        click would leave the step where it is. */
    predicate PreviousDisabled()
      reads this
      ensures currentStep >= 0 ==> (PreviousDisabled() <==> PreviousTarget(currentStep) == currentStep)
      ensures InRange() && !PreviousDisabled() ==> PreviousTarget(currentStep) == currentStep - 1
    {
      currentStep == 0
    }

    /** The Next button is disabled on the last step: within range, exactly
        where a click would leave the step where it is. */
    predicate NextDisabled()
      reads this
      ensures InRange() ==> (NextDisabled() <==> NextTarget(|steps|, currentStep) == currentStep)
      ensures InRange() && !NextDisabled() ==> NextTarget(|steps|, currentStep) == currentStep + 1
    {
      currentStep == |steps| - 1
    }

    function StateOf(index: int): StepState
      reads this
    {
      StepStateOf(index, currentStep)
    }

    /** The parent re-renders with another list; the index is kept. */
    method SetSteps(steps: seq<TimelineStep>)
      modifies this`steps
      ensures this.steps == steps
    {
      this.steps := steps;
    }

    /** `handleStepChange`, also called by a click on a step. */
    method StepChange(index: int)
      modifies this`currentStep
      ensures currentStep == index
    {
      currentStep := index;
    }

    method Previous()
      modifies this`currentStep
      ensures currentStep == PreviousTarget(old(currentStep))
      ensures old(InRange()) ==> InRange()
      ensures old(InRange()) && !old(PreviousDisabled()) ==> currentStep == old(currentStep) - 1
    {
      StepChange(PreviousTarget(currentStep));
    }

    method Next()
      modifies this`currentStep
      ensures currentStep == NextTarget(|steps|, old(currentStep))
      ensures old(InRange()) ==> InRange()
      ensures old(InRange()) && !old(NextDisabled()) ==> currentStep == old(currentStep) + 1
    {
      StepChange(NextTarget(|steps|, currentStep));
    }
  }

  // ---------------------------------------------------------------------
  // Loading, sorting and filtering in TimelineStepperWithData

  ghost predicate NewestFirst(s: seq<TimelineStep>) {
    forall i, j :: 0 <= i < j < |s| ==> s[i].instant >= s[j].instant
  }

  /** `transformedData.sort((a, b) => dateB - dateA)`: sorts the array in
      place, newest first. */
  method SortNewestFirst(a: array<TimelineStep>)
    modifies a
    ensures NewestFirst(a[..])
    ensures multiset(a[..]) == multiset(old(a[..]))
  {
    var i := 0;
    while i < a.Length
      invariant 0 <= i <= a.Length
      invariant NewestFirst(a[..i])
      invariant multiset(a[..]) == multiset(old(a[..]))
    {
      InsertNewestFirst(a, i);
      i := i + 1;
    }
    assert a[..a.Length] == a[..];
  }

  /** While `a[i]` moves left to position `j`: the first `i + 1` entries
      are newest first apart from position `j`, and the entry at `j` is no
      older than those after it. */
  ghost predicate Inserting(s: seq<TimelineStep>, i: nat, j: nat) {
    && j <= i < |s|
    && (forall p, q :: 0 <= p < q <= i && p != j && q != j ==> s[p].instant >= s[q].instant)
    && (forall q :: j < q <= i ==> s[j].instant >= s[q].instant)
  }

  lemma InsertingStart(s: seq<TimelineStep>, i: nat)
    requires i < |s| && NewestFirst(s[..i])
    ensures Inserting(s, i, i)
  {
    forall p, q | 0 <= p < q < i ensures s[p].instant >= s[q].instant {
      assert s[p] == s[..i][p] && s[q] == s[..i][q];
    }
  }

  /** Swapping the entry at `j` with an older one before it keeps the
      invariant one position to the left, and keeps the entries. */
  lemma InsertingSwap(s: seq<TimelineStep>, i: nat, j: nat)
    requires Inserting(s, i, j) && j > 0 && s[j - 1].instant < s[j].instant
    ensures Inserting(s[j - 1 := s[j]][j := s[j - 1]], i, j - 1)
    ensures multiset(s[j - 1 := s[j]][j := s[j - 1]]) == multiset(s)
  {
  }

  lemma InsertingDone(s: seq<TimelineStep>, i: nat, j: nat)
    requires Inserting(s, i, j) && (j == 0 || s[j - 1].instant >= s[j].instant)
    ensures NewestFirst(s[..i + 1])
  {
  }

  /** One pass of the insertion: moves `a[i]` left past every older entry. */
  method InsertNewestFirst(a: array<TimelineStep>, i: nat)
    requires i < a.Length
    requires NewestFirst(a[..i])
    modifies a
    ensures NewestFirst(a[..i + 1])
    ensures multiset(a[..]) == multiset(old(a[..]))
  {
    var j: nat := i;
    InsertingStart(a[..], i);
    while j > 0 && a[j - 1].instant < a[j].instant
      invariant Inserting(a[..], i, j)
      invariant multiset(a[..]) == multiset(old(a[..]))
    {
      ghost var s := a[..];
      a[j - 1], a[j] := a[j], a[j - 1];
      assert a[..] == s[j - 1 := s[j]][j := s[j - 1]];
      InsertingSwap(s, i, j);
      j := j - 1;
    }
    InsertingDone(a[..], i, j);
  }

  /** The dates of the steps, in list order. */
  function Dates(steps: seq<TimelineStep>): (r: seq<string>)
    ensures |r| == |steps|
    ensures forall k :: 0 <= k < |steps| ==> r[k] == steps[k].date
  {
    seq(|steps|, k requires 0 <= k < |steps| => steps[k].date)
  }

  /** The position of the first occurrence of `x` in `s`. */
  function FirstIndex(s: seq<string>, x: string): (i: nat)
    requires x in s
    ensures i < |s| && s[i] == x
    ensures forall k :: 0 <= k < i ==> s[k] != x
  {
    if s[0] == x then 0 else 1 + FirstIndex(s[1..], x)
  }

  lemma {:induction false} FirstIndexAppend(s: seq<string>, y: string, x: string)
    requires x in s + [y]
    ensures x in s ==> FirstIndex(s + [y], x) == FirstIndex(s, x)
    ensures x !in s ==> FirstIndex(s + [y], x) == |s|
  {
    var i := FirstIndex(s + [y], x);
    if x in s {
      var j := FirstIndex(s, x);
      assert (s + [y])[j] == x;
      assert i <= j;
      assert s[i] == x;
    } else {
      assert i == |s|;
    }
  }

  /** `[...new Set(xs)]`: every value once, in the order of first occurrence. */
  function Unique(s: seq<string>): (r: seq<string>)
    ensures forall x :: x in r <==> x in s
    ensures forall i, j :: 0 <= i < j < |r| ==> r[i] != r[j]
    decreases |s|
  {
    if |s| == 0 then []
    else
      var r := Unique(s[..|s| - 1]);
      assert s == s[..|s| - 1] + [s[|s| - 1]];
      if s[|s| - 1] in r then r else r + [s[|s| - 1]]
  }

  /** The values appear in the order in which they first occur. */
  lemma {:induction false} UniqueInFirstOccurrenceOrder(s: seq<string>)
    ensures forall i, j :: 0 <= i < j < |Unique(s)| ==>
      FirstIndex(s, Unique(s)[i]) < FirstIndex(s, Unique(s)[j])
    decreases |s|
  {
    if |s| > 0 {
      var p, y := s[..|s| - 1], s[|s| - 1];
      assert s == p + [y];
      UniqueInFirstOccurrenceOrder(p);
      var r' := Unique(p);
      var r := Unique(s);
      forall i, j | 0 <= i < j < |r|
        ensures FirstIndex(s, r[i]) < FirstIndex(s, r[j])
      {
        FirstIndexAppend(p, y, r[i]);
        FirstIndexAppend(p, y, r[j]);
        if j < |r'| {
          assert r[i] == r'[i] && r[j] == r'[j];
        } else {
          assert r[i] == r'[i] && r[i] in p;
        }
      }
    }
  }

  /** The list a date choice shows: the steps of that date, or every step
      when the choice is cleared (null, or the falsy empty string). */
  function DateFilter(steps: seq<TimelineStep>, date: Option<string>): (r: seq<TimelineStep>)
    ensures date.None? || date.value == "" ==> r == steps
    ensures date.Some? && date.value != "" ==>
      (forall k :: 0 <= k < |r| ==> r[k] in steps && r[k].date == date.value)
      && (forall k :: 0 <= k < |steps| && steps[k].date == date.value ==> steps[k] in r)
  {
    if date.Some? && date.value != "" then Filter(steps, (s: TimelineStep) => s.date == date.value)
    else steps
  }

  /** Filtering keeps the original order: it distributes over concatenation. */
  lemma DateFilterKeepsOrder(a: seq<TimelineStep>, b: seq<TimelineStep>, date: Option<string>)
    ensures DateFilter(a + b, date) == DateFilter(a, date) + DateFilter(b, date)
  {
    if date.Some? && date.value != "" {
      FilterAppend(a, b, (s: TimelineStep) => s.date == date.value);
    }
  }

  /** Every date the dropdown offers selects at least one step. */
  lemma OfferedDateIsNonEmpty(steps: seq<TimelineStep>, d: string)
    requires d in Unique(Dates(steps))
    ensures |DateFilter(steps, Some(d))| > 0
  {
    var k :| 0 <= k < |steps| && Dates(steps)[k] == d;
    assert steps[k] in DateFilter(steps, Some(d));
  }

  /** The state of TimelineStepperWithData. */
  class TimelineData {
    var timelineSteps: seq<TimelineStep>
    var filteredSteps: seq<TimelineStep>
    var isLoading: bool
    var error: Option<string>
    var selectedDate: Option<string>

    constructor ()
      ensures timelineSteps == [] && filteredSteps == []
      ensures isLoading && error == None && selectedDate == None
    {
      timelineSteps, filteredSteps := [], [];
      isLoading, error, selectedDate := true, None, None;
    }

    /** `fetchData` in the mount effect; a non-2xx response is the failure
      "Failed to fetch data". */
    method FetchData(response: Outcome<seq<TimelineStep>>)
      modifies this
      ensures response.Ok? ==>
        && NewestFirst(timelineSteps)
        && multiset(timelineSteps) == multiset(response.value)
        && filteredSteps == timelineSteps
        && error == old(error)
      ensures response.Fail? ==>
        && error == Some(response.msg)
        && timelineSteps == old(timelineSteps) && filteredSteps == old(filteredSteps)
      ensures !isLoading && selectedDate == old(selectedDate)
    {
      match response {
        case Ok(data) =>
          var a := new TimelineStep[|data|](k requires 0 <= k < |data| => data[k]);
          assert a[..] == data;
          SortNewestFirst(a);
          timelineSteps := a[..];
          filteredSteps := a[..];
        case Fail(m) =>
          error := Some(m);
      }
      isLoading := false;
    }

    /** The dates offered in the dropdown. */
    function UniqueDates(): seq<string>
      reads this
    {
      Unique(Dates(timelineSteps))
    }

    /** `handleDateFilter`. */
    method HandleDateFilter(date: Option<string>)
      modifies this`selectedDate, this`filteredSteps
      ensures selectedDate == date
      ensures filteredSteps == DateFilter(timelineSteps, date)
    {
      selectedDate := date;
      if date.Some? && date.value != "" {
        filteredSteps := Filter(timelineSteps, (s: TimelineStep) => s.date == date.value);
      } else {
        filteredSteps := timelineSteps;
      }
    }
  }
}
