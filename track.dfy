/** The public tracking view (app/components/TrackInner.tsx): the search
    guard, the simulated lookup that always shows the mock record, the QR
    scan handler, the progress figure and the per-step colour, label and
    explorer button. */
module Track {
  import opened Optional
  import Text

  /** `TrackingStep` (icons left out). */
  datatype TrackingStep = TrackingStep(
    id: string, title: string, description: string, timestamp: string,
    status: string, location: Option<string>, blockchainHash: Option<string>)

  /** `TrackingData`. */
  datatype TrackingData = TrackingData(
    trackingId: string, productName: string, currentStep: int,
    estimatedDelivery: string, steps: seq<TrackingStep>)

  /** `mockTrackingData`: three completed steps with hashes, one in
      progress, two pending. */
  const Mock: TrackingData := TrackingData(
    "VCH-ABC123XYZ", "Premium Wireless Headphones", 3, "2024-01-25", [
      TrackingStep("1", "Order Received", "Your order has been confirmed and is being prepared",
                   "2024-01-15 09:30 AM", "completed", Some("San Francisco, CA"),
                   Some("0x1a2b3c4d5e6f7890abcdef1234567890abcdef12")),
      TrackingStep("2", "Shipped to Netherlands", "Package has been shipped to our verification facility",
                   "2024-01-16 02:15 PM", "completed", Some("Amsterdam, Netherlands"),
                   Some("0x2b3c4d5e6f7890abcdef1234567890abcdef1234")),
      TrackingStep("3", "Quality Analysis", "Product is undergoing comprehensive quality verification",
                   "2024-01-18 11:45 AM", "completed", Some("Amsterdam, Netherlands"),
                   Some("0x3c4d5e6f7890abcdef1234567890abcdef123456")),
      TrackingStep("4", "Production Unit 1", "Initial manufacturing and assembly process",
                   "2024-01-20 08:20 AM", "in-progress", Some("Rotterdam, Netherlands"), None),
      TrackingStep("5", "Production Unit 2", "Final assembly and quality control checks",
                   "Expected: 2024-01-22", "pending", Some("Rotterdam, Netherlands"), None),
      TrackingStep("6", "Delivered", "Package delivered to your specified address",
                   "Expected: 2024-01-25", "pending", Some("Your Address"), None)
    ])

  predicate IsCompleted(step: TrackingStep) {
    step.status == "completed"
  }

  /** The number of completed steps. */
  function CompletedCount(steps: seq<TrackingStep>): nat {
    if steps == [] then 0 else (if IsCompleted(steps[0]) then 1 else 0) + CompletedCount(steps[1..])
  }

  /** No more steps are completed than there are steps, and all of them
      are exactly when every step is. */
  lemma {:induction false} CompletedCountBounds(steps: seq<TrackingStep>)
    ensures CompletedCount(steps) <= |steps|
    ensures CompletedCount(steps) == |steps| <==> forall i :: 0 <= i < |steps| ==> IsCompleted(steps[i])
    ensures CompletedCount(steps) == 0 <==> forall i :: 0 <= i < |steps| ==> !IsCompleted(steps[i])
  {
    if steps != [] {
      CompletedCountBounds(steps[1..]);
      assert forall i :: 1 <= i < |steps| ==> steps[i] == steps[1..][i - 1];
    }
  }

  /** A JavaScript number as far as the progress figure goes: a value, or
      `NaN` from dividing 0 by 0. */
  datatype Number = Finite(value: real) | NaN

  /** `calculateProgress()`: 0 without data; otherwise the completed share
      of the steps, in percent (`NaN` for an empty step list). */
  function CalculateProgress(data: Option<TrackingData>): (r: Number)
    ensures data.None? ==> r == Finite(0.0)
    ensures data.Some? && data.value.steps == [] ==> r == NaN
    ensures data.Some? && data.value.steps != [] ==>
      && r.Finite?
      && 0.0 <= r.value <= 100.0
      && r.value * |data.value.steps| as real == 100.0 * CompletedCount(data.value.steps) as real
  {
    if data.None? then Finite(0.0)
    else
      var steps := data.value.steps;
      if steps == [] then NaN
      else
        CompletedCountBounds(steps);
        Finite((CompletedCount(steps) as real / |steps| as real) * 100.0)
  }

  /** The bar is full exactly when every step is completed, and empty
      exactly when none is. */
  lemma ProgressExtremes(data: TrackingData)
    requires data.steps != []
    ensures CalculateProgress(Some(data)) == Finite(100.0)
      <==> forall i :: 0 <= i < |data.steps| ==> IsCompleted(data.steps[i])
    ensures CalculateProgress(Some(data)) == Finite(0.0)
      <==> forall i :: 0 <= i < |data.steps| ==> !IsCompleted(data.steps[i])
  {
    CompletedCountBounds(data.steps);
  }

  /** The mock record shows 50 percent. */
  lemma MockProgress()
    ensures CalculateProgress(Some(Mock)) == Finite(50.0)
  {
    var s := Mock.steps;
    assert CompletedCount(s[5..]) == 0;
    assert CompletedCount(s[4..]) == 0;
    assert CompletedCount(s[3..]) == 0;
    assert CompletedCount(s[2..]) == 1;
    assert CompletedCount(s[1..]) == 2;
    assert CompletedCount(s) == 3;
  }

  /** `getStepColor(status)`. */
  function StepColor(status: string): (r: string)
    ensures r == "bg-green-500" <==> status == "completed"
    ensures r == "bg-blue-500" <==> status == "in-progress"
    ensures r == "bg-green-500" || r == "bg-blue-500" || r == "bg-slate-300"
  {
    if status == "completed" then "bg-green-500"
    else if status == "in-progress" then "bg-blue-500"
    else "bg-slate-300"
  }

  /** The badge text of a step. */
  function StatusLabel(status: string): (r: string)
    ensures r == "In Progress" <==> status == "in-progress"
    ensures r == "Pending" <==> status != "completed" && status != "in-progress"
  {
    if status == "completed" then "Completed"
    else if status == "in-progress" then "In Progress"
    else "Pending"
  }

  /** The colour and the label tell the same story: green with
      "Completed", blue with "In Progress", slate with "Pending" for every
      other status. */
  lemma ColorMatchesLabel(status: string)
    ensures StepColor(status) == "bg-green-500" <==> StatusLabel(status) == "Completed"
    ensures StepColor(status) == "bg-blue-500" <==> StatusLabel(status) == "In Progress"
    ensures StepColor(status) == "bg-slate-300" <==> StatusLabel(status) == "Pending"
    ensures StatusLabel(status) == "Completed" <==> status == "completed"
  {
  }

  /** The "View on Blockchain" button: a completed step with a non-empty
      hash. */
  predicate ShowBlockchainButton(step: TrackingStep)
    ensures ShowBlockchainButton(step) ==> IsCompleted(step) && StepColor(step.status) == "bg-green-500"
  {
    step.status == "completed" && step.blockchainHash.Some? && step.blockchainHash.value != ""
  }

  /** On the mock record the explorer button shows on exactly the three
      completed steps, the ones that carry a hash. */
  lemma MockButtons()
    ensures forall i :: 0 <= i < |Mock.steps| ==> (ShowBlockchainButton(Mock.steps[i]) <==> i < 3)
  {
    var s := Mock.steps;
    assert ShowBlockchainButton(s[0]) && ShowBlockchainButton(s[1]) && ShowBlockchainButton(s[2]);
    assert !IsCompleted(s[3]) && !IsCompleted(s[4]) && !IsCompleted(s[5]);
  }

  /** The component's state. */
  class Tracker {
    var searchQuery: string
    var trackingData: Option<TrackingData>
    var isLoading: bool
    var inputValue: string
    var showScanner: bool

    constructor ()
      ensures searchQuery == "" && trackingData == None && !isLoading
      ensures inputValue == "" && !showScanner
    {
      searchQuery := "";
      trackingData := None;
      isLoading := false;
      inputValue := "";
      showScanner := false;
    }

    /** The search box's `onChange`. */
    method SetSearchQuery(query: string)
      modifies this`searchQuery
      ensures searchQuery == query
    {
      searchQuery := query;
    }

    /** `handleSearch`: a blank query does nothing; any other query shows
        the mock record, whatever it says. */
    method HandleSearch()
      modifies this`trackingData, this`isLoading
      ensures Text.IsBlank(searchQuery) ==> trackingData == old(trackingData) && isLoading == old(isLoading)
      ensures !Text.IsBlank(searchQuery) ==> trackingData == Some(Mock) && !isLoading
    {
      if Text.IsBlank(searchQuery) {
        return;
      }
      isLoading := true;
      trackingData := Some(Mock);
      isLoading := false;
    }

    /** `handleScanResult(data)`: the scanned text goes to `inputValue`
        and the scanner closes; the query a search reads is untouched. */
    method HandleScanResult(data: string)
      modifies this`inputValue, this`showScanner
      ensures inputValue == data && !showScanner
    {
      inputValue := data;
      showScanner := false;
    }

    /** The "Scan QR Code" / "Close Scanner" button. */
    method ToggleScanner()
      modifies this`showScanner
      ensures showScanner == !old(showScanner)
    {
      showScanner := !showScanner;
    }

    /** The progress figure on screen. */
    function Progress(): (r: Number)
      reads this
      ensures trackingData.None? ==> r == Finite(0.0)
    {
      CalculateProgress(trackingData)
    }
  }
}
