/** The shipment-management panel (app/components/ShipmentManagement.tsx):
    the table of four shipping stages, the stage-to-contract-method
    dispatch, the guarded ledger write with its per-stage loading flag,
    the e-mail button guard, the expandable rows and the search filter. */
module Shipment {
  import opened Optional
  import opened Effects
  import opened Orders
  import Seqs
  import Text

  /** A row of the `stages` table (icons and demo hashes left out). */
  datatype Stage = Stage(id: string, title: string, description: string, requiresBlockchain: bool)

  const Stages: seq<Stage> := [
    Stage("stage-1", "To the Netherlands (Customer Pickup)",
          "Package shipped from customer to Netherlands facility", true),
    Stage("stage-2", "From Netherlands to Production Unit 1",
          "Package shipped to first production facility", true),
    Stage("stage-3", "From Unit 2 to Belgium (Shipment)",
          "Unit 2 ships the diamonds to Belgium", true),
    Stage("stage-4", "Product is Sent to the Consumer",
          "Crystal Fusion generates a FedEx shipping label to pick-up the parcel in Belgium and sends it direct to the consumer",
          true)
  ]

  /** The table holds stage-1 to stage-4 in that order, with distinct ids,
      and every stage asks for a ledger record. */
  lemma StagesTable()
    ensures |Stages| == 4
    ensures Stages[0].id == "stage-1" && Stages[1].id == "stage-2"
    ensures Stages[2].id == "stage-3" && Stages[3].id == "stage-4"
    ensures forall i, j :: 0 <= i < j < |Stages| ==> Stages[i].id != Stages[j].id
    ensures forall i :: 0 <= i < |Stages| ==> Stages[i].requiresBlockchain
  {
  }

  const PickupAbi: string := "function updatePickupShippingTracking(uint256 id, string _tracking)"
  const CFShippingAbi: string := "function updateCFshippingLabal(uint256 id, string _tracking)"
  const ShippingTwoAbi: string := "function updateShippingTwoLabal(uint256 id, string _tracking)"
  const FinalDeliveryAbi: string := "function updatefinalDeliveryTracking(uint256 id, string _tracking)"

  /** The contract method `updateRecordHash` calls for a stage: one per
      named stage, and the final-delivery method for any other id. */
  function MethodFor(stageId: string): (m: string)
    ensures m == PickupAbi <==> stageId == "stage-1"
    ensures m == CFShippingAbi <==> stageId == "stage-2"
    ensures m == ShippingTwoAbi <==> stageId == "stage-3"
    ensures m == FinalDeliveryAbi <==> stageId !in ["stage-1", "stage-2", "stage-3"]
  {
    if stageId == "stage-1" then PickupAbi
    else if stageId == "stage-2" then CFShippingAbi
    else if stageId == "stage-3" then ShippingTwoAbi
    else FinalDeliveryAbi
  }

  /** The four stages write through four different methods. */
  lemma DispatchInjectiveOnStages(i: int, j: int)
    requires 0 <= i < |Stages| && 0 <= j < |Stages| && i != j
    ensures MethodFor(Stages[i].id) != MethodFor(Stages[j].id)
  {
    StagesTable();
  }

  /** `fedexTrackings[stageId]`: the string typed for the stage, or
      `undefined` when nothing was typed. */
  function TrackingArg(trackings: map<string, string>, stageId: string): Arg {
    if stageId in trackings then Str(trackings[stageId]) else Undefined
  }

  /** What one run of `updateRecordHash(orderId, stageId)` does outside the
      component, given whether a wallet is connected and how the
      transaction went. */
  function RecordEffects(hasAccount: bool, orderId: nat, stageId: string,
                         trackings: map<string, string>, tx: Outcome<string>): (r: seq<Event>)
    ensures r != [] && (r[|r| - 1].Alert? || r[|r| - 1] == Refresh)
    ensures hasAccount ==> r[0] == SendTransaction(MethodFor(stageId), [Int(orderId), TrackingArg(trackings, stageId)])
  {
    if !hasAccount then [Alert("Please connect your wallet")]
    else
      [SendTransaction(MethodFor(stageId), [Int(orderId), TrackingArg(trackings, stageId)])]
      + match tx
        case Done(hash) => [Alert("Success! Transaction hash: " + hash), Refresh]
        case Threw(message) => [Alert("Transaction failed. " + message)]
  }

  /** Without a wallet nothing is written; with one, exactly one write
      goes out, through the stage's method, with the order id and the
      tracking typed for that stage (shared by every order on the page). */
  lemma RecordWrites(hasAccount: bool, orderId: nat, stageId: string,
                     trackings: map<string, string>, tx: Outcome<string>)
    ensures !hasAccount ==> Writes(RecordEffects(hasAccount, orderId, stageId, trackings, tx)) == []
    ensures hasAccount ==>
      Writes(RecordEffects(hasAccount, orderId, stageId, trackings, tx))
      == [SendTransaction(MethodFor(stageId), [Int(orderId), TrackingArg(trackings, stageId)])]
  {
    var e := RecordEffects(hasAccount, orderId, stageId, trackings, tx);
    if hasAccount {
      var write := SendTransaction(MethodFor(stageId), [Int(orderId), TrackingArg(trackings, stageId)]);
      var tail := e[1..];
      assert e == [write] + tail;
      WritesAppend([write], tail);
      NoWritesAmong(tail);
    } else {
      NoWritesAmong(e);
    }
  }

  /** A run with no transaction in it writes nothing. */
  lemma NoWritesAmong(trace: seq<Event>)
    requires forall e :: e in trace ==> !e.SendTransaction?
    ensures Writes(trace) == []
  {
    if Writes(trace) != [] {
      assert Writes(trace)[0] in Writes(trace);
    }
  }

  /** The page is refreshed exactly when a write went through. */
  lemma RecordRefreshes(hasAccount: bool, orderId: nat, stageId: string,
                        trackings: map<string, string>, tx: Outcome<string>)
    ensures Refresh in RecordEffects(hasAccount, orderId, stageId, trackings, tx)
      <==> hasAccount && tx.Done?
  {
  }

  /** What the record button of the stage panel at an index calls: the
      panels of stages 1 to 3 call `updateRecordHash` with their stage id;
      the stage-4 button has no handler. */
  function RecordButtonTarget(index: int): (r: Option<string>)
    ensures r.Some? <==> 0 <= index < 3
    ensures r.Some? ==> r.value == Stages[index].id && r.value != Stages[3].id
  {
    StagesTable();
    if 0 <= index < 3 then Some(Stages[index].id) else None
  }

  /** No button on the page writes through the final-delivery method. */
  lemma FinalDeliveryUnreachable(index: int)
    ensures RecordButtonTarget(index).Some? ==>
      MethodFor(RecordButtonTarget(index).value) != FinalDeliveryAbi
  {
    StagesTable();
  }

  /** The stage panels that render a tracking input bound to
      `fedexTrackings` (the stage-4 input is not bound). */
  predicate HasTrackingInput(index: int)
    ensures HasTrackingInput(index) ==> 0 <= index < |Stages| && RecordButtonTarget(index) == Some(Stages[index].id)
  {
    0 <= index < 3
  }

  /** The stage panels with a "Send Email Confirmation" button. */
  predicate HasEmailButton(index: int)
    ensures HasEmailButton(index) ==>
      0 <= index < |Stages| && (Stages[index].id == "stage-1" || Stages[index].id == "stage-4")
  {
    index == 0 || index == 3
  }

  /** What the e-mail button of a stage does: with no tracking typed
      (missing or empty) it only alerts; otherwise it mails the stage's
      title, description and tracking, then reports success. */
  function EmailEffects(orderId: nat, stage: Stage, trackings: map<string, string>): (r: seq<Event>)
    ensures 0 < |r| <= 2 && r[|r| - 1].Alert?
    ensures |r| == 2 <==> r[0].SendEmail?
  {
    if stage.id !in trackings || trackings[stage.id] == "" then
      [Alert("Please paste FedEx tracking first")]
    else
      [SendEmail(orderId, stage.id, stage.title, stage.description, trackings[stage.id]),
       Alert("Email sent successfully")]
  }

  /** An e-mail goes out exactly when a non-empty tracking is stored for
      the stage, and then it carries that tracking. */
  lemma EmailSentIff(orderId: nat, stage: Stage, trackings: map<string, string>)
    ensures (exists e :: e in EmailEffects(orderId, stage, trackings) && e.SendEmail?)
      <==> stage.id in trackings && trackings[stage.id] != ""
    ensures forall e :: e in EmailEffects(orderId, stage, trackings) && e.SendEmail? ==>
      e == SendEmail(orderId, stage.id, stage.title, stage.description, trackings[stage.id])
  {
    if stage.id in trackings && trackings[stage.id] != "" {
      assert EmailEffects(orderId, stage, trackings)[0].SendEmail?;
    }
  }

  /** `order.id.toString() == searchQuery`, or the query, lower-cased,
      occurs in the lower-cased fingerprint or final-delivery hash. */
  predicate MatchesSearch(o: Order, query: string)
    ensures query == "" ==> MatchesSearch(o, query)
    ensures Text.NatToString(o.id) == query ==> MatchesSearch(o, query)
  {
    Text.ContainsEmpty(Text.Lower(o.qrHash));
    || Text.NatToString(o.id) == query
    || Text.Contains(Text.Lower(o.qrHash), Text.Lower(query))
    || Text.Contains(Text.Lower(o.finalDelivery.finalDeliveryHash), Text.Lower(query))
  }

  /** `filteredOrders` (the stage filter is commented out in the source). */
  function FilteredOrders(orders: seq<Order>, query: string): (r: seq<Order>)
    ensures forall o :: o in r <==> o in orders && MatchesSearch(o, query)
    ensures Seqs.IsSubsequence(r, orders)
  {
    Seqs.FilterIsSubsequence(orders, o => MatchesSearch(o, query));
    Seqs.Filter(orders, o => MatchesSearch(o, query))
  }

  /** An empty search box shows every order, in order. */
  lemma EmptyQueryKeepsAll(orders: seq<Order>)
    ensures FilteredOrders(orders, "") == orders
  {
    forall o | o in orders ensures MatchesSearch(o, "") {
      Text.ContainsEmpty(Text.Lower(o.qrHash));
    }
    Seqs.FilterKeepsAll(orders, o => MatchesSearch(o, ""));
  }

  /** A query that is an order's decimal id keeps that order. */
  lemma IdQueryKeepsOrder(orders: seq<Order>, o: Order)
    requires o in orders
    ensures o in FilteredOrders(orders, Text.NatToString(o.id))
  {
  }

  /** The record app/admin/shipments/page.tsx actually hands to the panel:
      every stage hash is a flat field, and there is no `finalDelivery`
      object for the third search test to read. */
  datatype PageRecord = PageRecord(
    id: nat, qrHash: string, cshippingHash: string, cfshippingHash: string,
    shippingOneHash: string, shippingTwoHash: string, analysisHash: string,
    certificateHash: string, finalDeliveryHash: string, timestamp: int)

  /** The first two search tests, which are evaluated before the third. */
  predicate ShortCircuits(rec: PageRecord, query: string) {
    Text.NatToString(rec.id) == query || Text.Contains(Text.Lower(rec.qrHash), Text.Lower(query))
  }

  /** `filteredOrders` over those records: a record that passes neither of
      the first two tests reaches `order.finalDelivery.finalDeliveryHash`,
      which reads a field of `undefined` and throws during render. So the
      search never hides a record: it shows them all, or the render fails. */
  function FilterPageRecords(records: seq<PageRecord>, query: string): (r: Outcome<seq<PageRecord>>)
    ensures r.Done? <==> forall i :: 0 <= i < |records| ==> ShortCircuits(records[i], query)
    ensures r.Done? ==> r.value == records
  {
    if records == [] then Done([])
    else if !ShortCircuits(records[0], query) then
      Threw("Cannot read properties of undefined (reading 'finalDeliveryHash')")
    else
      match FilterPageRecords(records[1..], query)
      case Done(rest) => Done([records[0]] + rest)
      case Threw(message) => Threw(message)
  }

  /** An empty search box renders every record; a query matching no
      record's id or fingerprint fails the render as soon as there is a
      record. */
  lemma PageRecordSearch(records: seq<PageRecord>, query: string)
    ensures FilterPageRecords(records, "") == Done(records)
    ensures records != [] && (forall i :: 0 <= i < |records| ==> !ShortCircuits(records[i], query)) ==>
      FilterPageRecords(records, query).Threw?
  {
    forall i | 0 <= i < |records| ensures ShortCircuits(records[i], "") {
      Text.ContainsEmpty(Text.Lower(records[i].qrHash));
    }
  }

  /** The component's state. `activeAccount` comes from the wallet hook
      and is only read here. */
  class Panel {
    var searchQuery: string
    var expandedOrders: seq<string>
    var isLoading: map<string, bool>
    var fedexTrackings: map<string, string>
    var activeAccount: Option<string>
    ghost var trace: seq<Event>

    /** No input is bound to the stage-4 tracking, so it is never stored. */
    ghost predicate Valid()
      reads this
    {
      Stages[3].id !in fedexTrackings
    }

    constructor (account: Option<string>)
      ensures Valid()
      ensures searchQuery == "" && expandedOrders == [] && isLoading == map[]
      ensures fedexTrackings == map[] && activeAccount == account && trace == []
    {
      searchQuery := "";
      expandedOrders := [];
      isLoading := map[];
      fedexTrackings := map[];
      activeAccount := account;
      trace := [];
    }

    /** The search box's `onChange`. */
    method SetSearchQuery(query: string)
      modifies this`searchQuery
      ensures searchQuery == query
    {
      searchQuery := query;
    }

    /** The orders on screen. */
    function Visible(orders: seq<Order>): (r: seq<Order>)
      reads this
      ensures forall o :: o in r <==> o in orders && MatchesSearch(o, searchQuery)
    {
      FilteredOrders(orders, searchQuery)
    }

    /** A tracking input's `onChange`, in the stage panel at an index that
        has one. */
    method TypeTracking(index: int, value: string)
      requires Valid() && HasTrackingInput(index)
      modifies this`fedexTrackings
      ensures Valid()
      ensures fedexTrackings == old(fedexTrackings)[Stages[index].id := value]
    {
      StagesTable();
      fedexTrackings := fedexTrackings[Stages[index].id := value];
    }

    /** `toggleOrderExpansion(orderId)`. */
    method ToggleOrderExpansion(orderId: string)
      modifies this`expandedOrders
      ensures expandedOrders == Seqs.Toggle(old(expandedOrders), orderId)
    {
      expandedOrders := Seqs.Toggle(expandedOrders, orderId);
    }

    /** `updateRecordHash(orderId, stageId)`: the stage's flag is raised
        for the call and lowered on every way out, and the world sees
        `RecordEffects`. */
    method UpdateRecordHash(orderId: nat, stageId: string, tx: Outcome<string>)
      requires Valid()
      modifies this`isLoading, this`trace
      ensures Valid()
      ensures isLoading == old(isLoading)[stageId := false] && !RecordDisabled(stageId)
      ensures trace == old(trace) + RecordEffects(activeAccount.Some?, orderId, stageId, fedexTrackings, tx)
    {
      isLoading := isLoading[stageId := true];
      if activeAccount.None? {
        trace := trace + [Alert("Please connect your wallet")];
      } else {
        var tracking := TrackingArg(fedexTrackings, stageId);
        trace := trace + [SendTransaction(MethodFor(stageId), [Int(orderId), tracking])];
        match tx {
          case Done(hash) =>
            trace := trace + [Alert("Success! Transaction hash: " + hash)];
            trace := trace + [Refresh];
          case Threw(message) =>
            trace := trace + [Alert("Transaction failed. " + message)];
        }
      }
      isLoading := isLoading[stageId := false];
    }

    /** Whether a stage's record button is disabled. */
    predicate RecordDisabled(stageId: string)
      reads this
      ensures RecordDisabled(stageId) ==> stageId in isLoading
    {
      stageId in isLoading && isLoading[stageId]
    }

    /** The "Send Email Confirmation" button of the stage panel at an index
        that has one. */
    method SendEmailConfirmation(orderId: nat, index: int)
      requires Valid() && HasEmailButton(index)
      modifies this`trace
      ensures trace == old(trace) + EmailEffects(orderId, Stages[index], fedexTrackings)
      ensures index == 3 ==> trace == old(trace) + [Alert("Please paste FedEx tracking first")]
    {
      var stage := Stages[index];
      if stage.id !in fedexTrackings || fedexTrackings[stage.id] == "" {
        trace := trace + [Alert("Please paste FedEx tracking first")];
      } else {
        trace := trace + [SendEmail(orderId, stage.id, stage.title, stage.description, fedexTrackings[stage.id]),
                          Alert("Email sent successfully")];
      }
    }
  }
}
