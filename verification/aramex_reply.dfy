/** What the Aramex web services send back, decoded, and what the
    integration makes of it: the HasErrors/Notifications filter that turns a
    reply into an API error, and the four mappings from a reply to the
    `{success, ...}` result handed to the caller. */
module AramexReply {
  import opened PyValues

  /** One entry of `Notifications`; `code` is null when the entry has no
      `Code`, `message` is None when it has no `Message`. */
  datatype Notification = Notification(code: Value, message: Option<string>)

  /** One entry of `Shipments` in a creation reply. */
  datatype ShipmentEntry = ShipmentEntry(fields: Dict, shipmentLabel: Option<Dict>)

  /** One entry of `TrackingResults`, with its `TrackingUpdateEvents`. */
  datatype TrackingResult = TrackingResult(fields: Dict, events: seq<Dict>)

  /** A decoded reply. `hasErrors` is false when the key is absent; the
      lists are empty and the objects None when their key is absent. */
  datatype Reply = Reply(
    hasErrors: Value,
    notifications: seq<Notification>,
    totalAmount: Option<Dict>,
    shipments: seq<ShipmentEntry>,
    shipmentLabel: Option<Dict>,
    trackingResults: seq<TrackingResult>)

  /** Python truthiness of an optional JSON object: present and non-empty. */
  predicate TruthyObject(o: Option<Dict>)
  {
    o.Some? && |o.value| > 0
  }

  // ---------------------------------------------------------------------
  // The notification filter
  // ---------------------------------------------------------------------

  const SuccessCode := Str("000")
  const UnknownError := "Unknown error"
  const ApiErrorPrefix := "Aramex API Error: "

  predicate Failing(n: Notification)
  {
    n.code != SuccessCode
  }

  function MessageText(n: Notification): string
  {
    match n.message
    case None => UnknownError
    case Some(m) => m
  }

  /** The messages of the failing notifications, in order. */
  function ErrorMessages(ns: seq<Notification>): seq<string>
    decreases |ns|
  {
    if ns == [] then []
    else
      var last := ns[|ns| - 1];
      ErrorMessages(ns[..|ns| - 1]) + (if Failing(last) then [MessageText(last)] else [])
  }

  /** One notification contributes its message exactly when it fails. */
  lemma ErrorMessagesSingle(n: Notification)
    ensures ErrorMessages([n]) == if Failing(n) then [MessageText(n)] else []
  {
    assert [n][..0] == [];
  }

  /** The filter keeps the order of the notifications: it distributes over
      concatenation. */
  lemma {:induction false} ErrorMessagesAppend(a: seq<Notification>, b: seq<Notification>)
    ensures ErrorMessages(a + b) == ErrorMessages(a) + ErrorMessages(b)
    decreases |b|
  {
    if b != [] {
      var n := |b| - 1;
      assert (a + b)[..|a + b| - 1] == a + b[..n];
      ErrorMessagesAppend(a, b[..n]);
    } else {
      assert a + b == a;
    }
  }

  /** There is some error message exactly when some notification fails. */
  lemma {:induction false} ErrorMessagesEmptyIff(ns: seq<Notification>)
    ensures ErrorMessages(ns) == [] <==> forall i | 0 <= i < |ns| :: !Failing(ns[i])
    decreases |ns|
  {
    if ns != [] {
      var n := |ns| - 1;
      ErrorMessagesEmptyIff(ns[..n]);
      assert forall i | 0 <= i < n :: ns[..n][i] == ns[i];
    }
  }

  /** Every failing notification's message is among the error messages. */
  lemma {:induction false} ErrorMessagesComplete(ns: seq<Notification>, k: nat)
    requires k < |ns| && Failing(ns[k])
    ensures MessageText(ns[k]) in ErrorMessages(ns)
    decreases |ns|
  {
    var n := |ns| - 1;
    if k < n {
      assert ns[..n][k] == ns[k];
      ErrorMessagesComplete(ns[..n], k);
    }
  }

  /** What the filter does to a decoded reply: it is an API error when
      `HasErrors` is truthy and some notification code is not "000"; the
      error joins those notifications' messages. Otherwise the reply passes
      through unchanged, even with `HasErrors` set. */
  function Classify(reply: Reply): (r: Result<Reply, string>)
    ensures r.Ok? ==> r.value == reply
  {
    var messages := ErrorMessages(reply.notifications);
    if Truthy(reply.hasErrors) && messages != [] then Err(ApiErrorPrefix + Join(messages, "; "))
    else Ok(reply)
  }

  lemma ClassifyFailsIff(reply: Reply)
    ensures Classify(reply).Err?
            <==> Truthy(reply.hasErrors)
                 && exists i | 0 <= i < |reply.notifications| :: Failing(reply.notifications[i])
  {
    ErrorMessagesEmptyIff(reply.notifications);
  }

  /** A failing reply's error mentions the message of every failing
      notification. */
  lemma ClassifyMentions(reply: Reply, k: nat)
    requires Classify(reply).Err?
    requires k < |reply.notifications| && Failing(reply.notifications[k])
    ensures Contains(Classify(reply).error, MessageText(reply.notifications[k]))
  {
    var messages := ErrorMessages(reply.notifications);
    ErrorMessagesComplete(reply.notifications, k);
    var j :| 0 <= j < |messages| && messages[j] == MessageText(reply.notifications[k]);
    JoinContainsPart(messages, "; ", j);
    ContainsInSuffix(ApiErrorPrefix, Join(messages, "; "), messages[j]);
  }

  // ---------------------------------------------------------------------
  // Rate calculation
  // ---------------------------------------------------------------------

  datatype Rate = Rate(
    serviceType: string, serviceName: string, totalAmount: Value,
    currency: Value, transitTime: string, description: string)

  datatype RatesResult = RatesResult(success: bool, rates: seq<Rate>, message: string)

  const RatesRetrieved := "Shipping rates retrieved successfully"

  /** A reply with a non-empty `TotalAmount` yields the one standard-service
      rate with its amount (0 when absent) and currency (AED when absent); a
      reply without one is still a success, with no rate. */
  function MapRates(reply: Reply): (r: RatesResult)
    ensures r.success && r.message == RatesRetrieved
    ensures |r.rates| == if TruthyObject(reply.totalAmount) then 1 else 0
    ensures |r.rates| == 1 ==>
      r.rates[0].totalAmount == GetOr(reply.totalAmount.value, "Value", Num(0.0))
      && r.rates[0].currency == GetOr(reply.totalAmount.value, "CurrencyCode", Str("AED"))
  {
    var rates :=
      if TruthyObject(reply.totalAmount) then
        var amount := reply.totalAmount.value;
        [Rate("Standard", "Aramex Standard Service", GetOr(amount, "Value", Num(0.0)),
              GetOr(amount, "CurrencyCode", Str("AED")), "N/A", "Standard Aramex shipping service")]
      else [];
    RatesResult(true, rates, RatesRetrieved)
  }

  // ---------------------------------------------------------------------
  // Shipment creation
  // ---------------------------------------------------------------------

  /** The result of a shipment creation. `erpnextShipmentId` and `warning`
      are added by the caller once it has tried to record the shipment. */
  datatype CreateResult =
    | CreateFailed(message: string)
    | Created(shipmentId: Value, reference: Value, foreignHawb: Value, labelUrl: Value,
              message: string, erpnextShipmentId: Option<string>, warning: Option<string>)

  const ShipmentCreated := "Shipment created successfully"
  const NoShipmentData := "Failed to create shipment - no shipment data returned"

  /** The label URL of a listed shipment: '' when it has no label stanza or
      the stanza has no URL. */
  function EntryLabelUrl(e: ShipmentEntry): Value
  {
    match e.shipmentLabel
    case None => Str("")
    case Some(stanza) => GetOr(stanza, "LabelURL", Str(""))
  }

  /** A creation succeeds exactly when the reply lists some shipment, and
      then reports the first one; an empty list is a failure even though
      the service answered. */
  function MapCreate(reply: Reply): (r: CreateResult)
    ensures r.Created? <==> |reply.shipments| > 0
    ensures r.Created? ==>
      r.shipmentId == GetOr(reply.shipments[0].fields, "ID", Str(""))
      && r.reference == GetOr(reply.shipments[0].fields, "Reference1", Str(""))
      && r.foreignHawb == GetOr(reply.shipments[0].fields, "ForeignHAWB", Str(""))
      && r.labelUrl == EntryLabelUrl(reply.shipments[0])
      && r.message == ShipmentCreated && r.erpnextShipmentId.None? && r.warning.None?
    ensures r.CreateFailed? ==> r.message == NoShipmentData
  {
    if |reply.shipments| > 0 then
      var s := reply.shipments[0];
      Created(GetOr(s.fields, "ID", Str("")), GetOr(s.fields, "Reference1", Str("")),
              GetOr(s.fields, "ForeignHAWB", Str("")), EntryLabelUrl(s),
              ShipmentCreated, None, None)
    else CreateFailed(NoShipmentData)
  }

  /** Only the first listed shipment matters. */
  lemma MapCreateFirstOnly(reply: Reply, rest: seq<ShipmentEntry>)
    requires |reply.shipments| > 0
    ensures MapCreate(reply.(shipments := [reply.shipments[0]] + rest)) == MapCreate(reply)
  {
  }

  /** A missing `ShipmentLabel` gives an empty label URL. */
  lemma MapCreateNoLabel(reply: Reply)
    requires |reply.shipments| > 0 && reply.shipments[0].shipmentLabel.None?
    ensures MapCreate(reply).labelUrl == Str("")
  {
  }

  // ---------------------------------------------------------------------
  // Label printing
  // ---------------------------------------------------------------------

  datatype LabelResult = LabelFailed(message: string) | LabelGenerated(labelUrl: Value, message: string)

  const LabelReady := "Shipping label generated successfully"
  const NoLabel := "Failed to generate shipping label"

  /** A label is generated exactly when the reply carries a non-empty
      `ShipmentLabel`, and then its URL is `LabelURL` ('' when absent). */
  function MapLabel(reply: Reply): (r: LabelResult)
    ensures r.LabelGenerated? <==> TruthyObject(reply.shipmentLabel)
    ensures r.LabelGenerated? ==>
      r.labelUrl == GetOr(reply.shipmentLabel.value, "LabelURL", Str("")) && r.message == LabelReady
    ensures r.LabelFailed? ==> r.message == NoLabel
  {
    if TruthyObject(reply.shipmentLabel) then
      LabelGenerated(GetOr(reply.shipmentLabel.value, "LabelURL", Str("")), LabelReady)
    else LabelFailed(NoLabel)
  }

  // ---------------------------------------------------------------------
  // Tracking
  // ---------------------------------------------------------------------

  datatype TrackEvent = TrackEvent(date: Value, location: Value, status: Value, comments: Value)

  datatype TrackRecord = TrackRecord(
    waybillNumber: Value, reference: Value, status: Value, problemCode: Value,
    grossWeight: Value, chargedWeight: Value, events: seq<TrackEvent>)

  /** `trackingResults` is None for a result that carries no such key. */
  datatype TrackResult = TrackResult(success: bool, trackingResults: Option<seq<TrackRecord>>, message: string)

  const TrackingRetrieved := "Tracking information retrieved successfully"

  function EventFor(e: Dict): TrackEvent
  {
    TrackEvent(GetOr(e, "UpdateDateTime", Str("")), GetOr(e, "UpdateLocation", Str("")),
               GetOr(e, "UpdateDescription", Str("")), GetOr(e, "Comments", Str("")))
  }

  function RecordFor(t: TrackingResult): TrackRecord
  {
    TrackRecord(GetOr(t.fields, "WaybillNumber", Str("")), GetOr(t.fields, "Reference", Str("")),
                GetOr(t.fields, "UpdateCode", Str("")), GetOr(t.fields, "ProblemCode", Str("")),
                GetOr(t.fields, "GrossWeight", Num(0.0)), GetOr(t.fields, "ChargedWeight", Num(0.0)),
                MapEvents(t.events))
  }

  /** The events of one tracking result, one record per event, in order. */
  function MapEvents(es: seq<Dict>): seq<TrackEvent>
  {
    seq(|es|, i requires 0 <= i < |es| => EventFor(es[i]))
  }

  /** The tracking results, one record per result, in order. */
  function MapTracking(ts: seq<TrackingResult>): seq<TrackRecord>
  {
    seq(|ts|, i requires 0 <= i < |ts| => RecordFor(ts[i]))
  }

  /** Tracking keeps the shape of the reply: as many records as results and,
      in each, as many events as updates, in the same order; record i and
      its event j carry the values of result i and update j, with absent
      text fields as '' and absent weights as 0. */
  lemma TrackingShape(ts: seq<TrackingResult>, i: nat, j: nat)
    requires i < |ts|
    ensures |MapTracking(ts)| == |ts|
    ensures |MapTracking(ts)[i].events| == |ts[i].events|
    ensures j < |ts[i].events| ==>
      MapTracking(ts)[i].events[j].status == GetOr(ts[i].events[j], "UpdateDescription", Str(""))
    ensures j < |ts[i].events| ==> "UpdateDateTime" !in ts[i].events[j] ==> MapTracking(ts)[i].events[j].date == Str("")
    ensures j < |ts[i].events| ==> "UpdateLocation" !in ts[i].events[j] ==> MapTracking(ts)[i].events[j].location == Str("")
    ensures j < |ts[i].events| ==> "Comments" !in ts[i].events[j] ==> MapTracking(ts)[i].events[j].comments == Str("")
    ensures "WaybillNumber" !in ts[i].fields ==> MapTracking(ts)[i].waybillNumber == Str("")
    ensures "Reference" !in ts[i].fields ==> MapTracking(ts)[i].reference == Str("")
    ensures "UpdateCode" !in ts[i].fields ==> MapTracking(ts)[i].status == Str("")
    ensures "ProblemCode" !in ts[i].fields ==> MapTracking(ts)[i].problemCode == Str("")
    ensures "GrossWeight" !in ts[i].fields ==> MapTracking(ts)[i].grossWeight == Num(0.0)
    ensures "ChargedWeight" !in ts[i].fields ==> MapTracking(ts)[i].chargedWeight == Num(0.0)
    ensures j < |ts[i].events| ==> "UpdateDateTime" in ts[i].events[j] ==>
      MapTracking(ts)[i].events[j].date == ts[i].events[j]["UpdateDateTime"]
    ensures j < |ts[i].events| ==> "UpdateLocation" in ts[i].events[j] ==>
      MapTracking(ts)[i].events[j].location == ts[i].events[j]["UpdateLocation"]
    ensures j < |ts[i].events| ==> "Comments" in ts[i].events[j] ==>
      MapTracking(ts)[i].events[j].comments == ts[i].events[j]["Comments"]
    ensures "WaybillNumber" in ts[i].fields ==> MapTracking(ts)[i].waybillNumber == ts[i].fields["WaybillNumber"]
    ensures "Reference" in ts[i].fields ==> MapTracking(ts)[i].reference == ts[i].fields["Reference"]
    ensures "UpdateCode" in ts[i].fields ==> MapTracking(ts)[i].status == ts[i].fields["UpdateCode"]
    ensures "ProblemCode" in ts[i].fields ==> MapTracking(ts)[i].problemCode == ts[i].fields["ProblemCode"]
    ensures "GrossWeight" in ts[i].fields ==> MapTracking(ts)[i].grossWeight == ts[i].fields["GrossWeight"]
    ensures "ChargedWeight" in ts[i].fields ==> MapTracking(ts)[i].chargedWeight == ts[i].fields["ChargedWeight"]
  {
  }

  /** Mapping the results one at a time and appending agrees with mapping
      them all at once. */
  lemma MapTrackingAppend(a: seq<TrackingResult>, b: seq<TrackingResult>)
    ensures MapTracking(a + b) == MapTracking(a) + MapTracking(b)
  {
  }

  lemma MapEventsAppend(a: seq<Dict>, b: seq<Dict>)
    ensures MapEvents(a + b) == MapEvents(a) + MapEvents(b)
  {
  }
}
