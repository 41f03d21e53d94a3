/** The Aramex client of aramex.py: the `AramexAPI` object (settings, host
    and headers fixed when it is made), its one request primitive with the
    notification filter, and the four service calls (rates, shipment
    creation, label, tracking), each turning every failure into a
    `success = false` result with its own message prefix.

    The network is an input: `Transport` is what came back for the post,
    and each call returns the posts it made, so "no request was sent" is an
    empty list. */
module Aramex {
  import opened PyValues
  import opened AramexPayload
  import opened AramexReply

  /** The outcome of one HTTP post: a requests-level failure (connection,
      timeout, an HTTP error status, an undecodable body) or a decoded reply. */
  datatype Transport = NetworkFailure(cause: string) | Delivered(reply: Reply)

  datatype Post = Post(url: string, headers: map<string, string>, payload: Payload)

  const JsonHeaders: map<string, string> := map["Content-Type" := "application/json", "Accept" := "application/json"]

  const NetworkErrorPrefix := "Network error connecting to Aramex API: "
  const RequestFailedPrefix := "Aramex API request failed: "

  const RateEndpoint := "ShippingAPI.V2/RateCalculator/CalculateRate"
  const CreateEndpoint := "ShippingAPI.V2/Shipping/CreateShipments"
  const LabelEndpoint := "ShippingAPI.V2/Shipping/PrintLabel"
  const TrackEndpoint := "ShippingAPI.V2/Tracking/TrackShipments"

  /** What one request yields: a network failure and an API error both
      become an error text with their own prefix; an accepted reply is
      returned as it came. */
  function RequestOutcome(t: Transport): (r: Result<Reply, string>)
    ensures t.NetworkFailure? ==> r == Err(NetworkErrorPrefix + t.cause)
    ensures t.Delivered? ==> (r.Ok? <==> Classify(t.reply).Ok?)
    ensures r.Ok? ==> t.Delivered? && r.value == t.reply
    ensures t.Delivered? && r.Err? ==> r.error == RequestFailedPrefix + Classify(t.reply).error
  {
    match t
    case NetworkFailure(cause) => Err(NetworkErrorPrefix + cause)
    case Delivered(reply) =>
      match Classify(reply)
      case Ok(accepted) => Ok(accepted)
      case Err(e) => Err(RequestFailedPrefix + e)
  }

  /** The one post a call makes, or none when its payload could not be built. */
  function PostsFor(settings: Dict, endpoint: string, payload: Result<Payload, string>): (posts: seq<Post>)
    ensures |posts| == if payload.Ok? then 1 else 0
    ensures payload.Ok? ==> posts[0].payload == payload.value && posts[0].headers == JsonHeaders
  {
    if payload.Ok? then [Post(BaseUrl(settings) + "/" + endpoint, JsonHeaders, payload.value)] else []
  }

  class AramexApi {
    const settings: Dict
    const baseUrl: string
    const headers: map<string, string>

    constructor(settings: Dict)
      ensures this.settings == settings && baseUrl == BaseUrl(settings) && headers == JsonHeaders
    {
      this.settings := settings;
      baseUrl := BaseUrl(settings);
      headers := JsonHeaders;
    }

    /** Posts `payload` to `endpoint` and applies the notification filter:
        with `HasErrors` set, the messages of the notifications whose code is
        not "000" are gathered in order and, if there are any, joined into
        the error. */
    method MakeApiRequest(endpoint: string, payload: Payload, transport: Transport)
      returns (post: Post, r: Result<Reply, string>)
      ensures post == Post(baseUrl + "/" + endpoint, headers, payload)
      ensures r == RequestOutcome(transport)
    {
      post := Post(baseUrl + "/" + endpoint, headers, payload);
      if transport.NetworkFailure? {
        return post, Err(NetworkErrorPrefix + transport.cause);
      }
      var reply := transport.reply;
      if Truthy(reply.hasErrors) {
        var notes := reply.notifications;
        var errorMessages: seq<string> := [];
        for i := 0 to |notes|
          invariant errorMessages == ErrorMessages(notes[..i])
        {
          assert notes[..i + 1][..i] == notes[..i];
          var note := notes[i];
          if note.code != SuccessCode {
            errorMessages := errorMessages + [MessageText(note)];
          }
        }
        assert notes[..|notes|] == notes;
        if errorMessages != [] {
          var apiError := ApiErrorPrefix + Join(errorMessages, "; ");
          assert Classify(reply) == Err(apiError);
          return post, Err(RequestFailedPrefix + apiError);
        }
      }
      return post, Ok(reply);
    }
  }

  // ---------------------------------------------------------------------
  // get_shipping_rates
  // ---------------------------------------------------------------------

  const RatesErrorPrefix := "Error retrieving shipping rates: "

  function RatesFailure(e: string): RatesResult
  {
    RatesResult(false, [], RatesErrorPrefix + e)
  }

  /** The result of a rate request for record `d`. */
  function RatesOutcome(settings: Dict, d: Dict, t: Transport): RatesResult
  {
    match RatePayload(ClientInfoFor(settings), d)
    case Err(e) => RatesFailure(e)
    case Ok(_) =>
      match RequestOutcome(t)
      case Err(e) => RatesFailure(e)
      case Ok(reply) => MapRates(reply)
  }

  method GetShippingRates(settings: Dict, d: Dict, t: Transport) returns (result: RatesResult, posts: seq<Post>)
    ensures result == RatesOutcome(settings, d, t)
    ensures posts == PostsFor(settings, RateEndpoint, RatePayload(ClientInfoFor(settings), d))
  {
    var api := new AramexApi(settings);
    var payload := RatePayload(ClientInfoFor(api.settings), d);
    if payload.Err? {
      return RatesFailure(payload.error), [];
    }
    var post, reply := api.MakeApiRequest(RateEndpoint, payload.value, t);
    posts := [post];
    if reply.Err? {
      return RatesFailure(reply.error), posts;
    }
    result := MapRates(reply.value);
  }

  /** A rate request succeeds exactly when the package converts and the
      service accepts the request; a failed one carries no rate. */
  lemma RatesOutcomeSuccess(settings: Dict, d: Dict, t: Transport)
    ensures RatesOutcome(settings, d, t).success <==> DetailsNumeric(d) && RequestOutcome(t).Ok?
    ensures !RatesOutcome(settings, d, t).success ==> RatesOutcome(settings, d, t).rates == []
    ensures !DetailsNumeric(d) ==> PostsFor(settings, RateEndpoint, RatePayload(ClientInfoFor(settings), d)) == []
  {
  }

  /** An API error reaches the caller of the rate request: its message
      mentions every failing notification's message. */
  lemma RatesReportApiError(settings: Dict, d: Dict, reply: Reply, k: nat)
    requires DetailsNumeric(d) && Classify(reply).Err?
    requires k < |reply.notifications| && Failing(reply.notifications[k])
    ensures var r := RatesOutcome(settings, d, Delivered(reply));
      !r.success && r.rates == [] && Contains(r.message, MessageText(reply.notifications[k]))
  {
    var e := Classify(reply).error;
    ClassifyMentions(reply, k);
    ContainsInSuffix(RatesErrorPrefix + RequestFailedPrefix, e, MessageText(reply.notifications[k]));
    assert RatePayload(ClientInfoFor(settings), d).Ok?;
    assert RequestOutcome(Delivered(reply)) == Err(RequestFailedPrefix + e);
    assert RatesOutcome(settings, d, Delivered(reply)) == RatesFailure(RequestFailedPrefix + e);
    assert RatesErrorPrefix + (RequestFailedPrefix + e) == (RatesErrorPrefix + RequestFailedPrefix) + e;
  }

  /** A network failure is reported with its cause and no rate. */
  lemma RatesReportNetworkFailure(settings: Dict, d: Dict, cause: string)
    requires DetailsNumeric(d)
    ensures var r := RatesOutcome(settings, d, NetworkFailure(cause));
      !r.success && r.rates == [] && r.message == RatesErrorPrefix + NetworkErrorPrefix + cause
  {
  }

  // ---------------------------------------------------------------------
  // create_shipment
  // ---------------------------------------------------------------------

  const CreateErrorPrefix := "Error creating shipment: "

  function CreateOutcome(settings: Dict, d: Dict, t: Transport): CreateResult
  {
    match CreatePayload(ClientInfoFor(settings), settings, d)
    case Err(e) => CreateFailed(CreateErrorPrefix + e)
    case Ok(_) =>
      match RequestOutcome(t)
      case Err(e) => CreateFailed(CreateErrorPrefix + e)
      case Ok(reply) => MapCreate(reply)
  }

  method CreateShipment(settings: Dict, d: Dict, t: Transport) returns (result: CreateResult, posts: seq<Post>)
    ensures result == CreateOutcome(settings, d, t)
    ensures posts == PostsFor(settings, CreateEndpoint, CreatePayload(ClientInfoFor(settings), settings, d))
  {
    var api := new AramexApi(settings);
    var payload := CreatePayload(ClientInfoFor(api.settings), api.settings, d);
    if payload.Err? {
      return CreateFailed(CreateErrorPrefix + payload.error), [];
    }
    var post, reply := api.MakeApiRequest(CreateEndpoint, payload.value, t);
    posts := [post];
    if reply.Err? {
      return CreateFailed(CreateErrorPrefix + reply.error), posts;
    }
    result := MapCreate(reply.value);
  }

  /** A creation succeeds exactly when the record converts, the service
      accepts the request and its reply lists a shipment. */
  lemma CreateOutcomeSuccess(settings: Dict, d: Dict, t: Transport)
    ensures CreateOutcome(settings, d, t).Created?
            <==> DetailsNumeric(d) && ChargesNumeric(d) && RequestOutcome(t).Ok?
                 && |RequestOutcome(t).value.shipments| > 0
    ensures CreateOutcome(settings, d, t).Created? ==>
      CreateOutcome(settings, d, t).erpnextShipmentId.None? && CreateOutcome(settings, d, t).warning.None?
  {
  }

  // ---------------------------------------------------------------------
  // generate_shipping_label
  // ---------------------------------------------------------------------

  const LabelErrorPrefix := "Error generating shipping label: "

  function LabelOutcome(settings: Dict, shipmentId: string, t: Transport): LabelResult
  {
    match RequestOutcome(t)
    case Err(e) => LabelFailed(LabelErrorPrefix + e)
    case Ok(reply) => MapLabel(reply)
  }

  method GenerateShippingLabel(settings: Dict, shipmentId: string, t: Transport) returns (result: LabelResult, posts: seq<Post>)
    ensures result == LabelOutcome(settings, shipmentId, t)
    ensures posts == PostsFor(settings, LabelEndpoint, Ok(LabelPayload(ClientInfoFor(settings), shipmentId)))
  {
    var api := new AramexApi(settings);
    var payload := LabelPayload(ClientInfoFor(api.settings), shipmentId);
    var post, reply := api.MakeApiRequest(LabelEndpoint, payload, t);
    posts := [post];
    if reply.Err? {
      return LabelFailed(LabelErrorPrefix + reply.error), posts;
    }
    result := MapLabel(reply.value);
  }

  /** A label is produced exactly when the service accepts the request and
      returns a non-empty label stanza. */
  lemma LabelOutcomeSuccess(settings: Dict, shipmentId: string, t: Transport)
    ensures LabelOutcome(settings, shipmentId, t).LabelGenerated?
            <==> RequestOutcome(t).Ok? && TruthyObject(t.reply.shipmentLabel)
  {
  }

  // ---------------------------------------------------------------------
  // track_shipment
  // ---------------------------------------------------------------------

  const TrackErrorPrefix := "Error tracking shipment: "

  function TrackOutcome(settings: Dict, shipmentId: string, t: Transport): TrackResult
  {
    match RequestOutcome(t)
    case Err(e) => TrackResult(false, Some([]), TrackErrorPrefix + e)
    case Ok(reply) => TrackResult(true, Some(MapTracking(reply.trackingResults)), TrackingRetrieved)
  }

  /** Tracking succeeds exactly when the service accepts the request, and
      then lists one record per tracking result of the reply; an empty reply
      is a success with no record. */
  lemma TrackOutcomeSuccess(settings: Dict, shipmentId: string, t: Transport)
    ensures TrackOutcome(settings, shipmentId, t).success <==> RequestOutcome(t).Ok?
    ensures TrackOutcome(settings, shipmentId, t).trackingResults.Some?
    ensures TrackOutcome(settings, shipmentId, t).success ==>
      |TrackOutcome(settings, shipmentId, t).trackingResults.value| == |t.reply.trackingResults|
    ensures !TrackOutcome(settings, shipmentId, t).success ==>
      TrackOutcome(settings, shipmentId, t).trackingResults == Some([])
  {
  }

  method TrackShipment(settings: Dict, shipmentId: string, t: Transport) returns (result: TrackResult, posts: seq<Post>)
    ensures result == TrackOutcome(settings, shipmentId, t)
    ensures posts == PostsFor(settings, TrackEndpoint, Ok(TrackPayload(ClientInfoFor(settings), shipmentId)))
  {
    var api := new AramexApi(settings);
    var payload := TrackPayload(ClientInfoFor(api.settings), shipmentId);
    var post, reply := api.MakeApiRequest(TrackEndpoint, payload, t);
    posts := [post];
    if reply.Err? {
      return TrackResult(false, Some([]), TrackErrorPrefix + reply.error), posts;
    }
    var results := reply.value.trackingResults;
    var records: seq<TrackRecord> := [];
    if results != [] {
      for i := 0 to |results|
        invariant records == MapTracking(results[..i])
      {
        var entry := results[i];
        var events: seq<TrackEvent> := [];
        if entry.events != [] {
          for j := 0 to |entry.events|
            invariant events == MapEvents(entry.events[..j])
          {
            var e := entry.events[j];
            events := events + [TrackEvent(GetOr(e, "UpdateDateTime", Str("")), GetOr(e, "UpdateLocation", Str("")),
                                           GetOr(e, "UpdateDescription", Str("")), GetOr(e, "Comments", Str("")))];
            assert MapEvents([e]) == [EventFor(e)];
            MapEventsAppend(entry.events[..j], [e]);
            assert entry.events[..j + 1] == entry.events[..j] + [e];
          }
          assert entry.events[..|entry.events|] == entry.events;
        }
        records := records + [TrackRecord(
          GetOr(entry.fields, "WaybillNumber", Str("")), GetOr(entry.fields, "Reference", Str("")),
          GetOr(entry.fields, "UpdateCode", Str("")), GetOr(entry.fields, "ProblemCode", Str("")),
          GetOr(entry.fields, "GrossWeight", Num(0.0)), GetOr(entry.fields, "ChargedWeight", Num(0.0)),
          events)];
        assert events == MapEvents(entry.events);
        assert MapTracking([entry]) == [RecordFor(entry)];
        MapTrackingAppend(results[..i], [entry]);
        assert results[..i + 1] == results[..i] + [entry];
      }
      assert results[..|results|] == results;
    }
    assert records == MapTracking(results);
    result := TrackResult(true, Some(records), TrackingRetrieved);
  }
}
