/** The whitelisted entry points of shipment.py: the rate quote behind its
    required-field gate, the shipment creation that validates, stamps a
    reference, fills in defaults and records the result, and the label and
    tracking calls that refuse an empty shipment id.

    The clock, the record store and the network are inputs: `stamp` is the
    formatted current time, `SaveOutcome` is what the store did with the new
    shipment record, and `Transport` is what the carrier answered. */
module Shipment {
  import opened PyValues
  import opened ShipmentValidation
  import opened AramexPayload
  import opened AramexReply
  import opened Aramex

  /** The request body: a JSON text that decoded to an object, or one that
      did not decode. */
  datatype Input = Parsed(data: Dict) | Malformed

  const InvalidJson := "Invalid JSON data provided"
  const ValidationPrefix := "Validation errors: "

  /** The record with a `reference`: a falsy one is replaced by `prefix`
      followed by the time stamp. */
  function WithReference(d: Dict, prefix: string, stamp: string): (r: Dict)
    ensures Truthy(Get(d, "reference")) ==> r == d
    ensures !Truthy(Get(d, "reference")) ==> "reference" in r && r["reference"] == Str(prefix + stamp)
    ensures prefix + stamp != "" ==> Truthy(Get(r, "reference"))
    ensures forall k | k != "reference" :: (k in r <==> k in d) && (k in d ==> r[k] == d[k])
  {
    if Truthy(Get(d, "reference")) then d else d["reference" := Str(prefix + stamp)]
  }

  // ---------------------------------------------------------------------
  // fetch_shipping_rates
  // ---------------------------------------------------------------------

  /** The eight keys a rate quote needs, in the order they are checked. */
  const RateRequiredFields: seq<string> := [
    "origin_city", "origin_country_code", "destination_city", "destination_country_code",
    "weight", "length", "width", "height"]

  /** The key, spaces for underscores, title-cased: "Origin Country Code is required". */
  function RateFieldMessage(field: string): string
  {
    Title(ReplaceChar(field, '_', ' ')) + " is required"
  }

  function RateChecks(): seq<Check>
  {
    seq(|RateRequiredFields|, i requires 0 <= i < |RateRequiredFields| =>
      (RateRequiredFields[i], RateFieldMessage(RateRequiredFields[i])))
  }

  lemma RateFieldMessageDistinct(f: string, g: string)
    requires |f| != |g| || (f != [] && g != [] && f[0] != g[0] && 'a' <= f[0] <= 'z' && 'a' <= g[0] <= 'z')
    ensures RateFieldMessage(f) != RateFieldMessage(g)
  {
    if |f| == |g| {
      assert RateFieldMessage(f)[0] == Upper(f[0]);
      assert RateFieldMessage(g)[0] == Upper(g[0]);
    }
  }

  /** The eight gate messages are pairwise different. */
  lemma RateMessagesDistinct()
    ensures DistinctMessages(RateChecks())
  {
    var cs := RateChecks();
    forall i, j | 0 <= i < j < |cs| ensures cs[i].1 != cs[j].1 {
      RateFieldMessageDistinct(RateRequiredFields[i], RateRequiredFields[j]);
    }
  }

  /** Each listed key that is missing or falsy (0 included) yields its
      message exactly once, and a truthy one never does. */
  lemma RateGateExactlyOnce(d: Dict, k: nat)
    requires k < |RateRequiredFields|
    ensures multiset(RequiredErrors(d, RateChecks()))[RateFieldMessage(RateRequiredFields[k])]
            == if Truthy(Get(d, RateRequiredFields[k])) then 0 else 1
  {
    RateMessagesDistinct();
    RequiredErrorsCount(d, RateChecks(), k);
  }

  /** The gate lets a record through exactly when all eight keys are truthy. */
  lemma RateGatePassIff(d: Dict)
    ensures RequiredErrors(d, RateChecks()) == []
            <==> forall f | f in RateRequiredFields :: Truthy(Get(d, f))
  {
    var cs := RateChecks();
    RequiredErrorsEmptyIff(d, cs);
    if forall f | f in RateRequiredFields :: Truthy(Get(d, f)) {
      forall i | 0 <= i < |cs| ensures Truthy(Get(d, cs[i].0)) {
        assert RateRequiredFields[i] in RateRequiredFields;
      }
    }
    if RequiredErrors(d, cs) == [] {
      forall f | f in RateRequiredFields ensures Truthy(Get(d, f)) {
        var i :| 0 <= i < |RateRequiredFields| && RateRequiredFields[i] == f;
        assert cs[i].0 == f;
      }
    }
  }

  /** The rate quote for a request body. */
  function FetchRatesOutcome(settings: Dict, input: Input, stamp: string, t: Transport): RatesResult
  {
    match input
    case Malformed => RatesResult(false, [], InvalidJson)
    case Parsed(d) =>
      var errors := RequiredErrors(d, RateChecks());
      if errors != [] then RatesResult(false, [], ValidationPrefix + Join(errors, "; "))
      else RatesOutcome(settings, WithReference(d, "RATE_", stamp), t)
  }

  /** The posts a rate quote makes: none unless the gate lets it through. */
  function FetchRatesPosts(settings: Dict, input: Input, stamp: string): seq<Post>
  {
    match input
    case Malformed => []
    case Parsed(d) =>
      if RequiredErrors(d, RateChecks()) != [] then []
      else PostsFor(settings, RateEndpoint, RatePayload(ClientInfoFor(settings), WithReference(d, "RATE_", stamp)))
  }

  method FetchShippingRates(settings: Dict, input: Input, stamp: string, t: Transport)
    returns (result: RatesResult, posts: seq<Post>)
    ensures result == FetchRatesOutcome(settings, input, stamp, t)
    ensures posts == FetchRatesPosts(settings, input, stamp)
  {
    if input.Malformed? {
      return RatesResult(false, [], InvalidJson), [];
    }
    var data := input.data;
    var validationErrors: seq<string> := [];
    var checks := RateChecks();
    for i := 0 to |checks|
      invariant validationErrors == RequiredErrors(data, checks[..i])
    {
      assert checks[..i + 1][..i] == checks[..i];
      if !Truthy(Get(data, checks[i].0)) {
        validationErrors := validationErrors + [checks[i].1];
      }
    }
    assert checks[..|checks|] == checks;
    if validationErrors != [] {
      return RatesResult(false, [], ValidationPrefix + Join(validationErrors, "; ")), [];
    }
    if !Truthy(Get(data, "reference")) {
      data := data["reference" := Str("RATE_" + stamp)];
    }
    result, posts := GetShippingRates(settings, data, t);
  }

  /** A record the gate stops never reaches the carrier: the result is a
      failure with no rate, listing every gate error. */
  lemma RateGateBlocks(settings: Dict, d: Dict, stamp: string, t: Transport)
    requires RequiredErrors(d, RateChecks()) != []
    ensures var r := FetchRatesOutcome(settings, Parsed(d), stamp, t);
      !r.success && r.rates == []
      && r.message == ValidationPrefix + Join(RequiredErrors(d, RateChecks()), "; ")
    ensures FetchRatesPosts(settings, Parsed(d), stamp) == []
  {
  }

  /** The posted quote carries the record's own reference when it is truthy
      and a RATE_ reference stamped with the time otherwise. */
  lemma FetchRatesReference(settings: Dict, d: Dict, stamp: string)
    requires RequiredErrors(d, RateChecks()) == [] && DetailsNumeric(d)
    ensures var posts := FetchRatesPosts(settings, Parsed(d), stamp);
      |posts| == 1
      && posts[0].url == BaseUrl(settings) + "/" + RateEndpoint
      && posts[0].payload.transaction.reference1
         == if Truthy(Get(d, "reference")) then d["reference"] else Str("RATE_" + stamp)
  {
    var r := WithReference(d, "RATE_", stamp);
    assert forall k | k in ["length", "width", "height", "weight", "number_of_pieces"] :: GetOr(r, k, Num(0.0)) == GetOr(d, k, Num(0.0)) || k == "reference";
    assert DetailsNumeric(r) by {
      assert GetOr(r, "length", Num(10.0)) == GetOr(d, "length", Num(10.0));
      assert GetOr(r, "width", Num(10.0)) == GetOr(d, "width", Num(10.0));
      assert GetOr(r, "height", Num(10.0)) == GetOr(d, "height", Num(10.0));
      assert GetOr(r, "weight", Num(1.0)) == GetOr(d, "weight", Num(1.0));
      assert GetOr(r, "number_of_pieces", Num(1.0)) == GetOr(d, "number_of_pieces", Num(1.0));
    }
    PayloadReferences(ClientInfoFor(settings), settings, r, "");
  }

  // ---------------------------------------------------------------------
  // create_aramex_shipment
  // ---------------------------------------------------------------------

  type Default = (string, Value)

  /** The optional keys a shipment creation fills in, with their values; the
      goods' origin defaults to the shipper's country (AE when absent). */
  function DefaultsFor(d: Dict): seq<Default>
  {
    [("product_group", Str("EXP")), ("product_type", Str("PPX")), ("payment_type", Str("P")),
     ("dimension_unit", Str("CM")), ("weight_unit", Str("KG")), ("currency_code", Str("AED")),
     ("goods_origin_country", GetOr(d, "shipper_country_code", Str("AE"))),
     ("cod_amount", Num(0.0)), ("insurance_amount", Num(0.0)), ("collect_amount", Num(0.0))]
  }

  predicate DistinctKeys(ds: seq<Default>)
  {
    forall i, j | 0 <= i < j < |ds| :: ds[i].0 != ds[j].0
  }

  /** `d` after setting, in order, every key of `ds` whose value is falsy. */
  function ApplyDefaults(d: Dict, ds: seq<Default>): Dict
    decreases |ds|
  {
    if ds == [] then d
    else
      var e := ApplyDefaults(d, ds[..|ds| - 1]);
      var last := ds[|ds| - 1];
      if Truthy(Get(e, last.0)) then e else e[last.0 := last.1]
  }

  lemma ApplyDefaultsStep(d: Dict, ds: seq<Default>, i: nat)
    requires i < |ds|
    ensures var e := ApplyDefaults(d, ds[..i]);
      ApplyDefaults(d, ds[..i + 1]) == if Truthy(Get(e, ds[i].0)) then e else e[ds[i].0 := ds[i].1]
  {
    assert ds[..i + 1][..i] == ds[..i];
  }

  /** Keys outside the defaults list are left exactly as they were. */
  lemma {:induction false} ApplyDefaultsUnlisted(d: Dict, ds: seq<Default>, k: string)
    requires forall i | 0 <= i < |ds| :: ds[i].0 != k
    ensures k in ApplyDefaults(d, ds) <==> k in d
    ensures k in d ==> ApplyDefaults(d, ds)[k] == d[k]
    decreases |ds|
  {
    if ds != [] {
      var n := |ds| - 1;
      assert forall i | 0 <= i < n :: ds[..n][i] == ds[i];
      ApplyDefaultsUnlisted(d, ds[..n], k);
    }
  }

  /** A listed key keeps its value when it is truthy and takes its default
      otherwise. */
  lemma {:induction false} ApplyDefaultsListed(d: Dict, ds: seq<Default>, i: nat)
    requires DistinctKeys(ds) && i < |ds|
    ensures var r := ApplyDefaults(d, ds);
      ds[i].0 in r && r[ds[i].0] == if Truthy(Get(d, ds[i].0)) then d[ds[i].0] else ds[i].1
    decreases |ds|
  {
    var n := |ds| - 1;
    var init := ds[..n];
    if i == n {
      assert forall j | 0 <= j < n :: init[j].0 != ds[i].0 by {
        forall j | 0 <= j < n ensures init[j].0 != ds[i].0 {
          assert init[j] == ds[j];
        }
      }
      ApplyDefaultsUnlisted(d, init, ds[i].0);
    } else {
      assert DistinctKeys(init) && init[i] == ds[i] by {
        forall a, b | 0 <= a < b < |init| ensures init[a].0 != init[b].0 {
          assert init[a] == ds[a] && init[b] == ds[b];
        }
      }
      ApplyDefaultsListed(d, init, i);
    }
  }

  lemma DefaultKeysDistinct(d: Dict)
    ensures DistinctKeys(DefaultsFor(d))
    ensures forall i | 0 <= i < |DefaultsFor(d)| :: DefaultsFor(d)[i].0 != "reference"
  {
    var ds := DefaultsFor(d);
    forall i, j | 0 <= i < j < |ds| ensures ds[i].0 != ds[j].0 {
      assert |ds[i].0| != |ds[j].0| || ds[i].0[0] != ds[j].0[0] || ds[i].0[1] != ds[j].0[1];
    }
  }

  /** The record a shipment creation sends: its reference stamped with
      SHIP_ when falsy, then its defaults filled in. */
  function Prepared(d: Dict, stamp: string): Dict
  {
    var r := WithReference(d, "SHIP_", stamp);
    ApplyDefaults(r, DefaultsFor(r))
  }

  datatype SaveOutcome = Saved(name: string) | SaveFailed

  const SaveWarning := "Shipment created but failed to save in ERPNext"
  const CreateFlowErrorPrefix := "Error creating shipment: "

  /** A created shipment with what became of its ERPNext record. */
  function Recorded(created: CreateResult, save: SaveOutcome): (r: CreateResult)
    requires created.Created?
    ensures r.Created? && r.shipmentId == created.shipmentId && r.reference == created.reference
    ensures r.foreignHawb == created.foreignHawb && r.labelUrl == created.labelUrl && r.message == created.message
    ensures save.Saved? ==> r.erpnextShipmentId == Some(save.name) && r.warning == created.warning
    ensures save.SaveFailed? ==> r.warning == Some(SaveWarning) && r.erpnextShipmentId == created.erpnextShipmentId
  {
    match save
    case Saved(name) => created.(erpnextShipmentId := Some(name))
    case SaveFailed => created.(warning := Some(SaveWarning))
  }

  /** The result of create_aramex_shipment for a request body. */
  function CreateFlowOutcome(settings: Dict, input: Input, stamp: string, t: Transport, save: SaveOutcome): CreateResult
  {
    match input
    case Malformed => CreateFailed(InvalidJson)
    case Parsed(d) =>
      match ShipmentErrors(d)
      case Err(f) => CreateFailed(CreateFlowErrorPrefix + FaultText(f))
      case Ok(errors) =>
        if errors != [] then CreateFailed(ValidationPrefix + Join(errors, "; "))
        else CarrierCreate(settings, Prepared(d, stamp), t, save)
  }

  /** The carrier's answer for a prepared record, with the outcome of
      recording it when the shipment was created. */
  function CarrierCreate(settings: Dict, prepared: Dict, t: Transport, save: SaveOutcome): CreateResult
  {
    var created := CreateOutcome(settings, prepared, t);
    if created.Created? then Recorded(created, save) else created
  }

  function CreateFlowPosts(settings: Dict, input: Input, stamp: string): seq<Post>
  {
    match input
    case Malformed => []
    case Parsed(d) =>
      if ShipmentErrors(d) != Ok([]) then []
      else PostsFor(settings, CreateEndpoint, CreatePayload(ClientInfoFor(settings), settings, Prepared(d, stamp)))
  }

  /** The preparation step of a shipment creation, in place on the record:
      stamp a missing reference, then set each falsy optional key to its
      default, in the order of the defaults list. */
  method PrepareRecord(d: Dict, stamp: string) returns (data: Dict)
    ensures data == Prepared(d, stamp)
  {
    data := d;
    if !Truthy(Get(data, "reference")) {
      data := data["reference" := Str("SHIP_" + stamp)];
    }
    ghost var stamped := data;
    var defaults := DefaultsFor(data);
    for i := 0 to |defaults|
      invariant data == ApplyDefaults(stamped, defaults[..i])
    {
      ApplyDefaultsStep(stamped, defaults, i);
      var (key, value) := defaults[i];
      if !Truthy(Get(data, key)) {
        data := data[key := value];
      }
    }
    assert defaults[..|defaults|] == defaults;
  }

  method CreateAramexShipment(settings: Dict, input: Input, stamp: string, t: Transport, save: SaveOutcome)
    returns (result: CreateResult, posts: seq<Post>)
    ensures result == CreateFlowOutcome(settings, input, stamp, t, save)
    ensures posts == CreateFlowPosts(settings, input, stamp)
  {
    if input.Malformed? {
      return CreateFailed(InvalidJson), [];
    }
    var data := input.data;
    var validation := ValidateShipmentData(data);
    if validation.Err? {
      return CreateFailed(CreateFlowErrorPrefix + FaultText(validation.error)), [];
    }
    if validation.value != [] {
      return CreateFailed(ValidationPrefix + Join(validation.value, "; ")), [];
    }
    data := PrepareRecord(data, stamp);
    CreateFlowValidated(settings, input.data, stamp, t, save);
    result, posts := CreateShipment(settings, data, t);
    if result.Created? {
      match save
      case Saved(name) => result := result.(erpnextShipmentId := Some(name));
      case SaveFailed => result := result.(warning := Some(SaveWarning));
    }
  }

  lemma CreateFlowValidated(settings: Dict, d: Dict, stamp: string, t: Transport, save: SaveOutcome)
    requires ShipmentErrors(d) == Ok([])
    ensures CreateFlowOutcome(settings, Parsed(d), stamp, t, save) == CarrierCreate(settings, Prepared(d, stamp), t, save)
    ensures CreateFlowPosts(settings, Parsed(d), stamp)
            == PostsFor(settings, CreateEndpoint, CreatePayload(ClientInfoFor(settings), settings, Prepared(d, stamp)))
  {
  }

  /** A record that fails validation never reaches the carrier and is
      answered with all its errors. */
  lemma CreateFlowValidationGate(settings: Dict, d: Dict, stamp: string, t: Transport, save: SaveOutcome)
    requires ShipmentErrors(d).Ok? && ShipmentErrors(d).value != []
    ensures CreateFlowOutcome(settings, Parsed(d), stamp, t, save)
            == CreateFailed(ValidationPrefix + Join(ShipmentErrors(d).value, "; "))
    ensures CreateFlowPosts(settings, Parsed(d), stamp) == []
  {
  }

  /** Recording never turns a created shipment into a failure: the flow
      succeeds exactly when the carrier created the shipment, and then either
      names the new record or carries the warning. */
  lemma CreateFlowPersistence(settings: Dict, d: Dict, stamp: string, t: Transport, save: SaveOutcome)
    requires ShipmentErrors(d) == Ok([])
    ensures var r := CreateFlowOutcome(settings, Parsed(d), stamp, t, save);
      var carrier := CreateOutcome(settings, Prepared(d, stamp), t);
      (r.Created? <==> carrier.Created?)
      && (r.Created? ==> r.shipmentId == carrier.shipmentId && r.labelUrl == carrier.labelUrl)
      && (r.Created? && save.Saved? ==> r.erpnextShipmentId == Some(save.name) && r.warning.None?)
      && (r.Created? && save.SaveFailed? ==> r.warning == Some(SaveWarning) && r.erpnextShipmentId.None?)
  {
    CreateOutcomeSuccess(settings, Prepared(d, stamp), t);
  }

  /** Defaulting replaces exactly the falsy keys among the ten listed: a
      truthy listed key and every unlisted key keep their value. */
  /** The reference that preparation stamps survives the defaulting, so it
      is the reference the creation request carries. */
  lemma PreparedReference(d: Dict, stamp: string)
    ensures var p := Prepared(d, stamp);
      "reference" in p && p["reference"] == if Truthy(Get(d, "reference")) then d["reference"] else Str("SHIP_" + stamp)
  {
    var r := WithReference(d, "SHIP_", stamp);
    DefaultKeysDistinct(r);
    ApplyDefaultsUnlisted(r, DefaultsFor(r), "reference");
  }

  lemma PreparedKeys(d: Dict, stamp: string, k: string)
    requires k != "reference"
    ensures var p := Prepared(d, stamp);
      var ds := DefaultsFor(WithReference(d, "SHIP_", stamp));
      (forall i | 0 <= i < |ds| :: ds[i].0 != k) ==> (k in p <==> k in d) && (k in d ==> p[k] == d[k])
    ensures var p := Prepared(d, stamp);
      var ds := DefaultsFor(WithReference(d, "SHIP_", stamp));
      forall i | 0 <= i < |ds| && ds[i].0 == k ::
        k in p && p[k] == if Truthy(Get(d, k)) then d[k] else ds[i].1
  {
    var r := WithReference(d, "SHIP_", stamp);
    var ds := DefaultsFor(r);
    DefaultKeysDistinct(r);
    if forall i | 0 <= i < |ds| :: ds[i].0 != k {
      ApplyDefaultsUnlisted(r, ds, k);
    }
    forall i | 0 <= i < |ds| && ds[i].0 == k
      ensures k in Prepared(d, stamp) && Prepared(d, stamp)[k] == if Truthy(Get(d, k)) then d[k] else ds[i].1
    {
      ApplyDefaultsListed(r, ds, i);
    }
  }

  /** The goods' origin country defaults to the shipper's country code, or
      AE when the record has none. */
  lemma GoodsOriginDefault(d: Dict, stamp: string)
    requires !Truthy(Get(d, "goods_origin_country"))
    ensures "goods_origin_country" in Prepared(d, stamp)
    ensures Prepared(d, stamp)["goods_origin_country"] == GetOr(d, "shipper_country_code", Str("AE"))
  {
    var r := WithReference(d, "SHIP_", stamp);
    DefaultKeysDistinct(r);
    ApplyDefaultsListed(r, DefaultsFor(r), 6);
    assert GetOr(r, "shipper_country_code", Str("AE")) == GetOr(d, "shipper_country_code", Str("AE"));
  }

  /** A validated record has all its package numbers, each converted and
      positive. */
  lemma ValidatedNumbers(d: Dict)
    requires ShipmentErrors(d) == Ok([])
    ensures DetailsNumeric(d)
    ensures ToFloat(GetOr(d, "length", Num(10.0))).value > 0.0 && ToFloat(GetOr(d, "width", Num(10.0))).value > 0.0
    ensures ToFloat(GetOr(d, "height", Num(10.0))).value > 0.0 && ToFloat(GetOr(d, "weight", Num(1.0))).value > 0.0
    ensures ToInt(GetOr(d, "number_of_pieces", Num(1.0))).value > 0
  {
    ShipmentValidIff(d);
    assert "length" in d && "width" in d && "height" in d && "weight" in d && "number_of_pieces" in d;
  }

  /** Preparation leaves a key outside the defaults list (other than the
      reference) as it was. */
  lemma PreparedKeepsKey(d: Dict, stamp: string, k: string, default: Value)
    requires k in ["length", "width", "height", "weight", "number_of_pieces"]
    ensures GetOr(Prepared(d, stamp), k, default) == GetOr(d, k, default)
  {
    var r := WithReference(d, "SHIP_", stamp);
    ApplyDefaultsUnlisted(r, DefaultsFor(r), k);
  }

  /** Preparation makes every amount convertible, given that the amounts the
      record sets are numbers. */
  lemma PreparedCharges(d: Dict, stamp: string)
    requires forall k | k in ["cod_amount", "insurance_amount", "collect_amount"] ::
      Truthy(Get(d, k)) ==> ToFloat(d[k]).Some?
    ensures ChargesNumeric(Prepared(d, stamp))
  {
    var r := WithReference(d, "SHIP_", stamp);
    var ds := DefaultsFor(r);
    DefaultKeysDistinct(r);
    ApplyDefaultsListed(r, ds, 7);
    ApplyDefaultsListed(r, ds, 8);
    ApplyDefaultsListed(r, ds, 9);
  }

  /** A record that passes validation, and whose amounts (when given) are
      numbers, always reaches the carrier, with positive dimensions, weight
      and piece count taken from the record. */
  lemma ValidatedRecordIsPosted(settings: Dict, d: Dict, stamp: string)
    requires ShipmentErrors(d) == Ok([])
    requires forall k | k in ["cod_amount", "insurance_amount", "collect_amount"] ::
      Truthy(Get(d, k)) ==> ToFloat(d[k]).Some?
    ensures var posts := CreateFlowPosts(settings, Parsed(d), stamp);
      |posts| == 1 && posts[0].payload.CreateRequest?
      && var details := posts[0].payload.shipments[0].details;
      details.dimensions.length > 0.0 && details.dimensions.width > 0.0
      && details.dimensions.height > 0.0 && details.actualWeight.value > 0.0
      && details.numberOfPieces > 0
  {
    var p := Prepared(d, stamp);
    ValidatedNumbers(d);
    PreparedKeepsKey(d, stamp, "length", Num(10.0));
    PreparedKeepsKey(d, stamp, "width", Num(10.0));
    PreparedKeepsKey(d, stamp, "height", Num(10.0));
    PreparedKeepsKey(d, stamp, "weight", Num(1.0));
    PreparedKeepsKey(d, stamp, "number_of_pieces", Num(1.0));
    PreparedCharges(d, stamp);
    assert DetailsNumeric(p);
    CreateFlowValidated(settings, d, stamp, NetworkFailure(""), SaveFailed);
    CreatePayloadDetails(ClientInfoFor(settings), settings, p);
    DetailsCarryValues(p, true);
  }

  // ---------------------------------------------------------------------
  // print_shipping_label and track_aramex_shipment
  // ---------------------------------------------------------------------

  const IdRequired := "Shipment ID is required"

  /** The change a call asks the record store to make to the shipment record
      with this carrier id, if there is one. */
  datatype RecordUpdate =
    | SetLabelUrl(shipmentId: string, labelUrl: Value)
    | SetTracking(shipmentId: string, status: Value, trackingData: seq<TrackRecord>)

  /** An empty id is refused before any request; otherwise the label call's
      result is returned and, when a label came back, its URL is recorded. */
  method PrintShippingLabel(settings: Dict, shipmentId: string, t: Transport)
    returns (result: LabelResult, posts: seq<Post>, update: Option<RecordUpdate>)
    ensures shipmentId == "" ==> result == LabelFailed(IdRequired) && posts == [] && update.None?
    ensures shipmentId != "" ==>
      result == LabelOutcome(settings, shipmentId, t)
      && posts == PostsFor(settings, LabelEndpoint, Ok(LabelPayload(ClientInfoFor(settings), shipmentId)))
    ensures update.Some? <==> shipmentId != "" && result.LabelGenerated?
    ensures update.Some? ==> update.value == SetLabelUrl(shipmentId, result.labelUrl)
  {
    if shipmentId == "" {
      return LabelFailed(IdRequired), [], None;
    }
    result, posts := GenerateShippingLabel(settings, shipmentId, t);
    update := None;
    if result.LabelGenerated? {
      update := Some(SetLabelUrl(shipmentId, result.labelUrl));
    }
  }

  /** An empty id is refused before any request; otherwise the tracking
      result is returned and, when it lists some record, the shipment record
      takes the first record's status and the whole list. */
  method TrackAramexShipment(settings: Dict, shipmentId: string, t: Transport)
    returns (result: TrackResult, posts: seq<Post>, update: Option<RecordUpdate>)
    ensures shipmentId == "" ==> result == TrackResult(false, None, IdRequired) && posts == [] && update.None?
    ensures shipmentId != "" ==>
      result == TrackOutcome(settings, shipmentId, t)
      && posts == PostsFor(settings, TrackEndpoint, Ok(TrackPayload(ClientInfoFor(settings), shipmentId)))
    ensures update.Some? <==>
      shipmentId != "" && result.success && result.trackingResults.Some? && result.trackingResults.value != []
    ensures update.Some? ==>
      update.value == SetTracking(shipmentId, result.trackingResults.value[0].status, result.trackingResults.value)
  {
    if shipmentId == "" {
      return TrackResult(false, None, IdRequired), [], None;
    }
    result, posts := TrackShipment(settings, shipmentId, t);
    update := None;
    if result.success && result.trackingResults.Some? && result.trackingResults.value != [] {
      var records := result.trackingResults.value;
      update := Some(SetTracking(shipmentId, records[0].status, records));
    }
  }

  /** The status recorded after tracking is the first tracking result's
      UpdateCode ('' when absent): every mapped record has a status, so the
      'Unknown' fallback of the record update is never used. */
  lemma TrackedStatus(settings: Dict, shipmentId: string, reply: Reply)
    requires shipmentId != "" && Classify(reply).Ok? && reply.trackingResults != []
    ensures var r := TrackOutcome(settings, shipmentId, Delivered(reply));
      r.success && r.trackingResults.value != []
      && r.trackingResults.value[0].status == GetOr(reply.trackingResults[0].fields, "UpdateCode", Str(""))
  {
  }
}
