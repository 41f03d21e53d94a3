/** The request bodies the integration posts to the Aramex web services: the
    client credentials stanza, the transaction references, the addresses and
    parties, the package details, and the four operation payloads (rate
    calculation, shipment creation, label printing, tracking). Every
    optional key of the shipment record falls back to a documented default;
    the numeric fields go through `float()`/`int()` and can fail. */
module AramexPayload {
  import opened PyValues

  const DevUrl := "https://ws.dev.aramex.net"
  const LiveUrl := "https://ws.aramex.net"

  /** The service host: the development host unless the settings switch test
      mode off with a falsy `test_mode`; an absent key means test mode. */
  function BaseUrl(settings: Dict): (url: string)
    ensures url == DevUrl <==> "test_mode" !in settings || Truthy(settings["test_mode"])
    ensures url == LiveUrl <==> "test_mode" in settings && !Truthy(settings["test_mode"])
  {
    if Truthy(GetOr(settings, "test_mode", Bool(true))) then DevUrl else LiveUrl
  }

  const ApiVersion := "v1.0"
  /** The source code that identifies this integration to Aramex. */
  const IntegrationSource := 24

  datatype ClientInfo = ClientInfo(
    userName: Value, password: Value, version: string,
    accountNumber: Value, accountPin: Value, accountEntity: Value,
    accountCountryCode: Value, source: int)

  /** The credentials stanza sent with every request: the six settings
      entries (absent ones as null) with the fixed version and source. */
  function ClientInfoFor(settings: Dict): (c: ClientInfo)
    ensures c.version == ApiVersion && c.source == IntegrationSource
    ensures c.userName == Get(settings, "username") && c.password == Get(settings, "password")
    ensures c.accountNumber == Get(settings, "account_number") && c.accountPin == Get(settings, "account_pin")
    ensures c.accountEntity == Get(settings, "account_entity")
    ensures c.accountCountryCode == Get(settings, "account_country_code")
  {
    ClientInfo(Get(settings, "username"), Get(settings, "password"), ApiVersion,
               Get(settings, "account_number"), Get(settings, "account_pin"),
               Get(settings, "account_entity"), Get(settings, "account_country_code"),
               IntegrationSource)
  }

  datatype Transaction = Transaction(
    reference1: Value, reference2: Value, reference3: Value, reference4: Value, reference5: Value)

  /** Only the first reference is ever filled in. */
  function TransactionFor(reference: Value): Transaction
  {
    Transaction(reference, Str(""), Str(""), Str(""), Str(""))
  }

  datatype Address = Address(
    line1: Value, line2: Value, line3: Value, city: Value,
    stateOrProvinceCode: Value, postCode: Value, countryCode: Value)

  /** The address whose record keys start with `prefix` (`origin`,
      `destination`, `shipper`, `consignee`); the country defaults to AE. */
  function AddressFor(d: Dict, prefix: string): Address
  {
    Address(GetOr(d, prefix + "_address_line1", Str("")),
            GetOr(d, prefix + "_address_line2", Str("")),
            GetOr(d, prefix + "_address_line3", Str("")),
            GetOr(d, prefix + "_city", Str("")),
            GetOr(d, prefix + "_state", Str("")),
            GetOr(d, prefix + "_postal_code", Str("")),
            GetOr(d, prefix + "_country_code", Str("AE")))
  }

  datatype Contact = Contact(
    department: Value, personName: Value, title: Value, companyName: Value,
    phoneNumber1: Value, phoneNumber1Ext: Value, phoneNumber2: Value, phoneNumber2Ext: Value,
    faxNumber: Value, cellPhone: Value, emailAddress: Value, contactType: Value)

  function ContactFor(d: Dict, prefix: string): Contact
  {
    Contact(Str(""), GetOr(d, prefix + "_name", Str("")), Str(""), GetOr(d, prefix + "_company", Str("")),
            GetOr(d, prefix + "_phone", Str("")), Str(""), Str(""), Str(""),
            Str(""), GetOr(d, prefix + "_mobile", Str("")), GetOr(d, prefix + "_email", Str("")), Str(""))
  }

  datatype Party = Party(
    reference1: Value, reference2: Value, accountNumber: Value,
    partyAddress: Address, contact: Contact)

  datatype Dimensions = Dimensions(length: real, width: real, height: real, unit: Value)

  datatype Weight = Weight(value: real, unit: Value)

  datatype Money = Money(value: real, currencyCode: Value)

  /** The three amounts a shipment creation adds to the package details. */
  datatype Charges = Charges(cashOnDelivery: Money, insurance: Money, collect: Money)

  datatype ShipmentDetails = ShipmentDetails(
    dimensions: Dimensions, actualWeight: Weight,
    productGroup: Value, productType: Value, paymentType: Value,
    paymentOptions: Value, services: Value, numberOfPieces: int,
    descriptionOfGoods: Value, goodsOriginCountry: Value,
    charges: Option<Charges>)

  datatype ShipmentSpec = ShipmentSpec(
    reference1: Value, reference2: Value, reference3: Value,
    shipper: Party, consignee: Party, details: ShipmentDetails)

  datatype LabelInfo = LabelInfo(reportId: int, reportType: string)

  /** Labels are always requested as report 9201, delivered as a URL. */
  const UrlLabel := LabelInfo(9201, "URL")

  datatype Payload =
    | RateRequest(clientInfo: ClientInfo, transaction: Transaction,
                  origin: Address, destination: Address,
                  details: ShipmentDetails, preferredCurrencyCode: Value)
    | CreateRequest(clientInfo: ClientInfo, transaction: Transaction,
                    shipments: seq<ShipmentSpec>, labelInfo: LabelInfo)
    | LabelRequest(clientInfo: ClientInfo, transaction: Transaction,
                   shipmentNumber: string, labelInfo: LabelInfo)
    | TrackRequest(clientInfo: ClientInfo, transaction: Transaction,
                   waybills: seq<string>, lastUpdateOnly: bool)

  // ---------------------------------------------------------------------
  // Numeric fields
  // ---------------------------------------------------------------------

  /** The text of the exception a failed `float()` or `int()` raises. */
  function CoercionError(key: string): string
  {
    "could not convert " + key + " to a number"
  }

  /** `float(d.get(key, default))`. */
  function FloatField(d: Dict, key: string, default: real): (r: Result<real, string>)
    ensures r.Ok? <==> ToFloat(GetOr(d, key, Num(default))).Some?
    ensures r.Ok? ==> Some(r.value) == ToFloat(GetOr(d, key, Num(default)))
    ensures key !in d ==> r == Ok(default)
    ensures r.Err? ==> r.error == CoercionError(key)
  {
    match ToFloat(GetOr(d, key, Num(default)))
    case None => Err(CoercionError(key))
    case Some(x) => Ok(x)
  }

  /** `int(d.get(key, default))`. */
  function IntField(d: Dict, key: string, default: int): (r: Result<int, string>)
    ensures r.Ok? <==> ToInt(GetOr(d, key, Num(default as real))).Some?
    ensures r.Ok? ==> Some(r.value) == ToInt(GetOr(d, key, Num(default as real)))
    ensures key !in d ==> r == Ok(default)
    ensures r.Err? ==> r.error == CoercionError(key)
  {
    match ToInt(GetOr(d, key, Num(default as real)))
    case None => Err(CoercionError(key))
    case Some(n) => Ok(n)
  }

  /** Every numeric field of the package details converts. */
  predicate DetailsNumeric(d: Dict)
  {
    ToFloat(GetOr(d, "length", Num(10.0))).Some? && ToFloat(GetOr(d, "width", Num(10.0))).Some?
    && ToFloat(GetOr(d, "height", Num(10.0))).Some? && ToFloat(GetOr(d, "weight", Num(1.0))).Some?
    && ToInt(GetOr(d, "number_of_pieces", Num(1.0))).Some?
  }

  /** Every amount of a shipment creation converts. */
  predicate ChargesNumeric(d: Dict)
  {
    ToFloat(GetOr(d, "cod_amount", Num(0.0))).Some?
    && ToFloat(GetOr(d, "insurance_amount", Num(0.0))).Some?
    && ToFloat(GetOr(d, "collect_amount", Num(0.0))).Some?
  }

  function ChargesFor(d: Dict): (r: Result<Charges, string>)
    ensures r.Ok? <==> ChargesNumeric(d)
  {
    var currency := GetOr(d, "currency_code", Str("AED"));
    var cod :- FloatField(d, "cod_amount", 0.0);
    var insurance :- FloatField(d, "insurance_amount", 0.0);
    var collect :- FloatField(d, "collect_amount", 0.0);
    Ok(Charges(Money(cod, currency), Money(insurance, currency), Money(collect, currency)))
  }

  /** The package details, converting the fields in the order the record
      literal lists them, so the first field that fails names the error.
      `charged` adds the amounts a shipment creation carries. */
  function DetailsFor(d: Dict, charged: bool): (r: Result<ShipmentDetails, string>)
    ensures r.Ok? <==> DetailsNumeric(d) && (charged ==> ChargesNumeric(d))
    ensures r.Ok? ==> r.value.charges.Some? == charged
  {
    var length :- FloatField(d, "length", 10.0);
    var width :- FloatField(d, "width", 10.0);
    var height :- FloatField(d, "height", 10.0);
    var weight :- FloatField(d, "weight", 1.0);
    var pieces :- IntField(d, "number_of_pieces", 1);
    var charges: Option<Charges> :-
      if charged then (match ChargesFor(d) case Ok(c) => Ok(Some(c)) case Err(e) => Err(e))
      else Ok(None);
    Ok(ShipmentDetails(
      Dimensions(length, width, height, GetOr(d, "dimension_unit", Str("CM"))),
      Weight(weight, GetOr(d, "weight_unit", Str("KG"))),
      GetOr(d, "product_group", Str("EXP")), GetOr(d, "product_type", Str("PPX")),
      GetOr(d, "payment_type", Str("P")), GetOr(d, "payment_options", Str("")),
      GetOr(d, "services", Str("")), pieces,
      GetOr(d, "description", Str("General Goods")),
      GetOr(d, "goods_origin_country", Str("AE")),
      charges))
  }

  // ---------------------------------------------------------------------
  // The four payloads
  // ---------------------------------------------------------------------

  /** The rate calculation request for a shipment record. */
  function RatePayload(client: ClientInfo, d: Dict): (r: Result<Payload, string>)
    ensures r.Ok? <==> DetailsNumeric(d)
    ensures r.Ok? ==> r.value.RateRequest? && r.value.clientInfo == client
  {
    var details :- DetailsFor(d, false);
    Ok(RateRequest(client, TransactionFor(GetOr(d, "reference", Str(""))),
                   AddressFor(d, "origin"), AddressFor(d, "destination"),
                   details, GetOr(d, "currency_code", Str("AED"))))
  }

  /** The party stanza: only the shipper carries the account number. */
  function PartyFor(d: Dict, prefix: string, accountNumber: Value): Party
  {
    Party(Str(""), Str(""), accountNumber, AddressFor(d, prefix), ContactFor(d, prefix))
  }

  /** The shipment creation request: one shipment, shipper and consignee
      from the record, the account from the settings, a URL label. */
  function CreatePayload(client: ClientInfo, settings: Dict, d: Dict): (r: Result<Payload, string>)
    ensures r.Ok? <==> DetailsNumeric(d) && ChargesNumeric(d)
    ensures r.Ok? ==> r.value.CreateRequest? && r.value.clientInfo == client && |r.value.shipments| == 1
  {
    var reference := GetOr(d, "reference", Str(""));
    var details :- DetailsFor(d, true);
    var shipment := ShipmentSpec(reference, Str(""), Str(""),
                                 PartyFor(d, "shipper", Get(settings, "account_number")),
                                 PartyFor(d, "consignee", Str("")),
                                 details);
    Ok(CreateRequest(client, TransactionFor(reference), [shipment], UrlLabel))
  }

  /** The label printing request for one waybill. */
  function LabelPayload(client: ClientInfo, shipmentId: string): (p: Payload)
    ensures p.LabelRequest? && p.shipmentNumber == shipmentId && p.labelInfo == UrlLabel
  {
    LabelRequest(client, TransactionFor(Str("")), shipmentId, UrlLabel)
  }

  /** The tracking request for one waybill, asking for its whole history. */
  function TrackPayload(client: ClientInfo, shipmentId: string): (p: Payload)
    ensures p.TrackRequest? && p.waybills == [shipmentId] && !p.lastUpdateOnly
  {
    TrackRequest(client, TransactionFor(Str("")), [shipmentId], false)
  }

  // ---------------------------------------------------------------------
  // Properties of the payloads
  // ---------------------------------------------------------------------

  /** References two to five are always blank in every payload. */
  predicate BlankTrailingReferences(t: Transaction)
  {
    t.reference2 == Str("") && t.reference3 == Str("") && t.reference4 == Str("") && t.reference5 == Str("")
  }

  lemma PayloadReferences(client: ClientInfo, settings: Dict, d: Dict, shipmentId: string)
    ensures RatePayload(client, d).Ok? ==> BlankTrailingReferences(RatePayload(client, d).value.transaction)
    ensures RatePayload(client, d).Ok? ==> RatePayload(client, d).value.transaction.reference1 == GetOr(d, "reference", Str(""))
    ensures CreatePayload(client, settings, d).Ok? ==> BlankTrailingReferences(CreatePayload(client, settings, d).value.transaction)
    ensures CreatePayload(client, settings, d).Ok? ==> CreatePayload(client, settings, d).value.transaction.reference1 == GetOr(d, "reference", Str(""))
    ensures CreatePayload(client, settings, d).Ok? ==> CreatePayload(client, settings, d).value.shipments[0].reference1 == GetOr(d, "reference", Str(""))
    ensures BlankTrailingReferences(LabelPayload(client, shipmentId).transaction)
    ensures LabelPayload(client, shipmentId).transaction.reference1 == Str("")
    ensures BlankTrailingReferences(TrackPayload(client, shipmentId).transaction)
    ensures TrackPayload(client, shipmentId).transaction.reference1 == Str("")
  {
  }

  /** A rate request is about the record: its origin and destination come
      from the `origin_` and `destination_` keys, its package from the
      record's package fields, and its preferred currency is the record's
      `currency_code`, AED when absent. */
  lemma RatePayloadParts(client: ClientInfo, d: Dict)
    requires RatePayload(client, d).Ok?
    ensures DetailsFor(d, false).Ok?
    ensures var p := RatePayload(client, d).value;
      p.origin == AddressFor(d, "origin")
      && p.destination == AddressFor(d, "destination")
      && p.details == DetailsFor(d, false).value
      && p.details.charges.None?
      && p.preferredCurrencyCode == GetOr(d, "currency_code", Str("AED"))
      && p.origin.countryCode == GetOr(d, "origin_country_code", Str("AE"))
      && p.destination.countryCode == GetOr(d, "destination_country_code", Str("AE"))
  {
    assert "origin" + "_country_code" == "origin_country_code";
    assert "destination" + "_country_code" == "destination_country_code";
  }

  /** The package details of a record that leaves every optional key out. */
  lemma DetailsDefaults(d: Dict, charged: bool)
    requires forall k | k in ["length", "width", "height", "weight", "number_of_pieces", "dimension_unit",
                              "weight_unit", "product_group", "product_type", "payment_type",
                              "description", "goods_origin_country", "currency_code",
                              "cod_amount", "insurance_amount", "collect_amount"] :: k !in d
    ensures DetailsFor(d, charged).Ok?
    ensures var s := DetailsFor(d, charged).value;
      s.dimensions == Dimensions(10.0, 10.0, 10.0, Str("CM")) && s.actualWeight == Weight(1.0, Str("KG"))
      && s.numberOfPieces == 1 && s.descriptionOfGoods == Str("General Goods")
      && s.goodsOriginCountry == Str("AE") && s.productGroup == Str("EXP")
      && s.productType == Str("PPX") && s.paymentType == Str("P")
      && (charged ==> s.charges == Some(Charges(Money(0.0, Str("AED")), Money(0.0, Str("AED")), Money(0.0, Str("AED")))))
  {
    assert "length" !in d && "width" !in d && "height" !in d && "weight" !in d;
    assert "number_of_pieces" !in d && "cod_amount" !in d && "insurance_amount" !in d && "collect_amount" !in d;
    assert "dimension_unit" !in d && "weight_unit" !in d && "product_group" !in d && "product_type" !in d;
    assert "payment_type" !in d && "description" !in d && "goods_origin_country" !in d && "currency_code" !in d;
  }

  /** A converted package carries the record's own numbers. */
  lemma DetailsCarryValues(d: Dict, charged: bool)
    requires DetailsFor(d, charged).Ok?
    ensures var s := DetailsFor(d, charged).value;
      Some(s.dimensions.length) == ToFloat(GetOr(d, "length", Num(10.0)))
      && Some(s.dimensions.width) == ToFloat(GetOr(d, "width", Num(10.0)))
      && Some(s.dimensions.height) == ToFloat(GetOr(d, "height", Num(10.0)))
      && Some(s.actualWeight.value) == ToFloat(GetOr(d, "weight", Num(1.0)))
      && Some(s.numberOfPieces) == ToInt(GetOr(d, "number_of_pieces", Num(1.0)))
  {
  }

  /** The one shipment of a creation carries the charged package details. */
  lemma CreatePayloadDetails(client: ClientInfo, settings: Dict, d: Dict)
    requires CreatePayload(client, settings, d).Ok?
    ensures DetailsFor(d, true).Ok?
    ensures CreatePayload(client, settings, d).value.shipments[0].details == DetailsFor(d, true).value
  {
  }

  /** The three amounts of a shipment creation share one currency, the
      record's `currency_code` (AED when absent), and each absent amount is 0. */
  lemma CreateChargesShareCurrency(client: ClientInfo, settings: Dict, d: Dict)
    requires CreatePayload(client, settings, d).Ok?
    ensures var c := CreatePayload(client, settings, d).value.shipments[0].details.charges;
      c.Some?
      && c.value.cashOnDelivery.currencyCode == GetOr(d, "currency_code", Str("AED"))
      && c.value.insurance.currencyCode == GetOr(d, "currency_code", Str("AED"))
      && c.value.collect.currencyCode == GetOr(d, "currency_code", Str("AED"))
      && ("cod_amount" !in d ==> c.value.cashOnDelivery.value == 0.0)
      && ("insurance_amount" !in d ==> c.value.insurance.value == 0.0)
      && ("collect_amount" !in d ==> c.value.collect.value == 0.0)
  {
  }

  /** A shipment creation asks for a URL label, bills the shipper's account
      from the settings and leaves the consignee's account blank. */
  lemma CreatePayloadParties(client: ClientInfo, settings: Dict, d: Dict)
    requires CreatePayload(client, settings, d).Ok?
    ensures var p := CreatePayload(client, settings, d).value;
      p.labelInfo == LabelInfo(9201, "URL")
      && p.shipments[0].shipper.accountNumber == Get(settings, "account_number")
      && p.shipments[0].consignee.accountNumber == Str("")
      && p.shipments[0].reference1 == p.transaction.reference1
      && p.shipments[0].shipper.partyAddress == AddressFor(d, "shipper")
      && p.shipments[0].shipper.contact == ContactFor(d, "shipper")
      && p.shipments[0].consignee.partyAddress == AddressFor(d, "consignee")
      && p.shipments[0].consignee.contact == ContactFor(d, "consignee")
      && p.shipments[0].shipper.partyAddress.countryCode == GetOr(d, "shipper_country_code", Str("AE"))
      && p.shipments[0].consignee.contact.personName == GetOr(d, "consignee_name", Str(""))
  {
    assert "shipper" + "_country_code" == "shipper_country_code";
    assert "consignee" + "_name" == "consignee_name";
  }
}
