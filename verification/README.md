# Aramex shipping integration for ERPNext, modelled in Dafny

This project models the translation and validation engine of the ERPNext
Aramex shipping integration. It covers two Python modules:

- `shipment/shipment.py` holds the whitelisted entry points:
  - the party and package validators;
  - the rate quote behind its required-field gate;
  - the shipment creation, which validates, stamps a reference, fills in
    defaults and records the result;
  - the label and tracking calls, which refuse an empty shipment id.
- `api/aramex.py` holds the carrier client:
  - the `AramexAPI` object, with its host, headers and credentials stanza;
  - the request primitive, with its `HasErrors`/`Notifications` filter;
  - the four payload builders and the four reply mappings.

The files follow the Python modules:

| file | module | models |
|---|---|---|
| `pyvalues.dfy` | `PyValues` | the Python value semantics the code relies on: `dict.get` with and without a default, truthiness, `float()`/`int()`, `str.replace`, `str.title`, `'; '.join` and substring tests |
| `shipment_validation.dfy` | `ShipmentValidation` | `validate_address_data` and `validate_shipment_data` |
| `aramex_payload.dfy` | `AramexPayload` | `get_base_url`, `get_client_info` and the four request bodies |
| `aramex_reply.dfy` | `AramexReply` | the notification filter and the rate, creation, label and tracking mappings |
| `aramex.dfy` | `Aramex` | the `AramexAPI` class, `make_api_request` and the four service calls |
| `shipment.dfy` | `Shipment` | `fetch_shipping_rates`, `create_aramex_shipment`, `print_shipping_label` and `track_aramex_shipment` |

The outside world enters as parameters:

- The network is a `Transport` value. It is either a `NetworkFailure` (a
  requests-level error, an HTTP error status or an undecodable body) or a
  decoded `Reply`.
- Each operation returns the list of posts it made, so "no carrier call" is
  an empty list.
- The clock is a `stamp` string, the formatted current time.
- The record store is reduced to what it did:
  - `SaveOutcome` says whether the new shipment record was saved;
  - `RecordUpdate` is the change that the label and tracking calls ask for.
- A request body is either a decoded object (`Parsed`) or text that did not
  decode (`Malformed`).

The loops of the source are methods with loop invariants, each proved equal
to a specification function:

- the required-field loop of `validate_address_data`, run once per party, and the one of the rate gate;
- the notification loop of `make_api_request`;
- the defaults loop of the shipment creation;
- the nested event loops of `track_shipment`.

The properties are proved about those specification functions.

## Model

| member | source | states |
|---|---|---|
| PyValues.JoinContainsPart | erpnext_aramex_shipping/erpnext_aramex_shipping/api/aramex.py:90 | every item joined with a separator is a substring of the joined text, so the API error message mentions each failing notification's message (the rate gate's `'; '.join` at shipment/shipment.py:131 is the same join) |
| ShipmentValidation.RequiredErrorsSound | erpnext_aramex_shipping/erpnext_aramex_shipping/shipment/shipment.py:29-31 | every reported "required" message belongs to a checklist entry whose key is missing or falsy |
| ShipmentValidation.RequiredErrorsEmptyIff | erpnext_aramex_shipping/erpnext_aramex_shipping/shipment/shipment.py:29-31 | a checklist reports nothing exactly when every key it names is truthy |
| ShipmentValidation.RequiredErrorsExclude | erpnext_aramex_shipping/erpnext_aramex_shipping/shipment/shipment.py:29-31 | a message that no checklist entry carries is never reported |
| ShipmentValidation.RequiredErrorsCount | erpnext_aramex_shipping/erpnext_aramex_shipping/shipment/shipment.py:29-31 | with distinct messages, each entry's message appears exactly once if its key is falsy and never otherwise, whatever the other entries found (no short circuit) |
| ShipmentValidation.ValidateAddressData | erpnext_aramex_shipping/erpnext_aramex_shipping/shipment/shipment.py:8-43 | the loop and the two format checks return the six "required" errors in field order, then the email and country-code errors, or the TypeError raised on a truthy non-string email or country code |
| ShipmentValidation.PartyMessagesDistinct | erpnext_aramex_shipping/erpnext_aramex_shipping/shipment/shipment.py:20-41 | the eight messages one party can get are pairwise different |
| ShipmentValidation.AddressRequiredExactlyOnce | erpnext_aramex_shipping/erpnext_aramex_shipping/shipment/shipment.py:19-31 | each of name, address line1, city, country code, phone and email yields "<Role> <field> is required" exactly once when falsy and never when truthy, independently of the other fields |
| ShipmentValidation.AddressFormatErrors | erpnext_aramex_shipping/erpnext_aramex_shipping/shipment/shipment.py:33-41 | the email-format error appears exactly once when a present email lacks '@', and the country-code error exactly once when a present code's length is not 2; a missing email or code gives neither |
| ShipmentValidation.AddressFaults | erpnext_aramex_shipping/erpnext_aramex_shipping/shipment/shipment.py:34-40 | the party check raises exactly when the email or the country code is a truthy non-string |
| ShipmentValidation.AddressValidIff | erpnext_aramex_shipping/erpnext_aramex_shipping/shipment/shipment.py:8-43 | a party has no error exactly when its six fields are truthy, its email contains '@' and its country code has two characters |
| ShipmentValidation.PackageMessagesDistinct | erpnext_aramex_shipping/erpnext_aramex_shipping/shipment/shipment.py:72-90 | the six package messages are pairwise different |
| ShipmentValidation.PackageErrorsCounts | erpnext_aramex_shipping/erpnext_aramex_shipping/shipment/shipment.py:64-90 | a non-numeric measure gives the one "valid numbers" error and no range error; otherwise the dimensions error (once, for any non-positive dimension) and the weight error are independent; a missing piece count counts as 0; a non-integer piece count and an empty description get their own errors |
| ShipmentValidation.MeasureErrorsFacts | erpnext_aramex_shipping/erpnext_aramex_shipping/shipment/shipment.py:64-78 | the measure block reports the combined error exactly when some measure does not convert, and each range error at most once |
| ShipmentValidation.PiecesErrorsFacts | erpnext_aramex_shipping/erpnext_aramex_shipping/shipment/shipment.py:80-86 | the piece-count block reports "valid number" exactly when the count does not convert and "greater than 0" exactly when it converts to 0 or less |
| ShipmentValidation.ShipmentErrorsParts | erpnext_aramex_shipping/erpnext_aramex_shipping/shipment/shipment.py:56-90 | the errors come in order: shipper, consignee, measures, pieces, description |
| ShipmentValidation.ValidateShipmentData | erpnext_aramex_shipping/erpnext_aramex_shipping/shipment/shipment.py:46-92 | the method returns the shipper's errors, then the consignee's, then the package's, or the party check's TypeError |
| ShipmentValidation.ShipmentValidIff | erpnext_aramex_shipping/erpnext_aramex_shipping/shipment/shipment.py:46-92 | a record has no error exactly when both parties are complete, all measures convert and are positive, the piece count converts and is positive, and the description is present |
| ShipmentValidation.WeightAndDimensionsTogether | tests/test_aramex_integration.py:210-218 | a non-positive weight and a non-positive dimension are both reported in the same pass |
| AramexPayload.BaseUrl | erpnext_aramex_shipping/erpnext_aramex_shipping/api/aramex.py:45-50 | the development host exactly when `test_mode` is absent or truthy, the production host exactly when it is present and falsy |
| AramexPayload.ClientInfoFor | erpnext_aramex_shipping/erpnext_aramex_shipping/api/aramex.py:52-63 | the credentials stanza carries the six settings entries (null when absent), version v1.0 and source 24 |
| AramexPayload.FloatField | erpnext_aramex_shipping/erpnext_aramex_shipping/api/aramex.py:148-154 | `float(d.get(key, default))` succeeds exactly when the value converts, gives the default for an absent key, and otherwise fails |
| AramexPayload.IntField | erpnext_aramex_shipping/erpnext_aramex_shipping/api/aramex.py:162 | `int(d.get(key, default))` succeeds exactly when the value converts, gives the default for an absent key, and otherwise fails |
| AramexPayload.ChargesFor | erpnext_aramex_shipping/erpnext_aramex_shipping/api/aramex.py:302-313 | the three amounts build exactly when all three convert |
| AramexPayload.DetailsFor | erpnext_aramex_shipping/erpnext_aramex_shipping/api/aramex.py:146-165 | the package details build exactly when the dimensions, weight and piece count convert (and the amounts, when they are charged); only a creation carries amounts |
| AramexPayload.RatePayload | erpnext_aramex_shipping/erpnext_aramex_shipping/api/aramex.py:119-167 | the rate request builds exactly when the package numbers convert, and carries the client stanza |
| AramexPayload.RatePayloadParts | erpnext_aramex_shipping/erpnext_aramex_shipping/api/aramex.py:128-166 | a built rate request takes its origin and destination from the `origin_` and `destination_` keys (country code AE when absent), its package details from the record's package fields without charges, and its preferred currency from `currency_code`, AED when absent |
| AramexPayload.CreatePayload | erpnext_aramex_shipping/erpnext_aramex_shipping/api/aramex.py:214-320 | the creation request builds exactly when the package numbers and amounts convert, and holds exactly one shipment |
| AramexPayload.LabelPayload | erpnext_aramex_shipping/erpnext_aramex_shipping/api/aramex.py:365-379 | the label request names the shipment and asks for report 9201 as a URL |
| AramexPayload.TrackPayload | erpnext_aramex_shipping/erpnext_aramex_shipping/api/aramex.py:420-431 | the tracking request lists exactly the one waybill and asks for the whole history |
| AramexPayload.PayloadReferences | erpnext_aramex_shipping/erpnext_aramex_shipping/api/aramex.py:121-127 | references 2 to 5 are blank in all four payloads; reference 1 is the record's reference (`''` when absent) for a quote and, in both the transaction and the one shipment, for a creation (aramex.py:216-224), and blank for a label or tracking request |
| AramexPayload.DetailsDefaults | erpnext_aramex_shipping/erpnext_aramex_shipping/api/aramex.py:283-313 | a record without the optional keys gets 10x10x10 CM, 1 KG, one piece, "General Goods", origin AE, EXP/PPX/P, and zero amounts in AED |
| AramexPayload.DetailsCarryValues | erpnext_aramex_shipping/erpnext_aramex_shipping/api/aramex.py:285-299 | the built details carry the record's own converted numbers |
| AramexPayload.CreatePayloadDetails | erpnext_aramex_shipping/erpnext_aramex_shipping/api/aramex.py:283-314 | the one shipment of a creation carries the charged package details |
| AramexPayload.CreateChargesShareCurrency | erpnext_aramex_shipping/erpnext_aramex_shipping/api/aramex.py:302-313 | the COD, insurance and collect amounts share the record's currency (AED when absent) and default to 0 |
| AramexPayload.CreatePayloadParties | erpnext_aramex_shipping/erpnext_aramex_shipping/api/aramex.py:223-319 | a creation asks for label 9201 as a URL, bills the shipper's account from the settings, leaves the consignee's account blank and repeats the transaction reference; the shipper's and consignee's address and contact stanzas are the ones built from their own `shipper_`/`consignee_` keys, e.g. the shipper's country code (AE when absent) and the consignee's name |
| AramexReply.ErrorMessagesSingle | erpnext_aramex_shipping/erpnext_aramex_shipping/api/aramex.py:86-88 | one notification contributes its message ('Unknown error' when absent) exactly when its code is not "000" |
| AramexReply.ErrorMessagesAppend | erpnext_aramex_shipping/erpnext_aramex_shipping/api/aramex.py:85-88 | the filter keeps notification order: it distributes over concatenation |
| AramexReply.ErrorMessagesEmptyIff | erpnext_aramex_shipping/erpnext_aramex_shipping/api/aramex.py:85-90 | no message is gathered exactly when every code is "000" |
| AramexReply.ErrorMessagesComplete | erpnext_aramex_shipping/erpnext_aramex_shipping/api/aramex.py:85-88 | every failing notification's message is gathered |
| AramexReply.Classify | erpnext_aramex_shipping/erpnext_aramex_shipping/api/aramex.py:83-92 | an accepted reply is passed through unchanged |
| AramexReply.ClassifyFailsIff | erpnext_aramex_shipping/erpnext_aramex_shipping/api/aramex.py:83-92 | a reply is an API error exactly when `HasErrors` is truthy and some code is not "000"; `HasErrors` with only "000" codes passes |
| AramexReply.ClassifyMentions | tests/test_aramex_integration.py:88-111 | an API error's text contains the message of every failing notification |
| AramexReply.MapRates | erpnext_aramex_shipping/erpnext_aramex_shipping/api/aramex.py:173-188 | always a success; exactly one rate when `TotalAmount` is non-empty, with its `Value` (0 when absent) and `CurrencyCode` (AED when absent), and none otherwise |
| AramexReply.MapCreate | erpnext_aramex_shipping/erpnext_aramex_shipping/api/aramex.py:326-340 | a success exactly when `Shipments` is non-empty, reporting the first entry's id, reference, waybill and label URL; an empty list is the "no shipment data" failure |
| AramexReply.MapCreateFirstOnly | erpnext_aramex_shipping/erpnext_aramex_shipping/api/aramex.py:327 | entries after the first do not affect the result |
| AramexReply.MapCreateNoLabel | erpnext_aramex_shipping/erpnext_aramex_shipping/api/aramex.py:333 | a missing `ShipmentLabel` gives an empty label URL |
| AramexReply.MapLabel | erpnext_aramex_shipping/erpnext_aramex_shipping/api/aramex.py:385-395 | a success exactly when `ShipmentLabel` is non-empty, with its `LabelURL` ('' when absent) |
| AramexReply.TrackingShape | erpnext_aramex_shipping/erpnext_aramex_shipping/api/aramex.py:437-458 | one record per tracking result and one event per update, in order; record i carries result i's present WaybillNumber, Reference, UpdateCode (as status), ProblemCode and weights, and event j update j's present UpdateDateTime, UpdateLocation, UpdateDescription and Comments; an absent WaybillNumber, Reference, UpdateCode or ProblemCode becomes '', an absent weight 0, and an absent UpdateDateTime, UpdateLocation, UpdateDescription or Comments of an event '' |
| AramexReply.MapTrackingAppend | erpnext_aramex_shipping/erpnext_aramex_shipping/api/aramex.py:439-458 | mapping results one at a time and appending agrees with mapping them all |
| AramexReply.MapEventsAppend | erpnext_aramex_shipping/erpnext_aramex_shipping/api/aramex.py:442-448 | mapping events one at a time and appending agrees with mapping them all |
| Aramex.RequestOutcome | erpnext_aramex_shipping/erpnext_aramex_shipping/api/aramex.py:65-101 | a network failure becomes "Network error connecting to Aramex API: " and its cause; an API error becomes "Aramex API request failed: " and the filter's text; an accepted reply is returned unchanged |
| Aramex.PostsFor | erpnext_aramex_shipping/erpnext_aramex_shipping/api/aramex.py:67-77 | one JSON post when the payload was built, none otherwise |
| Aramex.AramexApi.constructor | erpnext_aramex_shipping/erpnext_aramex_shipping/api/aramex.py:13-19 | the client fixes its settings, its host and its JSON headers once |
| Aramex.AramexApi.MakeApiRequest | erpnext_aramex_shipping/erpnext_aramex_shipping/api/aramex.py:65-101 | posts to host/endpoint with the client's headers; the notification loop yields exactly the request outcome |
| Aramex.GetShippingRates | erpnext_aramex_shipping/erpnext_aramex_shipping/api/aramex.py:105-196 | builds the quote, posts it only when it was built, and maps the reply or reports the failure with "Error retrieving shipping rates: " |
| Aramex.RatesOutcomeSuccess | erpnext_aramex_shipping/erpnext_aramex_shipping/api/aramex.py:105-196 | a quote succeeds exactly when the package converts and the service accepts; a failure carries no rate; an unconvertible package is never posted |
| Aramex.RatesReportApiError | tests/test_aramex_integration.py:129-142 | an API error during a quote gives a failure with no rate whose message mentions every failing notification |
| Aramex.RatesReportNetworkFailure | erpnext_aramex_shipping/erpnext_aramex_shipping/api/aramex.py:190-196 | a network failure during a quote gives a failure with no rate carrying the cause |
| Aramex.CreateShipment | erpnext_aramex_shipping/erpnext_aramex_shipping/api/aramex.py:200-347 | builds the creation, posts it only when it was built, and maps the reply or reports the failure with "Error creating shipment: " |
| Aramex.CreateOutcomeSuccess | erpnext_aramex_shipping/erpnext_aramex_shipping/api/aramex.py:200-347 | a creation succeeds exactly when the record converts, the service accepts and the reply lists a shipment |
| Aramex.GenerateShippingLabel | erpnext_aramex_shipping/erpnext_aramex_shipping/api/aramex.py:351-402 | posts the label request and maps the reply or reports the failure with "Error generating shipping label: " |
| Aramex.LabelOutcomeSuccess | erpnext_aramex_shipping/erpnext_aramex_shipping/api/aramex.py:351-402 | a label is produced exactly when the service accepts and returns a non-empty label stanza |
| Aramex.TrackOutcomeSuccess | erpnext_aramex_shipping/erpnext_aramex_shipping/api/aramex.py:406-472 | tracking succeeds exactly when the service accepts, with one record per result; a failure carries an empty list |
| Aramex.TrackShipment | erpnext_aramex_shipping/erpnext_aramex_shipping/api/aramex.py:406-472 | the nested loops build exactly the mapped tracking records, or the failure with "Error tracking shipment: " |
| Shipment.WithReference | erpnext_aramex_shipping/erpnext_aramex_shipping/shipment/shipment.py:134-136 | a truthy reference is kept; a falsy one becomes the prefix and the time stamp, which is then truthy; every other key is unchanged |
| Shipment.RateMessagesDistinct | erpnext_aramex_shipping/erpnext_aramex_shipping/shipment/shipment.py:117-125 | the eight gate messages are pairwise different |
| Shipment.RateGateExactlyOnce | erpnext_aramex_shipping/erpnext_aramex_shipping/shipment/shipment.py:123-125 | each listed key that is missing or falsy (0 included) yields its title-cased message exactly once, a truthy one never |
| Shipment.RateGatePassIff | erpnext_aramex_shipping/erpnext_aramex_shipping/shipment/shipment.py:114-132 | the gate lets a record through exactly when all eight keys are truthy |
| Shipment.FetchShippingRates | erpnext_aramex_shipping/erpnext_aramex_shipping/shipment/shipment.py:96-158 | malformed input and gate errors are answered without a post; otherwise the record, stamped with RATE_ when it has no reference, goes to the rate call |
| Shipment.RateGateBlocks | erpnext_aramex_shipping/erpnext_aramex_shipping/shipment/shipment.py:127-132 | a stopped record gets a failure with no rate, "Validation errors: " and every gate error joined with "; ", and no post |
| Shipment.FetchRatesReference | erpnext_aramex_shipping/erpnext_aramex_shipping/shipment/shipment.py:134-139 | a record through the gate is posted once, to the rate endpoint, with its own truthy reference or RATE_ and the stamp |
| Shipment.ApplyDefaultsUnlisted | erpnext_aramex_shipping/erpnext_aramex_shipping/shipment/shipment.py:206-208 | keys outside the defaults list are left exactly as they were |
| Shipment.ApplyDefaultsListed | erpnext_aramex_shipping/erpnext_aramex_shipping/shipment/shipment.py:206-208 | a listed key keeps a truthy value and otherwise takes its default |
| Shipment.DefaultKeysDistinct | erpnext_aramex_shipping/erpnext_aramex_shipping/shipment/shipment.py:193-204 | the ten default keys are distinct and none is the reference |
| Shipment.Recorded | erpnext_aramex_shipping/erpnext_aramex_shipping/shipment/shipment.py:213-241 | recording keeps the carrier's result and adds the new record's name when saved, or the warning when saving failed |
| Shipment.PrepareRecord | erpnext_aramex_shipping/erpnext_aramex_shipping/shipment/shipment.py:188-208 | the stamping and the defaults loop produce exactly the prepared record |
| Shipment.CreateAramexShipment | erpnext_aramex_shipping/erpnext_aramex_shipping/shipment/shipment.py:162-258 | malformed input, a raised validation fault and validation errors are answered without a post; otherwise the prepared record goes to the creation call and a created shipment is recorded |
| Shipment.CreateFlowValidated | erpnext_aramex_shipping/erpnext_aramex_shipping/shipment/shipment.py:180-211 | a record that passes validation is prepared and sent to the carrier |
| Shipment.CreateFlowValidationGate | erpnext_aramex_shipping/erpnext_aramex_shipping/shipment/shipment.py:180-186 | a record with validation errors gets "Validation errors: " and every error joined with "; ", and no post |
| Shipment.CreateFlowPersistence | erpnext_aramex_shipping/erpnext_aramex_shipping/shipment/shipment.py:213-246 | the flow succeeds exactly when the carrier created the shipment, keeping its id and label URL; a save adds the record name and no warning, a failed save adds the warning and stays a success |
| Shipment.PreparedReference | erpnext_aramex_shipping/erpnext_aramex_shipping/shipment/shipment.py:188-208 | after preparation the record's reference is its own truthy reference, or `SHIP_` followed by the time stamp; the defaulting does not touch it, so that is the reference the creation request carries |
| Shipment.PreparedKeys | erpnext_aramex_shipping/erpnext_aramex_shipping/shipment/shipment.py:193-208 | defaulting replaces exactly the falsy keys among the ten listed, and truthy listed keys and every unlisted key keep their value |
| Shipment.GoodsOriginDefault | erpnext_aramex_shipping/erpnext_aramex_shipping/shipment/shipment.py:200 | a falsy goods origin becomes the shipper's country code, or AE when there is none |
| Shipment.ValidatedNumbers | erpnext_aramex_shipping/erpnext_aramex_shipping/shipment/shipment.py:64-86 | a validated record's dimensions, weight and piece count all convert and are positive |
| Shipment.PreparedKeepsKey | erpnext_aramex_shipping/erpnext_aramex_shipping/shipment/shipment.py:188-208 | preparation leaves the dimensions, weight and piece count as they were |
| Shipment.PreparedCharges | erpnext_aramex_shipping/erpnext_aramex_shipping/shipment/shipment.py:201-208 | after preparation every amount converts, given that the amounts the record sets are numbers |
| Shipment.ValidatedRecordIsPosted | erpnext_aramex_shipping/erpnext_aramex_shipping/shipment/shipment.py:180-211 | a validated record whose amounts are numbers is posted exactly once, with positive dimensions, weight and piece count |
| Shipment.PrintShippingLabel | erpnext_aramex_shipping/erpnext_aramex_shipping/shipment/shipment.py:262-310 | an empty id gets "Shipment ID is required" and no post; otherwise the label call's result, with the label URL recorded exactly when a label came back |
| Shipment.TrackAramexShipment | erpnext_aramex_shipping/erpnext_aramex_shipping/shipment/shipment.py:314-365 | an empty id gets "Shipment ID is required" and no post; otherwise the tracking result, with the first record's status and the whole list recorded exactly when some record came back |
| Shipment.TrackedStatus | erpnext_aramex_shipping/erpnext_aramex_shipping/shipment/shipment.py:344-346 | the recorded status is the first result's UpdateCode ('' when absent), so the 'Unknown' fallback is never used |

## Left out

- Network I/O is not modelled: the HTTP post, the 30-second timeout, `raise_for_status` and `response.json()`. Their outcome is the `Transport` input.
- Logging is not modelled. Neither are the frappe record store calls (`get_doc`, `insert`, `save`, `get_all`, `db.commit`), nor the record query `get_shipment_history`. They are reduced to `SaveOutcome` and `RecordUpdate`. A label or tracking update applies only when the store holds a record for the id, and that lookup is the store's business.
- `get_aramex_settings` is not modelled: the settings are an input.
- `json.loads` is not modelled, nor the handling of a body that decodes to something other than an object. The input is either a decoded object or `Malformed`.
- `datetime.now()` is not modelled: the formatted time is the `stamp` parameter.
- The mock endpoints are not modelled: `get_shipments`, `get_shipment_details` and `get_dashboard_stats`. Neither are the constant tables `get_country_codes` and `get_shipping_configuration`, the dashboard JavaScript or `hooks.py`.
- ToFloat and ToInt parse decimal text with an optional sign and surrounding white space. They do not accept exponents, `inf`, `nan` or digit underscores, and numbers are exact reals rather than IEEE doubles.
- ToFloat, ToInt and Strip know ASCII digits and the ASCII white space Python recognises (tab, line feed, vertical tab, form feed, carriage return, the separators 0x1C to 0x1F and the space) only. Python's `float()` and `int()` also accept other Unicode decimal digits and Unicode white space such as a no-break space.
- CoercionError and FaultText are fixed texts. They stand in for the text of Python's ValueError and TypeError.
- A JSON integer and a JSON float are both `Num`. Lists and objects as values of the shipment record are not modelled.
- A carrier body that decodes to something other than an object, such as a JSON list, is not modelled: `result.get` raises at aramex.py:83 and the call ends as "Aramex API request failed: …", but a `Reply` is always an object.
- A null or non-object `TotalAmount`, `ShipmentLabel`, `Notifications` or tracking entry is not modelled, nor a `Shipments`, `TrackingResults` or `TrackingUpdateEvents` that is not a list, nor a first `Shipments` entry that is not an object. In Python these raise inside the mapping and end as the operation's failure message. The model has absent or present objects only. A notification `Message` that is not a string is also not modelled.
- The record update is left out of Shipment.CreateAramexShipment. Python updates `data` in place and the caller's dict sees the reference and the defaults. The model returns a new map.
- Shipment.FetchShippingRates returns its stamped record as a new map. When Python is handed a dict rather than JSON text, it writes the `reference` into the caller's own dict.
- Shipment.TrackAramexShipment: the `SetTracking` update leaves out the `last_tracking_update` time that Python also writes to the record, because the clock is not modelled.
- Absent credentials are sent as null: `get_client_info` reads each setting with `.get` and no default (api/aramex.py:52-63).
- The rate quote applies no defaulting stage, only the `dict.get` defaults of the payload builder, so a present falsy value is sent as it is.
- Only `fetch_shipping_rates` and `create_aramex_shipment` parse JSON text; the label and tracking calls take a shipment id.
- The label and tracking updates find the record by the carrier's shipment id.
