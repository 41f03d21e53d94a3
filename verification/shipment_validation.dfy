/** Input validation of shipment.py: the per-party contact checks
    (validate_address_data), the whole-shipment checks
    (validate_shipment_data) and the required-field checklist both of them and
    the rate quote share. Every check runs; errors are collected, not
    short-circuited. */
module ShipmentValidation {
  import opened PyValues

  // ---------------------------------------------------------------------
  // Required-field checklists
  // ---------------------------------------------------------------------

  /** One required-field check: the key looked up and the message reported
      when the key's value is falsy. */
  type Check = (string, string)

  /** The errors of running `checks` in order: one message for every check
      whose key is missing or falsy. */
  function RequiredErrors(d: Dict, checks: seq<Check>): seq<string>
    decreases |checks|
  {
    if checks == [] then []
    else
      var last := checks[|checks| - 1];
      RequiredErrors(d, checks[..|checks| - 1]) + (if Truthy(Get(d, last.0)) then [] else [last.1])
  }

  predicate DistinctMessages(checks: seq<Check>)
  {
    forall i, j | 0 <= i < j < |checks| :: checks[i].1 != checks[j].1
  }

  /** Every reported message belongs to a check whose key is falsy. */
  lemma {:induction false} RequiredErrorsSound(d: Dict, checks: seq<Check>, m: string)
    requires m in RequiredErrors(d, checks)
    ensures exists i | 0 <= i < |checks| :: checks[i].1 == m && !Truthy(Get(d, checks[i].0))
  {
    var n := |checks| - 1;
    if m in RequiredErrors(d, checks[..n]) {
      RequiredErrorsSound(d, checks[..n], m);
      var i :| 0 <= i < |checks[..n]| && checks[..n][i].1 == m && !Truthy(Get(d, checks[..n][i].0));
      assert checks[i] == checks[..n][i];
    } else {
      assert checks[n].1 == m && !Truthy(Get(d, checks[n].0));
    }
  }

  /** No error at all exactly when every key of the checklist is truthy. */
  lemma {:induction false} RequiredErrorsEmptyIff(d: Dict, checks: seq<Check>)
    ensures RequiredErrors(d, checks) == [] <==> forall i | 0 <= i < |checks| :: Truthy(Get(d, checks[i].0))
  {
    if checks != [] {
      var n := |checks| - 1;
      RequiredErrorsEmptyIff(d, checks[..n]);
      if RequiredErrors(d, checks) == [] {
        forall i | 0 <= i < |checks| ensures Truthy(Get(d, checks[i].0)) {
          if i < n { assert checks[i] == checks[..n][i]; }
        }
      } else if forall i | 0 <= i < |checks| :: Truthy(Get(d, checks[i].0)) {
        forall i | 0 <= i < n ensures Truthy(Get(d, checks[..n][i].0)) {
          assert checks[..n][i] == checks[i];
        }
        assert false;
      }
    }
  }

  /** A message that no check carries is never reported. */
  lemma {:induction false} RequiredErrorsExclude(d: Dict, checks: seq<Check>, m: string)
    requires forall i | 0 <= i < |checks| :: checks[i].1 != m
    ensures m !in RequiredErrors(d, checks)
  {
    if checks != [] {
      var n := |checks| - 1;
      assert forall i | 0 <= i < n :: checks[..n][i] == checks[i];
      RequiredErrorsExclude(d, checks[..n], m);
    }
  }

  lemma RequiredErrorsLast(d: Dict, checks: seq<Check>, m: string)
    requires checks != []
    ensures var n := |checks| - 1;
      multiset(RequiredErrors(d, checks))[m]
      == multiset(RequiredErrors(d, checks[..n]))[m] + (if !Truthy(Get(d, checks[n].0)) && checks[n].1 == m then 1 else 0)
  {
    var n := |checks| - 1;
    var last := if Truthy(Get(d, checks[n].0)) then [] else [checks[n].1];
    assert RequiredErrors(d, checks) == RequiredErrors(d, checks[..n]) + last;
  }

  /** When the messages are distinct, each check contributes its message
      exactly once if its key is falsy and never otherwise, whatever the
      other checks found. */
  lemma {:induction false} RequiredErrorsCount(d: Dict, checks: seq<Check>, k: nat)
    requires DistinctMessages(checks) && k < |checks|
    ensures multiset(RequiredErrors(d, checks))[checks[k].1] == if Truthy(Get(d, checks[k].0)) then 0 else 1
  {
    var n := |checks| - 1;
    RequiredErrorsLast(d, checks, checks[k].1);
    if k == n {
      LastMessageFresh(d, checks);
    } else {
      DistinctPrefix(checks, n);
      assert checks[..n][k] == checks[k];
      RequiredErrorsCount(d, checks[..n], k);
    }
  }

  /** With distinct messages, the last check's message is never reported by
      the checks before it. */
  lemma LastMessageFresh(d: Dict, checks: seq<Check>)
    requires DistinctMessages(checks) && checks != []
    ensures checks[|checks| - 1].1 !in RequiredErrors(d, checks[..|checks| - 1])
  {
    var n := |checks| - 1;
    var init := checks[..n];
    forall i | 0 <= i < |init| ensures init[i].1 != checks[n].1 {
      assert init[i] == checks[i];
    }
    RequiredErrorsExclude(d, init, checks[n].1);
  }

  lemma DistinctPrefix(checks: seq<Check>, n: nat)
    requires DistinctMessages(checks) && n <= |checks|
    ensures DistinctMessages(checks[..n])
  {
    forall i, j | 0 <= i < j < n ensures checks[..n][i].1 != checks[..n][j].1 {
      assert checks[..n][i] == checks[i] && checks[..n][j] == checks[j];
    }
  }

  // ---------------------------------------------------------------------
  // validate_address_data
  // ---------------------------------------------------------------------

  datatype Role = Shipper | Consignee

  function RoleName(role: Role): string
  {
    match role
    case Shipper => "shipper"
    case Consignee => "consignee"
  }

  /** The six contact fields of a party, in the order they are checked. */
  const PartyFields: seq<string> := ["name", "address_line1", "city", "country_code", "phone", "email"]

  /** The key of a party field in the flat shipment record, e.g. `shipper_city`. */
  function PartyKey(role: Role, field: string): string
  {
    RoleName(role) + "_" + field
  }

  /** "<Role> <field with spaces> is required", e.g. "Shipper address line1 is required". */
  function RequiredMessage(role: Role, field: string): string
  {
    Title(RoleName(role)) + " " + ReplaceChar(field, '_', ' ') + " is required"
  }

  function EmailFormatMessage(role: Role): string
  {
    Title(RoleName(role)) + " email format is invalid"
  }

  function CountryCodeMessage(role: Role): string
  {
    Title(RoleName(role)) + " country code must be 2 characters"
  }

  function PartyChecks(role: Role): seq<Check>
  {
    seq(|PartyFields|, i requires 0 <= i < |PartyFields| => (PartyKey(role, PartyFields[i]), RequiredMessage(role, PartyFields[i])))
  }

  /** The TypeError the format checks raise on a truthy non-string value:
      `'@' in v` and `len(v)`. */
  datatype Fault = NotIterable | NoLength

  function FaultText(f: Fault): string
  {
    match f
    case NotIterable => "argument is not iterable"
    case NoLength => "object has no len()"
  }

  /** What validate_address_data returns (Ok) or raises (Err). */
  function AddressErrors(d: Dict, role: Role): Result<seq<string>, Fault>
  {
    var email := Get(d, PartyKey(role, "email"));
    var country := Get(d, PartyKey(role, "country_code"));
    if Truthy(email) && !email.Str? then Err(NotIterable)
    else if Truthy(country) && !country.Str? then Err(NoLength)
    else
      Ok(RequiredErrors(d, PartyChecks(role))
         + (if Truthy(email) && '@' !in email.s then [EmailFormatMessage(role)] else [])
         + (if Truthy(country) && |country.s| != 2 then [CountryCodeMessage(role)] else []))
  }

  method ValidateAddressData(d: Dict, role: Role) returns (r: Result<seq<string>, Fault>)
    ensures r == AddressErrors(d, role)
  {
    var errors: seq<string> := [];
    var checks := PartyChecks(role);
    for i := 0 to |checks|
      invariant errors == RequiredErrors(d, checks[..i])
    {
      assert checks[..i + 1][..i] == checks[..i];
      if !Truthy(Get(d, checks[i].0)) {
        errors := errors + [checks[i].1];
      }
    }
    assert checks[..|checks|] == checks;
    assert errors == RequiredErrors(d, PartyChecks(role));

    var email := Get(d, PartyKey(role, "email"));
    if Truthy(email) {
      if !email.Str? {
        return Err(NotIterable);
      }
      if '@' !in email.s {
        errors := errors + [EmailFormatMessage(role)];
      }
    }
    assert errors == RequiredErrors(d, PartyChecks(role))
      + (if Truthy(email) && '@' !in email.s then [EmailFormatMessage(role)] else []);

    var country := Get(d, PartyKey(role, "country_code"));
    if Truthy(country) {
      if !country.Str? {
        return Err(NoLength);
      }
      if |country.s| != 2 {
        errors := errors + [CountryCodeMessage(role)];
      }
    }
    assert !(Truthy(email) && !email.Str?);
    assert !(Truthy(country) && !country.Str?);
    assert errors == RequiredErrors(d, PartyChecks(role))
      + (if Truthy(email) && '@' !in email.s then [EmailFormatMessage(role)] else [])
      + (if Truthy(country) && |country.s| != 2 then [CountryCodeMessage(role)] else []);
    return Ok(errors);
  }

  /** A party that passes every check. */
  predicate PartyComplete(d: Dict, role: Role)
  {
    var email := Get(d, PartyKey(role, "email"));
    var country := Get(d, PartyKey(role, "country_code"));
    (forall f | f in PartyFields :: Truthy(Get(d, PartyKey(role, f))))
    && email.Str? && '@' in email.s
    && country.Str? && |country.s| == 2
  }

  lemma RequiredMessageDistinct(role: Role, f: string, g: string)
    requires |f| != |g| || (f != [] && g != [] && f[0] != g[0] && f[0] != '_' && g[0] != '_')
    ensures RequiredMessage(role, f) != RequiredMessage(role, g)
  {
    if |f| == |g| {
      var t := |Title(RoleName(role))|;
      assert RequiredMessage(role, f)[t + 1] == f[0];
      assert RequiredMessage(role, g)[t + 1] == g[0];
    }
  }

  /** The eight messages validate_address_data can report for one party are
      pairwise different. */
  lemma PartyMessagesDistinct(role: Role)
    ensures DistinctMessages(PartyChecks(role))
    ensures forall i | 0 <= i < |PartyFields| :: PartyChecks(role)[i].1 != EmailFormatMessage(role)
    ensures forall i | 0 <= i < |PartyFields| :: PartyChecks(role)[i].1 != CountryCodeMessage(role)
    ensures EmailFormatMessage(role) != CountryCodeMessage(role)
  {
    var cs := PartyChecks(role);
    forall i, j | 0 <= i < j < |cs| ensures cs[i].1 != cs[j].1 {
      RequiredMessageDistinct(role, PartyFields[i], PartyFields[j]);
    }
    forall i | 0 <= i < |PartyFields|
      ensures cs[i].1 != EmailFormatMessage(role) && cs[i].1 != CountryCodeMessage(role)
    {
      assert |cs[i].1| == |Title(RoleName(role))| + 13 + |PartyFields[i]|;
    }
  }

  /** Each of the six fields yields its "is required" error exactly once when
      it is missing or falsy and never otherwise, independently of the other
      fields. */
  lemma AddressRequiredExactlyOnce(d: Dict, role: Role, k: nat)
    requires AddressErrors(d, role).Ok? && k < |PartyFields|
    ensures multiset(AddressErrors(d, role).value)[RequiredMessage(role, PartyFields[k])]
            == if Truthy(Get(d, PartyKey(role, PartyFields[k]))) then 0 else 1
  {
    PartyMessagesDistinct(role);
    RequiredErrorsCount(d, PartyChecks(role), k);
  }

  /** The two format checks fire only on a present (truthy) value, each at
      most once: a missing email or country code gives only its "is required"
      error. */
  lemma AddressFormatErrors(d: Dict, role: Role)
    requires AddressErrors(d, role).Ok?
    ensures var email := Get(d, PartyKey(role, "email"));
      multiset(AddressErrors(d, role).value)[EmailFormatMessage(role)]
      == if Truthy(email) && email.Str? && '@' !in email.s then 1 else 0
    ensures var country := Get(d, PartyKey(role, "country_code"));
      multiset(AddressErrors(d, role).value)[CountryCodeMessage(role)]
      == if Truthy(country) && country.Str? && |country.s| != 2 then 1 else 0
  {
    PartyMessagesDistinct(role);
    var checks := PartyChecks(role);
    RequiredErrorsExclude(d, checks, EmailFormatMessage(role));
    RequiredErrorsExclude(d, checks, CountryCodeMessage(role));
  }

  /** validate_address_data raises exactly when the email or the country code
      is a truthy non-string. */
  lemma AddressFaults(d: Dict, role: Role)
    ensures var email := Get(d, PartyKey(role, "email"));
      var country := Get(d, PartyKey(role, "country_code"));
      AddressErrors(d, role).Err?
      <==> (Truthy(email) && !email.Str?) || (Truthy(country) && !country.Str?)
  {
  }

  /** A party has no error exactly when it is complete. */
  lemma AddressValidIff(d: Dict, role: Role)
    ensures AddressErrors(d, role) == Ok([]) <==> PartyComplete(d, role)
  {
    var checks := PartyChecks(role);
    RequiredErrorsEmptyIff(d, checks);
    if PartyComplete(d, role) {
      forall i | 0 <= i < |checks| ensures Truthy(Get(d, checks[i].0)) {
        assert PartyFields[i] in PartyFields;
      }
    }
    if AddressErrors(d, role) == Ok([]) {
      forall f | f in PartyFields ensures Truthy(Get(d, PartyKey(role, f))) {
        var i :| 0 <= i < |PartyFields| && PartyFields[i] == f;
        assert checks[i].0 == PartyKey(role, f);
      }
    }
  }

  // ---------------------------------------------------------------------
  // validate_shipment_data
  // ---------------------------------------------------------------------

  const DimensionsMessage := "Package dimensions must be greater than 0"
  const WeightMessage := "Package weight must be greater than 0"
  const NumbersMessage := "Package dimensions and weight must be valid numbers"
  const PiecesMessage := "Number of pieces must be greater than 0"
  const PiecesNumberMessage := "Number of pieces must be a valid number"
  const DescriptionMessage := "Package description is required"

  /** The six package messages are pairwise different. */
  lemma PackageMessagesDistinct()
    ensures DimensionsMessage != WeightMessage && DimensionsMessage != NumbersMessage
    ensures DimensionsMessage != PiecesMessage && DimensionsMessage != PiecesNumberMessage
    ensures DimensionsMessage != DescriptionMessage && WeightMessage != NumbersMessage
    ensures WeightMessage != PiecesMessage && WeightMessage != PiecesNumberMessage
    ensures WeightMessage != DescriptionMessage && NumbersMessage != PiecesMessage
    ensures NumbersMessage != PiecesNumberMessage && NumbersMessage != DescriptionMessage
    ensures PiecesMessage != PiecesNumberMessage && PiecesMessage != DescriptionMessage
    ensures PiecesNumberMessage != DescriptionMessage
  {
    assert |DimensionsMessage| == 41 && |WeightMessage| == 37 && |NumbersMessage| == 51;
    assert |PiecesMessage| == 39 && |PiecesNumberMessage| == 39 && |DescriptionMessage| == 31;
    assert PiecesMessage[25] == 'g' && PiecesNumberMessage[25] == 'a';
  }

  /** `float(d.get(key, 0))`. */
  function Measure(d: Dict, key: string): Option<real>
  {
    ToFloat(GetOr(d, key, Num(0.0)))
  }

  /** `int(d.get('number_of_pieces', 0))`. */
  function Pieces(d: Dict): Option<int>
  {
    ToInt(GetOr(d, "number_of_pieces", Num(0.0)))
  }

  predicate MeasuresNumeric(d: Dict)
  {
    Measure(d, "length").Some? && Measure(d, "width").Some?
    && Measure(d, "height").Some? && Measure(d, "weight").Some?
  }

  predicate SomeDimensionNotPositive(d: Dict)
    requires MeasuresNumeric(d)
  {
    Measure(d, "length").value <= 0.0 || Measure(d, "width").value <= 0.0 || Measure(d, "height").value <= 0.0
  }

  function MeasureErrors(d: Dict): seq<string>
  {
    if !MeasuresNumeric(d) then [NumbersMessage]
    else
      (if SomeDimensionNotPositive(d) then [DimensionsMessage] else [])
      + (if Measure(d, "weight").value <= 0.0 then [WeightMessage] else [])
  }

  function PiecesErrors(d: Dict): seq<string>
  {
    match Pieces(d)
    case None => [PiecesNumberMessage]
    case Some(n) => if n <= 0 then [PiecesMessage] else []
  }

  /** The package checks, in the order they run: measures, pieces,
      description. */
  function PackageErrors(d: Dict): seq<string>
  {
    MeasureErrors(d) + PiecesErrors(d) + DescriptionErrors(d)
  }

  /** A non-numeric measure gives the single combined error instead of the
      two range errors; otherwise the dimensions error and the weight error
      are independent, each at most once; pieces and description are checked
      on their own. */
  lemma PackageErrorsCounts(d: Dict)
    ensures NumbersMessage in PackageErrors(d) <==> !MeasuresNumeric(d)
    ensures multiset(PackageErrors(d))[DimensionsMessage] == if MeasuresNumeric(d) && SomeDimensionNotPositive(d) then 1 else 0
    ensures multiset(PackageErrors(d))[WeightMessage] == if MeasuresNumeric(d) && Measure(d, "weight").value <= 0.0 then 1 else 0
    ensures PiecesNumberMessage in PackageErrors(d) <==> Pieces(d).None?
    ensures PiecesMessage in PackageErrors(d) <==> Pieces(d).Some? && Pieces(d).value <= 0
    ensures DescriptionMessage in PackageErrors(d) <==> !Truthy(Get(d, "description"))
  {
    var m, p, s := MeasureErrors(d), PiecesErrors(d), DescriptionErrors(d);
    MeasureErrorsFacts(d);
    PiecesErrorsFacts(d);
    PackageMessagesDistinct();
    assert multiset(m + p + s) == multiset(m) + multiset(p) + multiset(s);
  }

  lemma MeasureErrorsFacts(d: Dict)
    ensures NumbersMessage in MeasureErrors(d) <==> !MeasuresNumeric(d)
    ensures multiset(MeasureErrors(d))[DimensionsMessage] == if MeasuresNumeric(d) && SomeDimensionNotPositive(d) then 1 else 0
    ensures multiset(MeasureErrors(d))[WeightMessage] == if MeasuresNumeric(d) && Measure(d, "weight").value <= 0.0 then 1 else 0
    ensures PiecesMessage !in MeasureErrors(d) && PiecesNumberMessage !in MeasureErrors(d)
    ensures DescriptionMessage !in MeasureErrors(d)
  {
    PackageMessagesDistinct();
  }

  lemma PiecesErrorsFacts(d: Dict)
    ensures PiecesNumberMessage in PiecesErrors(d) <==> Pieces(d).None?
    ensures PiecesMessage in PiecesErrors(d) <==> Pieces(d).Some? && Pieces(d).value <= 0
    ensures NumbersMessage !in PiecesErrors(d) && DimensionsMessage !in PiecesErrors(d)
    ensures WeightMessage !in PiecesErrors(d) && DescriptionMessage !in PiecesErrors(d)
  {
    PackageMessagesDistinct();
  }

  function DescriptionErrors(d: Dict): seq<string>
  {
    if Truthy(Get(d, "description")) then [] else [DescriptionMessage]
  }

  /** ShipmentErrors, unfolded into the order the checks run in. */
  lemma ShipmentErrorsParts(d: Dict, shipper: seq<string>, consignee: seq<string>)
    requires AddressErrors(d, Shipper) == Ok(shipper) && AddressErrors(d, Consignee) == Ok(consignee)
    ensures ShipmentErrors(d) == Ok(shipper + consignee + MeasureErrors(d) + PiecesErrors(d) + DescriptionErrors(d))
  {
    var m, p, s := MeasureErrors(d), PiecesErrors(d), DescriptionErrors(d);
    assert shipper + consignee + (m + p + s) == shipper + consignee + m + p + s;
  }

  /** What validate_shipment_data returns (Ok) or lets escape (Err): the
      shipper's errors, then the consignee's, then the package's. */
  function ShipmentErrors(d: Dict): Result<seq<string>, Fault>
  {
    match AddressErrors(d, Shipper)
    case Err(f) => Err(f)
    case Ok(shipper) =>
      match AddressErrors(d, Consignee)
      case Err(f) => Err(f)
      case Ok(consignee) => Ok(shipper + consignee + PackageErrors(d))
  }

  method ValidateShipmentData(d: Dict) returns (r: Result<seq<string>, Fault>)
    ensures r == ShipmentErrors(d)
  {
    var errors: seq<string> := [];

    var shipper := ValidateAddressData(d, Shipper);
    if shipper.Err? {
      return Err(shipper.error);
    }
    errors := errors + shipper.value;

    var consignee := ValidateAddressData(d, Consignee);
    if consignee.Err? {
      return Err(consignee.error);
    }
    errors := errors + consignee.value;
    ghost var parties := errors;
    assert parties == shipper.value + consignee.value;

    var length, width, height, weight := Measure(d, "length"), Measure(d, "width"), Measure(d, "height"), Measure(d, "weight");
    if length.None? || width.None? || height.None? || weight.None? {
      errors := errors + [NumbersMessage];
    } else {
      if length.value <= 0.0 || width.value <= 0.0 || height.value <= 0.0 {
        errors := errors + [DimensionsMessage];
      }
      if weight.value <= 0.0 {
        errors := errors + [WeightMessage];
      }
    }
    assert errors == parties + MeasureErrors(d);
    ghost var measured := errors;

    var pieces := Pieces(d);
    if pieces.None? {
      errors := errors + [PiecesNumberMessage];
    } else if pieces.value <= 0 {
      errors := errors + [PiecesMessage];
    }
    assert errors == measured + PiecesErrors(d);
    ghost var counted := errors;

    if !Truthy(Get(d, "description")) {
      errors := errors + [DescriptionMessage];
    }
    assert errors == counted + DescriptionErrors(d);
    ShipmentErrorsParts(d, shipper.value, consignee.value);
    return Ok(errors);
  }

  /** A shipment record that passes every check. */
  predicate ShipmentComplete(d: Dict)
  {
    PartyComplete(d, Shipper) && PartyComplete(d, Consignee)
    && MeasuresNumeric(d) && !SomeDimensionNotPositive(d) && Measure(d, "weight").value > 0.0
    && Pieces(d).Some? && Pieces(d).value > 0
    && Truthy(Get(d, "description"))
  }

  /** validate_shipment_data returns an empty list exactly for complete
      shipment records. */
  lemma ShipmentValidIff(d: Dict)
    ensures ShipmentErrors(d) == Ok([]) <==> ShipmentComplete(d)
  {
    AddressValidIff(d, Shipper);
    AddressValidIff(d, Consignee);
    var p := PackageErrors(d);
    PackageErrorsCounts(d);
    if p == [] {
      assert multiset(p)[DimensionsMessage] == 0 && multiset(p)[WeightMessage] == 0;
    }
    if MeasuresNumeric(d) && !SomeDimensionNotPositive(d) && Measure(d, "weight").value > 0.0
       && Pieces(d).Some? && Pieces(d).value > 0 && Truthy(Get(d, "description")) {
      assert MeasureErrors(d) == [] && PiecesErrors(d) == [];
    }
  }

  /** A non-positive weight and a non-positive dimension are both reported in
      the same pass. */
  lemma WeightAndDimensionsTogether(d: Dict)
    requires ShipmentErrors(d).Ok?
    requires MeasuresNumeric(d) && SomeDimensionNotPositive(d) && Measure(d, "weight").value <= 0.0
    ensures DimensionsMessage in ShipmentErrors(d).value && WeightMessage in ShipmentErrors(d).value
  {
    var s, c := AddressErrors(d, Shipper).value, AddressErrors(d, Consignee).value;
    assert ShipmentErrors(d).value == s + c + PackageErrors(d);
    PackageErrorsCounts(d);
    assert DimensionsMessage in multiset(PackageErrors(d));
    assert WeightMessage in multiset(PackageErrors(d));
  }
}
