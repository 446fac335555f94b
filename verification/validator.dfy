/** The validation stage of the order route in index.js: nine field checks, each
    contributing at most one (field, message) error, evaluated in the order the
    route registers them and none short-circuiting another. */
module Validator {
  import opened Wrappers
  import opened Text
  import opened Patterns

  /** The raw form fields of one POST to the order route, all as strings. */
  datatype Submission = Submission(
    name: string,
    email: string,
    phone: string,
    address: string,
    city: string,
    postcode: string,
    province: string,
    potSmall: string,
    potMedium: string,
    potBig: string,
    deliveryTime: string)

  /** The fields that own a check. The pot check is registered on potSmall and
      reports against it, though it reads all three pot fields. */
  datatype Field = Name | Email | Phone | Address | City | Postcode | Province | PotSmall | DeliveryTime

  datatype FieldError = FieldError(field: Field, message: string)

  const NameMessage := "Name is required"
  const EmailMessage := "Email is required"
  const PhoneMessage := "Phone must be formatted as xxx-xxx-xxxx"
  const AddressMessage := "Address is required"
  const CityMessage := "City is required"
  const PostcodeMessage := "Postal Code must be formatted as A2A 2A2"
  const ProvinceMessage := "Province is required"
  const PotsFormatMessage := "Pots purchased can be positive integers only"
  const NoPotsMessage := "At least one pot must be purchased"
  const DeliveryTimeMessage := "Delivery Time must be a number"

  /** Position of a field's check in the route's check list; `EveryFieldChecked`
      proves it is the field's index in `CheckOrder`. */
  function Rank(f: Field): nat {
    match f
    case Name => 0
    case Email => 1
    case Phone => 2
    case Address => 3
    case City => 4
    case Postcode => 5
    case Province => 6
    case PotSmall => 7
    case DeliveryTime => 8
  }

  /** The check list, in registration order. */
  const CheckOrder: seq<Field> := [Name, Email, Phone, Address, City, Postcode, Province, PotSmall, DeliveryTime]

  /** The check list is in rank order, each field's rank being its index in the
      list, and the list covers every field. */
  lemma EveryFieldChecked()
    ensures forall i :: 0 <= i < |CheckOrder| ==> Rank(CheckOrder[i]) == i
    ensures Ascending(CheckOrder)
    ensures forall f :: f in CheckOrder
  {
    forall f ensures f in CheckOrder {
      match f
      case Name => assert CheckOrder[0] == f;
      case Email => assert CheckOrder[1] == f;
      case Phone => assert CheckOrder[2] == f;
      case Address => assert CheckOrder[3] == f;
      case City => assert CheckOrder[4] == f;
      case Postcode => assert CheckOrder[5] == f;
      case Province => assert CheckOrder[6] == f;
      case PotSmall => assert CheckOrder[7] == f;
      case DeliveryTime => assert CheckOrder[8] == f;
    }
  }

  // ------------------------------------------------------------ single checks

  /** `notEmpty()`: the value must have at least one character (whitespace counts). */
  function Required(value: string, message: string): (r: Option<string>)
    ensures r == None <==> |value| > 0
    ensures r != None ==> r == Some(message)
  {
    if |value| > 0 then None else Some(message)
  }

  /** `customPhoneValidation`. */
  function PhoneCheck(value: string): (r: Option<string>)
    ensures r == None <==> PhoneLanguage(value)
    ensures r != None ==> r == Some(PhoneMessage)
  {
    PhoneMatchesRegex(value);
    if IsPhone(value) then None else Some(PhoneMessage)
  }

  /** `customPostalCodeValidation`. */
  function PostcodeCheck(value: string): (r: Option<string>)
    ensures r == None <==> PostcodeLanguage(value)
    ensures r != None ==> r == Some(PostcodeMessage)
  {
    PostcodeMatchesRegex(value);
    if IsPostcode(value) then None else Some(PostcodeMessage)
  }

  /** `customProvinceCodeValidation`: two capital letters, whether or not a tax
      rate exists for them. */
  function ProvinceCheck(value: string): (r: Option<string>)
    ensures r == None <==> |value| == 2 && IsUpper(value[0]) && IsUpper(value[1])
    ensures r != None ==> r == Some(ProvinceMessage)
  {
    if IsProvinceCode(value) then None else Some(ProvinceMessage)
  }

  /** `customDeliveryTimeValidation`: the value must spell a positive number canonically. */
  function DeliveryTimeCheck(value: string): (r: Option<string>)
    ensures r == None <==> exists n: nat :: n >= 1 && value == ToDecimal(n)
    ensures r != None ==> r == Some(DeliveryTimeMessage)
  {
    PositiveIntegerIsCanonical(value);
    if IsPositiveInteger(value) then None else Some(DeliveryTimeMessage)
  }

  // -------------------------------------------------------------- pot fields

  /** `stringToZero`: the trimmed text, with a blank text replaced by "0". The
      source returns the number 0 there; the string "0" behaves the same at both
      places the result is used, `wholeNumberRegex.test` (which converts its
      argument to the string "0") and `parseInt` (which gives 0). */
  function StringToZero(text: string): (r: string)
    ensures |r| > 0 && Trim(r) == r
    ensures AllWhitespace(text) ==> r == "0"
    ensures !AllWhitespace(text) ==> r == Trim(text)
  {
    TrimIdempotent(text);
    var t := Trim(text);
    if t == [] then "0" else t
  }

  /** A pot entry the format check admits: blank, or digits once trimmed. */
  ghost predicate PotEntryOk(raw: string) {
    AllDigits(Trim(raw))
  }

  /** A pot entry that orders nothing: blank, or only zeros once trimmed. */
  ghost predicate NoPots(raw: string) {
    AllZeros(Trim(raw))
  }

  lemma StringToZeroWhole(raw: string)
    ensures IsWholeNumber(StringToZero(raw)) <==> PotEntryOk(raw)
    ensures IsWholeNumber(StringToZero(raw)) ==> (AllZeros(StringToZero(raw)) <==> NoPots(raw))
  {
  }

  /** The number of pots a validated entry orders: `parseInt(stringToZero(raw))`. */
  function Quantity(raw: string): (n: nat)
    requires PotEntryOk(raw)
    ensures n == 0 <==> NoPots(raw)
  {
    StringToZeroWhole(raw);
    DecimalValue(StringToZero(raw))
  }

  /** `customItemsPurchasedValidation`: a format error if any entry is not a whole
      number, otherwise an error exactly when no pot is ordered. */
  function PotsCheck(small: string, medium: string, big: string): (r: Option<string>)
    ensures r == Some(PotsFormatMessage) <==> !(PotEntryOk(small) && PotEntryOk(medium) && PotEntryOk(big))
    ensures r == Some(NoPotsMessage) <==>
              PotEntryOk(small) && PotEntryOk(medium) && PotEntryOk(big)
              && NoPots(small) && NoPots(medium) && NoPots(big)
    ensures r == None <==>
              PotEntryOk(small) && PotEntryOk(medium) && PotEntryOk(big)
              && !(NoPots(small) && NoPots(medium) && NoPots(big))
  {
    StringToZeroWhole(small);
    StringToZeroWhole(medium);
    StringToZeroWhole(big);
    var s := StringToZero(small);
    var m := StringToZero(medium);
    var b := StringToZero(big);
    if !IsWholeNumber(s) || !IsWholeNumber(m) || !IsWholeNumber(b) then
      Some(PotsFormatMessage)
    else if Quantity(small) + Quantity(medium) + Quantity(big) == 0 then
      Some(NoPotsMessage)
    else
      None
  }

  // ------------------------------------------------------------- whole form

  /** The messages the check registered for field f can report. */
  function MessagesOf(f: Field): set<string> {
    match f
    case Name => {NameMessage}
    case Email => {EmailMessage}
    case Phone => {PhoneMessage}
    case Address => {AddressMessage}
    case City => {CityMessage}
    case Postcode => {PostcodeMessage}
    case Province => {ProvinceMessage}
    case PotSmall => {PotsFormatMessage, NoPotsMessage}
    case DeliveryTime => {DeliveryTimeMessage}
  }

  /** The rule the check registered for field f enforces, stated through the
      regex languages. */
  ghost predicate Rule(sub: Submission, f: Field) {
    match f
    case Name => |sub.name| > 0
    case Email => |sub.email| > 0
    case Phone => PhoneLanguage(sub.phone)
    case Address => |sub.address| > 0
    case City => |sub.city| > 0
    case Postcode => PostcodeLanguage(sub.postcode)
    case Province => IsProvinceCode(sub.province)
    case PotSmall =>
      && PotEntryOk(sub.potSmall) && PotEntryOk(sub.potMedium) && PotEntryOk(sub.potBig)
      && !(NoPots(sub.potSmall) && NoPots(sub.potMedium) && NoPots(sub.potBig))
    case DeliveryTime => exists n: nat :: n >= 1 && sub.deliveryTime == ToDecimal(n)
  }

  /** The check registered for field f, applied to the submission: None when it
      passes, Some(message) when it fails. */
  function Check(sub: Submission, f: Field): (r: Option<string>)
    ensures r == None <==> Rule(sub, f)
    ensures r.Some? ==> r.value in MessagesOf(f)
  {
    match f
    case Name => Required(sub.name, NameMessage)
    case Email => Required(sub.email, EmailMessage)
    case Phone => PhoneCheck(sub.phone)
    case Address => Required(sub.address, AddressMessage)
    case City => Required(sub.city, CityMessage)
    case Postcode => PostcodeCheck(sub.postcode)
    case Province => ProvinceCheck(sub.province)
    case PotSmall => PotsCheck(sub.potSmall, sub.potMedium, sub.potBig)
    case DeliveryTime => DeliveryTimeCheck(sub.deliveryTime)
  }

  ghost predicate Ascending(fs: seq<Field>) {
    forall i, j :: 0 <= i < j < |fs| ==> Rank(fs[i]) < Rank(fs[j])
  }

  /** The errors are reported in check-list order, at most one per field. */
  ghost predicate InCheckOrder(errors: seq<FieldError>) {
    forall i, j :: 0 <= i < j < |errors| ==> Rank(errors[i].field) < Rank(errors[j].field)
  }

  /** Runs the check of each field of `fs` in order (`outcome` gives each check's
      result) and gathers one error per failing check. */
  function Collect(fs: seq<Field>, outcome: Field -> Option<string>): (errors: seq<FieldError>)
    ensures |errors| <= |fs|
    ensures forall i :: 0 <= i < |errors| ==>
              errors[i].field in fs && outcome(errors[i].field) == Some(errors[i].message)
    decreases |fs|
  {
    if fs == [] then []
    else
      var rest := Collect(fs[1..], outcome);
      match outcome(fs[0])
      case None => rest
      case Some(message) =>
        var errors := [FieldError(fs[0], message)] + rest;
        assert forall i :: 0 <= i < |rest| ==> errors[i + 1] == rest[i];
        errors
  }

  /** Errors come out in the order of the checks. */
  lemma {:induction false} CollectInOrder(fs: seq<Field>, outcome: Field -> Option<string>)
    requires Ascending(fs)
    ensures InCheckOrder(Collect(fs, outcome))
    decreases |fs|
  {
    if fs != [] {
      var rest := Collect(fs[1..], outcome);
      CollectInOrder(fs[1..], outcome);
      var first := Rank(fs[0]);
      assert forall i :: 0 <= i < |rest| ==> first < Rank(rest[i].field) by {
        forall i | 0 <= i < |rest| ensures first < Rank(rest[i].field) {
          var k :| 0 <= k < |fs[1..]| && fs[1..][k] == rest[i].field;
          assert fs[k + 1] == rest[i].field;
        }
      }
      var errors := Collect(fs, outcome);
      if outcome(fs[0]).Some? {
        assert errors == [FieldError(fs[0], outcome(fs[0]).value)] + rest;
        assert forall i :: 0 < i < |errors| ==> errors[i] == rest[i - 1];
      } else {
        assert errors == rest;
      }
    }
  }

  /** No failing check is dropped: every field of `fs` whose check fails has its
      error in the result. */
  lemma {:induction false} CollectComplete(fs: seq<Field>, outcome: Field -> Option<string>, f: Field)
    requires f in fs && outcome(f) != None
    ensures FieldError(f, outcome(f).value) in Collect(fs, outcome)
    decreases |fs|
  {
    if fs[0] != f {
      assert f in fs[1..];
      CollectComplete(fs[1..], outcome, f);
    }
  }

  /** Every check of the list run on one submission. */
  function ChecksOf(sub: Submission): Field -> Option<string> {
    f => Check(sub, f)
  }

  /** When the list names every field, no failing check of the submission is dropped. */
  lemma CollectCoversAll(sub: Submission, fs: seq<Field>)
    requires forall f :: f in fs
    ensures forall f :: Check(sub, f) != None ==>
              FieldError(f, Check(sub, f).value) in Collect(fs, ChecksOf(sub))
  {
    forall f | Check(sub, f) != None ensures FieldError(f, Check(sub, f).value) in Collect(fs, ChecksOf(sub)) {
      CollectComplete(fs, ChecksOf(sub), f);
    }
  }

  /** No check of the list reports an error. */
  predicate AllChecksPass(sub: Submission) {
    forall f :: Check(sub, f) == None
  }

  /** The error list the route renders; the order is accepted exactly when it is empty. */
  function Validate(sub: Submission): (errors: seq<FieldError>)
    ensures |errors| <= 9
    ensures forall i :: 0 <= i < |errors| ==> Check(sub, errors[i].field) == Some(errors[i].message)
    ensures forall f :: Check(sub, f) != None ==> FieldError(f, Check(sub, f).value) in errors
    ensures InCheckOrder(errors)
    ensures errors == [] <==> AllChecksPass(sub)
  {
    EveryFieldChecked();
    var errors := Collect(CheckOrder, ChecksOf(sub));
    CollectInOrder(CheckOrder, ChecksOf(sub));
    CollectCoversAll(sub, CheckOrder);
    errors
  }

  /** The submission meets every field rule, stated rule by rule in terms of the
      regex languages. */
  ghost predicate Acceptable(sub: Submission) {
    && |sub.name| > 0
    && |sub.email| > 0
    && PhoneLanguage(sub.phone)
    && |sub.address| > 0
    && |sub.city| > 0
    && PostcodeLanguage(sub.postcode)
    && IsProvinceCode(sub.province)
    && PotEntryOk(sub.potSmall) && PotEntryOk(sub.potMedium) && PotEntryOk(sub.potBig)
    && !(NoPots(sub.potSmall) && NoPots(sub.potMedium) && NoPots(sub.potBig))
    && exists n: nat :: n >= 1 && sub.deliveryTime == ToDecimal(n)
  }

  /** Every check passes, so the route accepts a submission (`Validate`), exactly
      when every rule holds. */
  lemma AcceptedExactly(sub: Submission)
    ensures AllChecksPass(sub) <==> Acceptable(sub)
  {
    if AllChecksPass(sub) {
      AllPassAcceptable(sub);
    }
    if Acceptable(sub) {
      forall f ensures Check(sub, f) == None {
        RulePasses(sub, f);
      }
    }
  }

  /** The rules pricing relies on, read off a submission that passes every check. */
  lemma PassingPricedFields(sub: Submission)
    requires AllChecksPass(sub)
    ensures PostcodeLanguage(sub.postcode) && IsProvinceCode(sub.province)
    ensures PotEntryOk(sub.potSmall) && PotEntryOk(sub.potMedium) && PotEntryOk(sub.potBig)
    ensures !(NoPots(sub.potSmall) && NoPots(sub.potMedium) && NoPots(sub.potBig))
  {
    assert Check(sub, Postcode) == None;
    assert Check(sub, Province) == None;
    assert Check(sub, PotSmall) == None;
  }

  lemma AllPassAcceptable(sub: Submission)
    requires AllChecksPass(sub)
    ensures Acceptable(sub)
  {
    assert Check(sub, Name) == None && Check(sub, Email) == None && Check(sub, Phone) == None;
    assert Check(sub, Address) == None && Check(sub, City) == None && Check(sub, Postcode) == None;
    assert Check(sub, Province) == None && Check(sub, PotSmall) == None && Check(sub, DeliveryTime) == None;
  }

  /** Each check passes on a submission that meets the rules. */
  lemma RulePasses(sub: Submission, f: Field)
    ensures Acceptable(sub) ==> Check(sub, f) == None
  {
  }
}
