/** The POST handler of the order form in index.js: validate, then either
    re-render the form with the error list or price the order and render the
    receipt. Storing the receipt and rendering pages are not modelled. */
module OrderRoute {
  import opened Wrappers
  import opened Text
  import opened Patterns
  import opened Validator
  import opened Pricer

  datatype Response =
    | FormWithErrors(errors: seq<FieldError>)
    | Receipt(order: PricedOrder)

  /** The route's handler: the receipt is rendered exactly when no check failed;
      otherwise the form comes back with one error per failing check, in
      check-list order. */
  function HandleOrder(sub: Submission): (resp: Response)
    ensures resp.Receipt? <==> AllChecksPass(sub)
    ensures resp.FormWithErrors? ==> |resp.errors| > 0
    ensures resp.FormWithErrors? ==>
              forall i :: 0 <= i < |resp.errors| ==>
                Check(sub, resp.errors[i].field) == Some(resp.errors[i].message)
    ensures resp.FormWithErrors? ==>
              forall f :: Check(sub, f) != None ==> FieldError(f, Check(sub, f).value) in resp.errors
    ensures resp.FormWithErrors? ==> InCheckOrder(resp.errors)
  {
    var errors := Validate(sub);
    if errors != [] then FormWithErrors(errors) else Receipt(Price(sub))
  }

  /** On a submission that passes every check, the rendered receipt is the priced
      order, so `Price`'s guarantees are what the customer sees. */
  lemma ReceiptIsPricedOrder(sub: Submission)
    requires AllChecksPass(sub)
    ensures HandleOrder(sub) == Receipt(Price(sub))
  {
  }

  // ------------------------------------------------------------- scenarios

  /** Ontario, tier 2, one small pot: shipping 25, subtotal 35, tax 13 percent,
      tax paid exactly 4.55 and total exactly 39.55. */
  lemma OntarioScenario()
    ensures ComputeBill(1, 0, 0, "2", "ON") == Bill(25, 35, Some(13000), Some(455000), Some(3955000))
  {
    TrimDigits("2");
    assert ToDecimal(2) == "2";
    assert ShippingCharge("2") == 25 && TaxRate("ON") == Some(13000);
  }

  /** Quebec, tier 1, two medium pots and one big pot: shipping 30, subtotal 100,
      tax 14.975 percent, tax paid exactly 14.975 (the source then rounds it for
      display) and total exactly 114.975. */
  lemma QuebecScenario()
    ensures ComputeBill(0, 2, 1, "1", "QC") == Bill(30, 100, Some(14975), Some(1497500), Some(11497500))
  {
    TrimDigits("1");
    assert ToDecimal(1) == "1";
  }

  /** A blank small-pot field with both other pot fields "0" is refused with the
      at-least-one-pot error, whatever the other fields hold. */
  lemma NoPotsScenario(sub: Submission)
    requires sub.potSmall == "" && sub.potMedium == "0" && sub.potBig == "0"
    ensures Check(sub, PotSmall) == Some(NoPotsMessage)
    ensures HandleOrder(sub).FormWithErrors?
  {
    TrimDigits(sub.potSmall);
    TrimDigits(sub.potMedium);
    TrimDigits(sub.potBig);
    assert Check(sub, PotSmall) == Some(NoPotsMessage);
  }

  /** "A1A 1A1" and "A1A1A1" pass the postal-code check; "a1a 1a1" does not. */
  lemma PostcodeScenario()
    ensures PostcodeCheck("A1A 1A1") == None
    ensures PostcodeCheck("A1A1A1") == None
    ensures PostcodeCheck("a1a 1a1") == Some(PostcodeMessage)
  {
  }

  /** Both the dashed and the bare ten-digit spelling pass the phone check; a
      dash in any other place does not. */
  lemma PhoneScenario()
    ensures PhoneCheck("111-111-1111") == None
    ensures PhoneCheck("1111111111") == None
    ensures PhoneCheck("11-1111-1111") == Some(PhoneMessage)
  {
    assert IsPhone("111-111-1111") && IsPhone("1111111111");
    assert "11-1111-1111"[2] == '-';
  }

  /** "0", "01" and "" fail the delivery-time check; "12" passes. */
  lemma DeliveryTimeScenario()
    ensures DeliveryTimeCheck("0") == Some(DeliveryTimeMessage)
    ensures DeliveryTimeCheck("01") == Some(DeliveryTimeMessage)
    ensures DeliveryTimeCheck("") == Some(DeliveryTimeMessage)
    ensures DeliveryTimeCheck("12") == None
  {
  }
}
