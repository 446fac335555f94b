/** The pricing block of the order route in index.js, which runs only on a
    submission the validator accepted. Money is kept exact: the tax rate in
    thousandths of a percent, tax paid and total in units of 1/100000 of a
    dollar, so that the Quebec rate of 14.975 percent needs no rounding. */
module Pricer {
  import opened Wrappers
  import opened Text
  import opened Patterns
  import opened Validator

  /** The receipt the route renders and stores. */
  datatype PricedOrder = PricedOrder(
    name: string,
    email: string,
    phone: string,
    deliveryAddress: string,
    potSmall: nat,
    potMedium: nat,
    potBig: nat,
    shippingCharge: nat,
    subTotal: nat,
    taxRate: Option<nat>,   // thousandths of a percent; None where the source leaves `tax` undefined
    taxPaid: Option<nat>,   // 1/100000 dollar; None where the source computes NaN
    total: Option<nat>)     // 1/100000 dollar; None where the source computes NaN

  /** One hundred thousand: thousandths of a percent per unit fraction, and units of
      taxPaid and total per dollar. */
  const Scale: nat := 100000

  /** The provincial tax table, in thousandths of a percent. */
  const TaxTable: map<string, nat> := map[
    "AB" := 5000, "NT" := 5000, "NU" := 5000, "YT" := 5000,
    "BC" := 12000, "MB" := 12000,
    "NB" := 15000, "NL" := 15000, "NS" := 15000, "PE" := 15000,
    "ON" := 13000,
    "QC" := 14975,
    "SK" := 11000]

  /** The shipping charge per delivery-time tier, in dollars. */
  const ShippingTable: map<nat, nat> := map[1 := 30, 2 := 25, 3 := 20, 4 := 15]

  /** The `if`/`else if` chain that sets `tax`; a province none of the branches names
      leaves it undefined. */
  function TaxRate(province: string): (rate: Option<nat>)
    ensures rate.Some? <==> province in TaxTable
    ensures rate.Some? ==> rate.value == TaxTable[province]
  {
    if province == "AB" || province == "NT" || province == "NU" || province == "YT" then Some(5000)
    else if province == "BC" || province == "MB" then Some(12000)
    else if province == "NB" || province == "NL" || province == "NS" || province == "PE" then Some(15000)
    else if province == "ON" then Some(13000)
    else if province == "QC" then Some(14975)
    else if province == "SK" then Some(11000)
    else None
  }

  /** Every code of the tax table passes the province check. */
  lemma TaxTableCodesAreProvinceCodes()
    ensures forall p :: p in TaxTable ==> IsProvinceCode(p)
  {
  }

  /** The province check admits codes with no tax rate, such as "ZZ". */
  lemma ProvinceCheckAdmitsUntaxedCode()
    ensures ProvinceCheck("ZZ") == None && TaxRate("ZZ") == None
  {
  }

  /** JavaScript's conversion of a string operand to a number (as in `potMedium * 20`
      or `deliveryTime == 1`) for the operands that reach pricing: whitespace around
      the text is ignored, a blank text is 0 and a digit string is its decimal
      value. Any other text gives None; no such text passes validation. */
  function ToNumber(s: string): (r: Option<nat>)
    ensures AllDigits(Trim(s)) <==> r.Some?
    ensures r == Some(0) <==> AllZeros(Trim(s))
    ensures forall n: nat :: Trim(s) == ToDecimal(n) ==> r == Some(n)
  {
    DecimalOfEveryDecimal();
    var t := Trim(s);
    if t == [] then Some(0)
    else if AllDigits(t) then Some(DecimalValue(t))
    else None
  }

  /** Leading zeros are ignored: a text that trims to zeros followed by the
      canonical spelling of n converts to n. With `PaddedDecimal`, which splits
      every digit string that way, this fixes the value of every digit string. */
  lemma ToNumberOfPadded(s: string, z: nat, n: nat)
    requires Trim(s) == Zeros(z) + ToDecimal(n)
    ensures ToNumber(s) == Some(n)
  {
    LeadingZeros(z, ToDecimal(n));
    DecimalOfToDecimal(n);
  }

  /** The chain that sets `shippingCharge` from `deliveryTime == 1` ... `== 4`,
      keeping its initial 0 otherwise. */
  function ShippingCharge(deliveryTime: string): (charge: nat)
    ensures charge in {0, 15, 20, 25, 30}
    ensures var n := ToNumber(deliveryTime);
            charge == if n.Some? && n.value in ShippingTable then ShippingTable[n.value] else 0
  {
    var n := ToNumber(deliveryTime);
    if n == Some(1) then 30
    else if n == Some(2) then 25
    else if n == Some(3) then 20
    else if n == Some(4) then 15
    else 0
  }

  /** On a delivery time the validator accepts, the tiers are exactly the strings
      "1" to "4"; every other accepted value falls back to a charge of 0. */
  lemma ShippingByTier(deliveryTime: string)
    requires DeliveryTimeCheck(deliveryTime) == None
    ensures ShippingCharge(deliveryTime) == 30 <==> deliveryTime == "1"
    ensures ShippingCharge(deliveryTime) == 25 <==> deliveryTime == "2"
    ensures ShippingCharge(deliveryTime) == 20 <==> deliveryTime == "3"
    ensures ShippingCharge(deliveryTime) == 15 <==> deliveryTime == "4"
    ensures ShippingCharge(deliveryTime) == 0 <==>
              deliveryTime != "1" && deliveryTime != "2" && deliveryTime != "3" && deliveryTime != "4"
  {
    var n: nat :| n >= 1 && deliveryTime == ToDecimal(n);
    TrimDigits(deliveryTime);
    DecimalOfToDecimal(n);
    assert ToNumber(deliveryTime) == Some(n);
    assert ToDecimal(1) == "1" && ToDecimal(2) == "2" && ToDecimal(3) == "3" && ToDecimal(4) == "4";
  }

  /** The number a pot field contributes to the subtotal. potSmall is zeroed when it
      trims to blank (`potSmall.trim() == ""`), potMedium and potBig only when they are
      exactly empty (`== ""`); otherwise the raw text is converted by `* 20`. */
  function PricedQuantity(raw: string, trimFirst: bool): (r: Option<nat>)
    ensures r == ToNumber(raw)
  {
    if (if trimFirst then Trim(raw) else raw) == [] then Some(0) else ToNumber(raw)
  }

  /** Trimmed or not, the zeroing in the pricing block yields the very number the
      validator counted for that field. */
  lemma PricedQuantityIsValidated(raw: string, trimFirst: bool)
    requires PotEntryOk(raw)
    ensures PricedQuantity(raw, trimFirst) == Some(Quantity(raw))
  {
    if raw == [] {
      assert AllWhitespace(raw);
    }
  }

  /** `address + ", " + city + ", " + province + ", " + postcode`: the four parts in
      that order, each pair separated by a comma and a space. */
  function DeliveryAddress(address: string, city: string, province: string, postcode: string): (d: string)
    ensures |d| == |address| + |city| + |province| + |postcode| + 6
    ensures var a, c, p := |address|, |city|, |province|;
            && d[..a] == address && d[a..a + 2] == ", "
            && d[a + 2..a + 2 + c] == city && d[a + 2 + c..a + 4 + c] == ", "
            && d[a + 4 + c..a + 4 + c + p] == province && d[a + 4 + c + p..a + 6 + c + p] == ", "
            && d[a + 6 + c + p..] == postcode
  {
    address + ", " + city + ", " + province + ", " + postcode
  }

  /** Reads the province and postal code back off the end of a delivery address:
      the last two ", "-separated parts, the postal code being 6 or 7 characters. */
  function ProvinceAndPostcode(d: string): Option<(string, string)> {
    var n := |d|;
    if n >= 13 && d[n - 9..n - 7] == ", " && d[n - 13..n - 11] == ", " then
      Some((d[n - 11..n - 9], d[n - 7..]))
    else if n >= 12 && d[n - 8..n - 6] == ", " && d[n - 12..n - 10] == ", " then
      Some((d[n - 10..n - 8], d[n - 6..]))
    else None
  }

  /** The delivery address keeps the address first and, for a validated province
      and postal code, lets both be read back unchanged from its end. */
  lemma DeliveryAddressReadBack(address: string, city: string, province: string, postcode: string)
    requires IsProvinceCode(province) && IsPostcode(postcode)
    ensures var d := DeliveryAddress(address, city, province, postcode);
            d[..|address|] == address && ProvinceAndPostcode(d) == Some((province, postcode))
  {
    var pre := address + ", " + city;
    assert DeliveryAddress(address, city, province, postcode) == pre + ", " + province + ", " + postcode;
    TailReadBack(pre, province, postcode);
  }

  /** Province and postal code read back from any prefix followed by them. */
  lemma TailReadBack(pre: string, province: string, postcode: string)
    requires IsProvinceCode(province) && IsPostcode(postcode)
    ensures ProvinceAndPostcode(pre + ", " + province + ", " + postcode) == Some((province, postcode))
  {
    var d := pre + ", " + province + ", " + postcode;
    var p := |pre|;
    assert d[p..p + 2] == ", ";
    assert d[p + 2..p + 4] == province;
    assert d[p + 4..p + 6] == ", ";
    assert d[p + 6..] == postcode;
    if |postcode| == 6 {
      assert d[p + 3..p + 5][1] == ',';
    }
  }

  /** `subTotal * (tax / 100)`, exact, in 1/100000 dollar; undefined with the rate. */
  function TaxPaid(subTotal: nat, rate: Option<nat>): (r: Option<nat>)
    ensures r.Some? <==> rate.Some?
    ensures r.Some? ==> r.value == subTotal * rate.value
    ensures r.Some? ==> r.value as real / Scale as real == subTotal as real * ((rate.value as real / 1000.0) / 100.0)
  {
    match rate
    case Some(r) => Some(subTotal * r)
    case None => None
  }

  /** `subTotal + taxPayed`, exact, in 1/100000 dollar; undefined with the tax. */
  function Total(subTotal: nat, taxPaid: Option<nat>): (r: Option<nat>)
    ensures r.Some? <==> taxPaid.Some?
    ensures r.Some? ==> r.value == subTotal * Scale + taxPaid.value
    ensures r.Some? ==> r.value as real / Scale as real == subTotal as real + taxPaid.value as real / Scale as real
  {
    match taxPaid
    case Some(t) => Some(subTotal * Scale + t)
    case None => None
  }

  /** Tax paid is the subtotal times the rate and the total is the subtotal plus the
      tax paid, exactly; with no rate, both are undefined. */
  ghost predicate TaxedExactly(subTotal: nat, taxRate: Option<nat>, taxPaid: Option<nat>, total: Option<nat>) {
    match taxRate
    case Some(rate) => taxPaid == Some(subTotal * rate) && total == Some(subTotal * Scale + subTotal * rate)
    case None => taxPaid == None && total == None
  }

  /** The money part of a receipt. */
  datatype Bill = Bill(
    shippingCharge: nat,
    subTotal: nat,
    taxRate: Option<nat>,
    taxPaid: Option<nat>,
    total: Option<nat>)

  /** Shipping, subtotal at 10, 20 and 30 dollars per small, medium and big pot,
      tax rate, tax paid and total, for the given pot counts. */
  function ComputeBill(small: nat, medium: nat, big: nat, deliveryTime: string, province: string): (bill: Bill)
    ensures bill.shippingCharge == ShippingCharge(deliveryTime)
    ensures bill.shippingCharge in {0, 15, 20, 25, 30}
    ensures bill.subTotal == 10 * small + 20 * medium + 30 * big + bill.shippingCharge
    ensures small + medium + big > 0 ==> bill.subTotal >= 10 + bill.shippingCharge
    ensures bill.taxRate.Some? <==> province in TaxTable
    ensures bill.taxRate.Some? ==> bill.taxRate.value == TaxTable[province]
    ensures TaxedExactly(bill.subTotal, bill.taxRate, bill.taxPaid, bill.total)
  {
    var shipping := ShippingCharge(deliveryTime);
    var subTotal := small * 10 + medium * 20 + big * 30 + shipping;
    var tax := TaxRate(province);
    var taxPaid := TaxPaid(subTotal, tax);
    Bill(shipping, subTotal, tax, taxPaid, Total(subTotal, taxPaid))
  }

  /** The pricing block. It runs only on a submission that passed every check. */
  function Price(sub: Submission): (order: PricedOrder)
    requires AllChecksPass(sub)
    ensures order.name == sub.name && order.email == sub.email && order.phone == sub.phone
    ensures ToNumber(sub.potSmall) == Some(order.potSmall)
    ensures ToNumber(sub.potMedium) == Some(order.potMedium)
    ensures ToNumber(sub.potBig) == Some(order.potBig)
    ensures order.potSmall + order.potMedium + order.potBig > 0
    ensures order.shippingCharge == ShippingCharge(sub.deliveryTime)
    ensures order.shippingCharge in {0, 15, 20, 25, 30}
    ensures order.subTotal == 10 * order.potSmall + 20 * order.potMedium + 30 * order.potBig + order.shippingCharge
    ensures order.subTotal >= 10 + order.shippingCharge
    ensures order.taxRate.Some? <==> sub.province in TaxTable
    ensures order.taxRate.Some? ==> order.taxRate.value == TaxTable[sub.province]
    ensures TaxedExactly(order.subTotal, order.taxRate, order.taxPaid, order.total)
    ensures order.deliveryAddress == DeliveryAddress(sub.address, sub.city, sub.province, sub.postcode)
    ensures ProvinceAndPostcode(order.deliveryAddress) == Some((sub.province, sub.postcode))
  {
    PassingPricedFields(sub);
    PostcodeMatchesRegex(sub.postcode);
    DeliveryAddressReadBack(sub.address, sub.city, sub.province, sub.postcode);
    PricedQuantityIsValidated(sub.potSmall, true);
    PricedQuantityIsValidated(sub.potMedium, false);
    PricedQuantityIsValidated(sub.potBig, false);
    var small := PricedQuantity(sub.potSmall, true).value;
    var medium := PricedQuantity(sub.potMedium, false).value;
    var big := PricedQuantity(sub.potBig, false).value;
    var bill := ComputeBill(small, medium, big, sub.deliveryTime, sub.province);
    PricedOrder(
      sub.name, sub.email, sub.phone,
      DeliveryAddress(sub.address, sub.city, sub.province, sub.postcode),
      small, medium, big,
      bill.shippingCharge, bill.subTotal, bill.taxRate, bill.taxPaid, bill.total)
  }

  /** The pot counts on the receipt are the very numbers the validator checked,
      although pricing trims only potSmall before zeroing a blank entry. */
  lemma PricedPotsAreValidated(sub: Submission)
    requires AllChecksPass(sub)
    ensures Check(sub, PotSmall) == None
    ensures Price(sub).potSmall == Quantity(sub.potSmall)
            && Price(sub).potMedium == Quantity(sub.potMedium)
            && Price(sub).potBig == Quantity(sub.potBig)
  {
    assert Check(sub, PotSmall) == None;
    PricedQuantityIsValidated(sub.potSmall, true);
    PricedQuantityIsValidated(sub.potMedium, false);
    PricedQuantityIsValidated(sub.potBig, false);
  }
}
