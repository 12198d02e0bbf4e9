/**
 * The keys as the gateway reads them. The request dictionary is keyed by the rendered string, so
 * two different `Field`s must never render alike: `FieldOf` reads a key back, and reading back
 * every rendering gives the field it came from.
 */
module WireNames {
  import opened Wrappers
  import opened Text
  import opened Fields
  import opened Log

  /** The number of decimal digits `t` starts with. */
  function LeadingDigits(t: string): (k: nat)
    ensures k <= |t| && AllDigits(t[..k])
    ensures k < |t| ==> !IsDigit(t[k])
  {
    if |t| > 0 && IsDigit(t[0]) then
      var k := 1 + LeadingDigits(t[1..]);
      assert t[..k] == [t[0]] + t[1..][..k - 1];
      k
    else 0
  }

  function PartOf(t: string): Option<AddressPart> {
    if t == "FirstName" then Some(FirstName)
    else if t == "MiddleName" then Some(MiddleName)
    else if t == "LastName" then Some(LastName)
    else if t == "Company" then Some(Company)
    else if t == "Street" then Some(Street)
    else if t == "Street2" then Some(Street2)
    else if t == "City" then Some(City)
    else if t == "State" then Some(State)
    else if t == "Zip" then Some(Zip)
    else if t == "Country" then Some(Country)
    else if t == "Phone" then Some(Phone)
    else if t == "Mobile" then Some(Mobile)
    else None
  }

  /** An item key after its leading "x": the item number, then which member of the item. */
  function ItemOf(t: string): Option<Field> {
    var k := LeadingDigits(t);
    var i := DigitsValue(t[..k]);
    if t[k..] == "UnitPrice" then Some(XUnitPrice(i))
    else if t[k..] == "Qty" then Some(XQty(i))
    else if t[k..] == "Upc" then Some(XUpc(i))
    else None
  }

  /**
   * The field with a fixed name `s` is. The length and the two characters after the "x" are
   * looked at first: no two fixed names agree on all three.
   */
  function FixedOf(s: string): Option<Field> {
    if |s| < 3 then None
    else if |s| == 4 && s[1] == 'K' && s[2] == 'e' then (if s == "xKey" then Some(XKey) else None)
    else if |s| == 8 && s[1] == 'V' && s[2] == 'e' then (if s == "xVersion" then Some(XVersion) else None)
    else if |s| == 13 && s[1] == 'S' && s[2] == 'o' then (if s == "xSoftwareName" then Some(XSoftwareName) else None)
    else if |s| == 16 && s[1] == 'S' && s[2] == 'o' then (if s == "xSoftwareVersion" then Some(XSoftwareVersion) else None)
    else if |s| == 8 && s[1] == 'C' && s[2] == 'o' then (if s == "xCommand" then Some(XCommand) else None)
    else if |s| == 7 && s[1] == 'A' && s[2] == 'm' then (if s == "xAmount" then Some(XAmount) else None)
    else if |s| == 8 && s[1] == 'C' && s[2] == 'a' then (if s == "xCardNum" then Some(XCardNum) else None)
    else if |s| == 4 && s[1] == 'C' && s[2] == 'V' then (if s == "xCVV" then Some(XCVV) else None)
    else if |s| == 4 && s[1] == 'E' && s[2] == 'x' then (if s == "xExp" then Some(XExp) else None)
    else if |s| == 6 && s[1] == 'T' && s[2] == 'o' then (if s == "xToken" then Some(XToken) else None)
    else if |s| == 10 && s[1] == 'M' && s[2] == 'a' then (if s == "xMagStripe" then Some(XMagStripe) else None)
    else if |s| == 8 && s[1] == 'R' && s[2] == 'o' then (if s == "xRouting" then Some(XRouting) else None)
    else if |s| == 8 && s[1] == 'A' && s[2] == 'c' then (if s == "xAccount" then Some(XAccount) else None)
    else if |s| == 5 && s[1] == 'M' && s[2] == 'I' then (if s == "xMICR" then Some(XMICR) else None)
    else if |s| == 6 && s[1] == 'D' && s[2] == 'U' then (if s == "xDUKPT" then Some(XDUKPT) else None)
    else if |s| == 7 && s[1] == 'R' && s[2] == 'e' then (if s == "xRefNum" then Some(XRefNum) else None)
    else if |s| == 9 && s[1] == 'A' && s[2] == 'u' then (if s == "xAuthCode" then Some(XAuthCode) else None)
    else if |s| == 5 && s[1] == 'N' && s[2] == 'a' then (if s == "xName" then Some(XName) else None)
    else if |s| == 7 && s[1] == 'S' && s[2] == 't' then (if s == "xStreet" then Some(XStreet) else None)
    else if |s| == 4 && s[1] == 'Z' && s[2] == 'i' then (if s == "xZip" then Some(XZip) else None)
    else if |s| == 3 && s[1] == 'I' && s[2] == 'P' then (if s == "xIP" then Some(XIP) else None)
    else if |s| == 12 && s[1] == 'C' && s[2] == 'u' then (if s == "xCustReceipt" then Some(XCustReceipt) else None)
    else if |s| == 8 && s[1] == 'I' && s[2] == 'n' then (if s == "xInvoice" then Some(XInvoice) else None)
    else if |s| == 4 && s[1] == 'T' && s[2] == 'i' then (if s == "xTip" then Some(XTip) else None)
    else if |s| == 4 && s[1] == 'T' && s[2] == 'a' then (if s == "xTax" then Some(XTax) else None)
    else if |s| == 6 && s[1] == 'E' && s[2] == 'm' then (if s == "xEmail" then Some(XEmail) else None)
    else if |s| == 4 && s[1] == 'F' && s[2] == 'a' then (if s == "xFax" then Some(XFax) else None)
    else if |s| == 9 && s[1] == 'R' && s[2] == 'x' then (if s == "xRxAmount" then Some(XRxAmount) else None)
    else if |s| == 13 && s[1] == 'D' && s[2] == 'e' then (if s == "xDentalAmount" then Some(XDentalAmount) else None)
    else if |s| == 13 && s[1] == 'V' && s[2] == 'i' then (if s == "xVisionAmount" then Some(XVisionAmount) else None)
    else if |s| == 14 && s[1] == 'T' && s[2] == 'r' then (if s == "xTransitAmount" then Some(XTransitAmount) else None)
    else if |s| == 12 && s[1] == 'C' && s[2] == 'o' then (if s == "xCopayAmount" then Some(XCopayAmount) else None)
    else if |s| == 15 && s[1] == 'C' && s[2] == 'l' then (if s == "xClinicalAmount" then Some(XClinicalAmount) else None)
    else if |s| == 8 && s[1] == 'O' && s[2] == 'r' then (if s == "xOrderID" then Some(XOrderID) else None)
    else if |s| == 15 && s[1] == 'A' && s[2] == 'l' then (if s == "xAllowDuplicate" then Some(XAllowDuplicate) else None)
    else if |s| == 9 && s[1] == 'C' && s[2] == 'u' then (if s == "xCurrency" then Some(XCurrency) else None)
    else None
  }

  /** The kinds of key, told apart by characters no key of another kind has there. */
  datatype Kind = ItemKey | CustomKey | BillKey | ShipKey | FixedKey

  function KindOf(s: string): Kind {
    if |s| >= 2 && s[0] == 'x' && IsDigit(s[1]) then ItemKey
    else if |s| >= 6 && s[1] == 'C' && s[5] == 'o' then CustomKey
    else if |s| >= 2 && s[1] == 'B' then BillKey
    else if |s| >= 3 && s[1] == 'S' && s[2] == 'h' then ShipKey
    else FixedKey
  }

  /** A custom key: "xCustom" and the digits of its number. */
  function CustomOf(s: string): Option<Field> {
    if |s| >= 7 && s[..7] == "xCustom" && AllDigits(s[7..]) then Some(XCustom(DigitsValue(s[7..]))) else None
  }

  /** A billing key: "xBill" and the name of an address part. */
  function BillOf(s: string): Option<Field> {
    if |s| >= 5 && s[..5] == "xBill" && PartOf(s[5..]).Some? then Some(XBill(PartOf(s[5..]).value)) else None
  }

  /** A shipping key: "xShip" and the name of an address part. */
  function ShipOf(s: string): Option<Field> {
    if |s| >= 5 && s[..5] == "xShip" && PartOf(s[5..]).Some? then Some(XShip(PartOf(s[5..]).value)) else None
  }

  /** The field a key names, if any: the inverse of `WireName`. */
  function FieldOf(s: string): Option<Field> {
    match KindOf(s)
    case ItemKey => if |s| >= 1 then ItemOf(s[1..]) else None
    case CustomKey => CustomOf(s)
    case BillKey => BillOf(s)
    case ShipKey => ShipOf(s)
    case FixedKey => FixedOf(s)
  }

  lemma {:induction false} LeadingDigitsOf(d: string, r: string)
    requires AllDigits(d) && (|r| == 0 || !IsDigit(r[0]))
    ensures LeadingDigits(d + r) == |d|
    decreases |d|
  {
    if |d| > 0 {
      assert (d + r)[1..] == d[1..] + r;
      LeadingDigitsOf(d[1..], r);
    } else {
      assert d + r == r;
    }
  }

  lemma PartOfPartName(p: AddressPart)
    ensures PartOf(PartName(p)) == Some(p)
  {
  }

  /** An item key, after its "x", reads back as its number and member. */
  lemma ItemNameRead(i: nat, member: string)
    requires member == "UnitPrice" || member == "Qty" || member == "Upc"
    ensures ItemOf(NatToString(i) + member) ==
      if member == "UnitPrice" then Some(XUnitPrice(i)) else if member == "Qty" then Some(XQty(i)) else Some(XUpc(i))
  {
    var d := NatToString(i);
    LeadingDigitsOf(d, member);
    assert (d + member)[..|d|] == d && (d + member)[|d|..] == member;
    NatToStringRoundTrip(i);
  }

  /** An item key starts with "x" and a digit, and what follows the "x" is the number and the member. */
  lemma ItemKind(d: string, member: string)
    requires |d| >= 1 && IsDigit(d[0])
    ensures KindOf("x" + d + member) == ItemKey && ("x" + d + member)[1..] == d + member
  {
    var s := "x" + d + member;
    assert s[0] == 'x' && s[1] == d[0];
    assert s[1..] == d + member;
  }

  lemma ItemRead(f: Field)
    requires f.XUnitPrice? || f.XQty? || f.XUpc?
    ensures FieldOf(WireName(f)) == Some(f)
  {
    var member := if f.XUnitPrice? then "UnitPrice" else if f.XQty? then "Qty" else "Upc";
    assert WireName(f) == "x" + NatToString(f.item) + member;
    ItemKind(NatToString(f.item), member);
    ItemNameRead(f.item, member);
  }

  /** A custom key reads back as its number, whatever the width of its `D2` rendering. */
  lemma CustomRead(f: Field)
    requires f.XCustom?
    ensures FieldOf(WireName(f)) == Some(f)
  {
    var s := WireName(f);
    assert s == "xCustom" + PadTwo(f.n);
    assert s[1] == 'C' && s[5] == 'o' && s[..7] == "xCustom" && s[7..] == PadTwo(f.n);
    PadTwoRoundTrip(f.n);
  }

  lemma BillRead(f: Field)
    requires f.XBill?
    ensures FieldOf(WireName(f)) == Some(f)
  {
    var s := WireName(f);
    assert s == "xBill" + PartName(f.part);
    assert s[1] == 'B' && s[..5] == "xBill" && s[5..] == PartName(f.part);
    PartOfPartName(f.part);
  }

  lemma ShipRead(f: Field)
    requires f.XShip?
    ensures FieldOf(WireName(f)) == Some(f)
  {
    var s := WireName(f);
    assert s == "xShip" + PartName(f.part);
    assert s[1] == 'S' && s[2] == 'h' && s[..5] == "xShip" && s[5..] == PartName(f.part);
    PartOfPartName(f.part);
  }

  /** Every rendering reads back as the field it came from. */
  lemma FieldOfWireName(f: Field)
    ensures FieldOf(WireName(f)) == Some(f)
  {
    if f.XBill? {
      BillRead(f);
    } else if f.XShip? {
      ShipRead(f);
    } else if f.XCustom? {
      CustomRead(f);
    } else if f.XUnitPrice? || f.XQty? || f.XUpc? {
      ItemRead(f);
    } else {
      FixedRead(f);
    }
  }

  /** A field with a fixed name reads back as itself. */
  lemma FixedRead(f: Field)
    requires !(f.XBill? || f.XShip? || f.XCustom? || f.XUnitPrice? || f.XQty? || f.XUpc?)
    ensures FieldOf(WireName(f)) == Some(f)
  {
    FixedNamesRead0();
    FixedNamesRead1();
    FixedNamesRead2();
    FixedNamesRead3();
    FixedNamesRead4();
    FixedNamesRead5();
    FixedNamesRead6();
    FixedNamesRead7();
    FixedNamesRead8();
    FixedNamesRead9();
    FixedNamesRead10();
    FixedNamesRead11();
    FixedNamesRead12();
  }

  lemma FixedNamesRead0()
    ensures KindOf(WireName(XKey)) == FixedKey && FixedOf(WireName(XKey)) == Some(XKey)
    ensures KindOf(WireName(XVersion)) == FixedKey && FixedOf(WireName(XVersion)) == Some(XVersion)
    ensures KindOf(WireName(XCommand)) == FixedKey && FixedOf(WireName(XCommand)) == Some(XCommand)
    ensures KindOf(WireName(XAmount)) == FixedKey && FixedOf(WireName(XAmount)) == Some(XAmount)
  {
  }

  lemma FixedNamesRead1()
    ensures KindOf(WireName(XCardNum)) == FixedKey && FixedOf(WireName(XCardNum)) == Some(XCardNum)
    ensures KindOf(WireName(XCVV)) == FixedKey && FixedOf(WireName(XCVV)) == Some(XCVV)
    ensures KindOf(WireName(XExp)) == FixedKey && FixedOf(WireName(XExp)) == Some(XExp)
    ensures KindOf(WireName(XToken)) == FixedKey && FixedOf(WireName(XToken)) == Some(XToken)
  {
  }

  lemma FixedNamesRead2()
    ensures KindOf(WireName(XRouting)) == FixedKey && FixedOf(WireName(XRouting)) == Some(XRouting)
    ensures KindOf(WireName(XAccount)) == FixedKey && FixedOf(WireName(XAccount)) == Some(XAccount)
    ensures KindOf(WireName(XMICR)) == FixedKey && FixedOf(WireName(XMICR)) == Some(XMICR)
    ensures KindOf(WireName(XDUKPT)) == FixedKey && FixedOf(WireName(XDUKPT)) == Some(XDUKPT)
  {
  }

  lemma FixedNamesRead3()
    ensures KindOf(WireName(XRefNum)) == FixedKey && FixedOf(WireName(XRefNum)) == Some(XRefNum)
    ensures KindOf(WireName(XName)) == FixedKey && FixedOf(WireName(XName)) == Some(XName)
    ensures KindOf(WireName(XStreet)) == FixedKey && FixedOf(WireName(XStreet)) == Some(XStreet)
    ensures KindOf(WireName(XZip)) == FixedKey && FixedOf(WireName(XZip)) == Some(XZip)
  {
  }

  lemma FixedNamesRead4()
    ensures KindOf(WireName(XIP)) == FixedKey && FixedOf(WireName(XIP)) == Some(XIP)
    ensures KindOf(WireName(XInvoice)) == FixedKey && FixedOf(WireName(XInvoice)) == Some(XInvoice)
    ensures KindOf(WireName(XTip)) == FixedKey && FixedOf(WireName(XTip)) == Some(XTip)
    ensures KindOf(WireName(XTax)) == FixedKey && FixedOf(WireName(XTax)) == Some(XTax)
  {
  }

  lemma FixedNamesRead5()
    ensures KindOf(WireName(XEmail)) == FixedKey && FixedOf(WireName(XEmail)) == Some(XEmail)
    ensures KindOf(WireName(XFax)) == FixedKey && FixedOf(WireName(XFax)) == Some(XFax)
    ensures KindOf(WireName(XOrderID)) == FixedKey && FixedOf(WireName(XOrderID)) == Some(XOrderID)
  {
  }

  lemma FixedNamesRead6()
    ensures KindOf(WireName(XSoftwareName)) == FixedKey && FixedOf(WireName(XSoftwareName)) == Some(XSoftwareName)
    ensures KindOf(WireName(XSoftwareVersion)) == FixedKey && FixedOf(WireName(XSoftwareVersion)) == Some(XSoftwareVersion)
  {
  }

  lemma FixedNamesRead7()
    ensures KindOf(WireName(XMagStripe)) == FixedKey && FixedOf(WireName(XMagStripe)) == Some(XMagStripe)
    ensures KindOf(WireName(XAuthCode)) == FixedKey && FixedOf(WireName(XAuthCode)) == Some(XAuthCode)
  {
  }

  lemma FixedNamesRead8()
    ensures KindOf(WireName(XCustReceipt)) == FixedKey && FixedOf(WireName(XCustReceipt)) == Some(XCustReceipt)
    ensures KindOf(WireName(XRxAmount)) == FixedKey && FixedOf(WireName(XRxAmount)) == Some(XRxAmount)
  {
  }

  lemma FixedNamesRead9()
    ensures KindOf(WireName(XDentalAmount)) == FixedKey && FixedOf(WireName(XDentalAmount)) == Some(XDentalAmount)
    ensures KindOf(WireName(XVisionAmount)) == FixedKey && FixedOf(WireName(XVisionAmount)) == Some(XVisionAmount)
  {
  }

  lemma FixedNamesRead10()
    ensures KindOf(WireName(XTransitAmount)) == FixedKey && FixedOf(WireName(XTransitAmount)) == Some(XTransitAmount)
    ensures KindOf(WireName(XCopayAmount)) == FixedKey && FixedOf(WireName(XCopayAmount)) == Some(XCopayAmount)
  {
  }

  lemma FixedNamesRead11()
    ensures KindOf(WireName(XClinicalAmount)) == FixedKey && FixedOf(WireName(XClinicalAmount)) == Some(XClinicalAmount)
    ensures KindOf(WireName(XAllowDuplicate)) == FixedKey && FixedOf(WireName(XAllowDuplicate)) == Some(XAllowDuplicate)
  {
  }

  lemma FixedNamesRead12()
    ensures KindOf(WireName(XCurrency)) == FixedKey && FixedOf(WireName(XCurrency)) == Some(XCurrency)
  {
  }

  /** No two fields share a key: the dictionary's string keys are as distinct as its fields. */
  lemma WireNameInjective(a: Field, b: Field)
    ensures WireName(a) == WireName(b) ==> a == b
  {
    FieldOfWireName(a);
    FieldOfWireName(b);
  }

  /** A dictionary with distinct fields renders to pairs with distinct keys. */
  lemma RenderedDistinct(s: seq<Entry>)
    requires DistinctKeys(s)
    ensures DistinctNames(Rendered(s))
  {
    forall i, j | 0 <= i < j < |Rendered(s)|
      ensures Rendered(s)[i].0 != Rendered(s)[j].0
    {
      assert KeyAt(s, i) != KeyAt(s, j);
      WireNameInjective(s[i].0, s[j].0);
    }
  }
}
