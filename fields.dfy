/**
 * The keys of a gateway request. Every request the wrapper posts is a form of key/value
 * pairs; the keys are a fixed vocabulary plus numbered custom and item keys.
 */
module Fields {
  import opened Wrappers
  import opened Text

  /** One of the twelve parts of a billing or shipping address. */
  datatype AddressPart =
    | FirstName | MiddleName | LastName | Company | Street | Street2
    | City | State | Zip | Country | Phone | Mobile

  /** A request key; `WireName` gives the text sent to the gateway. */
  datatype Field =
    // the session keys every request starts with
    | XKey | XVersion | XSoftwareName | XSoftwareVersion
    // the command and the keys the operations add themselves
    | XCommand | XAmount | XCardNum | XCVV | XExp | XToken | XMagStripe
    | XRouting | XAccount | XMICR | XDUKPT | XRefNum | XAuthCode | XName
    | XStreet | XZip | XIP | XCustReceipt
    // the keys of AddCommonFields
    | XInvoice | XTip | XTax | XEmail | XFax | XBill(part: AddressPart) | XShip(part: AddressPart)
    // the keys of AddSpecialFields
    | XRxAmount | XDentalAmount | XVisionAmount | XTransitAmount | XCopayAmount | XClinicalAmount
    | XOrderID | XAllowDuplicate | XCurrency
    // numbered keys: custom fields and electronic WIC items
    | XCustom(n: nat)
    | XUnitPrice(item: nat) | XQty(item: nat) | XUpc(item: nat)

  /** Which part of the wrapper writes a key. */
  datatype Group = Session | Core | Common | Special | Custom | Item

  function GroupOf(f: Field): Group {
    match f
    case XKey | XVersion | XSoftwareName | XSoftwareVersion => Session
    case XInvoice | XTip | XTax | XEmail | XFax | XBill(_) | XShip(_) => Common
    case XRxAmount | XDentalAmount | XVisionAmount | XTransitAmount | XCopayAmount | XClinicalAmount
      | XOrderID | XAllowDuplicate | XCurrency => Special
    case XCustom(_) => Custom
    case XUnitPrice(_) | XQty(_) | XUpc(_) => Item
    case _ => Core
  }

  function PartName(p: AddressPart): string {
    match p
    case FirstName => "FirstName"
    case MiddleName => "MiddleName"
    case LastName => "LastName"
    case Company => "Company"
    case Street => "Street"
    case Street2 => "Street2"
    case City => "City"
    case State => "State"
    case Zip => "Zip"
    case Country => "Country"
    case Phone => "Phone"
    case Mobile => "Mobile"
  }

  /** The key as sent: custom keys use the `D2` format, item keys a plain decimal index. */
  function WireName(f: Field): string {
    match f
    case XKey => "xKey"
    case XVersion => "xVersion"
    case XSoftwareName => "xSoftwareName"
    case XSoftwareVersion => "xSoftwareVersion"
    case XCommand => "xCommand"
    case XAmount => "xAmount"
    case XCardNum => "xCardNum"
    case XCVV => "xCVV"
    case XExp => "xExp"
    case XToken => "xToken"
    case XMagStripe => "xMagStripe"
    case XRouting => "xRouting"
    case XAccount => "xAccount"
    case XMICR => "xMICR"
    case XDUKPT => "xDUKPT"
    case XRefNum => "xRefNum"
    case XAuthCode => "xAuthCode"
    case XName => "xName"
    case XStreet => "xStreet"
    case XZip => "xZip"
    case XIP => "xIP"
    case XCustReceipt => "xCustReceipt"
    case XInvoice => "xInvoice"
    case XTip => "xTip"
    case XTax => "xTax"
    case XEmail => "xEmail"
    case XFax => "xFax"
    case XBill(p) => "xBill" + PartName(p)
    case XShip(p) => "xShip" + PartName(p)
    case XRxAmount => "xRxAmount"
    case XDentalAmount => "xDentalAmount"
    case XVisionAmount => "xVisionAmount"
    case XTransitAmount => "xTransitAmount"
    case XCopayAmount => "xCopayAmount"
    case XClinicalAmount => "xClinicalAmount"
    case XOrderID => "xOrderID"
    case XAllowDuplicate => "xAllowDuplicate"
    case XCurrency => "xCurrency"
    case XCustom(n) => "xCustom" + PadTwo(n)
    case XUnitPrice(i) => "x" + NatToString(i) + "UnitPrice"
    case XQty(i) => "x" + NatToString(i) + "Qty"
    case XUpc(i) => "x" + NatToString(i) + "Upc"
  }

  /** One pair of a request: a key and its (possibly null) value. */
  type Entry = (Field, NetString)

  /** The keys of a sequence of entries, in order. */
  function Keys<V>(s: seq<(Field, V)>): (ks: seq<Field>)
    ensures |ks| == |s| && forall i | 0 <= i < |s| :: ks[i] == s[i].0
  {
    seq(|s|, i requires 0 <= i < |s| => s[i].0)
  }

  /** The key of the pair at position `i`. */
  function KeyAt(s: seq<Entry>, i: nat): Field
    requires i < |s|
  {
    s[i].0
  }

  /** No key occurs twice: what a .NET Dictionary guarantees of its pairs. */
  predicate DistinctKeys(s: seq<Entry>) {
    forall i, j | 0 <= i < j < |s| :: KeyAt(s, i) != KeyAt(s, j)
  }

  /** The pairs as the gateway sees them, with their keys rendered. */
  function Rendered(s: seq<Entry>): (r: seq<(string, NetString)>)
    ensures |r| == |s|
    ensures forall i | 0 <= i < |s| :: r[i] == (WireName(s[i].0), s[i].1)
  {
    seq(|s|, i requires 0 <= i < |s| => (WireName(s[i].0), s[i].1))
  }

  lemma KeysAppend<V>(a: seq<(Field, V)>, b: seq<(Field, V)>)
    ensures Keys(a + b) == Keys(a) + Keys(b)
  {
  }

  /**
   * `s` without the pair under `k`: what Dictionary.Remove leaves, and NameValueCollection.Remove
   * when the values under a key are one list.
   */
  function RemoveKey<V>(s: seq<(Field, V)>, k: Field): seq<(Field, V)> {
    if s == [] then []
    else if s[0].0 == k then RemoveKey(s[1..], k)
    else [s[0]] + RemoveKey(s[1..], k)
  }

  /** `s` without the pairs whose key is in `ks`: what removing each key of `ks` in turn leaves. */
  function RemoveKeys<V>(s: seq<(Field, V)>, ks: seq<Field>): seq<(Field, V)> {
    if s == [] then []
    else if s[0].0 in ks then RemoveKeys(s[1..], ks)
    else [s[0]] + RemoveKeys(s[1..], ks)
  }

  /** Removing no key changes nothing. */
  lemma {:induction false} RemoveNoKeys<V>(s: seq<(Field, V)>)
    ensures RemoveKeys(s, []) == s
  {
    if s != [] {
      RemoveNoKeys(s[1..]);
    }
  }

  /** Removing one more key after `ks` is removing `ks + [k]`. */
  lemma {:induction false} RemoveKeysStep<V>(s: seq<(Field, V)>, ks: seq<Field>, k: Field)
    ensures RemoveKey(RemoveKeys(s, ks), k) == RemoveKeys(s, ks + [k])
  {
    if s != [] {
      RemoveKeysStep(s[1..], ks, k);
    }
  }

  /** Removing every key that `s` holds leaves nothing. */
  lemma {:induction false} RemoveAllKeys<V>(s: seq<(Field, V)>, ks: seq<Field>)
    requires forall i | 0 <= i < |s| :: s[i].0 in ks
    ensures RemoveKeys(s, ks) == []
  {
    if s != [] {
      RemoveAllKeys(s[1..], ks);
    }
  }

  /**
   * The `force` branch of every client's reuse guard: the keys are read once, then each is
   * removed in turn.
   */
  method RemoveEach<V>(s: seq<(Field, V)>) returns (r: seq<(Field, V)>)
    ensures r == []
  {
    var toRemove := Keys(s);
    r := s;
    RemoveNoKeys(s);
    for i := 0 to |toRemove|
      invariant r == RemoveKeys(s, toRemove[..i])
    {
      RemoveKeysStep(s, toRemove[..i], toRemove[i]);
      assert toRemove[..i + 1] == toRemove[..i] + [toRemove[i]];
      r := RemoveKey(r, toRemove[i]);
    }
    assert toRemove[..|toRemove|] == toRemove;
    RemoveAllKeys(s, toRemove);
  }
}
