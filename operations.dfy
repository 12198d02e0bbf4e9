/**
 * The gateway operations of `CardknoxClient` as data: the operation records a caller fills in,
 * the validation each operation performs before it touches the request, and the pairs it adds
 * to the request after the session keys, in order, up to the point where it may throw.
 */
module Operations {
  import opened Wrappers
  import opened Text
  import opened Fields

  /** The twelve parts of a billing or shipping address; null when not set. */
  datatype Address = Address(
    firstName: NetString, middleName: NetString, lastName: NetString, company: NetString,
    street: NetString, street2: NetString, city: NetString, state: NetString,
    zip: NetString, country: NetString, phone: NetString, mobile: NetString)

  function AddressValue(a: Address, p: AddressPart): NetString {
    match p
    case FirstName => a.firstName
    case MiddleName => a.middleName
    case LastName => a.lastName
    case Company => a.company
    case Street => a.street
    case Street2 => a.street2
    case City => a.city
    case State => a.state
    case Zip => a.zip
    case Country => a.country
    case Phone => a.phone
    case Mobile => a.mobile
  }

  /** The currencies a sale may name; `CurrencyName` is the enum member's name, as sent. */
  datatype Currency = USD | GBP | ILS | EUR | MXN | CAD

  function CurrencyName(c: Currency): string {
    match c
    case USD => "USD"
    case GBP => "GBP"
    case ILS => "ILS"
    case EUR => "EUR"
    case MXN => "MXN"
    case CAD => "CAD"
  }

  /** The members every operation record has (decimal? amounts are `Option<real>`). */
  datatype OperationBase = OperationBase(
    cardNum: NetString, cvv: NetString, exp: NetString, amount: Option<real>, name: NetString,
    token: NetString, street: NetString, zip: NetString, magStripe: NetString, cardPresent: bool,
    tax: Option<real>, tip: Option<real>, invoice: NetString, ip: NetString,
    email: NetString, fax: NetString, bill: Address, ship: Address,
    custReceipt: bool, allowDuplicate: bool,
    routing: NetString, account: NetString, micr: NetString, dukpt: NetString,
    customFields: seq<NetString>)

  /** The members a sale adds to the base record. */
  datatype Sale = Sale(
    base: OperationBase, allowPartialAuth: bool,
    rxAmount: real, dentalAmount: real, visionAmount: real,
    transitAmount: real, copayAmount: real, clinicalAmount: real,
    orderID: NetString, existingCustomer: bool, currency: Option<Currency>)

  /** One line of an electronic WIC sale. */
  datatype WicItem = WicItem(unitPrice: real, qty: Int32, upc: NetString)

  /** The exceptions an operation throws before the request is posted. */
  datatype Failure =
    | InvalidAmount             // InvalidOperationException: amount null or not positive
    | InvalidRefNum             // InvalidOperationException: RefNum null or white space
    | InvalidAuthCode           // InvalidOperationException: AuthCode null or white space
    | NullItems                 // NullReferenceException: a WIC sale whose item list is null
    | NoItems                   // InvalidOperationException: a WIC sale without items
    | NewInstanceRequired       // InvalidOperationException: the client was already used
    | NameRequired              // InvalidOperationException: "Name is required."
    | MissingRequired(command: string)  // Exception: no usable payment data for the command

  // ---------------------------------------------------------------------------------------------
  // Validation, before the request is touched

  predicate PositiveAmount(a: Option<real>) {
    a.Some? && a.value > 0.0
  }

  function AmountCheck(a: Option<real>): Option<Failure> {
    if PositiveAmount(a) then None else Some(InvalidAmount)
  }

  function RefNumCheck(r: NetString): Option<Failure> {
    if IsNullOrWhiteSpace(r) then Some(InvalidRefNum) else None
  }

  function AuthCodeCheck(a: NetString): Option<Failure> {
    if IsNullOrWhiteSpace(a) then Some(InvalidAuthCode) else None
  }

  /**
   * The item list of a WIC sale, which defaults to null: reading the count of a null list throws
   * NullReferenceException, and an empty list is refused.
   */
  function ItemsCheck(items: Option<seq<WicItem>>): Option<Failure> {
    if items.None? then Some(NullItems)
    else if |items.value| == 0 then Some(NoItems)
    else None
  }

  /** The items a WIC sale adds; a null list never gets that far (see `ItemsCheck`). */
  function ItemsOf(items: Option<seq<WicItem>>): seq<WicItem> {
    if items.Some? then items.value else []
  }

  /** The first of two checks that fails, in the order the operation makes them. */
  function Then(first: Option<Failure>, second: Option<Failure>): Option<Failure> {
    if first.Some? then first else second
  }

  // ---------------------------------------------------------------------------------------------
  // Blocks of pairs. Each `With...` function extends the pairs added so far, in the order the
  // operation adds them.

  /** A string member sent only when it is not null or white space. */
  function Optional(k: Field, v: NetString): seq<Entry> {
    if IsNullOrWhiteSpace(v) then [] else [(k, v)]
  }

  /** A boolean member sent as "True" only when it is set. */
  function Flag(k: Field, b: bool): seq<Entry> {
    if b then [(k, Some(TrueString))] else []
  }

  /** `xAmount` in the `N2` format. */
  function AmountEntry(a: Option<real>): Entry {
    (XAmount, Some(FormatNullableN2(a)))
  }

  /** A decimal? member sent in the `N2` format when it is not null. */
  function PresentAmount(k: Field, a: Option<real>): seq<Entry> {
    if a.Some? then [(k, Some(FormatN2(a.value)))] else []
  }

  /** A decimal member sent in the `N2` format when it is positive. */
  function PositiveAmountEntry(k: Field, a: real): seq<Entry> {
    if a > 0.0 then [(k, Some(FormatN2(a)))] else []
  }

  /** The currency, by its enum name, when one is set. */
  function CurrencyEntry(c: Option<Currency>): seq<Entry> {
    if c.Some? then [(XCurrency, Some(CurrencyName(c.value)))] else []
  }

  /** The payment data an operation adds, and whether it is enough to proceed. */
  datatype Credential = Credential(entries: seq<Entry>, satisfied: bool)

  /**
   * Card data: a card number (with CVV and expiry when present, and enough only when the expiry
   * is present), otherwise a token, otherwise magnetic stripe data.
   */
  function CardCredential(b: OperationBase): Credential {
    if !IsNullOrWhiteSpace(b.cardNum) then
      Credential([(XCardNum, b.cardNum)] + Optional(XCVV, b.cvv) + Optional(XExp, b.exp), !IsNullOrWhiteSpace(b.exp))
    else if !IsNullOrWhiteSpace(b.token) then Credential([(XToken, b.token)], true)
    else if !IsNullOrWhiteSpace(b.magStripe) then Credential([(XMagStripe, b.magStripe)], true)
    else Credential([], false)
  }

  /** EBT card data: a card number, otherwise a token, otherwise magnetic stripe data. */
  function EbtCredential(b: OperationBase): Credential {
    if !IsNullOrWhiteSpace(b.cardNum) then Credential([(XCardNum, b.cardNum)], true)
    else if !IsNullOrWhiteSpace(b.token) then Credential([(XToken, b.token)], true)
    else if !IsNullOrWhiteSpace(b.magStripe) then Credential([(XMagStripe, b.magStripe)], true)
    else Credential([], false)
  }

  /** EBT balance and void data: a card number, otherwise magnetic stripe data. */
  function CardOrMagStripe(b: OperationBase): Credential {
    if !IsNullOrWhiteSpace(b.cardNum) then Credential([(XCardNum, b.cardNum)], true)
    else if !IsNullOrWhiteSpace(b.magStripe) then Credential([(XMagStripe, b.magStripe)], true)
    else Credential([], false)
  }

  /** Check data: routing and account numbers together, otherwise a token (when allowed), otherwise MICR data. */
  function CheckCredential(b: OperationBase, tokenAllowed: bool): Credential {
    if !IsNullOrWhiteSpace(b.routing) && !IsNullOrWhiteSpace(b.account) then
      Credential([(XRouting, b.routing), (XAccount, b.account)], true)
    else if tokenAllowed && !IsNullOrWhiteSpace(b.token) then Credential([(XToken, b.token)], true)
    else if !IsNullOrWhiteSpace(b.micr) then Credential([(XMICR, b.micr)], true)
    else Credential([], false)
  }

  /** The twelve parts of the billing address, each sent when not null or white space. */
  function WithBillingAddress(acc: seq<Entry>, a: Address): seq<Entry> {
    acc
    + Optional(XBill(FirstName), a.firstName) + Optional(XBill(MiddleName), a.middleName)
    + Optional(XBill(LastName), a.lastName) + Optional(XBill(Company), a.company)
    + Optional(XBill(Street), a.street) + Optional(XBill(Street2), a.street2)
    + Optional(XBill(City), a.city) + Optional(XBill(State), a.state)
    + Optional(XBill(Zip), a.zip) + Optional(XBill(Country), a.country)
    + Optional(XBill(Phone), a.phone) + Optional(XBill(Mobile), a.mobile)
  }

  /** The twelve parts of the shipping address, each sent when not null or white space. */
  function WithShippingAddress(acc: seq<Entry>, a: Address): seq<Entry> {
    acc
    + Optional(XShip(FirstName), a.firstName) + Optional(XShip(MiddleName), a.middleName)
    + Optional(XShip(LastName), a.lastName) + Optional(XShip(Company), a.company)
    + Optional(XShip(Street), a.street) + Optional(XShip(Street2), a.street2)
    + Optional(XShip(City), a.city) + Optional(XShip(State), a.state)
    + Optional(XShip(Zip), a.zip) + Optional(XShip(Country), a.country)
    + Optional(XShip(Phone), a.phone) + Optional(XShip(Mobile), a.mobile)
  }

  /** What AddCommonFields adds: invoice, tip, tax, e-mail, fax, then both addresses. */
  function WithCommonFields(acc: seq<Entry>, b: OperationBase): seq<Entry> {
    var head := acc + Optional(XInvoice, b.invoice) + PresentAmount(XTip, b.tip) + PresentAmount(XTax, b.tax)
      + Optional(XEmail, b.email) + Optional(XFax, b.fax);
    WithShippingAddress(WithBillingAddress(head, b.bill), b.ship)
  }

  /** What AddSpecialFields adds: the positive FSA amounts, order id, duplicate flag and currency. */
  function WithSpecialFields(acc: seq<Entry>, s: Sale): seq<Entry> {
    acc
    + PositiveAmountEntry(XRxAmount, s.rxAmount) + PositiveAmountEntry(XDentalAmount, s.dentalAmount)
    + PositiveAmountEntry(XVisionAmount, s.visionAmount) + PositiveAmountEntry(XTransitAmount, s.transitAmount)
    + PositiveAmountEntry(XCopayAmount, s.copayAmount) + PositiveAmountEntry(XClinicalAmount, s.clinicalAmount)
    + Optional(XOrderID, s.orderID) + Flag(XAllowDuplicate, s.base.allowDuplicate) + CurrencyEntry(s.currency)
  }

  /** The custom fields, numbered from 1 in list order. */
  function CustomFields(cs: seq<NetString>): seq<Entry> {
    seq(|cs|, i requires 0 <= i < |cs| => (XCustom(i + 1), cs[i]))
  }

  /** The three pairs of the WIC item at position `i` (from 1). */
  function ItemEntries(i: nat, item: WicItem): seq<Entry> {
    [(XUnitPrice(i), Some(FormatN2(item.unitPrice))), (XQty(i), Some(IntToString(item.qty))), (XUpc(i), item.upc)]
  }

  /** The WIC items, numbered from 1 in list order. */
  function ItemFields(items: seq<WicItem>): seq<Entry>
    decreases |items|
  {
    if items == [] then [] else ItemFields(items[..|items| - 1]) + ItemEntries(|items|, items[|items| - 1])
  }

  /** The items up to position `j + 1` are those up to `j` and then item `j + 1`. */
  lemma ItemFieldsSnoc(items: seq<WicItem>, j: nat)
    requires j < |items|
    ensures ItemFields(items[..j + 1]) == ItemFields(items[..j]) + ItemEntries(j + 1, items[j])
  {
    assert items[..j + 1][..j] == items[..j];
  }

  function WithStreetZipIP(acc: seq<Entry>, b: OperationBase): seq<Entry> {
    acc + Optional(XStreet, b.street) + Optional(XZip, b.zip) + Optional(XIP, b.ip)
  }

  // ---------------------------------------------------------------------------------------------
  // What an operation adds after the session keys

  /** The pairs after an operation has added its own, and the exception it threw part-way, if any. */
  datatype Build = Build(after: seq<Entry>, failure: Option<Failure>)

  /** The payment data did not suffice: the pairs added so far stay, and the operation throws. */
  function Missing(acc: seq<Entry>, command: string): Build {
    Build(acc, Some(MissingRequired(command)))
  }

  /** A card or gift-card sale after the payment data: address, receipt flag, common, special and custom fields. */
  function CardSaleTail(acc: seq<Entry>, s: Sale): seq<Entry> {
    var b := s.base;
    var head := WithStreetZipIP(acc, b) + Flag(XCustReceipt, b.custReceipt);
    WithSpecialFields(WithCommonFields(head, b), s) + CustomFields(b.customFields)
  }

  /** As `CardSaleTail`, with the custom fields before the common and special ones. */
  function CardCustomFirstTail(acc: seq<Entry>, s: Sale): seq<Entry> {
    var b := s.base;
    var head := WithStreetZipIP(acc, b) + Flag(XCustReceipt, b.custReceipt) + CustomFields(b.customFields);
    WithSpecialFields(WithCommonFields(head, b), s)
  }

  /** An EBT sale, credit or voucher after the payment data. */
  function EbtSaleTail(acc: seq<Entry>, s: Sale): seq<Entry> {
    var b := s.base;
    WithSpecialFields(WithCommonFields(WithStreetZipIP(acc, b) + CustomFields(b.customFields), b), s)
  }

  /** A check sale or credit: the inverted Name check, check data, then amount, name and the rest. */
  function CheckSaleRequest(acc: seq<Entry>, s: Sale, command: string): Build {
    var b := s.base;
    var head := acc + [(XCommand, Some(command))];
    var cred := CheckCredential(b, true);
    if !IsNullOrWhiteSpace(b.name) then Build(head, Some(NameRequired))
    else if !cred.satisfied then Missing(head + cred.entries, command)
    else
      Build(CheckSaleTail(head + cred.entries, s), None)
  }

  /** What a check sale sends after its check data: amount, name, IP, receipt flag, custom, common and special fields. */
  function CheckSaleTail(acc: seq<Entry>, s: Sale): seq<Entry> {
    var b := s.base;
    var tail := acc + [AmountEntry(b.amount)] + [(XName, b.name)] + Optional(XIP, b.ip)
      + Flag(XCustReceipt, b.custReceipt) + CustomFields(b.customFields);
    WithSpecialFields(WithCommonFields(tail, b), s)
  }

  /** A card operation with the expiry rule: command and amount, card data, then `CardSaleTail`. */
  function CardSaleRequest(acc: seq<Entry>, s: Sale, command: string, customFirst: bool): Build {
    var head := acc + [(XCommand, Some(command))] + [AmountEntry(s.base.amount)];
    var cred := CardCredential(s.base);
    if !cred.satisfied then Missing(head + cred.entries, command)
    else if customFirst then Build(CardCustomFirstTail(head + cred.entries, s), None)
    else Build(CardSaleTail(head + cred.entries, s), None)
  }

  /** An EBT sale, credit or voucher: command, amount and DUKPT, EBT card data, then `EbtSaleTail`. */
  function EbtSaleRequest(acc: seq<Entry>, s: Sale, command: string): Build {
    var head := acc + [(XCommand, Some(command))] + [AmountEntry(s.base.amount)] + [(XDUKPT, s.base.dukpt)];
    var cred := EbtCredential(s.base);
    if !cred.satisfied then Missing(head + cred.entries, command)
    else Build(EbtSaleTail(head + cred.entries, s), None)
  }

  /**
   * A balance inquiry: command and DUKPT, then a card number, else a token when `tokenAccepted`,
   * else magnetic stripe data; then the IP address.
   */
  function BalanceRequest(acc: seq<Entry>, b: OperationBase, tokenAccepted: bool, command: string): Build {
    var head := acc + [(XCommand, Some(command))] + [(XDUKPT, b.dukpt)];
    var cred := if tokenAccepted then EbtCredential(b) else CardOrMagStripe(b);
    if !cred.satisfied then Missing(head + cred.entries, command)
    else Build(head + cred.entries + Optional(XIP, b.ip), None)
  }

  /** A gift card activation or deactivation: command, card data, IP, common and custom fields. */
  function GiftCardStateRequest(acc: seq<Entry>, b: OperationBase, command: string): Build {
    var head := acc + [(XCommand, Some(command))];
    var cred := CardCredential(b);
    if !cred.satisfied then Missing(head + cred.entries, command)
    else Build(WithCommonFields(head + cred.entries + Optional(XIP, b.ip), b) + CustomFields(b.customFields), None)
  }

  /** The WIC items, when there are any. */
  function WithItems(acc: seq<Entry>, items: seq<WicItem>): seq<Entry> {
    if |items| > 0 then acc + ItemFields(items) else acc
  }

  /** Saving card data: command, card data, then name, street, zip, IP and custom fields. */
  function CCSaveRequest(acc: seq<Entry>, b: OperationBase, command: string): Build {
    var head := acc + [(XCommand, Some(command))];
    var cred := CardCredential(b);
    if !cred.satisfied then Missing(head + cred.entries, command)
    else Build(WithStreetZipIP(head + cred.entries + Optional(XName, b.name), b) + CustomFields(b.customFields), None)
  }

  /** A refund or check void: command, amount, reference number, the receipt flag when `receipt`, custom fields. */
  function RefundRequest(acc: seq<Entry>, b: OperationBase, r: NetString, command: string, receipt: bool): Build {
    var head := acc + [(XCommand, Some(command))] + [AmountEntry(b.amount)] + [(XRefNum, r)];
    Build((if receipt then head + Flag(XCustReceipt, b.custReceipt) else head) + CustomFields(b.customFields), None)
  }

  /** A capture: command, amount and reference number, then `CardSaleTail`; no card data. */
  function CCCaptureRequest(acc: seq<Entry>, s: Sale, r: NetString, command: string): Build {
    Build(CardSaleTail(acc + [(XCommand, Some(command))] + [AmountEntry(s.base.amount)] + [(XRefNum, r)], s), None)
  }

  /** A void, void-refund or void-release: command, reference number, custom fields. */
  function VoidRequest(acc: seq<Entry>, b: OperationBase, r: NetString, command: string): Build {
    Build(acc + [(XCommand, Some(command))] + [(XRefNum, r)] + CustomFields(b.customFields), None)
  }

  /** An adjustment: command, reference number, amount, street, zip, name, IP and custom fields. */
  function CCAdjustRequest(acc: seq<Entry>, b: OperationBase, r: NetString, command: string): Build {
    var head := acc + [(XCommand, Some(command))] + [(XRefNum, r)] + [AmountEntry(b.amount)];
    Build(head + Optional(XStreet, b.street) + Optional(XZip, b.zip) + Optional(XName, b.name)
      + Optional(XIP, b.ip) + CustomFields(b.customFields), None)
  }

  /** A post-authorization: command and authorization code, address, name, IP, custom, common and special fields. */
  function CCPostAuthRequest(acc: seq<Entry>, s: Sale, a: NetString, command: string): Build {
    var b := s.base;
    var head := acc + [(XCommand, Some(command))] + [(XAuthCode, a)];
    var tail := head + Optional(XStreet, b.street) + Optional(XZip, b.zip) + Optional(XName, b.name)
      + Optional(XIP, b.ip) + CustomFields(b.customFields);
    Build(WithSpecialFields(WithCommonFields(tail, b), s), None)
  }

  /** Saving check data: the inverted Name check, check data without a token, then name, IP and custom fields. */
  function CheckSaveRequest(acc: seq<Entry>, b: OperationBase, command: string): Build {
    var head := acc + [(XCommand, Some(command))];
    var cred := CheckCredential(b, false);
    if !IsNullOrWhiteSpace(b.name) then Build(head, Some(NameRequired))
    else if !cred.satisfied then Missing(head + cred.entries, command)
    else Build(head + cred.entries + [(XName, b.name)] + Optional(XIP, b.ip) + CustomFields(b.customFields), None)
  }

  /** An EBT cash benefit withdrawal: command, amount, DUKPT, EBT card data, IP, invoice, duplicate flag, custom fields. */
  function EBTCBCashRequest(acc: seq<Entry>, b: OperationBase, command: string): Build {
    var head := acc + [(XCommand, Some(command))] + [AmountEntry(b.amount)] + [(XDUKPT, b.dukpt)];
    var cred := EbtCredential(b);
    if !cred.satisfied then Missing(head + cred.entries, command)
    else Build(head + cred.entries + Optional(XIP, b.ip) + Optional(XInvoice, b.invoice)
      + Flag(XAllowDuplicate, b.allowDuplicate) + CustomFields(b.customFields), None)
  }

  /** An electronic WIC sale: as an EBT sale, with the items after the custom fields. */
  function EBTWSaleRequest(acc: seq<Entry>, s: Sale, items: seq<WicItem>, command: string): Build {
    var b := s.base;
    var head := acc + [(XCommand, Some(command))] + [AmountEntry(b.amount)] + [(XDUKPT, b.dukpt)];
    var cred := EbtCredential(b);
    if !cred.satisfied then Missing(head + cred.entries, command)
    else
      var tail := WithItems(WithStreetZipIP(head + cred.entries, b) + CustomFields(b.customFields), items);
      Build(WithSpecialFields(WithCommonFields(tail, b), s), None)
  }

  /** An electronic WIC void: command, DUKPT, reference number, then a card number or magnetic stripe data. */
  function EBTWVoidRequest(acc: seq<Entry>, b: OperationBase, r: NetString, command: string): Build {
    var head := acc + [(XCommand, Some(command))] + [(XDUKPT, b.dukpt)] + [(XRefNum, r)];
    var cred := CardOrMagStripe(b);
    if !cred.satisfied then Missing(head + cred.entries, command)
    else Build(head + cred.entries, None)
  }
}
