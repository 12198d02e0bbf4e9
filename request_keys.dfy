/**
 * Which keys a request holds, and how often. `Occurs` counts the pairs under a key; a request
 * where every key occurs at most once is one a .NET Dictionary can hold, so no `Values.Add` of an
 * operation ever meets a key that is already there. Each group of fields gets a counting lemma
 * that says which keys it sends (only those whose member is set) and that it sends each once.
 */
module RequestKeys {
  import opened Wrappers
  import opened Text
  import opened Fields
  import opened Operations

  function Ind(b: bool): nat {
    if b then 1 else 0
  }

  /** One pair under `k0` when `b` holds, counted for the key `k`. */
  function Counted(k: Field, k0: Field, b: bool): nat {
    if k == k0 then Ind(b) else 0
  }

  /** The positions of `s` that hold the key `k`. */
  function Positions(s: seq<Entry>, k: Field): set<nat> {
    set i: nat | i < |s| && s[i].0 == k
  }

  /** The number of pairs of `s` under the key `k`. */
  function Occurs(s: seq<Entry>, k: Field): nat {
    |Positions(s, k)|
  }

  // ---------------------------------------------------------------------------------------------
  // Counting and distinctness

  /** One pair more. */
  lemma SnocAt(acc: seq<Entry>, e: Entry, k: Field)
    ensures Occurs(acc + [e], k) == Occurs(acc, k) + Ind(e.0 == k)
  {
    var s := acc + [e];
    if e.0 == k {
      assert Positions(s, k) == Positions(acc, k) + {|acc|};
    } else {
      assert Positions(s, k) == Positions(acc, k);
    }
  }

  /** The empty sequence holds no key. */
  lemma EmptyAt(k: Field)
    ensures Occurs([], k) == 0
  {
    assert Positions([], k) == {};
  }

  /** Counts add up over a concatenation. */
  lemma {:induction false} AppendAt(a: seq<Entry>, b: seq<Entry>, k: Field)
    ensures Occurs(a + b, k) == Occurs(a, k) + Occurs(b, k)
    decreases |b|
  {
    if b == [] {
      assert a + b == a;
      EmptyAt(k);
    } else {
      var b' := b[..|b| - 1];
      var e := b[|b| - 1];
      AppendAt(a, b', k);
      assert a + b == (a + b') + [e];
      assert b == b' + [e];
      SnocAt(a + b', e, k);
      SnocAt(b', e, k);
    }
  }

  /** A sequence in which no key occurs twice has distinct keys. */
  lemma OnceIsDistinct(s: seq<Entry>)
    requires forall k :: Occurs(s, k) <= 1
    ensures DistinctKeys(s)
  {
    forall i, j | 0 <= i < j < |s|
      ensures KeyAt(s, i) != KeyAt(s, j)
    {
      if KeyAt(s, i) == KeyAt(s, j) {
        TwoPositions(s, i, j);
        assert false;
      }
    }
  }

  /** Two positions under the same key make it occur at least twice. */
  lemma TwoPositions(s: seq<Entry>, i: nat, j: nat)
    requires i < j < |s| && KeyAt(s, i) == KeyAt(s, j)
    ensures Occurs(s, KeyAt(s, i)) >= 2
  {
    var both: set<nat> := {i, j};
    assert both <= Positions(s, KeyAt(s, i));
    SubsetCard(both, Positions(s, KeyAt(s, i)));
  }

  lemma {:induction false} SubsetCard(a: set<nat>, b: set<nat>)
    requires a <= b
    ensures |a| <= |b|
    decreases |a|
  {
    if a != {} {
      var x :| x in a;
      SubsetCard(a - {x}, b - {x});
    }
  }

  // ---------------------------------------------------------------------------------------------
  // Blocks of at most one pair

  /** An optional string is sent once under its key when it is set, and not at all otherwise. */
  lemma OptionalAt(acc: seq<Entry>, k0: Field, v: NetString, k: Field)
    ensures Occurs(acc + Optional(k0, v), k) == Occurs(acc, k) + Sent(k, k0, v)
  {
    if IsNullOrWhiteSpace(v) {
      assert acc + Optional(k0, v) == acc;
    } else {
      SnocAt(acc, (k0, v), k);
    }
  }

  lemma FlagAt(acc: seq<Entry>, k0: Field, b: bool, k: Field)
    ensures Occurs(acc + Flag(k0, b), k) == Occurs(acc, k) + Counted(k, k0, b)
  {
    if b {
      SnocAt(acc, (k0, Some(TrueString)), k);
    } else {
      assert acc + Flag(k0, b) == acc;
    }
  }

  lemma PresentAt(acc: seq<Entry>, k0: Field, a: Option<real>, k: Field)
    ensures Occurs(acc + PresentAmount(k0, a), k) == Occurs(acc, k) + Counted(k, k0, a.Some?)
  {
    if a.Some? {
      SnocAt(acc, (k0, Some(FormatN2(a.value))), k);
    } else {
      assert acc + PresentAmount(k0, a) == acc;
    }
  }

  lemma PositiveAt(acc: seq<Entry>, k0: Field, a: real, k: Field)
    ensures Occurs(acc + PositiveAmountEntry(k0, a), k) == Occurs(acc, k) + Counted(k, k0, a > 0.0)
  {
    if a > 0.0 {
      SnocAt(acc, (k0, Some(FormatN2(a))), k);
    } else {
      assert acc + PositiveAmountEntry(k0, a) == acc;
    }
  }

  lemma CurrencyAt(acc: seq<Entry>, c: Option<Currency>, k: Field)
    ensures Occurs(acc + CurrencyEntry(c), k) == Occurs(acc, k) + Counted(k, XCurrency, c.Some?)
  {
    if c.Some? {
      SnocAt(acc, (XCurrency, Some(CurrencyName(c.value))), k);
    } else {
      assert acc + CurrencyEntry(c) == acc;
    }
  }

  // ---------------------------------------------------------------------------------------------
  // The groups of optional fields: each key at most once, and only when its member is set

  /** Whether the part `p` of an address is sent. */
  predicate PartSent(a: Address, p: AddressPart) {
    !IsNullOrWhiteSpace(AddressValue(a, p))
  }

  /** One optional pair, counted: the sum the address lemmas add up. */
  function Sent(k: Field, k0: Field, v: NetString): nat {
    Counted(k, k0, !IsNullOrWhiteSpace(v))
  }

  /** The billing address adds one pair for each part that is set, and nothing else. */
  lemma BillingAt(acc: seq<Entry>, a: Address, k: Field)
    ensures Occurs(WithBillingAddress(acc, a), k) == Occurs(acc, k) + Ind(k.XBill? && PartSent(a, k.part))
  {
    BillingChain(acc, a, k);
    BillingSum(a, k);
  }

  /** The address block, pair by pair. */
  lemma BillingChain(acc: seq<Entry>, a: Address, k: Field)
    ensures Occurs(WithBillingAddress(acc, a), k) == Occurs(acc, k)
      + Sent(k, XBill(FirstName), a.firstName) + Sent(k, XBill(MiddleName), a.middleName)
      + Sent(k, XBill(LastName), a.lastName) + Sent(k, XBill(Company), a.company)
      + Sent(k, XBill(Street), a.street) + Sent(k, XBill(Street2), a.street2)
      + Sent(k, XBill(City), a.city) + Sent(k, XBill(State), a.state)
      + Sent(k, XBill(Zip), a.zip) + Sent(k, XBill(Country), a.country)
      + Sent(k, XBill(Phone), a.phone) + Sent(k, XBill(Mobile), a.mobile)
  {
    var m := acc + Optional(XBill(FirstName), a.firstName) + Optional(XBill(MiddleName), a.middleName)
      + Optional(XBill(LastName), a.lastName) + Optional(XBill(Company), a.company)
      + Optional(XBill(Street), a.street) + Optional(XBill(Street2), a.street2);
    BillingFirstHalf(acc, a, k);
    BillingSecondHalf(m, a, k);
  }

  lemma BillingFirstHalf(acc: seq<Entry>, a: Address, k: Field)
    ensures Occurs(acc
      + Optional(XBill(FirstName), a.firstName) + Optional(XBill(MiddleName), a.middleName)
      + Optional(XBill(LastName), a.lastName) + Optional(XBill(Company), a.company)
      + Optional(XBill(Street), a.street) + Optional(XBill(Street2), a.street2), k)
      == Occurs(acc, k)
      + Sent(k, XBill(FirstName), a.firstName) + Sent(k, XBill(MiddleName), a.middleName)
      + Sent(k, XBill(LastName), a.lastName) + Sent(k, XBill(Company), a.company)
      + Sent(k, XBill(Street), a.street) + Sent(k, XBill(Street2), a.street2)
  {
    OptionalAt(acc, XBill(FirstName), a.firstName, k);
    var a0 := acc + Optional(XBill(FirstName), a.firstName);
    OptionalAt(a0, XBill(MiddleName), a.middleName, k);
    var a1 := a0 + Optional(XBill(MiddleName), a.middleName);
    OptionalAt(a1, XBill(LastName), a.lastName, k);
    var a2 := a1 + Optional(XBill(LastName), a.lastName);
    OptionalAt(a2, XBill(Company), a.company, k);
    var a3 := a2 + Optional(XBill(Company), a.company);
    OptionalAt(a3, XBill(Street), a.street, k);
    var a4 := a3 + Optional(XBill(Street), a.street);
    OptionalAt(a4, XBill(Street2), a.street2, k);
  }

  lemma BillingSecondHalf(acc: seq<Entry>, a: Address, k: Field)
    ensures Occurs(acc
      + Optional(XBill(City), a.city) + Optional(XBill(State), a.state)
      + Optional(XBill(Zip), a.zip) + Optional(XBill(Country), a.country)
      + Optional(XBill(Phone), a.phone) + Optional(XBill(Mobile), a.mobile), k)
      == Occurs(acc, k)
      + Sent(k, XBill(City), a.city) + Sent(k, XBill(State), a.state)
      + Sent(k, XBill(Zip), a.zip) + Sent(k, XBill(Country), a.country)
      + Sent(k, XBill(Phone), a.phone) + Sent(k, XBill(Mobile), a.mobile)
  {
    OptionalAt(acc, XBill(City), a.city, k);
    var a0 := acc + Optional(XBill(City), a.city);
    OptionalAt(a0, XBill(State), a.state, k);
    var a1 := a0 + Optional(XBill(State), a.state);
    OptionalAt(a1, XBill(Zip), a.zip, k);
    var a2 := a1 + Optional(XBill(Zip), a.zip);
    OptionalAt(a2, XBill(Country), a.country, k);
    var a3 := a2 + Optional(XBill(Country), a.country);
    OptionalAt(a3, XBill(Phone), a.phone, k);
    var a4 := a3 + Optional(XBill(Phone), a.phone);
    OptionalAt(a4, XBill(Mobile), a.mobile, k);
  }

  /** A key is at most one part of the address; when it is a part, it counts once exactly when that part is set. */
  lemma BillingSum(a: Address, k: Field)
    ensures Sent(k, XBill(FirstName), a.firstName) + Sent(k, XBill(MiddleName), a.middleName)
      + Sent(k, XBill(LastName), a.lastName) + Sent(k, XBill(Company), a.company)
      + Sent(k, XBill(Street), a.street) + Sent(k, XBill(Street2), a.street2)
      + Sent(k, XBill(City), a.city) + Sent(k, XBill(State), a.state)
      + Sent(k, XBill(Zip), a.zip) + Sent(k, XBill(Country), a.country)
      + Sent(k, XBill(Phone), a.phone) + Sent(k, XBill(Mobile), a.mobile)
      == Ind(k.XBill? && PartSent(a, k.part))
  {
    if k.XBill? {
      match k.part
      case FirstName => {}
      case MiddleName => {}
      case LastName => {}
      case Company => {}
      case Street => {}
      case Street2 => {}
      case City => {}
      case State => {}
      case Zip => {}
      case Country => {}
      case Phone => {}
      case Mobile => {}
    }
  }

  /** The shipping address adds one pair for each part that is set, and nothing else. */
  lemma ShippingAt(acc: seq<Entry>, a: Address, k: Field)
    ensures Occurs(WithShippingAddress(acc, a), k) == Occurs(acc, k) + Ind(k.XShip? && PartSent(a, k.part))
  {
    ShippingChain(acc, a, k);
    ShippingSum(a, k);
  }

  /** The address block, pair by pair. */
  lemma ShippingChain(acc: seq<Entry>, a: Address, k: Field)
    ensures Occurs(WithShippingAddress(acc, a), k) == Occurs(acc, k)
      + Sent(k, XShip(FirstName), a.firstName) + Sent(k, XShip(MiddleName), a.middleName)
      + Sent(k, XShip(LastName), a.lastName) + Sent(k, XShip(Company), a.company)
      + Sent(k, XShip(Street), a.street) + Sent(k, XShip(Street2), a.street2)
      + Sent(k, XShip(City), a.city) + Sent(k, XShip(State), a.state)
      + Sent(k, XShip(Zip), a.zip) + Sent(k, XShip(Country), a.country)
      + Sent(k, XShip(Phone), a.phone) + Sent(k, XShip(Mobile), a.mobile)
  {
    var m := acc + Optional(XShip(FirstName), a.firstName) + Optional(XShip(MiddleName), a.middleName)
      + Optional(XShip(LastName), a.lastName) + Optional(XShip(Company), a.company)
      + Optional(XShip(Street), a.street) + Optional(XShip(Street2), a.street2);
    ShippingFirstHalf(acc, a, k);
    ShippingSecondHalf(m, a, k);
  }

  lemma ShippingFirstHalf(acc: seq<Entry>, a: Address, k: Field)
    ensures Occurs(acc
      + Optional(XShip(FirstName), a.firstName) + Optional(XShip(MiddleName), a.middleName)
      + Optional(XShip(LastName), a.lastName) + Optional(XShip(Company), a.company)
      + Optional(XShip(Street), a.street) + Optional(XShip(Street2), a.street2), k)
      == Occurs(acc, k)
      + Sent(k, XShip(FirstName), a.firstName) + Sent(k, XShip(MiddleName), a.middleName)
      + Sent(k, XShip(LastName), a.lastName) + Sent(k, XShip(Company), a.company)
      + Sent(k, XShip(Street), a.street) + Sent(k, XShip(Street2), a.street2)
  {
    OptionalAt(acc, XShip(FirstName), a.firstName, k);
    var a0 := acc + Optional(XShip(FirstName), a.firstName);
    OptionalAt(a0, XShip(MiddleName), a.middleName, k);
    var a1 := a0 + Optional(XShip(MiddleName), a.middleName);
    OptionalAt(a1, XShip(LastName), a.lastName, k);
    var a2 := a1 + Optional(XShip(LastName), a.lastName);
    OptionalAt(a2, XShip(Company), a.company, k);
    var a3 := a2 + Optional(XShip(Company), a.company);
    OptionalAt(a3, XShip(Street), a.street, k);
    var a4 := a3 + Optional(XShip(Street), a.street);
    OptionalAt(a4, XShip(Street2), a.street2, k);
  }

  lemma ShippingSecondHalf(acc: seq<Entry>, a: Address, k: Field)
    ensures Occurs(acc
      + Optional(XShip(City), a.city) + Optional(XShip(State), a.state)
      + Optional(XShip(Zip), a.zip) + Optional(XShip(Country), a.country)
      + Optional(XShip(Phone), a.phone) + Optional(XShip(Mobile), a.mobile), k)
      == Occurs(acc, k)
      + Sent(k, XShip(City), a.city) + Sent(k, XShip(State), a.state)
      + Sent(k, XShip(Zip), a.zip) + Sent(k, XShip(Country), a.country)
      + Sent(k, XShip(Phone), a.phone) + Sent(k, XShip(Mobile), a.mobile)
  {
    OptionalAt(acc, XShip(City), a.city, k);
    var a0 := acc + Optional(XShip(City), a.city);
    OptionalAt(a0, XShip(State), a.state, k);
    var a1 := a0 + Optional(XShip(State), a.state);
    OptionalAt(a1, XShip(Zip), a.zip, k);
    var a2 := a1 + Optional(XShip(Zip), a.zip);
    OptionalAt(a2, XShip(Country), a.country, k);
    var a3 := a2 + Optional(XShip(Country), a.country);
    OptionalAt(a3, XShip(Phone), a.phone, k);
    var a4 := a3 + Optional(XShip(Phone), a.phone);
    OptionalAt(a4, XShip(Mobile), a.mobile, k);
  }

  /** A key is at most one part of the address; when it is a part, it counts once exactly when that part is set. */
  lemma ShippingSum(a: Address, k: Field)
    ensures Sent(k, XShip(FirstName), a.firstName) + Sent(k, XShip(MiddleName), a.middleName)
      + Sent(k, XShip(LastName), a.lastName) + Sent(k, XShip(Company), a.company)
      + Sent(k, XShip(Street), a.street) + Sent(k, XShip(Street2), a.street2)
      + Sent(k, XShip(City), a.city) + Sent(k, XShip(State), a.state)
      + Sent(k, XShip(Zip), a.zip) + Sent(k, XShip(Country), a.country)
      + Sent(k, XShip(Phone), a.phone) + Sent(k, XShip(Mobile), a.mobile)
      == Ind(k.XShip? && PartSent(a, k.part))
  {
    if k.XShip? {
      match k.part
      case FirstName => {}
      case MiddleName => {}
      case LastName => {}
      case Company => {}
      case Street => {}
      case Street2 => {}
      case City => {}
      case State => {}
      case Zip => {}
      case Country => {}
      case Phone => {}
      case Mobile => {}
    }
  }

  /** The keys `AddCommonFields` sends for `b`. */
  predicate CommonSent(b: OperationBase, k: Field) {
    match k
    case XInvoice => !IsNullOrWhiteSpace(b.invoice)
    case XTip => b.tip.Some?
    case XTax => b.tax.Some?
    case XEmail => !IsNullOrWhiteSpace(b.email)
    case XFax => !IsNullOrWhiteSpace(b.fax)
    case XBill(p) => PartSent(b.bill, p)
    case XShip(p) => PartSent(b.ship, p)
    case _ => false
  }



  /** The five single fields at the head of AddCommonFields. */
  lemma CommonHeadAt(acc: seq<Entry>, b: OperationBase, k: Field)
    ensures Occurs(acc + Optional(XInvoice, b.invoice) + PresentAmount(XTip, b.tip) + PresentAmount(XTax, b.tax)
      + Optional(XEmail, b.email) + Optional(XFax, b.fax), k)
      == Occurs(acc, k) + Ind(CommonSent(b, k) && !k.XBill? && !k.XShip?)
  {
    var s1 := acc + Optional(XInvoice, b.invoice);
    OptionalAt(acc, XInvoice, b.invoice, k);
    var s2 := s1 + PresentAmount(XTip, b.tip);
    PresentAt(s1, XTip, b.tip, k);
    var s3 := s2 + PresentAmount(XTax, b.tax);
    PresentAt(s2, XTax, b.tax, k);
    var s4 := s3 + Optional(XEmail, b.email);
    OptionalAt(s3, XEmail, b.email, k);
    OptionalAt(s4, XFax, b.fax, k);
    CommonHeadSum(b, k);
  }

  lemma CommonHeadSum(b: OperationBase, k: Field)
    ensures Sent(k, XInvoice, b.invoice) + Counted(k, XTip, b.tip.Some?) + Counted(k, XTax, b.tax.Some?)
      + Sent(k, XEmail, b.email) + Sent(k, XFax, b.fax)
      == Ind(CommonSent(b, k) && !k.XBill? && !k.XShip?)
  {
  }

  /** AddCommonFields sends each common key whose member is set, once, and no other key. */
  lemma CommonAt(acc: seq<Entry>, b: OperationBase, k: Field)
    ensures Occurs(WithCommonFields(acc, b), k) == Occurs(acc, k) + Ind(CommonSent(b, k))
  {
    var head := acc + Optional(XInvoice, b.invoice) + PresentAmount(XTip, b.tip) + PresentAmount(XTax, b.tax)
      + Optional(XEmail, b.email) + Optional(XFax, b.fax);
    CommonHeadAt(acc, b, k);
    BillingAt(head, b.bill, k);
    ShippingAt(WithBillingAddress(head, b.bill), b.ship, k);
    CommonSum(b, k);
  }

  lemma CommonSum(b: OperationBase, k: Field)
    ensures Ind(CommonSent(b, k) && !k.XBill? && !k.XShip?) + Ind(k.XBill? && PartSent(b.bill, k.part))
      + Ind(k.XShip? && PartSent(b.ship, k.part)) == Ind(CommonSent(b, k))
  {
  }

  /** The keys `AddSpecialFields` sends for `s`. */
  predicate SpecialSent(s: Sale, k: Field) {
    || (k == XRxAmount && s.rxAmount > 0.0)
    || (k == XDentalAmount && s.dentalAmount > 0.0)
    || (k == XVisionAmount && s.visionAmount > 0.0)
    || (k == XTransitAmount && s.transitAmount > 0.0)
    || (k == XCopayAmount && s.copayAmount > 0.0)
    || (k == XClinicalAmount && s.clinicalAmount > 0.0)
    || (k == XOrderID && !IsNullOrWhiteSpace(s.orderID))
    || (k == XAllowDuplicate && s.base.allowDuplicate)
    || (k == XCurrency && s.currency.Some?)
  }


  /** AddSpecialFields sends each special key whose member is set, once, and no other key. */
  lemma SpecialAt(acc: seq<Entry>, s: Sale, k: Field)
    ensures Occurs(WithSpecialFields(acc, s), k) == Occurs(acc, k) + Ind(SpecialSent(s, k))
  {
    SpecialChain(acc, s, k);
    SpecialSum(s, k);
  }

  /** The special fields, pair by pair. */
  lemma SpecialChain(acc: seq<Entry>, s: Sale, k: Field)
    ensures Occurs(WithSpecialFields(acc, s), k) == Occurs(acc, k)
      + Counted(k, XRxAmount, s.rxAmount > 0.0) + Counted(k, XDentalAmount, s.dentalAmount > 0.0)
      + Counted(k, XVisionAmount, s.visionAmount > 0.0) + Counted(k, XTransitAmount, s.transitAmount > 0.0)
      + Counted(k, XCopayAmount, s.copayAmount > 0.0) + Counted(k, XClinicalAmount, s.clinicalAmount > 0.0)
      + Sent(k, XOrderID, s.orderID) + Counted(k, XAllowDuplicate, s.base.allowDuplicate)
      + Counted(k, XCurrency, s.currency.Some?)
  {
    var s1 := acc + PositiveAmountEntry(XRxAmount, s.rxAmount);
    PositiveAt(acc, XRxAmount, s.rxAmount, k);
    var s2 := s1 + PositiveAmountEntry(XDentalAmount, s.dentalAmount);
    PositiveAt(s1, XDentalAmount, s.dentalAmount, k);
    var s3 := s2 + PositiveAmountEntry(XVisionAmount, s.visionAmount);
    PositiveAt(s2, XVisionAmount, s.visionAmount, k);
    var s4 := s3 + PositiveAmountEntry(XTransitAmount, s.transitAmount);
    PositiveAt(s3, XTransitAmount, s.transitAmount, k);
    var s5 := s4 + PositiveAmountEntry(XCopayAmount, s.copayAmount);
    PositiveAt(s4, XCopayAmount, s.copayAmount, k);
    var s6 := s5 + PositiveAmountEntry(XClinicalAmount, s.clinicalAmount);
    PositiveAt(s5, XClinicalAmount, s.clinicalAmount, k);
    var s7 := s6 + Optional(XOrderID, s.orderID);
    OptionalAt(s6, XOrderID, s.orderID, k);
    var s8 := s7 + Flag(XAllowDuplicate, s.base.allowDuplicate);
    FlagAt(s7, XAllowDuplicate, s.base.allowDuplicate, k);
    CurrencyAt(s8, s.currency, k);
  }

  lemma SpecialSum(s: Sale, k: Field)
    ensures Counted(k, XRxAmount, s.rxAmount > 0.0) + Counted(k, XDentalAmount, s.dentalAmount > 0.0)
      + Counted(k, XVisionAmount, s.visionAmount > 0.0) + Counted(k, XTransitAmount, s.transitAmount > 0.0)
      + Counted(k, XCopayAmount, s.copayAmount > 0.0) + Counted(k, XClinicalAmount, s.clinicalAmount > 0.0)
      + Sent(k, XOrderID, s.orderID) + Counted(k, XAllowDuplicate, s.base.allowDuplicate)
      + Counted(k, XCurrency, s.currency.Some?)
      == Ind(SpecialSent(s, k))
  {
  }

  /** The keys of street, zip and IP address that are sent for `b`. */
  predicate StreetZipIPSent(b: OperationBase, k: Field) {
    match k
    case XStreet => !IsNullOrWhiteSpace(b.street)
    case XZip => !IsNullOrWhiteSpace(b.zip)
    case XIP => !IsNullOrWhiteSpace(b.ip)
    case _ => false
  }



  lemma StreetZipIPAt(acc: seq<Entry>, b: OperationBase, k: Field)
    ensures Occurs(WithStreetZipIP(acc, b), k) == Occurs(acc, k) + Ind(StreetZipIPSent(b, k))
  {
    OptionalAt(acc, XStreet, b.street, k);
    OptionalAt(acc + Optional(XStreet, b.street), XZip, b.zip, k);
    OptionalAt(acc + Optional(XStreet, b.street) + Optional(XZip, b.zip), XIP, b.ip, k);
  }

  /** The custom field numbered `n` (from 1) exists in a list of `count`. */
  predicate CustomSent(count: nat, k: Field) {
    k.XCustom? && 1 <= k.n <= count
  }

  /** The custom fields are numbered 1 to their count, each number once. */
  lemma CustomAt(acc: seq<Entry>, cs: seq<NetString>, k: Field)
    ensures Occurs(acc + CustomFields(cs), k) == Occurs(acc, k) + Ind(CustomSent(|cs|, k))
  {
    AppendAt(acc, CustomFields(cs), k);
    if CustomSent(|cs|, k) {
      assert Positions(CustomFields(cs), k) == {k.n - 1};
    } else {
      assert Positions(CustomFields(cs), k) == {};
    }
  }

  /** The WIC item keys numbered 1 to `count`. */
  predicate ItemSent(count: nat, k: Field) {
    match k
    case XUnitPrice(i) => 1 <= i <= count
    case XQty(i) => 1 <= i <= count
    case XUpc(i) => 1 <= i <= count
    case _ => false
  }

  /** Three pairs more. */
  lemma TripleAt(acc: seq<Entry>, e1: Entry, e2: Entry, e3: Entry, k: Field)
    ensures Occurs(acc + [e1, e2, e3], k) == Occurs(acc, k) + Ind(e1.0 == k) + Ind(e2.0 == k) + Ind(e3.0 == k)
  {
    assert acc + [e1, e2, e3] == acc + [e1] + [e2] + [e3];
    SnocAt(acc, e1, k);
    SnocAt(acc + [e1], e2, k);
    SnocAt(acc + [e1] + [e2], e3, k);
  }

  /** The three keys of item `i`. */
  predicate ItemKey(i: nat, k: Field) {
    k == XUnitPrice(i) || k == XQty(i) || k == XUpc(i)
  }

  lemma ItemEntriesAt(acc: seq<Entry>, i: nat, item: WicItem, k: Field)
    ensures Occurs(acc + ItemEntries(i, item), k) == Occurs(acc, k) + Ind(ItemKey(i, k))
  {
    var b := ItemEntries(i, item);
    TripleAt(acc, b[0], b[1], b[2], k);
    assert b == [b[0], b[1], b[2]];
  }

  /** The items are numbered 1 to their count, each with its three keys once. */
  lemma {:induction false} ItemFieldsAt(items: seq<WicItem>, k: Field)
    ensures Occurs(ItemFields(items), k) == Ind(ItemSent(|items|, k))
    decreases |items|
  {
    if items == [] {
      EmptyAt(k);
    } else {
      var n := |items|;
      var prev := items[..n - 1];
      ItemFieldsAt(prev, k);
      assert ItemFields(items) == ItemFields(prev) + ItemEntries(n, items[n - 1]);
      ItemEntriesAt(ItemFields(prev), n, items[n - 1], k);
      ItemSentStep(n, k);
    }
  }

  lemma ItemSentStep(n: nat, k: Field)
    requires n >= 1
    ensures Ind(ItemSent(n, k)) == Ind(ItemSent(n - 1, k)) + Ind(ItemKey(n, k))
  {
  }

  lemma ItemsAt(acc: seq<Entry>, items: seq<WicItem>, k: Field)
    ensures Occurs(WithItems(acc, items), k) == Occurs(acc, k) + Ind(ItemSent(|items|, k))
  {
    if |items| > 0 {
      AppendAt(acc, ItemFields(items), k);
      ItemFieldsAt(items, k);
    }
  }

  // ---------------------------------------------------------------------------------------------
  // Payment data

  /** The keys that carry payment data. */
  predicate IsPayment(k: Field) {
    k.XCardNum? || k.XCVV? || k.XExp? || k.XToken? || k.XMagStripe?
    || k.XRouting? || k.XAccount? || k.XMICR?
  }

  /** At most one of the card-data keys, each once, and nothing else. */
  lemma CardCredentialAt(acc: seq<Entry>, b: OperationBase, k: Field)
    ensures Occurs(acc + CardCredential(b).entries, k) <= Occurs(acc, k) + Ind(IsPayment(k))
  {
    if !IsNullOrWhiteSpace(b.cardNum) {
      SnocAt(acc, (XCardNum, b.cardNum), k);
      OptionalAt(acc + [(XCardNum, b.cardNum)], XCVV, b.cvv, k);
      OptionalAt(acc + [(XCardNum, b.cardNum)] + Optional(XCVV, b.cvv), XExp, b.exp, k);
      assert acc + CardCredential(b).entries
        == acc + [(XCardNum, b.cardNum)] + Optional(XCVV, b.cvv) + Optional(XExp, b.exp);
    } else {
      var c := CardCredential(b).entries;
      assert c == [] || (|c| == 1 && (c[0].0 == XToken || c[0].0 == XMagStripe));
      if c == [] {
        assert acc + c == acc;
      } else {
        assert c == [c[0]];
        SnocAt(acc, c[0], k);
      }
    }
  }

  /** A single payment pair or none. */
  lemma SinglePaymentAt(acc: seq<Entry>, c: seq<Entry>, k: Field)
    requires c == [] || (|c| == 1 && IsPayment(c[0].0))
    ensures Occurs(acc + c, k) <= Occurs(acc, k) + Ind(IsPayment(k))
  {
    if c == [] {
      assert acc + c == acc;
    } else {
      assert c == [c[0]];
      SnocAt(acc, c[0], k);
    }
  }

  lemma EbtCredentialAt(acc: seq<Entry>, b: OperationBase, k: Field)
    ensures Occurs(acc + EbtCredential(b).entries, k) <= Occurs(acc, k) + Ind(IsPayment(k))
  {
    SinglePaymentAt(acc, EbtCredential(b).entries, k);
  }

  lemma CardOrMagStripeAt(acc: seq<Entry>, b: OperationBase, k: Field)
    ensures Occurs(acc + CardOrMagStripe(b).entries, k) <= Occurs(acc, k) + Ind(IsPayment(k))
  {
    SinglePaymentAt(acc, CardOrMagStripe(b).entries, k);
  }

  lemma CheckCredentialAt(acc: seq<Entry>, b: OperationBase, tokenAllowed: bool, k: Field)
    ensures Occurs(acc + CheckCredential(b, tokenAllowed).entries, k) <= Occurs(acc, k) + Ind(IsPayment(k))
  {
    var c := CheckCredential(b, tokenAllowed).entries;
    if !IsNullOrWhiteSpace(b.routing) && !IsNullOrWhiteSpace(b.account) {
      assert acc + c == acc + [(XRouting, b.routing)] + [(XAccount, b.account)];
      SnocAt(acc, (XRouting, b.routing), k);
      SnocAt(acc + [(XRouting, b.routing)], (XAccount, b.account), k);
    } else {
      SinglePaymentAt(acc, c, k);
    }
  }
}
