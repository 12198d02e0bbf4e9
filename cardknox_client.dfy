/**
 * `CardknoxClient`: a client owns one request dictionary, seeded with the four session keys,
 * and each operation validates its record, applies the reuse guard and then adds its pairs
 * one by one before the request is posted.
 */
module CardknoxClientModel {
  import opened Wrappers
  import opened Text
  import opened Fields
  import opened Operations
  import opened RequestKeys
  import opened DistinctRequests

  /** The session settings a client is created with. */
  datatype CardknoxRequest = CardknoxRequest(
    key: NetString, software: NetString, softwareVersion: NetString, cardknoxVersion: NetString)

  const DefaultCardknoxVersion: string := "4.5.5"

  /** A request as the constructor builds it: the gateway version defaults to 4.5.5 when none is given. */
  function NewCardknoxRequest(key: NetString, software: NetString, softwareVersion: NetString,
                              cardknoxVer: NetString): (r: CardknoxRequest)
    ensures r.key == key && r.software == software && r.softwareVersion == softwareVersion
    ensures cardknoxVer.None? ==> r.cardknoxVersion == Some(DefaultCardknoxVersion)
    ensures cardknoxVer.Some? ==> r.cardknoxVersion == cardknoxVer
  {
    CardknoxRequest(key, software, softwareVersion, if cardknoxVer.Some? then cardknoxVer else Some(DefaultCardknoxVersion))
  }

  /** The four session pairs every request starts with. */
  function Seed(r: CardknoxRequest): seq<Entry> {
    [(XKey, r.key), (XVersion, r.cardknoxVersion), (XSoftwareName, r.software), (XSoftwareVersion, r.softwareVersion)]
  }

  const SessionKeys: set<Field> := {XKey, XVersion, XSoftwareName, XSoftwareVersion}

  /**
   * The commands of GCActivate and GCDeactivate. The source sends the `Operation` of its
   * activate and deactivate records, whose classes are not part of this model; these values are
   * assumed, taken from the gateway's gift command names.
   */
  const GiftActivateCommand: string := "gift:activate"
  const GiftDeactivateCommand: string := "gift:deactivate"

  /** What an operation call ends in: the request it posted, or the exception it threw. */
  datatype Outcome = Posted(sent: seq<Entry>) | Threw(failure: Failure)

  /** The outcome of an operation that got past the reuse guard. */
  function Settle(b: Build): Outcome {
    if b.failure.Some? then Threw(b.failure.value) else Posted(b.after)
  }

  /**
   * An operation call on a client whose dictionary holds `values`: its outcome and the dictionary
   * afterwards. Validation (`precheck`) comes first and leaves the dictionary alone; then the reuse
   * guard; then the operation's pairs, built by `b` from the session pairs, up to any exception.
   * The guard lets a call through only on a fresh dictionary (which holds exactly the session
   * pairs, see `Sound`) or with `force`, which re-seeds it, so in both cases `b` starts from them.
   */
  function Call(values: seq<Entry>, precheck: Option<Failure>, force: bool, b: Build): (Outcome, seq<Entry>) {
    if precheck.Some? then (Threw(precheck.value), values)
    else if |values| > 4 && !force then (Threw(NewInstanceRequired), values)
    else (Settle(b), b.after)
  }

  /**
   * What holds of the dictionary between operations: no key twice (a .NET Dictionary cannot hold
   * one twice), and while it holds at most four pairs, exactly the session pairs.
   */
  ghost predicate Sound(values: seq<Entry>, seed: seq<Entry>) {
    DistinctKeys(values) && (|values| <= 4 ==> values == seed)
  }

  /**
   * A fresh client's dictionary holds the four session keys, each once, and no other key; so its
   * keys are distinct and it holds only session keys.
   */
  lemma SeedSessionPairs(r: CardknoxRequest)
    ensures SessionPairs(Seed(r))
    ensures forall k :: Occurs(Seed(r), k) == Ind(k in SessionKeys)
    ensures DistinctKeys(Seed(r))
  {
    forall k ensures Occurs(Seed(r), k) == Ind(k in SessionKeys) && SessionOnly(Seed(r), k) {
      var a0: seq<Entry> := [];
      var a1 := a0 + [(XKey, r.key)];
      var a2 := a1 + [(XVersion, r.cardknoxVersion)];
      var a3 := a2 + [(XSoftwareName, r.software)];
      EmptyAt(k);
      SnocAt(a0, (XKey, r.key), k);
      SnocAt(a1, (XVersion, r.cardknoxVersion), k);
      SnocAt(a2, (XSoftwareName, r.software), k);
      SnocAt(a3, (XSoftwareVersion, r.softwareVersion), k);
      assert a3 + [(XSoftwareVersion, r.softwareVersion)] == Seed(r);
    }
    OnceIsDistinct(Seed(r));
  }

  class CardknoxClient {
    const request: CardknoxRequest
    var Values: seq<Entry>

    ghost predicate Valid()
      reads this
    {
      Sound(Values, Seed(request))
    }

    constructor (request: CardknoxRequest)
      ensures Valid()
      ensures this.request == request && Values == Seed(request)
    {
      this.request := request;
      Values := Seed(request);
    }

    /** Dictionary.Add. That the key is never already present is what `Valid` keeps (see the `*Distinct` lemmas). */
    method Add(k: Field, v: NetString)
      modifies this
      ensures Values == old(Values) + [(k, v)]
    {
      Values := Values + [(k, v)];
    }

    /** The reuse guard: reject a used client unless `force`, which removes every pair and re-seeds. */
    method ReuseGuard(force: bool) returns (ok: bool)
      requires Valid()
      modifies this
      ensures ok <==> |old(Values)| <= 4 || force
      ensures ok ==> Values == Seed(request)
      ensures !ok ==> Values == old(Values)
    {
      if |Values| > 4 && !force {
        return false;
      } else if force {
        Clear();
        Add(XKey, request.key);
        Add(XVersion, request.cardknoxVersion);
        Add(XSoftwareName, request.software);
        Add(XSoftwareVersion, request.softwareVersion);
      }
      return true;
    }

    /** The `force` branch of the guard: every key the dictionary holds is removed in turn. */
    method Clear()
      modifies this
      ensures Values == []
    {
      Values := RemoveEach(Values);
    }

    /** A string member, added only when it is not null or white space. */
    method AddOptional(k: Field, v: NetString)
      modifies this
      ensures Values == old(Values) + Optional(k, v)
    {
      if !IsNullOrWhiteSpace(v) {
        Add(k, v);
      }
    }

    /** A boolean member, added as "True" only when it is set. */
    method AddFlag(k: Field, b: bool)
      modifies this
      ensures Values == old(Values) + Flag(k, b)
    {
      if b {
        Add(k, Some(TrueString));
      }
    }

    /** A decimal? member in the `N2` format, added when it is not null. */
    method AddPresentAmount(k: Field, a: Option<real>)
      modifies this
      ensures Values == old(Values) + PresentAmount(k, a)
    {
      if a.Some? {
        Add(k, Some(FormatN2(a.value)));
      }
    }

    /** A decimal member in the `N2` format, added when it is positive. */
    method AddPositiveAmount(k: Field, a: real)
      modifies this
      ensures Values == old(Values) + PositiveAmountEntry(k, a)
    {
      if a > 0.0 {
        Add(k, Some(FormatN2(a)));
      }
    }
    /** Card data: card number (with CVV and expiry), else token, else magnetic stripe; enough only with an expiry. */
    method AddCardCredential(b: OperationBase) returns (requiredAdded: bool)
      modifies this
      ensures Values == old(Values) + CardCredential(b).entries && requiredAdded == CardCredential(b).satisfied
    {
      requiredAdded := false;
      if !IsNullOrWhiteSpace(b.cardNum) {
        Add(XCardNum, b.cardNum);
        AddOptional(XCVV, b.cvv);
        AddOptional(XExp, b.exp);
        requiredAdded := true;
        if IsNullOrWhiteSpace(b.exp) {
          requiredAdded := false;
        }
      } else if !IsNullOrWhiteSpace(b.token) {
        Add(XToken, b.token);
        requiredAdded := true;
      } else if !IsNullOrWhiteSpace(b.magStripe) {
        Add(XMagStripe, b.magStripe);
        requiredAdded := true;
      }
    }

    /** EBT card data: card number, else token, else magnetic stripe. */
    method AddEbtCredential(b: OperationBase) returns (requiredAdded: bool)
      modifies this
      ensures Values == old(Values) + EbtCredential(b).entries && requiredAdded == EbtCredential(b).satisfied
    {
      requiredAdded := false;
      if !IsNullOrWhiteSpace(b.cardNum) {
        Add(XCardNum, b.cardNum);
        requiredAdded := true;
      } else if !IsNullOrWhiteSpace(b.token) {
        Add(XToken, b.token);
        requiredAdded := true;
      } else if !IsNullOrWhiteSpace(b.magStripe) {
        Add(XMagStripe, b.magStripe);
        requiredAdded := true;
      }
    }

    /** EBT balance and void data: card number, else magnetic stripe. */
    method AddCardOrMagStripe(b: OperationBase) returns (requiredAdded: bool)
      modifies this
      ensures Values == old(Values) + CardOrMagStripe(b).entries && requiredAdded == CardOrMagStripe(b).satisfied
    {
      requiredAdded := false;
      if !IsNullOrWhiteSpace(b.cardNum) {
        Add(XCardNum, b.cardNum);
        requiredAdded := true;
      } else if !IsNullOrWhiteSpace(b.magStripe) {
        Add(XMagStripe, b.magStripe);
        requiredAdded := true;
      }
    }

    /** Check data: routing and account, else token (when the operation accepts one), else MICR. */
    method AddCheckCredential(b: OperationBase, tokenAllowed: bool) returns (requiredAdded: bool)
      modifies this
      ensures Values == old(Values) + CheckCredential(b, tokenAllowed).entries
      ensures requiredAdded == CheckCredential(b, tokenAllowed).satisfied
    {
      requiredAdded := false;
      if !IsNullOrWhiteSpace(b.routing) && !IsNullOrWhiteSpace(b.account) {
        Add(XRouting, b.routing);
        Add(XAccount, b.account);
        requiredAdded := true;
      } else if tokenAllowed && !IsNullOrWhiteSpace(b.token) {
        Add(XToken, b.token);
        requiredAdded := true;
      } else if !IsNullOrWhiteSpace(b.micr) {
        Add(XMICR, b.micr);
        requiredAdded := true;
      }
    }

    /** The twelve billing members, each when not null or white space. */
    method AddBillingAddress(a: Address)
      modifies this
      ensures Values == WithBillingAddress(old(Values), a)
    {
      AddOptional(XBill(FirstName), a.firstName);
      AddOptional(XBill(MiddleName), a.middleName);
      AddOptional(XBill(LastName), a.lastName);
      AddOptional(XBill(Company), a.company);
      AddOptional(XBill(Street), a.street);
      AddOptional(XBill(Street2), a.street2);
      AddOptional(XBill(City), a.city);
      AddOptional(XBill(State), a.state);
      AddOptional(XBill(Zip), a.zip);
      AddOptional(XBill(Country), a.country);
      AddOptional(XBill(Phone), a.phone);
      AddOptional(XBill(Mobile), a.mobile);
    }

    /** The twelve shipping members, each when not null or white space. */
    method AddShippingAddress(a: Address)
      modifies this
      ensures Values == WithShippingAddress(old(Values), a)
    {
      AddOptional(XShip(FirstName), a.firstName);
      AddOptional(XShip(MiddleName), a.middleName);
      AddOptional(XShip(LastName), a.lastName);
      AddOptional(XShip(Company), a.company);
      AddOptional(XShip(Street), a.street);
      AddOptional(XShip(Street2), a.street2);
      AddOptional(XShip(City), a.city);
      AddOptional(XShip(State), a.state);
      AddOptional(XShip(Zip), a.zip);
      AddOptional(XShip(Country), a.country);
      AddOptional(XShip(Phone), a.phone);
      AddOptional(XShip(Mobile), a.mobile);
    }

    /** AddCommonFields: invoice, tip, tax, e-mail, fax, then the billing and shipping address. */
    method AddCommonFields(b: OperationBase)
      modifies this
      ensures Values == WithCommonFields(old(Values), b)
    {
      AddOptional(XInvoice, b.invoice);
      AddPresentAmount(XTip, b.tip);
      AddPresentAmount(XTax, b.tax);
      AddOptional(XEmail, b.email);
      AddOptional(XFax, b.fax);
      AddBillingAddress(b.bill);
      AddShippingAddress(b.ship);
    }

    /** AddSpecialFields: the positive FSA amounts, order id, duplicate flag and currency. */
    method AddSpecialFields(s: Sale)
      modifies this
      ensures Values == WithSpecialFields(old(Values), s)
    {
      AddPositiveAmount(XRxAmount, s.rxAmount);
      AddPositiveAmount(XDentalAmount, s.dentalAmount);
      AddPositiveAmount(XVisionAmount, s.visionAmount);
      AddPositiveAmount(XTransitAmount, s.transitAmount);
      AddPositiveAmount(XCopayAmount, s.copayAmount);
      AddPositiveAmount(XClinicalAmount, s.clinicalAmount);
      AddOptional(XOrderID, s.orderID);
      AddFlag(XAllowDuplicate, s.base.allowDuplicate);
      if s.currency.Some? {
        Add(XCurrency, Some(CurrencyName(s.currency.value)));
      }
    }

    /** The custom fields, numbered from 1 by a counter. */
    method AddCustomFields(cs: seq<NetString>)
      modifies this
      ensures Values == old(Values) + CustomFields(cs)
    {
      var i := 1;
      for j := 0 to |cs|
        invariant i == j + 1
        invariant Values == old(Values) + CustomFields(cs[..j])
      {
        assert CustomFields(cs[..j + 1]) == CustomFields(cs[..j]) + [(XCustom(j + 1), cs[j])];
        Add(XCustom(i), cs[j]);
        i := i + 1;
      }
      assert cs[..|cs|] == cs;
    }

    /** The three pairs of one WIC item. */
    method AddItem(i: nat, item: WicItem)
      modifies this
      ensures Values == old(Values) + ItemEntries(i, item)
    {
      Add(XUnitPrice(i), Some(FormatN2(item.unitPrice)));
      Add(XQty(i), Some(IntToString(item.qty)));
      Add(XUpc(i), item.upc);
    }

    /** The WIC items, three pairs each, numbered from 1 by a counter. */
    method AddItems(items: seq<WicItem>)
      modifies this
      ensures Values == old(Values) + ItemFields(items)
    {
      var i := 1;
      for j := 0 to |items|
        invariant i == j + 1
        invariant Values == old(Values) + ItemFields(items[..j])
      {
        ItemFieldsSnoc(items, j);
        AddItem(i, items[j]);
        i := i + 1;
      }
      assert items[..|items|] == items;
    }


    // ---------------------------------------------------------------------------------------------
    // The request bodies several operations share

    method AddStreetZipIP(b: OperationBase)
      modifies this
      ensures Values == WithStreetZipIP(old(Values), b)
    {
      AddOptional(XStreet, b.street);
      AddOptional(XZip, b.zip);
      AddOptional(XIP, b.ip);
    }

    /** A card or gift-card sale after the payment data. */
    method AddCardSaleTail(s: Sale)
      modifies this
      ensures Values == CardSaleTail(old(Values), s)
    {
      AddStreetZipIP(s.base);
      AddFlag(XCustReceipt, s.base.custReceipt);
      AddCommonFields(s.base);
      AddSpecialFields(s);
      AddCustomFields(s.base.customFields);
    }

    /** An authorization or credit after the payment data: custom fields come first. */
    method AddCardCustomFirstTail(s: Sale)
      modifies this
      ensures Values == CardCustomFirstTail(old(Values), s)
    {
      AddStreetZipIP(s.base);
      AddFlag(XCustReceipt, s.base.custReceipt);
      AddCustomFields(s.base.customFields);
      AddCommonFields(s.base);
      AddSpecialFields(s);
    }

    /** Command, amount and card data, then the rest of a card sale, unless the card data does not suffice. */
    method AddCardSale(s: Sale, command: string, customFirst: bool) returns (failure: Option<Failure>)
      requires Values == Seed(request)
      modifies this
      ensures Valid()
      ensures Build(Values, failure) == CardSaleRequest(old(Values), s, command, customFirst)
    {
      assert DistinctKeys(CardSaleRequest(Seed(request), s, command, customFirst).after) && |CardSaleRequest(Seed(request), s, command, customFirst).after| > 4 by {
        SeedSessionPairs(request);
        CardSaleDistinct(Seed(request), s, command, customFirst);
      }
      Add(XCommand, Some(command));
      Add(XAmount, Some(FormatNullableN2(s.base.amount)));
      var requiredAdded := AddCardCredential(s.base);
      if !requiredAdded {
        return Some(MissingRequired(command));
      }
      if customFirst {
        AddCardCustomFirstTail(s);
      } else {
        AddCardSaleTail(s);
      }
      failure := None;
    }

    /** A check sale or credit, with its inverted Name check. */
    method AddCheckSale(s: Sale, command: string) returns (failure: Option<Failure>)
      requires Values == Seed(request)
      modifies this
      ensures Valid()
      ensures Build(Values, failure) == CheckSaleRequest(old(Values), s, command)
    {
      assert DistinctKeys(CheckSaleRequest(Seed(request), s, command).after) && |CheckSaleRequest(Seed(request), s, command).after| > 4 by {
        SeedSessionPairs(request);
        CheckSaleDistinct(Seed(request), s, command);
      }
      var b := s.base;
      Add(XCommand, Some(command));
      if !IsNullOrWhiteSpace(b.name) {
        return Some(NameRequired);
      }
      var requiredAdded := AddCheckCredential(b, true);
      if !requiredAdded {
        return Some(MissingRequired(command));
      }
      Add(XAmount, Some(FormatNullableN2(b.amount)));
      Add(XName, b.name);
      AddOptional(XIP, b.ip);
      AddFlag(XCustReceipt, b.custReceipt);
      AddCustomFields(b.customFields);
      AddCommonFields(b);
      AddSpecialFields(s);
      failure := None;
    }

    /** An EBT sale, credit or voucher after the payment data. */
    method AddEbtSaleTail(s: Sale)
      modifies this
      ensures Values == EbtSaleTail(old(Values), s)
    {
      AddStreetZipIP(s.base);
      AddCustomFields(s.base.customFields);
      AddCommonFields(s.base);
      AddSpecialFields(s);
    }

    /** Command, amount, DUKPT and EBT card data, then the rest of an EBT sale. */
    method AddEbtSale(s: Sale, command: string) returns (failure: Option<Failure>)
      requires Values == Seed(request)
      modifies this
      ensures Valid()
      ensures Build(Values, failure) == EbtSaleRequest(old(Values), s, command)
    {
      assert DistinctKeys(EbtSaleRequest(Seed(request), s, command).after) && |EbtSaleRequest(Seed(request), s, command).after| > 4 by {
        SeedSessionPairs(request);
        EbtSaleDistinct(Seed(request), s, command);
      }
      Add(XCommand, Some(command));
      Add(XAmount, Some(FormatNullableN2(s.base.amount)));
      Add(XDUKPT, s.base.dukpt);
      var requiredAdded := AddEbtCredential(s.base);
      if !requiredAdded {
        return Some(MissingRequired(command));
      }
      AddEbtSaleTail(s);
      failure := None;
    }

    /** A balance inquiry. */
    method AddBalance(b: OperationBase, tokenAccepted: bool, command: string) returns (failure: Option<Failure>)
      requires Values == Seed(request)
      modifies this
      ensures Valid()
      ensures Build(Values, failure) == BalanceRequest(old(Values), b, tokenAccepted, command)
    {
      assert DistinctKeys(BalanceRequest(Seed(request), b, tokenAccepted, command).after) && |BalanceRequest(Seed(request), b, tokenAccepted, command).after| > 4 by {
        SeedSessionPairs(request);
        BalanceDistinct(Seed(request), b, tokenAccepted, command);
      }
      Add(XCommand, Some(command));
      Add(XDUKPT, b.dukpt);
      var requiredAdded;
      if tokenAccepted {
        requiredAdded := AddEbtCredential(b);
      } else {
        requiredAdded := AddCardOrMagStripe(b);
      }
      if !requiredAdded {
        return Some(MissingRequired(command));
      }
      AddOptional(XIP, b.ip);
      failure := None;
    }

    /** A gift card activation or deactivation. */
    method AddGiftCardState(b: OperationBase, command: string) returns (failure: Option<Failure>)
      requires Values == Seed(request)
      modifies this
      ensures Valid()
      ensures Build(Values, failure) == GiftCardStateRequest(old(Values), b, command)
    {
      assert DistinctKeys(GiftCardStateRequest(Seed(request), b, command).after) && |GiftCardStateRequest(Seed(request), b, command).after| > 4 by {
        SeedSessionPairs(request);
        GiftCardStateDistinct(Seed(request), b, command);
      }
      Add(XCommand, Some(command));
      var requiredAdded := AddCardCredential(b);
      if !requiredAdded {
        return Some(MissingRequired(command));
      }
      AddOptional(XIP, b.ip);
      AddCommonFields(b);
      AddCustomFields(b.customFields);
      failure := None;
    }

    /** Saving card data. */
    method AddCCSave(b: OperationBase, command: string) returns (failure: Option<Failure>)
      requires Values == Seed(request)
      modifies this
      ensures Valid()
      ensures Build(Values, failure) == CCSaveRequest(old(Values), b, command)
    {
      assert DistinctKeys(CCSaveRequest(Seed(request), b, command).after) && |CCSaveRequest(Seed(request), b, command).after| > 4 by {
        SeedSessionPairs(request);
        CCSaveDistinct(Seed(request), b, command);
      }
      Add(XCommand, Some(command));
      var requiredAdded := AddCardCredential(b);
      if !requiredAdded {
        return Some(MissingRequired(command));
      }
      AddOptional(XName, b.name);
      AddStreetZipIP(b);
      AddCustomFields(b.customFields);
      failure := None;
    }

    /** A refund or a check void; `receipt` says whether the receipt flag is sent. */
    method AddRefund(b: OperationBase, refNum: NetString, command: string, receipt: bool) returns (failure: Option<Failure>)
      requires Values == Seed(request)
      modifies this
      ensures Valid()
      ensures Build(Values, failure) == RefundRequest(old(Values), b, refNum, command, receipt)
    {
      assert DistinctKeys(RefundRequest(Seed(request), b, refNum, command, receipt).after) && |RefundRequest(Seed(request), b, refNum, command, receipt).after| > 4 by {
        SeedSessionPairs(request);
        RefundDistinct(Seed(request), b, refNum, command, receipt);
      }
      Add(XCommand, Some(command));
      Add(XAmount, Some(FormatNullableN2(b.amount)));
      Add(XRefNum, refNum);
      if receipt {
        AddFlag(XCustReceipt, b.custReceipt);
      }
      AddCustomFields(b.customFields);
      failure := None;
    }

    /** A capture. */
    method AddCCCapture(s: Sale, refNum: NetString, command: string) returns (failure: Option<Failure>)
      requires Values == Seed(request)
      modifies this
      ensures Valid()
      ensures Build(Values, failure) == CCCaptureRequest(old(Values), s, refNum, command)
    {
      assert DistinctKeys(CCCaptureRequest(Seed(request), s, refNum, command).after) && |CCCaptureRequest(Seed(request), s, refNum, command).after| > 4 by {
        SeedSessionPairs(request);
        CCCaptureDistinct(Seed(request), s, refNum, command);
      }
      Add(XCommand, Some(command));
      Add(XAmount, Some(FormatNullableN2(s.base.amount)));
      Add(XRefNum, refNum);
      AddCardSaleTail(s);
      failure := None;
    }

    /** A void, void-refund or void-release. */
    method AddVoid(b: OperationBase, refNum: NetString, command: string) returns (failure: Option<Failure>)
      requires Values == Seed(request)
      modifies this
      ensures Valid()
      ensures Build(Values, failure) == VoidRequest(old(Values), b, refNum, command)
    {
      assert DistinctKeys(VoidRequest(Seed(request), b, refNum, command).after) && |VoidRequest(Seed(request), b, refNum, command).after| > 4 by {
        SeedSessionPairs(request);
        VoidDistinct(Seed(request), b, refNum, command);
      }
      Add(XCommand, Some(command));
      Add(XRefNum, refNum);
      AddCustomFields(b.customFields);
      failure := None;
    }

    /** An adjustment. */
    method AddCCAdjust(b: OperationBase, refNum: NetString, command: string) returns (failure: Option<Failure>)
      requires Values == Seed(request)
      modifies this
      ensures Valid()
      ensures Build(Values, failure) == CCAdjustRequest(old(Values), b, refNum, command)
    {
      assert DistinctKeys(CCAdjustRequest(Seed(request), b, refNum, command).after) && |CCAdjustRequest(Seed(request), b, refNum, command).after| > 4 by {
        SeedSessionPairs(request);
        CCAdjustDistinct(Seed(request), b, refNum, command);
      }
      Add(XCommand, Some(command));
      Add(XRefNum, refNum);
      Add(XAmount, Some(FormatNullableN2(b.amount)));
      AddOptional(XStreet, b.street);
      AddOptional(XZip, b.zip);
      AddOptional(XName, b.name);
      AddOptional(XIP, b.ip);
      AddCustomFields(b.customFields);
      failure := None;
    }

    /** A post-authorization: no amount is added. */
    method AddCCPostAuth(s: Sale, authCode: NetString, command: string) returns (failure: Option<Failure>)
      requires Values == Seed(request)
      modifies this
      ensures Valid()
      ensures Build(Values, failure) == CCPostAuthRequest(old(Values), s, authCode, command)
    {
      assert DistinctKeys(CCPostAuthRequest(Seed(request), s, authCode, command).after) && |CCPostAuthRequest(Seed(request), s, authCode, command).after| > 4 by {
        SeedSessionPairs(request);
        CCPostAuthDistinct(Seed(request), s, authCode, command);
      }
      var b := s.base;
      Add(XCommand, Some(command));
      Add(XAuthCode, authCode);
      AddOptional(XStreet, b.street);
      AddOptional(XZip, b.zip);
      AddOptional(XName, b.name);
      AddOptional(XIP, b.ip);
      AddCustomFields(b.customFields);
      AddCommonFields(b);
      AddSpecialFields(s);
      failure := None;
    }

    /** Saving check data, with the inverted Name check. */
    method AddCheckSave(b: OperationBase, command: string) returns (failure: Option<Failure>)
      requires Values == Seed(request)
      modifies this
      ensures Valid()
      ensures Build(Values, failure) == CheckSaveRequest(old(Values), b, command)
    {
      assert DistinctKeys(CheckSaveRequest(Seed(request), b, command).after) && |CheckSaveRequest(Seed(request), b, command).after| > 4 by {
        SeedSessionPairs(request);
        CheckSaveDistinct(Seed(request), b, command);
      }
      Add(XCommand, Some(command));
      if !IsNullOrWhiteSpace(b.name) {
        return Some(NameRequired);
      }
      var requiredAdded := AddCheckCredential(b, false);
      if !requiredAdded {
        return Some(MissingRequired(command));
      }
      Add(XName, b.name);
      AddOptional(XIP, b.ip);
      AddCustomFields(b.customFields);
      failure := None;
    }

    /** An EBT cash benefit withdrawal. */
    method AddEBTCBCash(b: OperationBase, command: string) returns (failure: Option<Failure>)
      requires Values == Seed(request)
      modifies this
      ensures Valid()
      ensures Build(Values, failure) == EBTCBCashRequest(old(Values), b, command)
    {
      assert DistinctKeys(EBTCBCashRequest(Seed(request), b, command).after) && |EBTCBCashRequest(Seed(request), b, command).after| > 4 by {
        SeedSessionPairs(request);
        EBTCBCashDistinct(Seed(request), b, command);
      }
      Add(XCommand, Some(command));
      Add(XAmount, Some(FormatNullableN2(b.amount)));
      Add(XDUKPT, b.dukpt);
      var requiredAdded := AddEbtCredential(b);
      if !requiredAdded {
        return Some(MissingRequired(command));
      }
      AddOptional(XIP, b.ip);
      AddOptional(XInvoice, b.invoice);
      AddFlag(XAllowDuplicate, b.allowDuplicate);
      AddCustomFields(b.customFields);
      failure := None;
    }

    /** An electronic WIC sale: the items come after the custom fields. */
    method AddEBTWSale(s: Sale, items: seq<WicItem>, command: string) returns (failure: Option<Failure>)
      requires Values == Seed(request)
      modifies this
      ensures Valid()
      ensures Build(Values, failure) == EBTWSaleRequest(old(Values), s, items, command)
    {
      assert DistinctKeys(EBTWSaleRequest(Seed(request), s, items, command).after) && |EBTWSaleRequest(Seed(request), s, items, command).after| > 4 by {
        SeedSessionPairs(request);
        EBTWSaleDistinct(Seed(request), s, items, command);
      }
      var b := s.base;
      Add(XCommand, Some(command));
      Add(XAmount, Some(FormatNullableN2(b.amount)));
      Add(XDUKPT, b.dukpt);
      var requiredAdded := AddEbtCredential(b);
      if !requiredAdded {
        return Some(MissingRequired(command));
      }
      AddStreetZipIP(b);
      AddCustomFields(b.customFields);
      if |items| > 0 {
        AddItems(items);
      }
      AddCommonFields(b);
      AddSpecialFields(s);
      failure := None;
    }

    /** An electronic WIC void. */
    method AddEBTWVoid(b: OperationBase, refNum: NetString, command: string) returns (failure: Option<Failure>)
      requires Values == Seed(request)
      modifies this
      ensures Valid()
      ensures Build(Values, failure) == EBTWVoidRequest(old(Values), b, refNum, command)
    {
      assert DistinctKeys(EBTWVoidRequest(Seed(request), b, refNum, command).after) && |EBTWVoidRequest(Seed(request), b, refNum, command).after| > 4 by {
        SeedSessionPairs(request);
        EBTWVoidDistinct(Seed(request), b, refNum, command);
      }
      Add(XCommand, Some(command));
      Add(XDUKPT, b.dukpt);
      Add(XRefNum, refNum);
      var requiredAdded := AddCardOrMagStripe(b);
      if !requiredAdded {
        return Some(MissingRequired(command));
      }
      failure := None;
    }

    // ---------------------------------------------------------------------------------------------
    // The operations. Each validates its record, applies the reuse guard and adds its pairs in
    // order; each ensures that its outcome and the new dictionary are the ones `Call` describes.

    /** A card sale. */
    method CCSale(s: Sale, force: bool) returns (r: Outcome)
      requires Valid()
      modifies this
      ensures Valid()
      ensures (r, Values) == Call(old(Values), AmountCheck(s.base.amount), force,
        CardSaleRequest(Seed(request), s, "cc:sale", false))
    {
      if !PositiveAmount(s.base.amount) {
        return Threw(InvalidAmount);
      }
      var ok := ReuseGuard(force);
      if !ok {
        return Threw(NewInstanceRequired);
      }
      var failure := AddCardSale(s, "cc:sale", false);
      r := Settle(Build(Values, failure));
    }

    /** Saves card data for a token; no amount check. */
    method CCSave(b: OperationBase, force: bool) returns (r: Outcome)
      requires Valid()
      modifies this
      ensures Valid()
      ensures (r, Values) == Call(old(Values), None, force,
        CCSaveRequest(Seed(request), b, "cc:save"))
    {
      var ok := ReuseGuard(force);
      if !ok {
        return Threw(NewInstanceRequired);
      }
      var failure := AddCCSave(b, "cc:save");
      r := Settle(Build(Values, failure));
    }

    /** Refunds a previous transaction: the reference number is checked before the amount. */
    method CCRefund(b: OperationBase, refNum: NetString, force: bool) returns (r: Outcome)
      requires Valid()
      modifies this
      ensures Valid()
      ensures (r, Values) == Call(old(Values), Then(RefNumCheck(refNum), AmountCheck(b.amount)), force,
        RefundRequest(Seed(request), b, refNum, "cc:refund", true))
    {
      if IsNullOrWhiteSpace(refNum) {
        return Threw(InvalidRefNum);
      }
      if !PositiveAmount(b.amount) {
        return Threw(InvalidAmount);
      }
      var ok := ReuseGuard(force);
      if !ok {
        return Threw(NewInstanceRequired);
      }
      var failure := AddRefund(b, refNum, "cc:refund", true);
      r := Settle(Build(Values, failure));
    }

    /** An authorization without capture. */
    method CCAuthOnly(s: Sale, force: bool) returns (r: Outcome)
      requires Valid()
      modifies this
      ensures Valid()
      ensures (r, Values) == Call(old(Values), AmountCheck(s.base.amount), force,
        CardSaleRequest(Seed(request), s, "cc:authonly", true))
    {
      if !PositiveAmount(s.base.amount) {
        return Threw(InvalidAmount);
      }
      var ok := ReuseGuard(force);
      if !ok {
        return Threw(NewInstanceRequired);
      }
      var failure := AddCardSale(s, "cc:authonly", true);
      r := Settle(Build(Values, failure));
    }

    /** Captures a previous authorization; no card data is needed. */
    method CCCapture(s: Sale, refNum: NetString, force: bool) returns (r: Outcome)
      requires Valid()
      modifies this
      ensures Valid()
      ensures (r, Values) == Call(old(Values), Then(RefNumCheck(refNum), AmountCheck(s.base.amount)), force,
        CCCaptureRequest(Seed(request), s, refNum, "cc:capture"))
    {
      if IsNullOrWhiteSpace(refNum) {
        return Threw(InvalidRefNum);
      }
      if !PositiveAmount(s.base.amount) {
        return Threw(InvalidAmount);
      }
      var ok := ReuseGuard(force);
      if !ok {
        return Threw(NewInstanceRequired);
      }
      var failure := AddCCCapture(s, refNum, "cc:capture");
      r := Settle(Build(Values, failure));
    }

    /** A credit to a card. */
    method CCCredit(s: Sale, force: bool) returns (r: Outcome)
      requires Valid()
      modifies this
      ensures Valid()
      ensures (r, Values) == Call(old(Values), AmountCheck(s.base.amount), force,
        CardSaleRequest(Seed(request), s, "cc:credit", true))
    {
      if !PositiveAmount(s.base.amount) {
        return Threw(InvalidAmount);
      }
      var ok := ReuseGuard(force);
      if !ok {
        return Threw(NewInstanceRequired);
      }
      var failure := AddCardSale(s, "cc:credit", true);
      r := Settle(Build(Values, failure));
    }

    /** Voids a previous transaction. */
    method CCVoid(b: OperationBase, refNum: NetString, force: bool) returns (r: Outcome)
      requires Valid()
      modifies this
      ensures Valid()
      ensures (r, Values) == Call(old(Values), RefNumCheck(refNum), force,
        VoidRequest(Seed(request), b, refNum, "cc:void"))
    {
      if IsNullOrWhiteSpace(refNum) {
        return Threw(InvalidRefNum);
      }
      var ok := ReuseGuard(force);
      if !ok {
        return Threw(NewInstanceRequired);
      }
      var failure := AddVoid(b, refNum, "cc:void");
      r := Settle(Build(Values, failure));
    }

    /** Adjusts the amount of a previous transaction. */
    method CCAdjust(b: OperationBase, refNum: NetString, force: bool) returns (r: Outcome)
      requires Valid()
      modifies this
      ensures Valid()
      ensures (r, Values) == Call(old(Values), Then(RefNumCheck(refNum), AmountCheck(b.amount)), force,
        CCAdjustRequest(Seed(request), b, refNum, "cc:adjust"))
    {
      if IsNullOrWhiteSpace(refNum) {
        return Threw(InvalidRefNum);
      }
      if !PositiveAmount(b.amount) {
        return Threw(InvalidAmount);
      }
      var ok := ReuseGuard(force);
      if !ok {
        return Threw(NewInstanceRequired);
      }
      var failure := AddCCAdjust(b, refNum, "cc:adjust");
      r := Settle(Build(Values, failure));
    }

    /** Posts a voice authorization: the amount is checked but never sent. */
    method CCPostAuth(s: Sale, authCode: NetString, force: bool) returns (r: Outcome)
      requires Valid()
      modifies this
      ensures Valid()
      ensures (r, Values) == Call(old(Values), Then(AuthCodeCheck(authCode), AmountCheck(s.base.amount)), force,
        CCPostAuthRequest(Seed(request), s, authCode, "cc:postauth"))
    {
      if IsNullOrWhiteSpace(authCode) {
        return Threw(InvalidAuthCode);
      }
      if !PositiveAmount(s.base.amount) {
        return Threw(InvalidAmount);
      }
      var ok := ReuseGuard(force);
      if !ok {
        return Threw(NewInstanceRequired);
      }
      var failure := AddCCPostAuth(s, authCode, "cc:postauth");
      r := Settle(Build(Values, failure));
    }

    /** Voids or refunds a previous transaction. */
    method CCVoidRefund(b: OperationBase, refNum: NetString, force: bool) returns (r: Outcome)
      requires Valid()
      modifies this
      ensures Valid()
      ensures (r, Values) == Call(old(Values), RefNumCheck(refNum), force,
        VoidRequest(Seed(request), b, refNum, "cc:voidrefund"))
    {
      if IsNullOrWhiteSpace(refNum) {
        return Threw(InvalidRefNum);
      }
      var ok := ReuseGuard(force);
      if !ok {
        return Threw(NewInstanceRequired);
      }
      var failure := AddVoid(b, refNum, "cc:voidrefund");
      r := Settle(Build(Values, failure));
    }

    /** Voids a previous authorization and releases its hold. */
    method CCVoidRelease(b: OperationBase, refNum: NetString, force: bool) returns (r: Outcome)
      requires Valid()
      modifies this
      ensures Valid()
      ensures (r, Values) == Call(old(Values), RefNumCheck(refNum), force,
        VoidRequest(Seed(request), b, refNum, "cc:voidrelease"))
    {
      if IsNullOrWhiteSpace(refNum) {
        return Threw(InvalidRefNum);
      }
      var ok := ReuseGuard(force);
      if !ok {
        return Threw(NewInstanceRequired);
      }
      var failure := AddVoid(b, refNum, "cc:voidrelease");
      r := Settle(Build(Values, failure));
    }

    /** A check sale. */
    method CheckSale(s: Sale, force: bool) returns (r: Outcome)
      requires Valid()
      modifies this
      ensures Valid()
      ensures (r, Values) == Call(old(Values), AmountCheck(s.base.amount), force,
        CheckSaleRequest(Seed(request), s, "check:sale"))
    {
      if !PositiveAmount(s.base.amount) {
        return Threw(InvalidAmount);
      }
      var ok := ReuseGuard(force);
      if !ok {
        return Threw(NewInstanceRequired);
      }
      var failure := AddCheckSale(s, "check:sale");
      r := Settle(Build(Values, failure));
    }

    /** A check credit. */
    method CheckCredit(s: Sale, force: bool) returns (r: Outcome)
      requires Valid()
      modifies this
      ensures Valid()
      ensures (r, Values) == Call(old(Values), AmountCheck(s.base.amount), force,
        CheckSaleRequest(Seed(request), s, "check:credit"))
    {
      if !PositiveAmount(s.base.amount) {
        return Threw(InvalidAmount);
      }
      var ok := ReuseGuard(force);
      if !ok {
        return Threw(NewInstanceRequired);
      }
      var failure := AddCheckSale(s, "check:credit");
      r := Settle(Build(Values, failure));
    }

    /** Saves check data for a token, with the inverted Name check. */
    method CheckSave(b: OperationBase, force: bool) returns (r: Outcome)
      requires Valid()
      modifies this
      ensures Valid()
      ensures (r, Values) == Call(old(Values), None, force,
        CheckSaveRequest(Seed(request), b, "check:save"))
    {
      var ok := ReuseGuard(force);
      if !ok {
        return Threw(NewInstanceRequired);
      }
      var failure := AddCheckSave(b, "check:save");
      r := Settle(Build(Values, failure));
    }

    /** Voids a check transaction: the amount is checked before the reference number. */
    method CheckVoid(b: OperationBase, refNum: NetString, force: bool) returns (r: Outcome)
      requires Valid()
      modifies this
      ensures Valid()
      ensures (r, Values) == Call(old(Values), Then(AmountCheck(b.amount), RefNumCheck(refNum)), force,
        RefundRequest(Seed(request), b, refNum, "check:void", false))
    {
      if !PositiveAmount(b.amount) {
        return Threw(InvalidAmount);
      }
      if IsNullOrWhiteSpace(refNum) {
        return Threw(InvalidRefNum);
      }
      var ok := ReuseGuard(force);
      if !ok {
        return Threw(NewInstanceRequired);
      }
      var failure := AddRefund(b, refNum, "check:void", false);
      r := Settle(Build(Values, failure));
    }

    /** Refunds a check transaction. */
    method CheckRefund(b: OperationBase, refNum: NetString, force: bool) returns (r: Outcome)
      requires Valid()
      modifies this
      ensures Valid()
      ensures (r, Values) == Call(old(Values), Then(AmountCheck(b.amount), RefNumCheck(refNum)), force,
        RefundRequest(Seed(request), b, refNum, "check:refund", true))
    {
      if !PositiveAmount(b.amount) {
        return Threw(InvalidAmount);
      }
      if IsNullOrWhiteSpace(refNum) {
        return Threw(InvalidRefNum);
      }
      var ok := ReuseGuard(force);
      if !ok {
        return Threw(NewInstanceRequired);
      }
      var failure := AddRefund(b, refNum, "check:refund", true);
      r := Settle(Build(Values, failure));
    }

    /** An EBT food stamp sale. */
    method EBTFSSale(s: Sale, force: bool) returns (r: Outcome)
      requires Valid()
      modifies this
      ensures Valid()
      ensures (r, Values) == Call(old(Values), AmountCheck(s.base.amount), force,
        EbtSaleRequest(Seed(request), s, "ebtfs:sale"))
    {
      if !PositiveAmount(s.base.amount) {
        return Threw(InvalidAmount);
      }
      var ok := ReuseGuard(force);
      if !ok {
        return Threw(NewInstanceRequired);
      }
      var failure := AddEbtSale(s, "ebtfs:sale");
      r := Settle(Build(Values, failure));
    }

    /** An EBT food stamp credit. */
    method EBTFSCredit(s: Sale, force: bool) returns (r: Outcome)
      requires Valid()
      modifies this
      ensures Valid()
      ensures (r, Values) == Call(old(Values), AmountCheck(s.base.amount), force,
        EbtSaleRequest(Seed(request), s, "ebtfs:credit"))
    {
      if !PositiveAmount(s.base.amount) {
        return Threw(InvalidAmount);
      }
      var ok := ReuseGuard(force);
      if !ok {
        return Threw(NewInstanceRequired);
      }
      var failure := AddEbtSale(s, "ebtfs:credit");
      r := Settle(Build(Values, failure));
    }

    /** An EBT food stamp balance inquiry. */
    method EBTFSBalance(b: OperationBase, force: bool) returns (r: Outcome)
      requires Valid()
      modifies this
      ensures Valid()
      ensures (r, Values) == Call(old(Values), None, force,
        BalanceRequest(Seed(request), b, true, "ebtfs:balance"))
    {
      var ok := ReuseGuard(force);
      if !ok {
        return Threw(NewInstanceRequired);
      }
      var failure := AddBalance(b, true, "ebtfs:balance");
      r := Settle(Build(Values, failure));
    }

    /** A manual EBT food stamp voucher. */
    method EBTFSVoucher(s: Sale, force: bool) returns (r: Outcome)
      requires Valid()
      modifies this
      ensures Valid()
      ensures (r, Values) == Call(old(Values), AmountCheck(s.base.amount), force,
        EbtSaleRequest(Seed(request), s, "ebtf:voucher"))
    {
      if !PositiveAmount(s.base.amount) {
        return Threw(InvalidAmount);
      }
      var ok := ReuseGuard(force);
      if !ok {
        return Threw(NewInstanceRequired);
      }
      var failure := AddEbtSale(s, "ebtf:voucher");
      r := Settle(Build(Values, failure));
    }

    /** An EBT cash benefit sale. */
    method EBTCBSale(s: Sale, force: bool) returns (r: Outcome)
      requires Valid()
      modifies this
      ensures Valid()
      ensures (r, Values) == Call(old(Values), AmountCheck(s.base.amount), force,
        EbtSaleRequest(Seed(request), s, "ebtcb:sale"))
    {
      if !PositiveAmount(s.base.amount) {
        return Threw(InvalidAmount);
      }
      var ok := ReuseGuard(force);
      if !ok {
        return Threw(NewInstanceRequired);
      }
      var failure := AddEbtSale(s, "ebtcb:sale");
      r := Settle(Build(Values, failure));
    }

    /** An EBT cash benefit withdrawal. */
    method EBTCBCash(b: OperationBase, force: bool) returns (r: Outcome)
      requires Valid()
      modifies this
      ensures Valid()
      ensures (r, Values) == Call(old(Values), AmountCheck(b.amount), force,
        EBTCBCashRequest(Seed(request), b, "ebtcb:cash"))
    {
      if !PositiveAmount(b.amount) {
        return Threw(InvalidAmount);
      }
      var ok := ReuseGuard(force);
      if !ok {
        return Threw(NewInstanceRequired);
      }
      var failure := AddEBTCBCash(b, "ebtcb:cash");
      r := Settle(Build(Values, failure));
    }

    /** An EBT cash benefit balance inquiry. */
    method EBTCBBalance(b: OperationBase, force: bool) returns (r: Outcome)
      requires Valid()
      modifies this
      ensures Valid()
      ensures (r, Values) == Call(old(Values), None, force,
        BalanceRequest(Seed(request), b, false, "ebtcb:balance"))
    {
      var ok := ReuseGuard(force);
      if !ok {
        return Threw(NewInstanceRequired);
      }
      var failure := AddBalance(b, false, "ebtcb:balance");
      r := Settle(Build(Values, failure));
    }

    /** An electronic WIC sale: the item list must be there and hold at least one item. */
    method EBTWSale(s: Sale, items: Option<seq<WicItem>>, force: bool) returns (r: Outcome)
      requires Valid()
      modifies this
      ensures Valid()
      ensures (r, Values) == Call(old(Values), Then(ItemsCheck(items), AmountCheck(s.base.amount)), force,
        EBTWSaleRequest(Seed(request), s, ItemsOf(items), "ebtw:sale"))
    {
      if items.None? {
        return Threw(NullItems);
      }
      if |items.value| == 0 {
        return Threw(NoItems);
      }
      if !PositiveAmount(s.base.amount) {
        return Threw(InvalidAmount);
      }
      var ok := ReuseGuard(force);
      if !ok {
        return Threw(NewInstanceRequired);
      }
      var failure := AddEBTWSale(s, items.value, "ebtw:sale");
      r := Settle(Build(Values, failure));
    }

    /** An electronic WIC balance inquiry. */
    method EBTWBalance(b: OperationBase, force: bool) returns (r: Outcome)
      requires Valid()
      modifies this
      ensures Valid()
      ensures (r, Values) == Call(old(Values), None, force,
        BalanceRequest(Seed(request), b, false, "ebtw:balance"))
    {
      var ok := ReuseGuard(force);
      if !ok {
        return Threw(NewInstanceRequired);
      }
      var failure := AddBalance(b, false, "ebtw:balance");
      r := Settle(Build(Values, failure));
    }

    /** Voids an electronic WIC transaction. */
    method EBTWVoid(b: OperationBase, refNum: NetString, force: bool) returns (r: Outcome)
      requires Valid()
      modifies this
      ensures Valid()
      ensures (r, Values) == Call(old(Values), RefNumCheck(refNum), force,
        EBTWVoidRequest(Seed(request), b, refNum, "ebtw:void"))
    {
      if IsNullOrWhiteSpace(refNum) {
        return Threw(InvalidRefNum);
      }
      var ok := ReuseGuard(force);
      if !ok {
        return Threw(NewInstanceRequired);
      }
      var failure := AddEBTWVoid(b, refNum, "ebtw:void");
      r := Settle(Build(Values, failure));
    }

    /** Issues a gift card. */
    method GCIssue(s: Sale, force: bool) returns (r: Outcome)
      requires Valid()
      modifies this
      ensures Valid()
      ensures (r, Values) == Call(old(Values), AmountCheck(s.base.amount), force,
        CardSaleRequest(Seed(request), s, "gift:issue", false))
    {
      if !PositiveAmount(s.base.amount) {
        return Threw(InvalidAmount);
      }
      var ok := ReuseGuard(force);
      if !ok {
        return Threw(NewInstanceRequired);
      }
      var failure := AddCardSale(s, "gift:issue", false);
      r := Settle(Build(Values, failure));
    }

    /** Redeems from a gift card. */
    method GCRedeem(s: Sale, force: bool) returns (r: Outcome)
      requires Valid()
      modifies this
      ensures Valid()
      ensures (r, Values) == Call(old(Values), AmountCheck(s.base.amount), force,
        CardSaleRequest(Seed(request), s, "gift:redeem", false))
    {
      if !PositiveAmount(s.base.amount) {
        return Threw(InvalidAmount);
      }
      var ok := ReuseGuard(force);
      if !ok {
        return Threw(NewInstanceRequired);
      }
      var failure := AddCardSale(s, "gift:redeem", false);
      r := Settle(Build(Values, failure));
    }

    /** A gift card balance inquiry; it too requires a positive amount. */
    method GCBalance(s: Sale, force: bool) returns (r: Outcome)
      requires Valid()
      modifies this
      ensures Valid()
      ensures (r, Values) == Call(old(Values), AmountCheck(s.base.amount), force,
        CardSaleRequest(Seed(request), s, "gift:balance", false))
    {
      if !PositiveAmount(s.base.amount) {
        return Threw(InvalidAmount);
      }
      var ok := ReuseGuard(force);
      if !ok {
        return Threw(NewInstanceRequired);
      }
      var failure := AddCardSale(s, "gift:balance", false);
      r := Settle(Build(Values, failure));
    }

    /** Activates a gift card. */
    method GCActivate(b: OperationBase, force: bool) returns (r: Outcome)
      requires Valid()
      modifies this
      ensures Valid()
      ensures (r, Values) == Call(old(Values), None, force,
        GiftCardStateRequest(Seed(request), b, GiftActivateCommand))
    {
      var ok := ReuseGuard(force);
      if !ok {
        return Threw(NewInstanceRequired);
      }
      var failure := AddGiftCardState(b, GiftActivateCommand);
      r := Settle(Build(Values, failure));
    }

    /** Deactivates a gift card. */
    method GCDeactivate(b: OperationBase, force: bool) returns (r: Outcome)
      requires Valid()
      modifies this
      ensures Valid()
      ensures (r, Values) == Call(old(Values), None, force,
        GiftCardStateRequest(Seed(request), b, GiftDeactivateCommand))
    {
      var ok := ReuseGuard(force);
      if !ok {
        return Threw(NewInstanceRequired);
      }
      var failure := AddGiftCardState(b, GiftDeactivateCommand);
      r := Settle(Build(Values, failure));
    }

    /** Submits a transaction for fraud screening. */
    method FraudSubmit(s: Sale, force: bool) returns (r: Outcome)
      requires Valid()
      modifies this
      ensures Valid()
      ensures (r, Values) == Call(old(Values), AmountCheck(s.base.amount), force,
        CardSaleRequest(Seed(request), s, "fraud:submit", false))
    {
      if !PositiveAmount(s.base.amount) {
        return Threw(InvalidAmount);
      }
      var ok := ReuseGuard(force);
      if !ok {
        return Threw(NewInstanceRequired);
      }
      var failure := AddCardSale(s, "fraud:submit", false);
      r := Settle(Build(Values, failure));
    }
  }
}
