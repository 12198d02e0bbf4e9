/**
 * What the operations of `CardknoxClient` promise beyond the shape of each request: the order in
 * which payment data is chosen, what a failed operation leaves behind, the checks that run before
 * the dictionary is touched, and the numbering of custom fields and WIC items.
 */
module ClientProperties {
  import opened Wrappers
  import opened Text
  import opened Fields
  import opened Operations
  import opened RequestKeys
  import opened DistinctRequests
  import opened CardknoxClientModel

  // ---------------------------------------------------------------------------------------------
  // The session pairs

  /** The session pairs as sent, in this order, under their wire names. */
  lemma SeedRendered(r: CardknoxRequest)
    ensures Rendered(Seed(r)) == [("xKey", r.key), ("xVersion", r.cardknoxVersion),
                                  ("xSoftwareName", r.software), ("xSoftwareVersion", r.softwareVersion)]
  {
  }

  // ---------------------------------------------------------------------------------------------
  // Validation and the reuse guard

  /**
   * Validation comes first and a failed check leaves the dictionary as it was; a dictionary that
   * holds more than the session pairs rejects every call without `force`, and stays as it is;
   * with `force` the history does not matter.
   */
  lemma GuardOrder(values: seq<Entry>, other: seq<Entry>, precheck: Option<Failure>, force: bool, b: Build)
    ensures precheck.Some? ==> Call(values, precheck, force, b) == (Threw(precheck.value), values)
    ensures precheck.None? && |values| > 4 && !force ==> Call(values, precheck, force, b) == (Threw(NewInstanceRequired), values)
    ensures Call(values, precheck, true, b).0 == Call(other, precheck, true, b).0
    ensures precheck.None? ==> Call(values, precheck, true, b).1 == Call(other, precheck, true, b).1 == b.after
  {
  }

  /** A call that posts sends the pairs its builder produced. */
  lemma PostedIsBuilt(values: seq<Entry>, precheck: Option<Failure>, force: bool, b: Build)
    ensures Call(values, precheck, force, b).0.Posted? ==> Call(values, precheck, force, b).0.sent == b.after
  {
  }

  /**
   * A card operation whose card data does not suffice (a card number without an expiry, or
   * nothing at all) throws after its command, its amount and any card number it found are
   * already in the dictionary.
   */
  lemma CardSaleLeavesPairs(acc: seq<Entry>, s: Sale, command: string, customFirst: bool)
    requires !CardCredential(s.base).satisfied
    ensures var r := CardSaleRequest(acc, s, command, customFirst);
      && r.failure == Some(MissingRequired(command))
      && r.after[..|acc| + 2] == acc + [(XCommand, Some(command)), AmountEntry(s.base.amount)]
      && Occurs(r.after, XCardNum) == Occurs(acc, XCardNum) + Ind(!IsNullOrWhiteSpace(s.base.cardNum))
  {
    var head := acc + [(XCommand, Some(command))] + [AmountEntry(s.base.amount)];
    var after := head + CardCredential(s.base).entries;
    assert CardSaleRequest(acc, s, command, customFirst) == Build(after, Some(MissingRequired(command)));
    assert head == acc + [(XCommand, Some(command)), AmountEntry(s.base.amount)];
    assert after[..|acc| + 2] == head;
    SnocAt(acc, (XCommand, Some(command)), XCardNum);
    SnocAt(acc + [(XCommand, Some(command))], AmountEntry(s.base.amount), XCardNum);
    AppendAt(head, CardCredential(s.base).entries, XCardNum);
    CardCredentialPriority(s.base);
  }

  /**
   * After a card sale that failed on its card data, the dictionary holds more than the session
   * pairs, so every later call on the client without `force` is rejected (or fails its own
   * validation first) and leaves the dictionary as it is.
   */
  lemma FailedSaleBlocksClient(r: CardknoxRequest, values: seq<Entry>, s: Sale, force: bool,
                               precheck2: Option<Failure>, b2: Build)
    requires |values| <= 4 || force
    requires PositiveAmount(s.base.amount) && !CardCredential(s.base).satisfied
    ensures var first := Call(values, AmountCheck(s.base.amount), force, CardSaleRequest(Seed(r), s, "cc:sale", false));
      && first.0 == Threw(MissingRequired("cc:sale"))
      && |first.1| > 4
      && Call(first.1, precheck2, false, b2) == (Threw(if precheck2.Some? then precheck2.value else NewInstanceRequired), first.1)
  {
    CardSaleLeavesPairs(Seed(r), s, "cc:sale", false);
  }

  /** A post-authorization adds no `xAmount` of its own. */
  lemma PostAuthRequestNoAmount(acc: seq<Entry>, s: Sale, a: NetString, command: string)
    ensures Occurs(CCPostAuthRequest(acc, s, a, command).after, XAmount) == Occurs(acc, XAmount)
  {
    var b := s.base;
    var k := XAmount;
    var s1 := acc + [(XCommand, Some(command))];
    SnocAt(acc, (XCommand, Some(command)), k);
    SnocAt(s1, (XAuthCode, a), k);
    var head := s1 + [(XAuthCode, a)];
    AddressNameIPAt(head, b, k);
    var tail := head + Optional(XStreet, b.street) + Optional(XZip, b.zip) + Optional(XName, b.name)
      + Optional(XIP, b.ip) + CustomFields(b.customFields);
    CommonAt(tail, b, k);
    SpecialAt(WithCommonFields(tail, b), s, k);
  }

  /** A post-authorization checks the authorization code, then the amount, and never sends `xAmount`. */
  lemma PostAuthNeverSendsAmount(r: CardknoxRequest, values: seq<Entry>, s: Sale, a: NetString, force: bool)
    ensures var c := Call(values, Then(AuthCodeCheck(a), AmountCheck(s.base.amount)), force,
                          CCPostAuthRequest(Seed(r), s, a, "cc:postauth"));
      && (IsNullOrWhiteSpace(a) ==> c == (Threw(InvalidAuthCode), values))
      && (!IsNullOrWhiteSpace(a) && !PositiveAmount(s.base.amount) ==> c == (Threw(InvalidAmount), values))
      && (c.0.Posted? ==> Occurs(c.0.sent, XAmount) == 0)
  {
    SeedNoAmount(r, s, a);
    PostedIsBuilt(values, Then(AuthCodeCheck(a), AmountCheck(s.base.amount)), force,
      CCPostAuthRequest(Seed(r), s, a, "cc:postauth"));
  }

  lemma SeedNoAmount(r: CardknoxRequest, s: Sale, a: NetString)
    ensures Occurs(CCPostAuthRequest(Seed(r), s, a, "cc:postauth").after, XAmount) == 0
  {
    assert Occurs(Seed(r), XAmount) == 0 by {
      SeedSessionPairs(r);
    }
    PostAuthRequestNoAmount(Seed(r), s, a, "cc:postauth");
  }

  /**
   * An electronic WIC sale whose item list is null or empty throws before the dictionary is
   * touched: the null list first, with the NullReferenceException of reading its count.
   */
  lemma WicSaleNeedsItems(r: CardknoxRequest, values: seq<Entry>, s: Sale, items: Option<seq<WicItem>>, force: bool)
    ensures var (o, v) := Call(values, Then(ItemsCheck(items), AmountCheck(s.base.amount)), force,
                               EBTWSaleRequest(Seed(r), s, ItemsOf(items), "ebtw:sale"));
      && ((o == Threw(NullItems) && v == values) <==> items.None?)
      && ((o == Threw(NoItems) && v == values) <==> items == Some([]))
  {
  }

  // ---------------------------------------------------------------------------------------------
  // Payment data

  /**
   * Card data: exactly one of card number, token and magnetic stripe is sent, tried in that
   * order; expiry and CVV only with a card number; and a card number without an expiry is not
   * enough, exactly as if no card data had been given.
   */
  lemma CardCredentialPriority(b: OperationBase)
    ensures var e := CardCredential(b).entries;
      && Occurs(e, XCardNum) == Ind(!IsNullOrWhiteSpace(b.cardNum))
      && Occurs(e, XToken) == Ind(IsNullOrWhiteSpace(b.cardNum) && !IsNullOrWhiteSpace(b.token))
      && Occurs(e, XMagStripe) == Ind(IsNullOrWhiteSpace(b.cardNum) && IsNullOrWhiteSpace(b.token) && !IsNullOrWhiteSpace(b.magStripe))
      && Occurs(e, XExp) == Ind(!IsNullOrWhiteSpace(b.cardNum) && !IsNullOrWhiteSpace(b.exp))
      && Occurs(e, XCVV) == Ind(!IsNullOrWhiteSpace(b.cardNum) && !IsNullOrWhiteSpace(b.cvv))
      && (CardCredential(b).satisfied <==> Occurs(e, XExp) + Occurs(e, XToken) + Occurs(e, XMagStripe) == 1)
  {
    var ks := [XCardNum, XToken, XMagStripe, XExp, XCVV];
    if !IsNullOrWhiteSpace(b.cardNum) {
      forall k | k in ks
        ensures Occurs(CardCredential(b).entries, k) == Ind(k == XCardNum) + Sent(k, XCVV, b.cvv) + Sent(k, XExp, b.exp)
      {
        CardNumberCounts(b, k);
      }
    } else if !IsNullOrWhiteSpace(b.token) {
      forall k | k in ks ensures Occurs(CardCredential(b).entries, k) == Ind(k == XToken) {
        SingleCounts((XToken, b.token), k);
      }
    } else if !IsNullOrWhiteSpace(b.magStripe) {
      forall k | k in ks ensures Occurs(CardCredential(b).entries, k) == Ind(k == XMagStripe) {
        SingleCounts((XMagStripe, b.magStripe), k);
      }
    } else {
      forall k | k in ks ensures Occurs(CardCredential(b).entries, k) == 0 {
        EmptyAt(k);
      }
    }
  }

  /** With a card number: the number once, then CVV and expiry when they are set. */
  lemma CardNumberCounts(b: OperationBase, k: Field)
    requires !IsNullOrWhiteSpace(b.cardNum)
    ensures Occurs(CardCredential(b).entries, k) == Ind(k == XCardNum) + Sent(k, XCVV, b.cvv) + Sent(k, XExp, b.exp)
  {
    var a0: seq<Entry> := [];
    var a1 := a0 + [(XCardNum, b.cardNum)];
    var a2 := a1 + Optional(XCVV, b.cvv);
    assert CardCredential(b).entries == a2 + Optional(XExp, b.exp);
    EmptyAt(k);
    SnocAt(a0, (XCardNum, b.cardNum), k);
    OptionalAt(a1, XCVV, b.cvv, k);
    OptionalAt(a2, XExp, b.exp, k);
  }

  /** A single pair counts once, under its own key. */
  lemma SingleCounts(e: Entry, k: Field)
    ensures Occurs([e], k) == Ind(e.0 == k)
  {
    EmptyAt(k);
    SnocAt([], e, k);
    assert [] + [e] == [e];
  }

  /**
   * Check data: routing and account numbers together when both are set; otherwise a token, where
   * the operation accepts one; otherwise MICR data; enough exactly when one of them was sent.
   */
  lemma CheckCredentialPriority(b: OperationBase, tokenAllowed: bool)
    ensures var e := CheckCredential(b, tokenAllowed).entries;
      var pair := !IsNullOrWhiteSpace(b.routing) && !IsNullOrWhiteSpace(b.account);
      && Occurs(e, XRouting) == Occurs(e, XAccount) == Ind(pair)
      && Occurs(e, XToken) == Ind(!pair && tokenAllowed && !IsNullOrWhiteSpace(b.token))
      && Occurs(e, XMICR) == Ind(!pair && !(tokenAllowed && !IsNullOrWhiteSpace(b.token)) && !IsNullOrWhiteSpace(b.micr))
      && (CheckCredential(b, tokenAllowed).satisfied <==> Occurs(e, XAccount) + Occurs(e, XToken) + Occurs(e, XMICR) == 1)
  {
    var e := CheckCredential(b, tokenAllowed).entries;
    var a0: seq<Entry> := [];
    if !IsNullOrWhiteSpace(b.routing) && !IsNullOrWhiteSpace(b.account) {
      var a1 := a0 + [(XRouting, b.routing)];
      assert e == a1 + [(XAccount, b.account)];
      forall k | k in {XRouting, XAccount, XToken, XMICR}
        ensures Occurs(e, k) == Ind(k == XRouting) + Ind(k == XAccount)
      {
        EmptyAt(k);
        SnocAt(a0, (XRouting, b.routing), k);
        SnocAt(a1, (XAccount, b.account), k);
      }
    } else {
      assert e == [] || (|e| == 1 && (e[0].0 == XToken || e[0].0 == XMICR));
      forall k | k in {XRouting, XAccount, XToken, XMICR}
        ensures Occurs(e, k) == Ind(|e| == 1 && e[0].0 == k)
      {
        EmptyAt(k);
        if |e| == 1 {
          SnocAt(a0, e[0], k);
          assert a0 + [e[0]] == e;
        }
      }
    }
  }

  // ---------------------------------------------------------------------------------------------
  // The inverted Name check of the check operations

  /**
   * A check sale or credit throws "Name is required." exactly when a name IS given, after the
   * command is added; so a check sale that goes through sends a blank `xName`.
   */
  lemma CheckSaleNameInverted(acc: seq<Entry>, s: Sale, command: string)
    ensures var r := CheckSaleRequest(acc, s, command);
      && (r.failure == Some(NameRequired) <==> !IsNullOrWhiteSpace(s.base.name))
      && (r.failure == Some(NameRequired) ==> r.after == acc + [(XCommand, Some(command))])
      && (r.failure.None? ==> IsNullOrWhiteSpace(s.base.name) && (XName, s.base.name) in r.after)
  {
    var b := s.base;
    var r := CheckSaleRequest(acc, s, command);
    if r.failure.None? {
      var head := acc + [(XCommand, Some(command))] + CheckCredential(b, true).entries;
      var tail := head + [AmountEntry(b.amount)] + [(XName, b.name)] + Optional(XIP, b.ip)
        + Flag(XCustReceipt, b.custReceipt) + CustomFields(b.customFields);
      assert (XName, b.name) in tail;
      var head2 := tail + Optional(XInvoice, b.invoice) + PresentAmount(XTip, b.tip) + PresentAmount(XTax, b.tax)
        + Optional(XEmail, b.email) + Optional(XFax, b.fax);
      assert (XName, b.name) in WithShippingAddress(WithBillingAddress(head2, b.bill), b.ship);
    }
  }

  /** Saving check data has the same inverted check, and then sends a blank `xName`. */
  lemma CheckSaveNameInverted(acc: seq<Entry>, b: OperationBase, command: string)
    ensures var r := CheckSaveRequest(acc, b, command);
      && (r.failure == Some(NameRequired) <==> !IsNullOrWhiteSpace(b.name))
      && (r.failure.None? ==> IsNullOrWhiteSpace(b.name) && (XName, b.name) in r.after)
  {
    var r := CheckSaveRequest(acc, b, command);
    if r.failure.None? {
      var head := acc + [(XCommand, Some(command))] + CheckCredential(b, false).entries;
      assert (XName, b.name) in head + [(XName, b.name)];
    }
  }

  // ---------------------------------------------------------------------------------------------
  // Numbered keys

  /** The custom keys are `xCustom01`, `xCustom02`, ...: two digits at least, and no two numbers share a name. */
  lemma CustomNames(i: nat, j: nat)
    ensures WireName(XCustom(1)) == "xCustom01" && WireName(XCustom(12)) == "xCustom12"
    ensures WireName(XCustom(i)) == WireName(XCustom(j)) ==> i == j
  {
    assert NatToString(1) == "1" && NatToString(12) == "12";
    if WireName(XCustom(i)) == WireName(XCustom(j)) {
      var w := WireName(XCustom(i));
      assert w[7..] == PadTwo(i) == PadTwo(j);
      PadTwoRoundTrip(i);
      PadTwoRoundTrip(j);
    }
  }

  /** The item keys name their item by its decimal index; no two indexes share a name. */
  lemma ItemNames(i: nat, j: nat)
    ensures WireName(XUnitPrice(3)) == "x3UnitPrice" && WireName(XQty(3)) == "x3Qty" && WireName(XUpc(3)) == "x3Upc"
    ensures WireName(XUnitPrice(i)) == WireName(XUnitPrice(j)) ==> i == j
    ensures WireName(XQty(i)) == WireName(XQty(j)) ==> i == j
    ensures WireName(XUpc(i)) == WireName(XUpc(j)) ==> i == j
  {
    assert NatToString(3) == "3";
    IndexInName(i, j, "UnitPrice");
    IndexInName(i, j, "Qty");
    IndexInName(i, j, "Upc");
  }

  lemma IndexInName(i: nat, j: nat, suffix: string)
    ensures "x" + NatToString(i) + suffix == "x" + NatToString(j) + suffix ==> i == j
  {
    var wi, wj := "x" + NatToString(i) + suffix, "x" + NatToString(j) + suffix;
    if wi == wj {
      assert wi[1..|wi| - |suffix|] == NatToString(i);
      assert wj[1..|wj| - |suffix|] == NatToString(j);
      NatToStringRoundTrip(i);
      NatToStringRoundTrip(j);
    }
  }

  lemma {:induction false} ItemFieldsLength(items: seq<WicItem>)
    ensures |ItemFields(items)| == 3 * |items|
    decreases |items|
  {
    if items != [] {
      ItemFieldsLength(items[..|items| - 1]);
    }
  }

  /** Item `i + 1` of the list is the `i`-th group of three pairs: unit price, quantity, UPC. */
  lemma ItemFieldsLayout(items: seq<WicItem>, i: nat)
    requires i < |items|
    ensures |ItemFields(items)| == 3 * |items|
    ensures ItemFields(items)[3 * i..3 * i + 3]
      == [(XUnitPrice(i + 1), Some(FormatN2(items[i].unitPrice))), (XQty(i + 1), Some(IntToString(items[i].qty))),
          (XUpc(i + 1), items[i].upc)]
  {
    ItemFieldsLength(items);
    ItemGroupAt(items, i);
  }

  lemma {:induction false} ItemGroupAt(items: seq<WicItem>, i: nat)
    requires i < |items|
    ensures 3 * i + 3 <= |ItemFields(items)|
    ensures ItemFields(items)[3 * i..3 * i + 3] == ItemEntries(i + 1, items[i])
    decreases |items|
  {
    var n := |items|;
    var prev := items[..n - 1];
    ItemFieldsSnoc(items, n - 1);
    assert items[..n] == items;
    ItemFieldsLength(prev);
    if i < n - 1 {
      ItemGroupAt(prev, i);
      assert prev[i] == items[i];
    }
    GroupOfAppend(ItemFields(prev), ItemEntries(n, items[n - 1]), ItemEntries(i + 1, items[i]), i, n);
  }

  /** The `i`-th group of three in `f + e`, where `f` holds `n - 1` groups and `e` one more. */
  lemma GroupOfAppend(f: seq<Entry>, e: seq<Entry>, g: seq<Entry>, i: nat, n: nat)
    requires |f| == 3 * (n - 1) && |e| == 3 && i < n
    requires i < n - 1 ==> f[3 * i..3 * i + 3] == g
    requires i == n - 1 ==> e == g
    ensures (f + e)[3 * i..3 * i + 3] == g
  {
    if i < n - 1 {
      assert (f + e)[3 * i..3 * i + 3] == f[3 * i..3 * i + 3];
    } else {
      assert (f + e)[3 * i..3 * i + 3] == e;
    }
  }
}
