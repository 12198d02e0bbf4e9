/**
 * No operation adds a key twice: started from the session pairs, every request an operation
 * builds (posted, or left behind by an exception part-way) holds each key at most once, so none
 * of its `Values.Add` calls meets a key that is already in the dictionary.
 */
module DistinctRequests {
  import opened Wrappers
  import opened Text
  import opened Fields
  import opened Operations
  import opened RequestKeys

  /** Only session keys, each at most once: what the dictionary holds when an operation starts. */
  predicate SessionOnly(acc: seq<Entry>, k: Field) {
    Occurs(acc, k) <= Ind(GroupOf(k) == Session)
  }

  /** The keys of a card sale are pairwise apart: at most one of the counts below is 1. */
  lemma CardSaleKeysApart(s: Sale, k: Field, before: nat)
    requires before <= Ind(GroupOf(k) == Session)
    ensures before + Ind(k == XCommand) + Ind(k == XAmount) + Ind(IsPayment(k)) + Ind(StreetZipIPSent(s.base, k))
      + Ind(k == XCustReceipt && s.base.custReceipt) + Ind(CommonSent(s.base, k)) + Ind(SpecialSent(s, k))
      + Ind(CustomSent(|s.base.customFields|, k)) <= 1
  {
  }

  /** The keys of a check sale are pairwise apart. */
  lemma CheckSaleKeysApart(s: Sale, k: Field, before: nat)
    requires before <= Ind(GroupOf(k) == Session)
    ensures before + Ind(k == XCommand) + Ind(IsPayment(k)) + Ind(k == XAmount) + Ind(k == XName)
      + Ind(k == XIP && !IsNullOrWhiteSpace(s.base.ip)) + Ind(k == XCustReceipt && s.base.custReceipt)
      + Ind(CustomSent(|s.base.customFields|, k)) + Ind(CommonSent(s.base, k)) + Ind(SpecialSent(s, k)) <= 1
  {
  }

  /** The keys of an EBT sale are pairwise apart. */
  lemma EbtSaleKeysApart(s: Sale, k: Field, before: nat)
    requires before <= Ind(GroupOf(k) == Session)
    ensures before + Ind(k == XCommand) + Ind(k == XAmount) + Ind(k == XDUKPT) + Ind(IsPayment(k))
      + Ind(StreetZipIPSent(s.base, k)) + Ind(CommonSent(s.base, k)) + Ind(SpecialSent(s, k))
      + Ind(CustomSent(|s.base.customFields|, k)) <= 1
  {
  }

  /** The keys of a gift card activation or deactivation are pairwise apart. */
  lemma GiftCardStateKeysApart(b: OperationBase, k: Field, before: nat)
    requires before <= Ind(GroupOf(k) == Session)
    ensures before + Ind(k == XCommand) + Ind(IsPayment(k)) + Ind(k == XIP && !IsNullOrWhiteSpace(b.ip))
      + Ind(CommonSent(b, k)) + Ind(CustomSent(|b.customFields|, k)) <= 1
  {
  }

  // ---------------------------------------------------------------------------------------------
  // The shared tails

  lemma CardSaleTailAt(acc: seq<Entry>, s: Sale, k: Field)
    ensures Occurs(CardSaleTail(acc, s), k) == Occurs(acc, k) + Ind(StreetZipIPSent(s.base, k))
      + Ind(k == XCustReceipt && s.base.custReceipt) + Ind(CommonSent(s.base, k)) + Ind(SpecialSent(s, k))
      + Ind(CustomSent(|s.base.customFields|, k))
    ensures |CardSaleTail(acc, s)| >= |acc|
  {
    var b := s.base;
    StreetZipIPAt(acc, b, k);
    var head := WithStreetZipIP(acc, b) + Flag(XCustReceipt, b.custReceipt);
    FlagAt(WithStreetZipIP(acc, b), XCustReceipt, b.custReceipt, k);
    CommonAt(head, b, k);
    SpecialAt(WithCommonFields(head, b), s, k);
    CustomAt(WithSpecialFields(WithCommonFields(head, b), s), b.customFields, k);
  }

  lemma CardCustomFirstTailAt(acc: seq<Entry>, s: Sale, k: Field)
    ensures Occurs(CardCustomFirstTail(acc, s), k) == Occurs(acc, k) + Ind(StreetZipIPSent(s.base, k))
      + Ind(k == XCustReceipt && s.base.custReceipt) + Ind(CommonSent(s.base, k)) + Ind(SpecialSent(s, k))
      + Ind(CustomSent(|s.base.customFields|, k))
    ensures |CardCustomFirstTail(acc, s)| >= |acc|
  {
    var b := s.base;
    StreetZipIPAt(acc, b, k);
    FlagAt(WithStreetZipIP(acc, b), XCustReceipt, b.custReceipt, k);
    var head := WithStreetZipIP(acc, b) + Flag(XCustReceipt, b.custReceipt);
    CustomAt(head, b.customFields, k);
    CommonAt(head + CustomFields(b.customFields), b, k);
    SpecialAt(WithCommonFields(head + CustomFields(b.customFields), b), s, k);
  }

  lemma EbtSaleTailAt(acc: seq<Entry>, s: Sale, k: Field)
    ensures Occurs(EbtSaleTail(acc, s), k) == Occurs(acc, k) + Ind(StreetZipIPSent(s.base, k))
      + Ind(CommonSent(s.base, k)) + Ind(SpecialSent(s, k)) + Ind(CustomSent(|s.base.customFields|, k))
    ensures |EbtSaleTail(acc, s)| >= |acc|
  {
    var b := s.base;
    StreetZipIPAt(acc, b, k);
    CustomAt(WithStreetZipIP(acc, b), b.customFields, k);
    var head := WithStreetZipIP(acc, b) + CustomFields(b.customFields);
    CommonAt(head, b, k);
    SpecialAt(WithCommonFields(head, b), s, k);
  }

  // ---------------------------------------------------------------------------------------------
  // The shared request builders

  lemma CardSaleOnce(acc: seq<Entry>, s: Sale, command: string, customFirst: bool, k: Field)
    requires SessionOnly(acc, k)
    ensures Occurs(CardSaleRequest(acc, s, command, customFirst).after, k) <= 1
    ensures |CardSaleRequest(acc, s, command, customFirst).after| > |acc|
  {
    var head := acc + [(XCommand, Some(command))] + [AmountEntry(s.base.amount)];
    SnocAt(acc, (XCommand, Some(command)), k);
    SnocAt(acc + [(XCommand, Some(command))], AmountEntry(s.base.amount), k);
    CardCredentialAt(head, s.base, k);
    var cred := CardCredential(s.base);
    CardSaleKeysApart(s, k, Occurs(acc, k));
    if cred.satisfied {
      if customFirst {
        CardCustomFirstTailAt(head + cred.entries, s, k);
      } else {
        CardSaleTailAt(head + cred.entries, s, k);
      }
    }
  }

  lemma CheckSaleTailAt(acc: seq<Entry>, s: Sale, k: Field)
    ensures Occurs(CheckSaleTail(acc, s), k) == Occurs(acc, k) + Ind(k == XAmount) + Ind(k == XName)
      + Ind(k == XIP && !IsNullOrWhiteSpace(s.base.ip)) + Ind(k == XCustReceipt && s.base.custReceipt)
      + Ind(CustomSent(|s.base.customFields|, k)) + Ind(CommonSent(s.base, k)) + Ind(SpecialSent(s, k))
    ensures |CheckSaleTail(acc, s)| > |acc|
  {
    var b := s.base;
    var s4 := acc + [AmountEntry(b.amount)] + [(XName, b.name)] + Optional(XIP, b.ip) + Flag(XCustReceipt, b.custReceipt);
    CheckSaleHeadAt(acc, b, k);
    var tail := s4 + CustomFields(b.customFields);
    CustomAt(s4, b.customFields, k);
    CommonAt(tail, b, k);
    SpecialAt(WithCommonFields(tail, b), s, k);
  }

  lemma CheckSaleHeadAt(acc: seq<Entry>, b: OperationBase, k: Field)
    ensures Occurs(acc + [AmountEntry(b.amount)] + [(XName, b.name)] + Optional(XIP, b.ip) + Flag(XCustReceipt, b.custReceipt), k)
      == Occurs(acc, k) + Ind(k == XAmount) + Ind(k == XName) + Ind(k == XIP && !IsNullOrWhiteSpace(b.ip))
      + Ind(k == XCustReceipt && b.custReceipt)
    ensures |acc + [AmountEntry(b.amount)] + [(XName, b.name)] + Optional(XIP, b.ip) + Flag(XCustReceipt, b.custReceipt)| > |acc|
  {
    var s1 := acc + [AmountEntry(b.amount)];
    SnocAt(acc, AmountEntry(b.amount), k);
    var s2 := s1 + [(XName, b.name)];
    SnocAt(s1, (XName, b.name), k);
    var s3 := s2 + Optional(XIP, b.ip);
    OptionalAt(s2, XIP, b.ip, k);
    FlagAt(s3, XCustReceipt, b.custReceipt, k);
  }

  lemma CheckSaleOnce(acc: seq<Entry>, s: Sale, command: string, k: Field)
    requires SessionOnly(acc, k)
    ensures Occurs(CheckSaleRequest(acc, s, command).after, k) <= 1
    ensures |CheckSaleRequest(acc, s, command).after| > |acc|
  {
    var b := s.base;
    var head := acc + [(XCommand, Some(command))];
    SnocAt(acc, (XCommand, Some(command)), k);
    var cred := CheckCredential(b, true);
    CheckCredentialAt(head, b, true, k);
    CheckSaleKeysApart(s, k, Occurs(acc, k));
    if IsNullOrWhiteSpace(b.name) && cred.satisfied {
      CheckSaleTailAt(head + cred.entries, s, k);
    }
  }

  lemma EbtSaleOnce(acc: seq<Entry>, s: Sale, command: string, k: Field)
    requires SessionOnly(acc, k)
    ensures Occurs(EbtSaleRequest(acc, s, command).after, k) <= 1
    ensures |EbtSaleRequest(acc, s, command).after| > |acc|
  {
    var s1 := acc + [(XCommand, Some(command))];
    SnocAt(acc, (XCommand, Some(command)), k);
    var s2 := s1 + [AmountEntry(s.base.amount)];
    SnocAt(s1, AmountEntry(s.base.amount), k);
    var head := s2 + [(XDUKPT, s.base.dukpt)];
    SnocAt(s2, (XDUKPT, s.base.dukpt), k);
    EbtCredentialAt(head, s.base, k);
    var cred := EbtCredential(s.base);
    EbtSaleKeysApart(s, k, Occurs(acc, k));
    if cred.satisfied {
      EbtSaleTailAt(head + cred.entries, s, k);
    }
  }

  lemma BalanceOnce(acc: seq<Entry>, b: OperationBase, tokenAccepted: bool, command: string, k: Field)
    requires SessionOnly(acc, k)
    ensures Occurs(BalanceRequest(acc, b, tokenAccepted, command).after, k) <= 1
    ensures |BalanceRequest(acc, b, tokenAccepted, command).after| > |acc|
  {
    var s1 := acc + [(XCommand, Some(command))];
    SnocAt(acc, (XCommand, Some(command)), k);
    var head := s1 + [(XDUKPT, b.dukpt)];
    SnocAt(s1, (XDUKPT, b.dukpt), k);
    var cred := if tokenAccepted then EbtCredential(b) else CardOrMagStripe(b);
    if tokenAccepted {
      EbtCredentialAt(head, b, k);
    } else {
      CardOrMagStripeAt(head, b, k);
    }
    OptionalAt(head + cred.entries, XIP, b.ip, k);
  }

  lemma GiftCardStateOnce(acc: seq<Entry>, b: OperationBase, command: string, k: Field)
    requires SessionOnly(acc, k)
    ensures Occurs(GiftCardStateRequest(acc, b, command).after, k) <= 1
    ensures |GiftCardStateRequest(acc, b, command).after| > |acc|
  {
    var head := acc + [(XCommand, Some(command))];
    SnocAt(acc, (XCommand, Some(command)), k);
    CardCredentialAt(head, b, k);
    var cred := CardCredential(b);
    GiftCardStateKeysApart(b, k, Occurs(acc, k));
    OptionalAt(head + cred.entries, XIP, b.ip, k);
    var s1 := head + cred.entries + Optional(XIP, b.ip);
    CommonAt(s1, b, k);
    CustomAt(WithCommonFields(s1, b), b.customFields, k);
  }

  // ---------------------------------------------------------------------------------------------
  // The operations that build their request themselves

  lemma CCSaveOnce(acc: seq<Entry>, b: OperationBase, command: string, k: Field)
    requires SessionOnly(acc, k)
    ensures Occurs(CCSaveRequest(acc, b, command).after, k) <= 1
    ensures |CCSaveRequest(acc, b, command).after| > |acc|
  {
    var head := acc + [(XCommand, Some(command))];
    SnocAt(acc, (XCommand, Some(command)), k);
    var cred := CardCredential(b);
    CardCredentialAt(head, b, k);
    OptionalAt(head + cred.entries, XName, b.name, k);
    var s1 := head + cred.entries + Optional(XName, b.name);
    StreetZipIPAt(s1, b, k);
    CustomAt(WithStreetZipIP(s1, b), b.customFields, k);
    CCSaveKeysApart(b, k, Occurs(acc, k));
  }

  lemma CCSaveKeysApart(b: OperationBase, k: Field, before: nat)
    requires before <= Ind(GroupOf(k) == Session)
    ensures before + Ind(k == XCommand) + Ind(IsPayment(k)) + Ind(k == XName && !IsNullOrWhiteSpace(b.name))
      + Ind(StreetZipIPSent(b, k)) + Ind(CustomSent(|b.customFields|, k)) <= 1
  {
  }

  lemma RefundKeysApart(b: OperationBase, k: Field, before: nat)
    requires before <= Ind(GroupOf(k) == Session)
    ensures before + Ind(k == XCommand) + Ind(k == XAmount) + Ind(k == XRefNum)
      + Ind(k == XCustReceipt && b.custReceipt) + Ind(CustomSent(|b.customFields|, k)) <= 1
  {
  }

  /** `CCRefund`, `CheckVoid` and `CheckRefund`. */
  lemma RefundOnce(acc: seq<Entry>, b: OperationBase, r: NetString, command: string, receipt: bool, k: Field)
    requires SessionOnly(acc, k)
    ensures Occurs(RefundRequest(acc, b, r, command, receipt).after, k) <= 1
    ensures |RefundRequest(acc, b, r, command, receipt).after| > |acc|
  {
    var s1 := acc + [(XCommand, Some(command))];
    SnocAt(acc, (XCommand, Some(command)), k);
    SnocAt(s1, AmountEntry(b.amount), k);
    SnocAt(s1 + [AmountEntry(b.amount)], (XRefNum, r), k);
    var head := s1 + [AmountEntry(b.amount)] + [(XRefNum, r)];
    FlagAt(head, XCustReceipt, b.custReceipt, k);
    var flagged := if receipt then head + Flag(XCustReceipt, b.custReceipt) else head;
    CustomAt(flagged, b.customFields, k);
    RefundKeysApart(b, k, Occurs(acc, k));
  }

  /** `CCVoid`, `CCVoidRefund` and `CCVoidRelease`. */
  lemma VoidOnce(acc: seq<Entry>, b: OperationBase, r: NetString, command: string, k: Field)
    requires SessionOnly(acc, k)
    ensures Occurs(VoidRequest(acc, b, r, command).after, k) <= 1
    ensures |VoidRequest(acc, b, r, command).after| > |acc|
  {
    SnocAt(acc, (XCommand, Some(command)), k);
    SnocAt(acc + [(XCommand, Some(command))], (XRefNum, r), k);
    CustomAt(acc + [(XCommand, Some(command))] + [(XRefNum, r)], b.customFields, k);
    VoidKeysApart(b, k, Occurs(acc, k));
  }

  lemma VoidKeysApart(b: OperationBase, k: Field, before: nat)
    requires before <= Ind(GroupOf(k) == Session)
    ensures before + Ind(k == XCommand) + Ind(k == XRefNum) + Ind(CustomSent(|b.customFields|, k)) <= 1
  {
  }

  lemma CCCaptureKeysApart(s: Sale, k: Field, before: nat)
    requires before <= Ind(GroupOf(k) == Session)
    ensures before + Ind(k == XCommand) + Ind(k == XAmount) + Ind(k == XRefNum) + Ind(StreetZipIPSent(s.base, k))
      + Ind(k == XCustReceipt && s.base.custReceipt) + Ind(CommonSent(s.base, k)) + Ind(SpecialSent(s, k))
      + Ind(CustomSent(|s.base.customFields|, k)) <= 1
  {
  }

  lemma CCCaptureOnce(acc: seq<Entry>, s: Sale, r: NetString, command: string, k: Field)
    requires SessionOnly(acc, k)
    ensures Occurs(CCCaptureRequest(acc, s, r, command).after, k) <= 1
    ensures |CCCaptureRequest(acc, s, r, command).after| > |acc|
  {
    var s1 := acc + [(XCommand, Some(command))];
    SnocAt(acc, (XCommand, Some(command)), k);
    SnocAt(s1, AmountEntry(s.base.amount), k);
    SnocAt(s1 + [AmountEntry(s.base.amount)], (XRefNum, r), k);
    CardSaleTailAt(s1 + [AmountEntry(s.base.amount)] + [(XRefNum, r)], s, k);
    CCCaptureKeysApart(s, k, Occurs(acc, k));
  }

  /** Street, zip, name and IP address, each when set, then the custom fields. */
  lemma AddressNameIPAt(acc: seq<Entry>, b: OperationBase, k: Field)
    ensures Occurs(acc + Optional(XStreet, b.street) + Optional(XZip, b.zip) + Optional(XName, b.name)
      + Optional(XIP, b.ip) + CustomFields(b.customFields), k)
      == Occurs(acc, k) + Ind(StreetZipIPSent(b, k)) + Ind(k == XName && !IsNullOrWhiteSpace(b.name))
      + Ind(CustomSent(|b.customFields|, k))
  {
    var s1 := acc + Optional(XStreet, b.street);
    OptionalAt(acc, XStreet, b.street, k);
    var s2 := s1 + Optional(XZip, b.zip);
    OptionalAt(s1, XZip, b.zip, k);
    var s3 := s2 + Optional(XName, b.name);
    OptionalAt(s2, XName, b.name, k);
    OptionalAt(s3, XIP, b.ip, k);
    CustomAt(s3 + Optional(XIP, b.ip), b.customFields, k);
  }

  lemma CCAdjustKeysApart(b: OperationBase, k: Field, before: nat)
    requires before <= Ind(GroupOf(k) == Session)
    ensures before + Ind(k == XCommand) + Ind(k == XRefNum) + Ind(k == XAmount) + Ind(StreetZipIPSent(b, k))
      + Ind(k == XName && !IsNullOrWhiteSpace(b.name)) + Ind(CustomSent(|b.customFields|, k)) <= 1
  {
  }

  lemma CCAdjustOnce(acc: seq<Entry>, b: OperationBase, r: NetString, command: string, k: Field)
    requires SessionOnly(acc, k)
    ensures Occurs(CCAdjustRequest(acc, b, r, command).after, k) <= 1
    ensures |CCAdjustRequest(acc, b, r, command).after| > |acc|
  {
    var s1 := acc + [(XCommand, Some(command))];
    SnocAt(acc, (XCommand, Some(command)), k);
    SnocAt(s1, (XRefNum, r), k);
    SnocAt(s1 + [(XRefNum, r)], AmountEntry(b.amount), k);
    AddressNameIPAt(s1 + [(XRefNum, r)] + [AmountEntry(b.amount)], b, k);
    CCAdjustKeysApart(b, k, Occurs(acc, k));
  }

  lemma CCPostAuthKeysApart(s: Sale, k: Field, before: nat)
    requires before <= Ind(GroupOf(k) == Session)
    ensures before + Ind(k == XCommand) + Ind(k == XAuthCode) + Ind(StreetZipIPSent(s.base, k))
      + Ind(k == XName && !IsNullOrWhiteSpace(s.base.name)) + Ind(CustomSent(|s.base.customFields|, k))
      + Ind(CommonSent(s.base, k)) + Ind(SpecialSent(s, k)) <= 1
  {
  }

  lemma CCPostAuthOnce(acc: seq<Entry>, s: Sale, a: NetString, command: string, k: Field)
    requires SessionOnly(acc, k)
    ensures Occurs(CCPostAuthRequest(acc, s, a, command).after, k) <= 1
    ensures |CCPostAuthRequest(acc, s, a, command).after| > |acc|
  {
    var b := s.base;
    var s1 := acc + [(XCommand, Some(command))];
    SnocAt(acc, (XCommand, Some(command)), k);
    SnocAt(s1, (XAuthCode, a), k);
    var head := s1 + [(XAuthCode, a)];
    AddressNameIPAt(head, b, k);
    var tail := head + Optional(XStreet, b.street) + Optional(XZip, b.zip) + Optional(XName, b.name)
      + Optional(XIP, b.ip) + CustomFields(b.customFields);
    CommonAt(tail, b, k);
    SpecialAt(WithCommonFields(tail, b), s, k);
    CCPostAuthKeysApart(s, k, Occurs(acc, k));
  }

  lemma CheckSaveKeysApart(b: OperationBase, k: Field, before: nat)
    requires before <= Ind(GroupOf(k) == Session)
    ensures before + Ind(k == XCommand) + Ind(IsPayment(k)) + Ind(k == XName)
      + Ind(k == XIP && !IsNullOrWhiteSpace(b.ip)) + Ind(CustomSent(|b.customFields|, k)) <= 1
  {
  }

  lemma CheckSaveOnce(acc: seq<Entry>, b: OperationBase, command: string, k: Field)
    requires SessionOnly(acc, k)
    ensures Occurs(CheckSaveRequest(acc, b, command).after, k) <= 1
    ensures |CheckSaveRequest(acc, b, command).after| > |acc|
  {
    var head := acc + [(XCommand, Some(command))];
    SnocAt(acc, (XCommand, Some(command)), k);
    var cred := CheckCredential(b, false);
    CheckCredentialAt(head, b, false, k);
    SnocAt(head + cred.entries, (XName, b.name), k);
    OptionalAt(head + cred.entries + [(XName, b.name)], XIP, b.ip, k);
    CustomAt(head + cred.entries + [(XName, b.name)] + Optional(XIP, b.ip), b.customFields, k);
    CheckSaveKeysApart(b, k, Occurs(acc, k));
  }

  lemma EBTCBCashKeysApart(b: OperationBase, k: Field, before: nat)
    requires before <= Ind(GroupOf(k) == Session)
    ensures before + Ind(k == XCommand) + Ind(k == XAmount) + Ind(k == XDUKPT) + Ind(IsPayment(k))
      + Ind(k == XIP && !IsNullOrWhiteSpace(b.ip)) + Ind(k == XInvoice && !IsNullOrWhiteSpace(b.invoice))
      + Ind(k == XAllowDuplicate && b.allowDuplicate) + Ind(CustomSent(|b.customFields|, k)) <= 1
  {
  }

  lemma EBTCBCashOnce(acc: seq<Entry>, b: OperationBase, command: string, k: Field)
    requires SessionOnly(acc, k)
    ensures Occurs(EBTCBCashRequest(acc, b, command).after, k) <= 1
    ensures |EBTCBCashRequest(acc, b, command).after| > |acc|
  {
    var s1 := acc + [(XCommand, Some(command))];
    SnocAt(acc, (XCommand, Some(command)), k);
    SnocAt(s1, AmountEntry(b.amount), k);
    SnocAt(s1 + [AmountEntry(b.amount)], (XDUKPT, b.dukpt), k);
    var head := s1 + [AmountEntry(b.amount)] + [(XDUKPT, b.dukpt)];
    var cred := EbtCredential(b);
    EbtCredentialAt(head, b, k);
    var s2 := head + cred.entries + Optional(XIP, b.ip);
    OptionalAt(head + cred.entries, XIP, b.ip, k);
    OptionalAt(s2, XInvoice, b.invoice, k);
    FlagAt(s2 + Optional(XInvoice, b.invoice), XAllowDuplicate, b.allowDuplicate, k);
    CustomAt(s2 + Optional(XInvoice, b.invoice) + Flag(XAllowDuplicate, b.allowDuplicate), b.customFields, k);
    EBTCBCashKeysApart(b, k, Occurs(acc, k));
  }

  lemma EBTWSaleKeysApart(s: Sale, items: seq<WicItem>, k: Field, before: nat)
    requires before <= Ind(GroupOf(k) == Session)
    ensures before + Ind(k == XCommand) + Ind(k == XAmount) + Ind(k == XDUKPT) + Ind(IsPayment(k))
      + Ind(StreetZipIPSent(s.base, k)) + Ind(CustomSent(|s.base.customFields|, k)) + Ind(ItemSent(|items|, k))
      + Ind(CommonSent(s.base, k)) + Ind(SpecialSent(s, k)) <= 1
  {
  }

  lemma EBTWSaleOnce(acc: seq<Entry>, s: Sale, items: seq<WicItem>, command: string, k: Field)
    requires SessionOnly(acc, k)
    ensures Occurs(EBTWSaleRequest(acc, s, items, command).after, k) <= 1
    ensures |EBTWSaleRequest(acc, s, items, command).after| > |acc|
  {
    var b := s.base;
    var s1 := acc + [(XCommand, Some(command))];
    SnocAt(acc, (XCommand, Some(command)), k);
    SnocAt(s1, AmountEntry(b.amount), k);
    SnocAt(s1 + [AmountEntry(b.amount)], (XDUKPT, b.dukpt), k);
    var head := s1 + [AmountEntry(b.amount)] + [(XDUKPT, b.dukpt)];
    var cred := EbtCredential(b);
    EbtCredentialAt(head, b, k);
    StreetZipIPAt(head + cred.entries, b, k);
    CustomAt(WithStreetZipIP(head + cred.entries, b), b.customFields, k);
    var s2 := WithStreetZipIP(head + cred.entries, b) + CustomFields(b.customFields);
    ItemsAt(s2, items, k);
    CommonAt(WithItems(s2, items), b, k);
    SpecialAt(WithCommonFields(WithItems(s2, items), b), s, k);
    EBTWSaleKeysApart(s, items, k, Occurs(acc, k));
  }

  lemma EBTWVoidKeysApart(k: Field, before: nat)
    requires before <= Ind(GroupOf(k) == Session)
    ensures before + Ind(k == XCommand) + Ind(k == XDUKPT) + Ind(k == XRefNum) + Ind(IsPayment(k)) <= 1
  {
  }

  lemma EBTWVoidOnce(acc: seq<Entry>, b: OperationBase, r: NetString, command: string, k: Field)
    requires SessionOnly(acc, k)
    ensures Occurs(EBTWVoidRequest(acc, b, r, command).after, k) <= 1
    ensures |EBTWVoidRequest(acc, b, r, command).after| > |acc|
  {
    var s1 := acc + [(XCommand, Some(command))];
    SnocAt(acc, (XCommand, Some(command)), k);
    SnocAt(s1, (XDUKPT, b.dukpt), k);
    SnocAt(s1 + [(XDUKPT, b.dukpt)], (XRefNum, r), k);
    CardOrMagStripeAt(s1 + [(XDUKPT, b.dukpt)] + [(XRefNum, r)], b, k);
    EBTWVoidKeysApart(k, Occurs(acc, k));
  }

  // ---------------------------------------------------------------------------------------------
  // Every request builder: started from session pairs only, the pairs it leaves have distinct
  // keys, and there are more of them than there were

  /** Only session keys, each at most once, for every key. */
  ghost predicate SessionPairs(acc: seq<Entry>) {
    forall k :: SessionOnly(acc, k)
  }

  lemma CardSaleDistinct(acc: seq<Entry>, s: Sale, command: string, customFirst: bool)
    requires SessionPairs(acc)
    ensures DistinctKeys(CardSaleRequest(acc, s, command, customFirst).after)
    ensures |CardSaleRequest(acc, s, command, customFirst).after| > |acc|
  {
    forall k ensures Occurs(CardSaleRequest(acc, s, command, customFirst).after, k) <= 1 {
      CardSaleOnce(acc, s, command, customFirst, k);
    }
    CardSaleOnce(acc, s, command, customFirst, XCommand);
    OnceIsDistinct(CardSaleRequest(acc, s, command, customFirst).after);
  }

  lemma CheckSaleDistinct(acc: seq<Entry>, s: Sale, command: string)
    requires SessionPairs(acc)
    ensures DistinctKeys(CheckSaleRequest(acc, s, command).after)
    ensures |CheckSaleRequest(acc, s, command).after| > |acc|
  {
    forall k ensures Occurs(CheckSaleRequest(acc, s, command).after, k) <= 1 {
      CheckSaleOnce(acc, s, command, k);
    }
    CheckSaleOnce(acc, s, command, XCommand);
    OnceIsDistinct(CheckSaleRequest(acc, s, command).after);
  }

  lemma EbtSaleDistinct(acc: seq<Entry>, s: Sale, command: string)
    requires SessionPairs(acc)
    ensures DistinctKeys(EbtSaleRequest(acc, s, command).after)
    ensures |EbtSaleRequest(acc, s, command).after| > |acc|
  {
    forall k ensures Occurs(EbtSaleRequest(acc, s, command).after, k) <= 1 {
      EbtSaleOnce(acc, s, command, k);
    }
    EbtSaleOnce(acc, s, command, XCommand);
    OnceIsDistinct(EbtSaleRequest(acc, s, command).after);
  }

  lemma BalanceDistinct(acc: seq<Entry>, b: OperationBase, tokenAccepted: bool, command: string)
    requires SessionPairs(acc)
    ensures DistinctKeys(BalanceRequest(acc, b, tokenAccepted, command).after)
    ensures |BalanceRequest(acc, b, tokenAccepted, command).after| > |acc|
  {
    forall k ensures Occurs(BalanceRequest(acc, b, tokenAccepted, command).after, k) <= 1 {
      BalanceOnce(acc, b, tokenAccepted, command, k);
    }
    BalanceOnce(acc, b, tokenAccepted, command, XCommand);
    OnceIsDistinct(BalanceRequest(acc, b, tokenAccepted, command).after);
  }

  lemma GiftCardStateDistinct(acc: seq<Entry>, b: OperationBase, command: string)
    requires SessionPairs(acc)
    ensures DistinctKeys(GiftCardStateRequest(acc, b, command).after)
    ensures |GiftCardStateRequest(acc, b, command).after| > |acc|
  {
    forall k ensures Occurs(GiftCardStateRequest(acc, b, command).after, k) <= 1 {
      GiftCardStateOnce(acc, b, command, k);
    }
    GiftCardStateOnce(acc, b, command, XCommand);
    OnceIsDistinct(GiftCardStateRequest(acc, b, command).after);
  }

  lemma CCSaveDistinct(acc: seq<Entry>, b: OperationBase, command: string)
    requires SessionPairs(acc)
    ensures DistinctKeys(CCSaveRequest(acc, b, command).after)
    ensures |CCSaveRequest(acc, b, command).after| > |acc|
  {
    forall k ensures Occurs(CCSaveRequest(acc, b, command).after, k) <= 1 {
      CCSaveOnce(acc, b, command, k);
    }
    CCSaveOnce(acc, b, command, XCommand);
    OnceIsDistinct(CCSaveRequest(acc, b, command).after);
  }

  lemma RefundDistinct(acc: seq<Entry>, b: OperationBase, r: NetString, command: string, receipt: bool)
    requires SessionPairs(acc)
    ensures DistinctKeys(RefundRequest(acc, b, r, command, receipt).after)
    ensures |RefundRequest(acc, b, r, command, receipt).after| > |acc|
  {
    forall k ensures Occurs(RefundRequest(acc, b, r, command, receipt).after, k) <= 1 {
      RefundOnce(acc, b, r, command, receipt, k);
    }
    RefundOnce(acc, b, r, command, receipt, XCommand);
    OnceIsDistinct(RefundRequest(acc, b, r, command, receipt).after);
  }

  lemma VoidDistinct(acc: seq<Entry>, b: OperationBase, r: NetString, command: string)
    requires SessionPairs(acc)
    ensures DistinctKeys(VoidRequest(acc, b, r, command).after)
    ensures |VoidRequest(acc, b, r, command).after| > |acc|
  {
    forall k ensures Occurs(VoidRequest(acc, b, r, command).after, k) <= 1 {
      VoidOnce(acc, b, r, command, k);
    }
    VoidOnce(acc, b, r, command, XCommand);
    OnceIsDistinct(VoidRequest(acc, b, r, command).after);
  }

  lemma CCCaptureDistinct(acc: seq<Entry>, s: Sale, r: NetString, command: string)
    requires SessionPairs(acc)
    ensures DistinctKeys(CCCaptureRequest(acc, s, r, command).after)
    ensures |CCCaptureRequest(acc, s, r, command).after| > |acc|
  {
    forall k ensures Occurs(CCCaptureRequest(acc, s, r, command).after, k) <= 1 {
      CCCaptureOnce(acc, s, r, command, k);
    }
    CCCaptureOnce(acc, s, r, command, XCommand);
    OnceIsDistinct(CCCaptureRequest(acc, s, r, command).after);
  }

  lemma CCAdjustDistinct(acc: seq<Entry>, b: OperationBase, r: NetString, command: string)
    requires SessionPairs(acc)
    ensures DistinctKeys(CCAdjustRequest(acc, b, r, command).after)
    ensures |CCAdjustRequest(acc, b, r, command).after| > |acc|
  {
    forall k ensures Occurs(CCAdjustRequest(acc, b, r, command).after, k) <= 1 {
      CCAdjustOnce(acc, b, r, command, k);
    }
    CCAdjustOnce(acc, b, r, command, XCommand);
    OnceIsDistinct(CCAdjustRequest(acc, b, r, command).after);
  }

  lemma CCPostAuthDistinct(acc: seq<Entry>, s: Sale, a: NetString, command: string)
    requires SessionPairs(acc)
    ensures DistinctKeys(CCPostAuthRequest(acc, s, a, command).after)
    ensures |CCPostAuthRequest(acc, s, a, command).after| > |acc|
  {
    forall k ensures Occurs(CCPostAuthRequest(acc, s, a, command).after, k) <= 1 {
      CCPostAuthOnce(acc, s, a, command, k);
    }
    CCPostAuthOnce(acc, s, a, command, XCommand);
    OnceIsDistinct(CCPostAuthRequest(acc, s, a, command).after);
  }

  lemma CheckSaveDistinct(acc: seq<Entry>, b: OperationBase, command: string)
    requires SessionPairs(acc)
    ensures DistinctKeys(CheckSaveRequest(acc, b, command).after)
    ensures |CheckSaveRequest(acc, b, command).after| > |acc|
  {
    forall k ensures Occurs(CheckSaveRequest(acc, b, command).after, k) <= 1 {
      CheckSaveOnce(acc, b, command, k);
    }
    CheckSaveOnce(acc, b, command, XCommand);
    OnceIsDistinct(CheckSaveRequest(acc, b, command).after);
  }

  lemma EBTCBCashDistinct(acc: seq<Entry>, b: OperationBase, command: string)
    requires SessionPairs(acc)
    ensures DistinctKeys(EBTCBCashRequest(acc, b, command).after)
    ensures |EBTCBCashRequest(acc, b, command).after| > |acc|
  {
    forall k ensures Occurs(EBTCBCashRequest(acc, b, command).after, k) <= 1 {
      EBTCBCashOnce(acc, b, command, k);
    }
    EBTCBCashOnce(acc, b, command, XCommand);
    OnceIsDistinct(EBTCBCashRequest(acc, b, command).after);
  }

  lemma EBTWSaleDistinct(acc: seq<Entry>, s: Sale, items: seq<WicItem>, command: string)
    requires SessionPairs(acc)
    ensures DistinctKeys(EBTWSaleRequest(acc, s, items, command).after)
    ensures |EBTWSaleRequest(acc, s, items, command).after| > |acc|
  {
    forall k ensures Occurs(EBTWSaleRequest(acc, s, items, command).after, k) <= 1 {
      EBTWSaleOnce(acc, s, items, command, k);
    }
    EBTWSaleOnce(acc, s, items, command, XCommand);
    OnceIsDistinct(EBTWSaleRequest(acc, s, items, command).after);
  }

  lemma EBTWVoidDistinct(acc: seq<Entry>, b: OperationBase, r: NetString, command: string)
    requires SessionPairs(acc)
    ensures DistinctKeys(EBTWVoidRequest(acc, b, r, command).after)
    ensures |EBTWVoidRequest(acc, b, r, command).after| > |acc|
  {
    forall k ensures Occurs(EBTWVoidRequest(acc, b, r, command).after, k) <= 1 {
      EBTWVoidOnce(acc, b, r, command, k);
    }
    EBTWVoidOnce(acc, b, r, command, XCommand);
    OnceIsDistinct(EBTWVoidRequest(acc, b, r, command).after);
  }

}
