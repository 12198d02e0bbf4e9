/**
 * The legacy `Cardknox` class: one client over a NameValueCollection, seeded with the session
 * keys, with a single operation, `CCSale`, that validates nothing and never fails once past the
 * reuse guard.
 */
module LegacyCardknox {
  import opened Wrappers
  import opened Text
  import opened Fields
  import opened Operations
  import opened NameValues
  import Client = CardknoxClientModel

  /** The session keys a legacy client starts with. */
  function LegacySeed(r: Client.CardknoxRequest): NameValueCollection {
    NvSeed(r.key, r.cardknoxVersion, r.software, r.softwareVersion)
  }

  /** The one payment group a legacy sale sends: card number (with CVV and expiry), else token, else stripe. */
  function LegacyCredential(c: NameValueCollection, s: OperationBase): NameValueCollection {
    if !IsNullOrWhiteSpace(s.cardNum) then NvAdd(NvAdd(NvAdd(c, XCardNum, s.cardNum), XCVV, s.cvv), XExp, s.exp)
    else if !IsNullOrWhiteSpace(s.token) then NvAdd(c, XToken, s.token)
    else if !IsNullOrWhiteSpace(s.magStripe) then NvAdd(c, XMagStripe, s.magStripe)
    else c
  }

  /**
   * What `CCSale` adds to `c`, Add by Add: the command, the amount in the `N2` format (a null
   * amount formats as ""), the payment group, then the four optional members.
   */
  function LegacySale(c: NameValueCollection, s: OperationBase, operation: NetString): NameValueCollection {
    var required := NvAdd(NvAdd(c, XCommand, operation), XAmount, Some(FormatNullableN2(s.amount)));
    var paid := LegacyCredential(required, s);
    NvOptional(NvOptional(NvOptional(NvOptional(paid, XStreet, s.street), XZip, s.zip), XIP, s.ip),
               XInvoice, s.invoice)
  }

  /** The payment group as entries, each key new. */
  function CredentialEntries(s: OperationBase): NameValueCollection {
    if !IsNullOrWhiteSpace(s.cardNum) then [(XCardNum, Listed(s.cardNum)), (XCVV, Listed(s.cvv)), (XExp, Listed(s.exp))]
    else if !IsNullOrWhiteSpace(s.token) then [(XToken, Listed(s.token))]
    else if !IsNullOrWhiteSpace(s.magStripe) then [(XMagStripe, Listed(s.magStripe))]
    else []
  }

  /** An optional member as entries. */
  function OptionalEntry(k: Field, v: NetString): NameValueCollection {
    if !IsNullOrWhiteSpace(v) then [(k, Listed(v))] else []
  }

  /** Everything a legacy sale sends after the session keys, in order. */
  function SaleEntries(s: OperationBase, operation: NetString): NameValueCollection {
    [(XCommand, Listed(operation)), (XAmount, [FormatNullableN2(s.amount)])] + CredentialEntries(s) +
    OptionalEntry(XStreet, s.street) + OptionalEntry(XZip, s.zip) + OptionalEntry(XIP, s.ip) +
    OptionalEntry(XInvoice, s.invoice)
  }

  /** An optional Add of a key the collection lacks appends its entry. */
  lemma NvOptionalNew(c: NameValueCollection, k: Field, v: NetString)
    requires Lacks(c, {k})
    ensures NvOptional(c, k, v) == c + OptionalEntry(k, v)
  {
    if !IsNullOrWhiteSpace(v) {
      NvAddNew(c, k, v);
    }
  }

  const CredentialKeys: set<Field> := {XCardNum, XCVV, XExp, XToken, XMagStripe}
  const OptionalKeys: set<Field> := {XStreet, XZip, XIP, XInvoice}

  /** On a collection without payment keys, the payment group appends its entries. */
  lemma CredentialNew(c: NameValueCollection, s: OperationBase)
    requires Lacks(c, CredentialKeys)
    ensures LegacyCredential(c, s) == c + CredentialEntries(s)
  {
    if !IsNullOrWhiteSpace(s.cardNum) {
      var c1 := c + [(XCardNum, Listed(s.cardNum))];
      var c2 := c1 + [(XCVV, Listed(s.cvv))];
      NvAddNew(c, XCardNum, s.cardNum);
      NvAddNew(c1, XCVV, s.cvv);
      NvAddNew(c2, XExp, s.exp);
    } else if !IsNullOrWhiteSpace(s.token) {
      NvAddNew(c, XToken, s.token);
    } else if !IsNullOrWhiteSpace(s.magStripe) {
      NvAddNew(c, XMagStripe, s.magStripe);
    }
  }

  /** On a collection without the optional keys, the four optional Adds append their entries. */
  lemma OptionalsNew(c: NameValueCollection, s: OperationBase)
    requires Lacks(c, OptionalKeys)
    ensures NvOptional(NvOptional(NvOptional(NvOptional(c, XStreet, s.street), XZip, s.zip), XIP, s.ip),
                       XInvoice, s.invoice)
         == c + OptionalEntry(XStreet, s.street) + OptionalEntry(XZip, s.zip) + OptionalEntry(XIP, s.ip) +
            OptionalEntry(XInvoice, s.invoice)
  {
    var c1 := c + OptionalEntry(XStreet, s.street);
    var c2 := c1 + OptionalEntry(XZip, s.zip);
    var c3 := c2 + OptionalEntry(XIP, s.ip);
    NvOptionalNew(c, XStreet, s.street);
    NvOptionalNew(c1, XZip, s.zip);
    NvOptionalNew(c2, XIP, s.ip);
    NvOptionalNew(c3, XInvoice, s.invoice);
  }

  /**
   * From the session keys, every key a legacy sale adds is new, so the collection it posts is the
   * seed followed by the sale's entries, one per key.
   */
  lemma LegacySaleFromSeed(r: Client.CardknoxRequest, s: OperationBase, operation: NetString)
    ensures LegacySale(LegacySeed(r), s, operation) == LegacySeed(r) + SaleEntries(s, operation)
  {
    var seed := LegacySeed(r);
    NvSeedEntries(r.key, r.cardknoxVersion, r.software, r.softwareVersion);
    var c2 := RequiredNew(seed, s, operation);
    CredentialNew(c2, s);
    var c3 := c2 + CredentialEntries(s);
    CredentialLacksOptionals(s);
    assert Lacks(c3, OptionalKeys);
    OptionalsNew(c3, s);
    Regroup(seed, [(XCommand, Listed(operation)), (XAmount, [FormatNullableN2(s.amount)])], CredentialEntries(s),
            OptionalEntry(XStreet, s.street), OptionalEntry(XZip, s.zip), OptionalEntry(XIP, s.ip),
            OptionalEntry(XInvoice, s.invoice));
  }

  /**
   * A posted sale holds the four session keys first, then at least the command and the amount:
   * more than four keys, so the next call on the same client throws unless forced.
   */
  lemma LegacySaleUsesClient(r: Client.CardknoxRequest, s: OperationBase, operation: NetString)
    ensures var c := LegacySeed(r) + SaleEntries(s, operation);
      |c| >= 6 && c[..4] == LegacySeed(r) &&
      c[4] == (XCommand, Listed(operation)) && c[5] == (XAmount, [FormatNullableN2(s.amount)])
  {
    NvSeedEntries(r.key, r.cardknoxVersion, r.software, r.softwareVersion);
  }

  lemma Regroup<T>(a: seq<T>, b: seq<T>, c: seq<T>, d: seq<T>, e: seq<T>, f: seq<T>, g: seq<T>)
    ensures a + (b + c + d + e + f + g) == a + b + c + d + e + f + g
  {
  }

  /** The command and the amount, added to the seed, are appended; no payment or optional key is there yet. */
  lemma RequiredNew(seed: NameValueCollection, s: OperationBase, operation: NetString)
    returns (c2: NameValueCollection)
    requires Lacks(seed, {XCommand, XAmount} + CredentialKeys + OptionalKeys)
    ensures c2 == NvAdd(NvAdd(seed, XCommand, operation), XAmount, Some(FormatNullableN2(s.amount)))
    ensures c2 == seed + [(XCommand, Listed(operation)), (XAmount, [FormatNullableN2(s.amount)])]
    ensures Lacks(c2, CredentialKeys + OptionalKeys)
  {
    var c1 := seed + [(XCommand, Listed(operation))];
    c2 := c1 + [(XAmount, Listed(Some(FormatNullableN2(s.amount))))];
    NvAddNew(seed, XCommand, operation);
    NvAddNew(c1, XAmount, Some(FormatNullableN2(s.amount)));
  }

  lemma CredentialLacksOptionals(s: OperationBase)
    ensures Lacks(CredentialEntries(s), OptionalKeys)
  {
  }

  /** The payment keys a legacy sale sends: the first group that has its lead member set. */
  function CredentialSent(s: OperationBase): set<Field> {
    if !IsNullOrWhiteSpace(s.cardNum) then {XCardNum, XCVV, XExp}
    else if !IsNullOrWhiteSpace(s.token) then {XToken}
    else if !IsNullOrWhiteSpace(s.magStripe) then {XMagStripe}
    else {}
  }

  /** `{k}` when the optional member is not blank, else nothing. */
  function OptionalSent(k: Field, v: NetString): set<Field> {
    if !IsNullOrWhiteSpace(v) then {k} else {}
  }

  /** Which keys a legacy sale sends besides the session keys. */
  function LegacyKeysSent(s: OperationBase): set<Field> {
    {XCommand, XAmount} + CredentialSent(s) + OptionalSent(XStreet, s.street) + OptionalSent(XZip, s.zip) +
    OptionalSent(XIP, s.ip) + OptionalSent(XInvoice, s.invoice)
  }

  /**
   * The keys a legacy sale sends: always the command and the amount, whatever the amount (a null
   * amount is sent as ""); the card number with its CVV and expiry, even blank ones, when the card
   * number is set; the token only without a card number and the stripe only without either; the
   * optional members only when they are not blank; no other key. Having no payment data is not
   * an error.
   */
  lemma SaleEntriesKeys(s: OperationBase, operation: NetString)
    ensures var e := SaleEntries(s, operation);
      e[0] == (XCommand, Listed(operation)) && e[1] == (XAmount, [FormatNullableN2(s.amount)]) &&
      forall k :: k in Keys(e) <==> k in LegacyKeysSent(s)
  {
    var head: NameValueCollection := [(XCommand, Listed(operation)), (XAmount, [FormatNullableN2(s.amount)])];
    var cred := CredentialEntries(s);
    var st, zp, ip, inv :=
      OptionalEntry(XStreet, s.street), OptionalEntry(XZip, s.zip), OptionalEntry(XIP, s.ip),
      OptionalEntry(XInvoice, s.invoice);
    var ks := SaleKeys(head, cred, st, zp, ip, inv);
    CredentialKeysSent(s);
    OptionalKey(XStreet, s.street);
    OptionalKey(XZip, s.zip);
    OptionalKey(XIP, s.ip);
    OptionalKey(XInvoice, s.invoice);
    assert Keys(head) == [XCommand, XAmount];
    forall k ensures k in Keys(SaleEntries(s, operation)) <==> k in LegacyKeysSent(s) {
      assert k in ks <==>
        (k in Keys(head) || k in Keys(cred) || k in Keys(st) || k in Keys(zp) || k in Keys(ip) || k in Keys(inv));
    }
  }

  /** The keys of the concatenated pieces are the pieces' keys, concatenated. */
  lemma SaleKeys(a: NameValueCollection, b: NameValueCollection, c: NameValueCollection,
                 d: NameValueCollection, e: NameValueCollection, f: NameValueCollection)
    returns (ks: seq<Field>)
    ensures ks == Keys(a + b + c + d + e + f)
    ensures ks == Keys(a) + Keys(b) + Keys(c) + Keys(d) + Keys(e) + Keys(f)
  {
    KeysAppend(a, b);
    KeysAppend(a + b, c);
    KeysAppend(a + b + c, d);
    KeysAppend(a + b + c + d, e);
    KeysAppend(a + b + c + d + e, f);
    ks := Keys(a + b + c + d + e + f);
  }

  /** The payment group's keys are those of `CredentialSent`. */
  lemma CredentialKeysSent(s: OperationBase)
    ensures forall k :: k in Keys(CredentialEntries(s)) <==> k in CredentialSent(s)
  {
    var ks := Keys(CredentialEntries(s));
    if !IsNullOrWhiteSpace(s.cardNum) {
      assert ks == [XCardNum, XCVV, XExp];
    } else if !IsNullOrWhiteSpace(s.token) {
      assert ks == [XToken];
    } else if !IsNullOrWhiteSpace(s.magStripe) {
      assert ks == [XMagStripe];
    } else {
      assert ks == [];
    }
  }

  /** An optional member's only key is its own, present when the value is not blank. */
  lemma OptionalKey(k0: Field, v: NetString)
    ensures forall k :: k in Keys(OptionalEntry(k0, v)) <==> k in OptionalSent(k0, v)
  {
    if !IsNullOrWhiteSpace(v) {
      assert Keys(OptionalEntry(k0, v)) == [k0];
    } else {
      assert Keys(OptionalEntry(k0, v)) == [];
    }
  }

  class Cardknox {
    const request: Client.CardknoxRequest
    var values: NameValueCollection

    /** One entry per key, and at most four only while the collection is the untouched seed. */
    ghost predicate Valid()
      reads this
    {
      DistinctNvKeys(values) && (|values| <= 4 ==> values == LegacySeed(request))
    }

    constructor (request: Client.CardknoxRequest)
      ensures Valid()
      ensures this.request == request && values == LegacySeed(request)
    {
      this.request := request;
      values := [];
      new;
      Add(XKey, request.key);
      Add(XVersion, request.cardknoxVersion);
      Add(XSoftwareName, request.software);
      Add(XSoftwareVersion, request.softwareVersion);
      NvSeedEntries(request.key, request.cardknoxVersion, request.software, request.softwareVersion);
    }

    /** NameValueCollection.Add; a collection with one entry per key keeps that shape. */
    method Add(k: Field, v: NetString)
      modifies this
      ensures values == NvAdd(old(values), k, v)
      ensures DistinctNvKeys(old(values)) ==> DistinctNvKeys(values)
    {
      if DistinctNvKeys(values) {
        NvAddKeepsDistinct(values, k, v);
      }
      values := NvAdd(values, k, v);
    }

    /** An Add guarded by IsNullOrWhiteSpace. */
    method AddOptional(k: Field, v: NetString)
      modifies this
      ensures values == NvOptional(old(values), k, v)
      ensures DistinctNvKeys(old(values)) ==> DistinctNvKeys(values)
    {
      if !IsNullOrWhiteSpace(v) {
        Add(k, v);
      }
    }

    /**
     * CCSale: a used collection (more than four keys) is refused unless `force`, which removes
     * every key and adds the session keys again; then the sale's members are added. Nothing else
     * can fail before the request is posted. The HTTP round trip is not modelled.
     */
    method CCSale(s: OperationBase, operation: NetString, force: bool) returns (o: NvOutcome)
      requires Valid()
      modifies this
      ensures Valid()
      ensures |old(values)| > 4 && !force ==> o == Threw(NewInstanceRequired) && values == old(values)
      ensures |old(values)| <= 4 || force ==>
        values == LegacySeed(request) + SaleEntries(s, operation) && o == Posted(values)
    {
      if |values| > 4 && !force {
        return Threw(NewInstanceRequired);
      } else if force {
        values := RemoveEach(values);
        Add(XKey, request.key);
        Add(XVersion, request.cardknoxVersion);
        Add(XSoftwareName, request.software);
        Add(XSoftwareVersion, request.softwareVersion);
      }
      assert values == LegacySeed(request);
      NvSeedEntries(request.key, request.cardknoxVersion, request.software, request.softwareVersion);
      Add(XCommand, operation);
      Add(XAmount, Some(FormatNullableN2(s.amount)));
      if !IsNullOrWhiteSpace(s.cardNum) {
        Add(XCardNum, s.cardNum);
        Add(XCVV, s.cvv);
        Add(XExp, s.exp);
      } else if !IsNullOrWhiteSpace(s.token) {
        Add(XToken, s.token);
      } else if !IsNullOrWhiteSpace(s.magStripe) {
        Add(XMagStripe, s.magStripe);
      }
      AddOptional(XStreet, s.street);
      AddOptional(XZip, s.zip);
      AddOptional(XIP, s.ip);
      AddOptional(XInvoice, s.invoice);
      assert values == LegacySale(LegacySeed(request), s, operation);
      LegacySaleFromSeed(request, s, operation);
      return Posted(values);
    }
  }
}
