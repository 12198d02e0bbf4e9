/**
 * `RecurringClient`: a client of the recurring endpoint over a NameValueCollection, seeded with the
 * session keys, with one operation, `CustomerAdd`, that sends only its command.
 */
module RecurringClientModel {
  import opened Wrappers
  import opened Text
  import opened Fields
  import opened Operations
  import opened NameValues

  /** The session settings of a recurring client. */
  datatype RecurringRequest = RecurringRequest(
    key: NetString, software: NetString, softwareVersion: NetString, cardknoxVersion: NetString)

  const DefaultRecurringVersion: string := "1.0.0"

  /** The command `CustomerAdd` sends. */
  const CustomerAddCommand: string := "customer:add"

  /** A request as its constructor builds it: the endpoint version defaults to 1.0.0 when none is given. */
  function NewRecurringRequest(key: NetString, software: NetString, softwareVersion: NetString,
                               cardknoxVer: NetString): (r: RecurringRequest)
    ensures r.key == key && r.software == software && r.softwareVersion == softwareVersion
    ensures cardknoxVer.None? ==> r.cardknoxVersion == Some(DefaultRecurringVersion)
    ensures cardknoxVer.Some? ==> r.cardknoxVersion == cardknoxVer
  {
    RecurringRequest(key, software, softwareVersion,
                     if cardknoxVer.Some? then cardknoxVer else Some(DefaultRecurringVersion))
  }

  /** The session keys a recurring client starts with. */
  function RecurringSeed(r: RecurringRequest): NameValueCollection {
    NvSeed(r.key, r.cardknoxVersion, r.software, r.softwareVersion)
  }

  /** What `CustomerAdd` posts: the session keys and the command, nothing of the customer record. */
  function CustomerAddRequest(r: RecurringRequest): NameValueCollection {
    NvAdd(RecurringSeed(r), XCommand, Some(CustomerAddCommand))
  }

  /**
   * The posted collection holds the four session keys with their values and then the command, each
   * key once; with five keys it is past the reuse guard's bound of four, so the next call on the
   * same client throws unless forced.
   */
  lemma CustomerAddEntries(r: RecurringRequest)
    ensures CustomerAddRequest(r) ==
      [(XKey, Listed(r.key)), (XVersion, Listed(r.cardknoxVersion)), (XSoftwareName, Listed(r.software)),
       (XSoftwareVersion, Listed(r.softwareVersion)), (XCommand, [CustomerAddCommand])]
    ensures Keys(CustomerAddRequest(r)) == [XKey, XVersion, XSoftwareName, XSoftwareVersion, XCommand]
    ensures DistinctNvKeys(CustomerAddRequest(r)) && |CustomerAddRequest(r)| > 4
  {
    var seed := RecurringSeed(r);
    NvSeedEntries(r.key, r.cardknoxVersion, r.software, r.softwareVersion);
    NvAddNew(seed, XCommand, Some(CustomerAddCommand));
    var c := CustomerAddRequest(r);
    assert Keys(c) == [XKey, XVersion, XSoftwareName, XSoftwareVersion, XCommand] by {
      assert Keys(c)[4] == c[4].0;
    }
  }

  class RecurringClient {
    const request: RecurringRequest
    var values: NameValueCollection

    /** One entry per key, and at most four only while the collection is the untouched seed. */
    ghost predicate Valid()
      reads this
    {
      DistinctNvKeys(values) && (|values| <= 4 ==> values == RecurringSeed(request))
    }

    /** The collection initializer adds the four session keys in order. */
    constructor (request: RecurringRequest)
      ensures Valid()
      ensures this.request == request && values == RecurringSeed(request)
    {
      this.request := request;
      values := [];
      new;
      Add(XKey, request.key);
      Add(XVersion, request.cardknoxVersion);
      Add(XSoftwareName, request.software);
      Add(XSoftwareVersion, request.softwareVersion);
      NvSeedEntries(request.key, request.cardknoxVersion, request.software, request.softwareVersion);
    }

    /** NameValueCollection.Add; a collection with one entry per key keeps that shape. */
    method Add(k: Field, v: NetString)
      modifies this
      ensures values == NvAdd(old(values), k, v)
      ensures DistinctNvKeys(old(values)) ==> DistinctNvKeys(values)
    {
      if DistinctNvKeys(values) {
        NvAddKeepsDistinct(values, k, v);
      }
      values := NvAdd(values, k, v);
    }

    /**
     * CustomerAdd: a used collection (more than four keys) is refused unless `force`, which removes
     * every key and adds the session keys again; then the command is added and the request posted.
     * The customer record's own members are not sent. Logging, the events and the HTTP round trip
     * are not modelled here.
     */
    method CustomerAdd(force: bool) returns (o: NvOutcome)
      requires Valid()
      modifies this
      ensures Valid()
      ensures |old(values)| > 4 && !force ==> o == Threw(NewInstanceRequired) && values == old(values)
      ensures |old(values)| <= 4 || force ==> values == CustomerAddRequest(request) && o == Posted(values)
    {
      if |values| > 4 && !force {
        return Threw(NewInstanceRequired);
      } else if force {
        values := RemoveEach(values);
        Add(XKey, request.key);
        Add(XVersion, request.cardknoxVersion);
        Add(XSoftwareName, request.software);
        Add(XSoftwareVersion, request.softwareVersion);
      }
      assert values == RecurringSeed(request);
      Add(XCommand, Some(CustomerAddCommand));
      CustomerAddEntries(request);
      return Posted(values);
    }
  }
}
