/**
 * A NameValueCollection, the request container of the legacy `Cardknox` class and of
 * `RecurringClient`. Unlike a Dictionary it never throws on a repeated key: Add appends the value
 * to the list the key already has. A null value adds the key (if new) with nothing under it.
 */
module NameValues {
  import opened Wrappers
  import opened Text
  import opened Fields
  import opened Operations

  /** The keys in the order they were first added, each with its non-null values in order. */
  type NameValueCollection = seq<(Field, seq<string>)>

  /** What one Add stores of a value: nothing for null. */
  function Listed(v: NetString): seq<string> {
    if v.Some? then [v.value] else []
  }

  /** Each key has one entry: `AllKeys.Length` is then the number of entries. */
  predicate DistinctNvKeys(c: NameValueCollection) {
    forall i, j | 0 <= i < j < |c| :: c[i].0 != c[j].0
  }

  /** `c` with `v` appended to the values of the existing key `k`. */
  function Appended(c: NameValueCollection, k: Field, v: NetString): (r: NameValueCollection)
    ensures |r| == |c|
  {
    seq(|c|, i requires 0 <= i < |c| => if c[i].0 == k then (k, c[i].1 + Listed(v)) else c[i])
  }

  /** NameValueCollection.Add. */
  function NvAdd(c: NameValueCollection, k: Field, v: NetString): NameValueCollection {
    if k in Keys(c) then Appended(c, k, v) else c + [(k, Listed(v))]
  }

  /** NameValueCollection.Add of a member that is sent only when it is not null or white space. */
  function NvOptional(c: NameValueCollection, k: Field, v: NetString): NameValueCollection {
    if !IsNullOrWhiteSpace(v) then NvAdd(c, k, v) else c
  }

  /**
   * Adding under a key already present creates no second entry and throws nothing: the keys stay
   * as they were and only that key's list grows by the (non-null) value.
   */
  lemma NvAddExisting(c: NameValueCollection, k: Field, v: NetString)
    requires k in Keys(c)
    ensures var r := NvAdd(c, k, v);
      Keys(r) == Keys(c) &&
      forall i | 0 <= i < |c| :: r[i].1 == c[i].1 + (if c[i].0 == k then Listed(v) else [])
  {
    var r := NvAdd(c, k, v);
    assert Keys(r) == Keys(c) by {
      forall i | 0 <= i < |c| ensures Keys(r)[i] == Keys(c)[i] {
      }
    }
  }

  /** No entry of `c` has a key in `ks`. */
  predicate Lacks(c: NameValueCollection, ks: set<Field>) {
    forall i | 0 <= i < |c| :: c[i].0 !in ks
  }

  /** A new key gets an entry of its own, at the end. */
  lemma NvAddNew(c: NameValueCollection, k: Field, v: NetString)
    requires Lacks(c, {k})
    ensures NvAdd(c, k, v) == c + [(k, Listed(v))]
  {
    forall i | 0 <= i < |c| ensures Keys(c)[i] != k {
      assert c[i].0 !in {k};
    }
  }

  /** Add keeps one entry per key. */
  lemma NvAddKeepsDistinct(c: NameValueCollection, k: Field, v: NetString)
    requires DistinctNvKeys(c)
    ensures DistinctNvKeys(NvAdd(c, k, v))
  {
    if k in Keys(c) {
      NvAddExisting(c, k, v);
      var r := NvAdd(c, k, v);
      forall i, j | 0 <= i < j < |r| ensures r[i].0 != r[j].0 {
        assert r[i].0 == Keys(r)[i] == Keys(c)[i] == c[i].0;
        assert r[j].0 == Keys(r)[j] == Keys(c)[j] == c[j].0;
      }
    } else {
      forall i | 0 <= i < |c| ensures c[i].0 != k {
        assert Keys(c)[i] == c[i].0;
      }
    }
  }

  /** The four session keys, added to an empty collection in the order every client uses. */
  function NvSeed(key: NetString, version: NetString, software: NetString, softwareVersion: NetString)
    : NameValueCollection
  {
    NvAdd(NvAdd(NvAdd(NvAdd([], XKey, key), XVersion, version), XSoftwareName, software),
          XSoftwareVersion, softwareVersion)
  }

  /** The seed holds exactly the four session keys, each once, with the given values. */
  lemma NvSeedEntries(key: NetString, version: NetString, software: NetString, softwareVersion: NetString)
    ensures NvSeed(key, version, software, softwareVersion) ==
      [(XKey, Listed(key)), (XVersion, Listed(version)), (XSoftwareName, Listed(software)),
       (XSoftwareVersion, Listed(softwareVersion))]
  {
    var c1: NameValueCollection := [(XKey, Listed(key))];
    var c2 := c1 + [(XVersion, Listed(version))];
    var c3 := c2 + [(XSoftwareName, Listed(software))];
    NvAddNew([], XKey, key);
    NvAddNew(c1, XVersion, version);
    NvAddNew(c2, XSoftwareName, software);
    NvAddNew(c3, XSoftwareVersion, softwareVersion);
  }

  /** What a call ends in: the collection it posted, or the exception it threw. */
  datatype NvOutcome = Posted(sent: NameValueCollection) | Threw(failure: Failure)
}
