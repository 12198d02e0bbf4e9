/**
 * `CardknoxEventArgs`: what a request-started or request-completed handler receives, a copy of
 * the request or response pairs without the sensitive ones.
 */
module Events {
  import opened Wrappers
  import opened Text
  import opened Log

  class CardknoxEventArgs {
    /** The private dictionary the constructor fills; `Results` is a read-only view of it. */
    var results: Pairs

    /**
     * Each pair of `values` is visited in order and added unless its key is in `NoInclude`. The
     * keys added are keys of one dictionary, so the Add never meets a duplicate.
     */
    constructor (values: Pairs)
      requires DistinctNames(values)
      ensures results == Filtered(values)
      ensures DistinctNames(results)
    {
      results := [];
      new;
      for i := 0 to |values|
        invariant results == Filtered(values[..i])
      {
        assert values[..i + 1][..i] == values[..i];
        if !Sensitive(values[i].0) {
          results := results + [values[i]];
        }
      }
      assert values[..|values|] == values;
      FilteredDistinct(values);
    }

    /** The pairs a handler sees. */
    function Results(): Pairs
      reads this
    {
      results
    }
  }

  /**
   * What a handler sees of `values`: no sensitive key, every other pair unchanged, and one pair
   * fewer per sensitive key present.
   */
  lemma ResultsFilter(values: Pairs)
    requires DistinctNames(values)
    ensures forall p | p in Filtered(values) :: !Sensitive(p.0) && p in values
    ensures forall i | 0 <= i < |values| && !Sensitive(values[i].0) :: values[i] in Filtered(values)
    ensures |Filtered(values)| == |values| - |SensitivePresent(values)|
  {
    FilteredExcludes(values);
    FilteredKeeps(values);
    FilteredSize(values);
  }

  /** The response filter is the same one: a token the gateway returns is not passed on. */
  lemma ResponseTokenDropped(values: Pairs, token: NetString)
    requires ("xToken", token) in values
    ensures ("xToken", token) !in Filtered(values)
    ensures forall p | p in Filtered(values) :: p.0 != "xToken"
  {
    FilteredExcludes(values);
  }
}
