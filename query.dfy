/**
 * `URLSearchParams`: the query of a URL as its list of name/value pairs, in
 * order. A name may occur more than once.
 */
module Query {
  import opened Wrappers
  import opened Rows

  type Params = seq<(string, string)>

  /** `params.has(name)` */
  predicate Has(params: Params, name: string) {
    exists k :: 0 <= k < |params| && params[k].0 == name
  }

  /** `params.get(name)`: the value of the first pair called `name`, or null. */
  function Get(params: Params, name: string): (r: Option<string>)
    ensures r.None? <==> !Has(params, name)
    ensures r.Some? ==> (name, r.value) in params
  {
    if params == [] then None
    else if params[0].0 == name then Some(params[0].1)
    else
      assert forall k :: 1 <= k < |params| ==> params[k] == params[1..][k - 1];
      Get(params[1..], name)
  }

  /** The first pair wins, whatever follows it. */
  lemma {:induction false} GetFirst(before: Params, name: string, value: string, after: Params)
    requires !Has(before, name)
    ensures Get(before + [(name, value)] + after, name) == Some(value)
    decreases |before|
  {
    if before == [] {
      assert (before + [(name, value)] + after)[0] == (name, value);
    } else {
      assert (before + [(name, value)] + after)[1..] == before[1..] + [(name, value)] + after;
      assert !Has(before[1..], name) by {
        forall k | 0 <= k < |before[1..]| ensures before[1..][k].0 != name {
          assert before[1..][k] == before[k + 1];
        }
      }
      GetFirst(before[1..], name, value, after);
    }
  }

  function NamedOtherThan(name: string): ((string, string)) -> bool {
    (p: (string, string)) => p.0 != name
  }

  /** `params.delete(name)`: every pair called `name` goes; the others stay, in order. */
  function Delete(params: Params, name: string): (r: Params)
    ensures !Has(r, name)
    ensures forall p :: multiset(r)[p] == if p.0 == name then 0 else multiset(params)[p]
  {
    FilterCounts(params, NamedOtherThan(name));
    Filter(params, NamedOtherThan(name))
  }

  /** Deleting a name that is absent changes nothing. */
  lemma DeleteAbsent(params: Params, name: string)
    requires !Has(params, name)
    ensures Delete(params, name) == params
  {
    FilterAll(params, NamedOtherThan(name));
  }

  /** Deleting leaves the values of the other names as they were. */
  lemma {:induction false} DeleteKeepsOthers(params: Params, name: string, other: string)
    requires other != name
    ensures Get(Delete(params, name), other) == Get(params, other)
    decreases |params|
  {
    if params != [] {
      DeleteKeepsOthers(params[1..], name, other);
    }
  }
}
