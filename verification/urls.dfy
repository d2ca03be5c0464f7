/** URLs as the handlers build them: a base (scheme, host and path) and an
    ordered list of query parameters, edited with the operations of the
    WHATWG `URLSearchParams` interface. Percent-encoding is not modelled. */
module Urls {
  import opened Wrappers

  type Param = (string, string)

  datatype Url = Url(base: string, params: seq<Param>)

  /** The names that occur in a parameter list. */
  function Names(ps: seq<Param>): set<string>
  {
    if |ps| == 0 then {} else {ps[0].0} + Names(ps[1..])
  }

  /** `URLSearchParams.get`: the value of the first parameter named `k`. */
  function Get(ps: seq<Param>, k: string): (r: Option<string>)
    ensures r.Some? <==> k in Names(ps)
  {
    if |ps| == 0 then None
    else if ps[0].0 == k then Some(ps[0].1)
    else Get(ps[1..], k)
  }

  /** `get` reads the first parameter with the name: when position `i` is the
      first to carry `k`, its value is what `get` returns. */
  lemma {:induction false} GetIsFirst(ps: seq<Param>, k: string, i: nat)
    requires i < |ps| && ps[i].0 == k
    requires forall j :: 0 <= j < i ==> ps[j].0 != k
    ensures Get(ps, k) == Some(ps[i].1)
    decreases i
  {
    if i > 0 {
      GetIsFirst(ps[1..], k, i - 1);
    }
  }

  /** The parameters not named `k`, in their original order. */
  function Without(ps: seq<Param>, k: string): (r: seq<Param>)
    ensures Names(r) == Names(ps) - {k}
    ensures forall j :: j != k ==> Get(r, j) == Get(ps, j)
  {
    if |ps| == 0 then []
    else if ps[0].0 == k then Without(ps[1..], k)
    else
      var rest := Without(ps[1..], k);
      assert ([ps[0]] + rest)[1..] == rest;
      [ps[0]] + rest
  }

  /** `URLSearchParams.set`: the first parameter named `k` takes the value `v`
      and any later ones named `k` are dropped; when there is none, `(k, v)`
      is appended. Afterwards `k` reads `v` and every other name reads as before. */
  function Set(ps: seq<Param>, k: string, v: string): (r: seq<Param>)
    ensures Get(r, k) == Some(v)
    ensures forall j :: j != k ==> Get(r, j) == Get(ps, j)
    ensures Names(r) == Names(ps) + {k}
  {
    if |ps| == 0 then [(k, v)]
    else if ps[0].0 == k then
      var rest := Without(ps[1..], k);
      assert ([(k, v)] + rest)[1..] == rest;
      [(k, v)] + rest
    else
      var rest := Set(ps[1..], k, v);
      assert ([ps[0]] + rest)[1..] == rest;
      [ps[0]] + rest
  }

  /** The request's `query` object as a server reads it from a URL: one value
      per name, the first one given. */
  function QueryOf(ps: seq<Param>): (q: map<string, string>)
    ensures q.Keys == Names(ps)
    ensures forall k :: Find(q, k) == Get(ps, k)
  {
    map k | k in Names(ps) :: Get(ps, k).value
  }

  /** Setting a parameter on the URL sets the same entry in the query object
      a server reads from it, and leaves the rest of that object alone. */
  lemma SetThenQuery(ps: seq<Param>, k: string, v: string)
    ensures QueryOf(Set(ps, k, v)) == QueryOf(ps)[k := v]
  {
    var q := QueryOf(ps)[k := v];
    forall j
      ensures Find(QueryOf(Set(ps, k, v)), j) == Find(q, j)
    {
    }
    FindExtensional(QueryOf(Set(ps, k, v)), q);
  }
}
