/**
 * What the two clients send and receive over the network, as values: the
 * outgoing requests, the replies they are given, and the URLSearchParams
 * builder that collects a form body.
 */
module Fetch {
  import opened Wrappers

  /** An ordered list of name/value pairs: form parameters or headers. */
  type Pairs = seq<(string, string)>

  datatype Method = Get | Post

  datatype RequestBody = NoBody | Form(params: Pairs)

  /** One outgoing `fetch` call. Headers are those the caller sets; the
      Content-Type that `fetch` adds for a URLSearchParams body is not
      listed. */
  datatype Request = Request(verb: Method, url: string, headers: Pairs, body: RequestBody)

  /** The reply a `fetch` call resolves to: its status, its status text,
      and the JSON its body parses to. */
  datatype Reply<T> = Reply(status: nat, statusText: string, json: T)

  /** `response.ok`. */
  predicate IsOk(status: int)
  {
    200 <= status <= 299
  }

  /** What a client call did: the value it returned or the error it threw,
      and every request it sent, in order. */
  datatype Exchange<T, E> = Exchange(result: Result<T, E>, sent: seq<Request>)

  /** `Bearer ${accessToken}`: a token missing from the JSON renders as
      "undefined" in the template literal. */
  function BearerAuth(accessToken: Option<string>): string
  {
    "Bearer " + match accessToken
                case None => "undefined"
                case Some(t) => t
  }

  /** `URLSearchParams.get`: the value of the first pair with this name. */
  function Lookup(pairs: Pairs, name: string): (r: Option<string>)
    ensures r.None? <==> forall k :: 0 <= k < |pairs| ==> pairs[k].0 != name
    ensures r.Some? ==> exists k :: 0 <= k < |pairs| && pairs[k] == (name, r.value)
                                   && forall m :: 0 <= m < k ==> pairs[m].0 != name
  {
    if pairs == [] then None
    else if pairs[0].0 == name then Some(pairs[0].1)
    else
      var r := Lookup(pairs[1..], name);
      assert r.Some? ==> exists k :: 0 <= k < |pairs| && pairs[k] == (name, r.value)
                                    && forall m :: 0 <= m < k ==> pairs[m].0 != name by {
        if r.Some? {
          var k :| 0 <= k < |pairs[1..]| && pairs[1..][k] == (name, r.value)
                   && forall m :: 0 <= m < k ==> pairs[1..][m].0 != name;
          assert pairs[k + 1] == (name, r.value);
          assert forall m :: 0 <= m < k + 1 ==> pairs[m].0 != name by {
            forall m | 0 <= m < k + 1 ensures pairs[m].0 != name {
              if m > 0 { assert pairs[m] == pairs[1..][m - 1]; }
            }
          }
        }
      }
      r
  }

  /** The pair at k, when no earlier pair has its name, is the one found. */
  lemma {:induction false} LookupAt(pairs: Pairs, name: string, k: int)
    requires 0 <= k < |pairs| && pairs[k].0 == name
    requires forall m :: 0 <= m < k ==> pairs[m].0 != name
    ensures Lookup(pairs, name) == Some(pairs[k].1)
  {
    if k > 0 {
      LookupAt(pairs[1..], name, k - 1);
    }
  }

  /** The names of a list of pairs, in order. */
  function Names(pairs: Pairs): (r: seq<string>)
    ensures |r| == |pairs| && forall k :: 0 <= k < |pairs| ==> r[k] == pairs[k].0
  {
    if pairs == [] then [] else [pairs[0].0] + Names(pairs[1..])
  }

  /** A `URLSearchParams` object: an ordered list of pairs that `append`
      extends in place. */
  class SearchParams {
    var list: Pairs

    /** `new URLSearchParams()`. */
    constructor ()
      ensures list == []
    {
      list := [];
    }

    /** `params.append(name, value)`: adds the pair at the end and keeps
        every earlier pair, a pair with the same name included. */
    method Append(name: string, value: string)
      modifies this
      ensures list == old(list) + [(name, value)]
    {
      list := list + [(name, value)];
    }
  }
}
