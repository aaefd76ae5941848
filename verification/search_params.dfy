/**
 * Query strings as ordered lists of already-decoded name/value pairs: the
 * `URLSearchParams` operations the SDK uses to build one (`set`, and the
 * `toString` serialisation with the percent-encoding left abstract), and the
 * first-value lookup the HTTP framework's `query(name)` performs on the
 * server side.
 */
module SearchParams {
  import opened Js

  type Pairs = seq<(string, string)>

  /** The names of the pairs, in order. */
  function Names(q: Pairs): (ns: seq<string>)
    ensures |ns| == |q|
    ensures forall i | 0 <= i < |q| :: ns[i] == q[i].0
  {
    if |q| == 0 then [] else [q[0].0] + Names(q[1..])
  }

  /** No name occurs twice. */
  predicate Distinct(ns: seq<string>) {
    forall i, j | 0 <= i < j < |ns| :: ns[i] != ns[j]
  }

  /** `query(name)`: the value of the first pair with that name, if any. */
  function Get(q: Pairs, name: string): (r: Option<string>)
    ensures r.None? <==> name !in Names(q)
    ensures r.Some? ==> (name, r.value) in q
  {
    if |q| == 0 then None
    else if q[0].0 == name then Some(q[0].1)
    else Get(q[1..], name)
  }

  /** The pairs without any pair named `name`. */
  function RemoveAll(q: Pairs, name: string): (r: Pairs)
    ensures name !in Names(r)
    ensures forall k | k != name :: Get(r, k) == Get(q, k)
    ensures |r| <= |q|
  {
    if |q| == 0 then []
    else if q[0].0 == name then RemoveAll(q[1..], name)
    else
      var rest := RemoveAll(q[1..], name);
      GetCons(q[0], rest);
      GetCons(q[0], q[1..]);
      assert [q[0]] + q[1..] == q;
      [q[0]] + rest
  }

  /**
   * `URLSearchParams.set(name, value)`: the first pair with that name gets
   * the new value and the other pairs with that name are removed; when there
   * is none, the pair is appended.
   */
  function Set(q: Pairs, name: string, value: string): (r: Pairs)
    ensures Get(r, name) == Some(value)
    ensures forall k | k != name :: Get(r, k) == Get(q, k)
    ensures name !in Names(q) ==> r == q + [(name, value)]
  {
    if |q| == 0 then [(name, value)]
    else
      GetCons(q[0], q[1..]);
      assert [q[0]] + q[1..] == q;
      if q[0].0 == name then
        var rest := RemoveAll(q[1..], name);
        GetCons((name, value), rest);
        [(name, value)] + rest
      else
        var rest := Set(q[1..], name, value);
        GetCons(q[0], rest);
        assert name !in Names(q) ==> [q[0]] + rest == q + [(name, value)];
        [q[0]] + rest
  }

  /** Looking up in a list that starts with `p`. */
  lemma GetCons(p: (string, string), rest: Pairs)
    ensures forall k: string :: Get([p] + rest, k) == if p.0 == k then Some(p.1) else Get(rest, k)
  {
    assert ([p] + rest)[1..] == rest;
  }

  /** `if (cond) params.set(name, value)`. */
  function SetIf(q: Pairs, cond: bool, name: string, value: string): Pairs {
    if cond then Set(q, name, value) else q
  }

  /** `name=value` pairs joined by `&`, each part passed through `encode`. */
  function Serialize(q: Pairs, encode: string -> string): string {
    if |q| == 0 then ""
    else
      var first := encode(q[0].0) + "=" + encode(q[0].1);
      if |q| == 1 then first else first + "&" + Serialize(q[1..], encode)
  }

  /** Serialising two non-empty runs of pairs joins their serialisations with `&`. */
  lemma {:induction false} SerializeAppend(p: Pairs, q: Pairs, encode: string -> string)
    requires |p| > 0 && |q| > 0
    ensures Serialize(p + q, encode) == Serialize(p, encode) + "&" + Serialize(q, encode)
    decreases |p|
  {
    var first := encode(p[0].0) + "=" + encode(p[0].1);
    assert (p + q)[0] == p[0];
    if |p| == 1 {
      assert (p + q)[1..] == q;
    } else {
      assert (p + q)[1..] == p[1..] + q;
      SerializeAppend(p[1..], q, encode);
    }
  }
}
