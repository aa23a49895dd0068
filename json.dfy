/** JSON objects whose property values are strings, kept in insertion order
    as JavaScript keeps an object's own string-keyed properties. */
module Json {
  import opened Js

  type Object = seq<(string, string)>

  /** `o[k]`: the value of the first property named `k`. */
  function Get(o: Object, k: string): Option<string> {
    if o == [] then None
    else if o[0].0 == k then Some(o[0].1)
    else Get(o[1..], k)
  }

  /** `{ ...o, [k]: v }`: an existing property `k` takes the new value in its
      place; otherwise `k` is added at the end. */
  function Put(o: Object, k: string, v: string): (r: Object)
    ensures Get(r, k) == Some(v)
    ensures forall k' :: k' != k ==> Get(r, k') == Get(o, k')
    ensures Get(o, k).Some? ==> |r| == |o|
    ensures Get(o, k).None? ==> r == o + [(k, v)]
  {
    if o == [] then [(k, v)]
    else if o[0].0 == k then [(k, v)] + o[1..]
    else [o[0]] + Put(o[1..], k, v)
  }

  /** Properties keep their positions under `Put`: only the value of `k` changes. */
  lemma {:induction false} PutKeepsKeys(o: Object, k: string, v: string)
    requires Get(o, k).Some?
    ensures forall i :: 0 <= i < |o| ==> Put(o, k, v)[i].0 == o[i].0
  {
    if o[0].0 != k {
      PutKeepsKeys(o[1..], k, v);
      forall i | 0 <= i < |o| ensures Put(o, k, v)[i].0 == o[i].0 {
        if i > 0 {
          assert Put(o, k, v)[i] == Put(o[1..], k, v)[i - 1];
        }
      }
    }
  }

  function Member(p: (string, string)): string {
    "\"" + p.0 + "\":\"" + p.1 + "\""
  }

  function Members(o: Object): string {
    if o == [] then ""
    else if |o| == 1 then Member(o[0])
    else Member(o[0]) + "," + Members(o[1..])
  }

  /** `JSON.stringify(o)`, without string escaping. */
  function Stringify(o: Object): string {
    "{" + Members(o) + "}"
  }
}
