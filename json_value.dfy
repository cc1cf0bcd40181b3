/**
 * The JSON-like request data that both request walkers (cleanXSS.js and
 * sanitize.js) traverse: a tree of strings, numbers, booleans, null,
 * arrays and objects.  An object is an association list of members in
 * `Object.keys` order, so that "first key" and "overwrite an existing key"
 * mean what they mean in JavaScript.
 */
module JsonValue {
  import opened Wrappers

  datatype Json =
    | JNull
    | JBool(b: bool)
    | JNum(n: real)
    | JStr(s: string)
    | JArr(items: seq<Json>)
    | JObj(members: seq<Member>)

  datatype Member = Member(key: string, value: Json)

  /** `typeof v === "object"` in JavaScript: true of null, arrays and objects. */
  predicate IsObjectLike(v: Json) {
    v.JNull? || v.JArr? || v.JObj?
  }

  /** The keys of an object, as a set. */
  function KeySet(ms: seq<Member>): set<string> {
    if |ms| == 0 then {} else {ms[0].key} + KeySet(ms[1..])
  }

  /** Object keys are unique, as in every JavaScript object. */
  predicate UniqueKeys(ms: seq<Member>) {
    |ms| == 0 || (ms[0].key !in KeySet(ms[1..]) && UniqueKeys(ms[1..]))
  }

  /** `obj[k]`: the value stored under key `k`, if any. */
  function Lookup(ms: seq<Member>, k: string): (r: Option<Json>)
    ensures r.Some? <==> k in KeySet(ms)
  {
    if |ms| == 0 then None
    else if ms[0].key == k then Some(ms[0].value)
    else Lookup(ms[1..], k)
  }

  /**
   * `obj[k] = v`: an existing key keeps its position and gets the new value;
   * a new key is appended after all existing ones.
   */
  function Put(ms: seq<Member>, k: string, v: Json): (r: seq<Member>)
    ensures Lookup(r, k) == Some(v)
    ensures forall j :: j != k ==> Lookup(r, j) == Lookup(ms, j)
    ensures KeySet(r) == KeySet(ms) + {k}
    ensures UniqueKeys(ms) ==> UniqueKeys(r)
  {
    if |ms| == 0 then [Member(k, v)]
    else if ms[0].key == k then
      var r := [Member(k, v)] + ms[1..];
      assert r[1..] == ms[1..];
      r
    else
      var r := [ms[0]] + Put(ms[1..], k, v);
      assert r[1..] == Put(ms[1..], k, v);
      r
  }

  /** `delete obj[k]`: the member is removed, the others keep their order. */
  function Remove(ms: seq<Member>, k: string): (r: seq<Member>)
    requires UniqueKeys(ms)
    ensures Lookup(r, k) == None
    ensures forall j :: j != k ==> Lookup(r, j) == Lookup(ms, j)
    ensures KeySet(r) == KeySet(ms) - {k}
    ensures UniqueKeys(r)
  {
    if |ms| == 0 then []
    else if ms[0].key == k then ms[1..]
    else
      var r := [ms[0]] + Remove(ms[1..], k);
      assert r[1..] == Remove(ms[1..], k);
      r
  }

  /** Nesting depth of a tree: scalars are 0, a container is one more than its deepest child. */
  function Depth(v: Json): (d: nat)
    ensures !v.JArr? && !v.JObj? ==> d == 0
    ensures v.JArr? || v.JObj? ==> d >= 1
    decreases v, 1
  {
    match v
    case JArr(items) => 1 + ChildDepth(v, |items|)
    case JObj(ms) => 1 + ChildDepth(v, |ms|)
    case _ => 0
  }

  /** The number of children of a container. */
  function Arity(v: Json): nat {
    match v
    case JArr(items) => |items|
    case JObj(ms) => |ms|
    case _ => 0
  }

  /** The `i`-th child of a container: an array element or a member's value. */
  function Child(v: Json, i: nat): Json
    requires i < Arity(v)
  {
    if v.JArr? then v.items[i] else v.members[i].value
  }

  /** The depth of the deepest of the first `n` children (0 when there is none). */
  function ChildDepth(v: Json, n: nat): nat
    requires n <= Arity(v)
    decreases v, 0, n
  {
    if n == 0 then 0
    else
      var c := if v.JArr? then Depth(v.items[n - 1]) else Depth(v.members[n - 1].value);
      var rest := ChildDepth(v, n - 1);
      if c < rest then rest else c
  }

  lemma {:induction false} ChildDepthCovers(v: Json, n: nat, i: nat)
    requires n <= Arity(v) && i < n
    ensures Depth(Child(v, i)) <= ChildDepth(v, n)
  {
    if i < n - 1 {
      ChildDepthCovers(v, n - 1, i);
    }
  }

  lemma {:induction false} ChildDepthAtMost(v: Json, n: nat, d: nat)
    requires n <= Arity(v)
    requires forall i :: 0 <= i < n ==> Depth(Child(v, i)) <= d
    ensures ChildDepth(v, n) <= d
  {
    if n > 0 {
      ChildDepthAtMost(v, n - 1, d);
      assert Depth(Child(v, n - 1)) <= d;
    }
  }

  /** Every child of a container is shallower than the container. */
  lemma ChildShallower(v: Json, i: nat)
    requires i < Arity(v)
    ensures Depth(Child(v, i)) < Depth(v)
  {
    ChildDepthCovers(v, Arity(v), i);
  }

  /** A container whose children are all at most `d` deep is at most `d + 1` deep. */
  lemma DepthAtMost(v: Json, d: nat)
    requires v.JArr? || v.JObj?
    requires forall i :: 0 <= i < Arity(v) ==> Depth(Child(v, i)) <= d
    ensures Depth(v) <= d + 1
  {
    ChildDepthAtMost(v, Arity(v), d);
  }

  /** A key present in an object is found at some position, with the value stored there. */
  lemma {:induction false} LookupIndex(ms: seq<Member>, k: string) returns (idx: nat)
    requires k in KeySet(ms)
    ensures idx < |ms| && ms[idx].key == k && Lookup(ms, k) == Some(ms[idx].value)
  {
    if ms[0].key == k {
      idx := 0;
    } else {
      var j := LookupIndex(ms[1..], k);
      idx := j + 1;
    }
  }

  /** With unique keys, the member at any position is what looking up its key finds. */
  lemma {:induction false} LookupAt(ms: seq<Member>, idx: nat)
    requires UniqueKeys(ms) && idx < |ms|
    ensures ms[idx].key in KeySet(ms) && Lookup(ms, ms[idx].key) == Some(ms[idx].value)
  {
    if idx > 0 {
      LookupAt(ms[1..], idx - 1);
      assert ms[1..][idx - 1] == ms[idx];
    }
  }

  /** Writing back the value a key already has changes nothing. */
  lemma {:induction false} PutSame(ms: seq<Member>, k: string)
    requires k in KeySet(ms)
    ensures Put(ms, k, Lookup(ms, k).value) == ms
  {
    if ms[0].key != k {
      PutSame(ms[1..], k);
    }
  }

  lemma {:induction false} KeySetConcat(a: seq<Member>, b: seq<Member>)
    ensures KeySet(a + b) == KeySet(a) + KeySet(b)
  {
    if |a| > 0 {
      assert (a + b)[1..] == a[1..] + b;
      KeySetConcat(a[1..], b);
    } else {
      assert a + b == b;
    }
  }

  /** With unique keys, the key at position `i` does not occur after it. */
  lemma {:induction false} UniqueSuffix(ms: seq<Member>, i: nat)
    requires UniqueKeys(ms) && i < |ms|
    ensures UniqueKeys(ms[i..]) && ms[i].key !in KeySet(ms[i + 1..])
    ensures KeySet(ms[i..]) == {ms[i].key} + KeySet(ms[i + 1..])
  {
    if i > 0 {
      UniqueSuffix(ms[1..], i - 1);
      assert ms[1..][i - 1..] == ms[i..];
      assert ms[1..][i..] == ms[i + 1..];
    } else {
      assert ms[0..] == ms;
      assert ms[1..] == ms[i + 1..];
    }
  }

  /** The parts of an Express request that the two walkers are handed: `req.body`, `req.params`, `req.query`. */
  datatype RequestData = RequestData(body: Json, params: Json, query: Json)
}
