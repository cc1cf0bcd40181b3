/**
 * backend/middleware/sanitize.js: a NoSQL-operator scrubber for `req.body`
 * and `req.params`.  Every key that starts with `$` or contains `.` is
 * meant to be renamed (each `$` and `.` turned into `_`), and nested
 * objects walked in turn; `req.query` is never touched.
 *
 * As written, the walk reads `safeKey` outside the block that declares it
 * (sanitize.js:12), so the first key of any non-empty object or array
 * raises a ReferenceError.  Both the walk as written and the walk as
 * evidently intended (recursing into the value under its new key) are
 * modelled.
 */
module Sanitize {
  import opened Wrappers
  import opened JsonValue
  import opened Http

  /** The keys sanitize.js:7 renames: a leading `$`, or a `.` anywhere. */
  predicate Selected(k: string) {
    (|k| > 0 && k[0] == '$') || '.' in k
  }

  /** `s.replace(/c/g, d)`: every occurrence of `c` becomes `d`. */
  function ReplaceAll(s: string, c: char, d: char): (r: string)
    ensures |r| == |s|
    ensures forall i :: 0 <= i < |s| ==> r[i] == (if s[i] == c then d else s[i])
  {
    if |s| == 0 then ""
    else [if s[0] == c then d else s[0]] + ReplaceAll(s[1..], c, d)
  }

  /** The replacement key of sanitize.js:8: same length, no `$` and no `.` left, never selected again. */
  function SafeKey(k: string): (s: string)
    ensures |s| == |k|
    ensures forall i :: 0 <= i < |k| ==> s[i] == (if k[i] == '$' || k[i] == '.' then '_' else k[i])
    ensures '$' !in s && '.' !in s
    ensures !Selected(s)
  {
    ReplaceAll(ReplaceAll(k, '$', '_'), '.', '_')
  }

  /** The key a member ends up under: a selected key is renamed, any other is kept as it is. */
  function Renamed(k: string): (r: string)
    ensures !Selected(r)
    ensures r == k <==> !Selected(k)
  {
    if Selected(k) then
      assert (k[0] == '$' && SafeKey(k)[0] == '_') || '.' in k;
      SafeKey(k)
    else k
  }

  /** A `$` that does not lead the key is left alone, and so is a key with none of either. */
  lemma InnerDollarKept()
    ensures Renamed("a$b") == "a$b"
    ensures Renamed("amount") == "amount"
    ensures Renamed("$gt") == "_gt" && Renamed("a.b") == "a_b"
  {
    assert !Selected("a$b") by { assert "a$b"[0] == 'a' && "a$b"[1] == '$' && "a$b"[2] == 'b'; }
    assert !Selected("amount") by {
      assert forall i :: 0 <= i < 6 ==> "amount"[i] != '.';
    }
    assert Selected("$gt") && SafeKey("$gt") == "_gt";
    assert "a.b"[1] == '.';
    assert SafeKey("a.b") == "a_b";
  }

  function RenamedSet(ks: set<string>): (r: set<string>)
    ensures forall x :: x in r ==> !Selected(x)
    ensures forall k :: k in ks ==> Renamed(k) in r
  {
    set k | k in ks :: Renamed(k)
  }

  lemma RenamedSetUnion(a: set<string>, k: string)
    ensures RenamedSet(a + {k}) == RenamedSet(a) + {Renamed(k)}
  {
  }

  /**
   * The keys after visiting the key at position `i`: it has been replaced by
   * its renamed form (or kept), and the keys still to visit are untouched.
   */
  lemma KeySetStep(ms0: seq<Member>, i: nat, before: set<string>, after: set<string>)
    requires UniqueKeys(ms0) && i < |ms0|
    requires before == RenamedSet(KeySet(ms0[..i])) + KeySet(ms0[i..])
    requires after == before - {ms0[i].key} + {Renamed(ms0[i].key)}
    ensures after == RenamedSet(KeySet(ms0[..i + 1])) + KeySet(ms0[i + 1..])
  {
    var k := ms0[i].key;
    var done := RenamedSet(KeySet(ms0[..i]));
    UniqueSuffix(ms0, i);
    PrefixKeySetStep(ms0, i);
    RenamedSetUnion(KeySet(ms0[..i]), k);
    SwapKey(done, KeySet(ms0[i + 1..]), k, Renamed(k));
  }

  lemma PrefixKeySetStep(ms0: seq<Member>, i: nat)
    requires i < |ms0|
    ensures KeySet(ms0[..i + 1]) == KeySet(ms0[..i]) + {ms0[i].key}
  {
    assert ms0[..i + 1] == ms0[..i] + [ms0[i]];
    KeySetConcat(ms0[..i], [ms0[i]]);
    assert KeySet([ms0[i]]) == {ms0[i].key};
  }

  /**
   * Replacing `k` by `rk` in a set made of renamed keys `done`, then `k`,
   * then keys `later` that do not include `k`: a renamed key equal to `k`
   * can only be `k` kept as it is.
   */
  lemma SwapKey(done: set<string>, later: set<string>, k: string, rk: string)
    requires k !in later
    requires forall x :: x in done ==> !Selected(x)
    requires rk == Renamed(k)
    ensures done + ({k} + later) - {k} + {rk} == done + {rk} + later
  {
    if k in done {
      assert rk == k;
    }
  }

  /** Lines 9-10: `obj[s] = obj[k]; delete obj[k]` with `k` present. */
  function MoveKey(ms: seq<Member>, k: string, s: string): (r: seq<Member>)
    requires UniqueKeys(ms) && k in KeySet(ms) && s != k
    ensures UniqueKeys(r)
    ensures KeySet(r) == KeySet(ms) - {k} + {s}
    ensures Lookup(r, s) == Lookup(ms, k) && Lookup(r, k) == None
    ensures forall j :: j != k && j != s ==> Lookup(r, j) == Lookup(ms, j)
  {
    Remove(Put(ms, s, Lookup(ms, k).value), k)
  }

  /** Every object in the tree has unique keys, as every parsed JSON object does. */
  predicate WellFormed(v: Json) {
    match v
    case JArr(items) => forall i :: 0 <= i < |items| ==> WellFormed(items[i])
    case JObj(ms) => UniqueKeys(ms) && forall i :: 0 <= i < |ms| ==> WellFormed(ms[i].value)
    case _ => true
  }

  /** No key anywhere in the tree is one the sanitizer would rename. */
  predicate KeysSafe(v: Json) {
    match v
    case JArr(items) => forall i :: 0 <= i < |items| ==> KeysSafe(items[i])
    case JObj(ms) => forall i :: 0 <= i < |ms| ==> !Selected(ms[i].key) && KeysSafe(ms[i].value)
    case _ => true
  }

  /** A container the walk enters at least once: an object with a key or an array with an element. */
  predicate HasEntries(v: Json) {
    (v.JObj? && |v.members| > 0) || (v.JArr? && |v.items| > 0)
  }

  /** How a walk ends: it returns, or it throws, leaving its argument partly rewritten. */
  datatype Walk = Finished(value: Json) | Threw(partial: Json)

  /**
   * `sanitize(obj)` as written (sanitize.js:4-16).  Falsy values and
   * non-objects return at once; an empty container has no key to visit; any
   * other container has its first key renamed if it is selected, and then
   * line 12 throws before anything nested is reached.
   */
  function SanitizeAsWritten(v: Json): (w: Walk)
    requires WellFormed(v)
    ensures w.Threw? <==> HasEntries(v)
    ensures w.Finished? ==> w.value == v && KeysSafe(v)
    ensures w.Threw? && v.JArr? ==> w.partial == v
    ensures w.Threw? && v.JObj? ==>
      var first := v.members[0].key;
      && w.partial.JObj?
      && KeySet(w.partial.members) == KeySet(v.members) - {first} + {Renamed(first)}
      && Lookup(w.partial.members, Renamed(first)) == Some(v.members[0].value)
  {
    match v
    case JObj(ms) =>
      if |ms| == 0 then Finished(v)
      else
        var k := ms[0].key;
        LookupAt(ms, 0);
        if Selected(k) then Threw(JObj(MoveKey(ms, k, SafeKey(k)))) else Threw(v)
    case JArr(items) => if |items| == 0 then Finished(v) else Threw(v)
    case _ => Finished(v)
  }

  /** The error line 12 raises, as the error handler of server.js receives it. */
  const SafeKeyError := HttpError(None, None, "safeKey is not defined")

  /** What the middleware leads to: `next()` with the request, or the thrown error. */
  datatype Passage = Next(req: RequestData) | Raise(err: HttpError)

  /**
   * `sanitizeRequest` as written (sanitize.js:3-22): the body is walked,
   * then the params; a throw from either reaches Express, which hands it on
   * to the error handler.  A request with anything to walk never gets to
   * `next()`.
   */
  function SanitizeRequestAsWritten(req: RequestData): (r: Passage)
    requires WellFormed(req.body) && WellFormed(req.params)
    ensures r.Raise? <==> HasEntries(req.body) || HasEntries(req.params)
    ensures r.Raise? ==> r.err == SafeKeyError
    ensures r.Next? ==> r.req == req
  {
    match SanitizeAsWritten(req.body)
    case Threw(_) => Raise(SafeKeyError)
    case Finished(_) =>
      match SanitizeAsWritten(req.params)
      case Threw(_) => Raise(SafeKeyError)
      case Finished(_) => Next(req)
  }

  /** Even a login body with nothing to rename is refused by the middleware as written. */
  lemma LoginBodyRaises(params: Json, query: Json)
    requires WellFormed(params)
    ensures var body := JObj([Member("accountNumber", JStr("10000001")), Member("password", JStr("Secur3P@ssw0rd"))]);
      WellFormed(body) && SanitizeRequestAsWritten(RequestData(body, params, query)) == Raise(SafeKeyError)
  {
    var body := JObj([Member("accountNumber", JStr("10000001")), Member("password", JStr("Secur3P@ssw0rd"))]);
    assert KeySet([Member("password", JStr("Secur3P@ssw0rd"))]) == {"password"};
    assert WellFormed(body);
  }

  /**
   * `sanitize(obj)` as evidently intended: line 12 reads the value under
   * its new key (or under the old one when the key was kept).  The walk goes
   * over the keys present on entry, in order; renaming onto a key that is
   * already there overwrites it in place, and a fresh key is appended.  A
   * non-container comes back as it is.  The result has no selected key at
   * any depth, its top-level keys are the renamed originals, and a tree that
   * was already safe comes back unchanged.
   */
  function Sanitized(v: Json): (r: Json)
    requires WellFormed(v)
    ensures WellFormed(r) && KeysSafe(r) && Depth(r) <= Depth(v)
    ensures !v.JArr? && !v.JObj? ==> r == v
    ensures v.JArr? ==> r.JArr? && |r.items| == |v.items|
    ensures v.JObj? ==> r.JObj? && KeySet(r.members) == RenamedSet(KeySet(v.members))
    ensures KeysSafe(v) ==> r == v
    decreases Depth(v), 2
  {
    match v
    case JObj(ms) =>
      VisitStart(v);
      var out := SanitizedUpTo(v, |ms|);
      UpToVisited(v, |ms|);
      VisitDone(v, out);
      DepthAtMost(JObj(out), Depth(v) - 1);
      JObj(out)
    case JArr(items) =>
      var out := SanitizedItems(v, |items|);
      DepthAtMost(JArr(out), Depth(v) - 1);
      JArr(out)
    case _ => v
  }

  /** The first `n` elements of array `v`, each walked in turn. */
  function SanitizedItems(v: Json, n: nat): (r: seq<Json>)
    requires v.JArr? && WellFormed(v) && n <= |v.items|
    ensures |r| == n
    ensures forall t :: 0 <= t < n ==> WellFormed(r[t]) && KeysSafe(r[t]) && Depth(r[t]) < Depth(v)
    ensures KeysSafe(v) ==> r == v.items[..n]
    decreases Depth(v), 1, n
  {
    if n == 0 then []
    else
      ChildShallower(v, n - 1);
      SanitizedItems(v, n - 1) + [Sanitized(v.items[n - 1])]
  }

  /** Element `t` of the walked array is element `t` walked. */
  lemma {:induction false} SanitizedItemsAt(v: Json, n: nat, t: nat)
    requires v.JArr? && WellFormed(v) && n <= |v.items| && t < n
    ensures SanitizedItems(v, n)[t] == Sanitized(v.items[t])
  {
    if t < n - 1 {
      SanitizedItemsAt(v, n - 1, t);
    }
  }

  /**
   * One visit of the loop body, as a value: rename key `i` if it is
   * selected, then walk the value now under its final name.
   */
  function VisitOnce(v: Json, i: nat, out: seq<Member>): (next: seq<Member>)
    requires v.JObj? && WellFormed(v) && i < |v.members| && Visited(v, i, out)
    ensures Visited(v, i + 1, next)
    decreases Depth(v), 0
  {
    var k := v.members[i].key;
    VisitRename(v, i, out);
    var mid := Moved(out, k);
    var w := Lookup(mid, Renamed(k)).value;
    VisitStep(v, i, out, Sanitized(w));
    Put(mid, Renamed(k), Sanitized(w))
  }

  /** The members of object `v` after the loop has visited its first `i` keys. */
  function SanitizedUpTo(v: Json, i: nat): (out: seq<Member>)
    requires v.JObj? && WellFormed(v) && i <= |v.members|
    decreases Depth(v), 1, i, 0
  {
    if i == 0 then v.members
    else
      UpToVisited(v, i - 1);
      VisitOnce(v, i - 1, SanitizedUpTo(v, i - 1))
  }

  /** The loop invariant holds after every number of visits. */
  lemma {:induction false} UpToVisited(v: Json, i: nat)
    requires v.JObj? && WellFormed(v) && i <= |v.members|
    ensures Visited(v, i, SanitizedUpTo(v, i))
    decreases Depth(v), 1, i, 1
  {
    if i == 0 {
      VisitStart(v);
    } else {
      UpToVisited(v, i - 1);
    }
  }

  /** A visit touches only the visited key and its new name; every other key keeps its value. */
  lemma VisitOnceKeeps(v: Json, i: nat, out: seq<Member>, j: string)
    requires v.JObj? && WellFormed(v) && i < |v.members| && Visited(v, i, out)
    requires j != v.members[i].key && j != Renamed(v.members[i].key)
    ensures Lookup(VisitOnce(v, i, out), j) == Lookup(out, j)
  {
    VisitRename(v, i, out);
  }

  /** Visits `a` to `b - 1`, none of which is of `j` or renames onto `j`, leave `j`'s value alone. */
  lemma {:induction false} UpToKeeps(v: Json, a: nat, b: nat, j: string)
    requires v.JObj? && WellFormed(v) && a <= b <= |v.members|
    requires forall s :: a <= s < b ==> v.members[s].key != j && Renamed(v.members[s].key) != j
    ensures Lookup(SanitizedUpTo(v, b), j) == Lookup(SanitizedUpTo(v, a), j)
    decreases b - a
  {
    if a < b {
      UpToKeeps(v, a, b - 1, j);
      UpToVisited(v, b - 1);
      VisitOnceKeeps(v, b - 1, SanitizedUpTo(v, b - 1), j);
    }
  }

  /**
   * Value preservation: a top-level key that no other key is renamed onto
   * ends up under its renamed name holding its own walked value.  So an
   * untouched key keeps its value, and `$gt` moves with its value to `_gt`.
   */
  lemma SanitizedValue(v: Json, i: nat)
    requires v.JObj? && WellFormed(v) && i < |v.members|
    requires forall t :: 0 <= t < |v.members| && t != i ==> Renamed(v.members[t].key) != Renamed(v.members[i].key)
    ensures WellFormed(v.members[i].value)
    ensures Sanitized(v).JObj?
    ensures Lookup(Sanitized(v).members, Renamed(v.members[i].key)) == Some(Sanitized(v.members[i].value))
  {
    var ms := v.members;
    var k := ms[i].key;
    var n := |ms|;
    LookupAt(ms, i);
    ChildShallower(v, i);
    // before its visit, `k` still holds its original value
    forall s | 0 <= s < i
      ensures ms[s].key != k && Renamed(ms[s].key) != k
    {
      UniqueSuffix(ms, s);
      LookupAt(ms, s);
      if !Selected(k) { assert Renamed(k) == k; }
    }
    UpToKeeps(v, 0, i, k);
    // the visit stores the walked value under the final name
    UpToVisited(v, i);
    VisitRename(v, i, SanitizedUpTo(v, i));
    assert Lookup(SanitizedUpTo(v, i + 1), Renamed(k)) == Some(Sanitized(ms[i].value));
    // and no later visit touches the final name
    forall t | i + 1 <= t < n
      ensures ms[t].key != Renamed(k) && Renamed(ms[t].key) != Renamed(k)
    {
    }
    UpToKeeps(v, i + 1, n, Renamed(k));
  }

  /** Two scalar members whose final names differ both keep their values, under their final names. */
  lemma SanitizedPair(a: string, x: Json, b: string, y: Json)
    requires a != b && Renamed(a) != Renamed(b)
    requires !x.JArr? && !x.JObj? && !y.JArr? && !y.JObj?
    ensures var v := JObj([Member(a, x), Member(b, y)]);
      && WellFormed(v)
      && Sanitized(v).JObj?
      && KeySet(Sanitized(v).members) == {Renamed(a), Renamed(b)}
      && Lookup(Sanitized(v).members, Renamed(a)) == Some(x)
      && Lookup(Sanitized(v).members, Renamed(b)) == Some(y)
  {
    var v := JObj([Member(a, x), Member(b, y)]);
    PairWellFormed(a, x, b, y);
    SanitizedValue(v, 0);
    SanitizedValue(v, 1);
    RenamedPair(a, b);
  }

  lemma RenamedPair(a: string, b: string)
    ensures RenamedSet({a, b}) == {Renamed(a), Renamed(b)}
  {
    RenamedSetUnion({}, a);
    assert {a, b} == {a} + {b};
    RenamedSetUnion({a}, b);
  }

  lemma PairWellFormed(a: string, x: Json, b: string, y: Json)
    requires a != b && !x.JArr? && !x.JObj? && !y.JArr? && !y.JObj?
    ensures WellFormed(JObj([Member(a, x), Member(b, y)]))
    ensures KeySet([Member(a, x), Member(b, y)]) == {a, b}
  {
    var ms := [Member(a, x), Member(b, y)];
    assert ms[1..] == [Member(b, y)] && ms[1..][1..] == [];
    assert KeySet(ms[1..]) == {b};
    assert UniqueKeys(ms);
  }

  /** `{"amount": 5, "$gt": "x"}` becomes `{"amount": 5, "_gt": "x"}`, up to key order. */
  lemma SanitizedOperatorExample()
    ensures var v := JObj([Member("amount", JNum(5.0)), Member("$gt", JStr("x"))]);
      && WellFormed(v)
      && Sanitized(v).JObj?
      && KeySet(Sanitized(v).members) == {"amount", "_gt"}
      && Lookup(Sanitized(v).members, "amount") == Some(JNum(5.0))
      && Lookup(Sanitized(v).members, "_gt") == Some(JStr("x"))
  {
    InnerDollarKept();
    assert "amount" != "$gt" by { assert "amount"[0] != "$gt"[0]; }
    assert "amount" != "_gt" by { assert "amount"[0] != "_gt"[0]; }
    SanitizedPair("amount", JNum(5.0), "$gt", JStr("x"));
  }

  /** The intended walk as a method over the value tree; it computes `Sanitized`. */
  method SanitizeIntended(v: Json) returns (r: Json)
    requires WellFormed(v)
    ensures r == Sanitized(v)
    decreases Depth(v), 2
  {
    match v {
      case JObj(ms0) =>
        var out := SanitizeMembers(v);
        r := JObj(out);
      case JArr(items) =>
        var out := SanitizeItems(v);
        r := JArr(out);
      case _ =>
        r := v;
    }
  }

  /** The key a visit leaves the member under, and the members after that rename. */
  function Moved(out: seq<Member>, k: string): (mid: seq<Member>)
    requires UniqueKeys(out) && k in KeySet(out)
    ensures UniqueKeys(mid) && KeySet(mid) == KeySet(out) - {k} + {Renamed(k)}
    ensures Lookup(mid, Renamed(k)) == Lookup(out, k)
    ensures forall j :: j != k && j != Renamed(k) ==> Lookup(mid, j) == Lookup(out, j)
  {
    if Selected(k) then MoveKey(out, k, SafeKey(k)) else out
  }

  /**
   * What holds after visiting the first `i` keys of object `v`, leaving
   * members `out`: the visited keys have been replaced by their renamed
   * forms, every value is well formed and shallower than `v`, and every key
   * no longer waiting for its visit is safe and holds a safe value.
   */
  ghost predicate Visited(v: Json, i: nat, out: seq<Member>)
    requires v.JObj?
  {
    && i <= |v.members|
    && UniqueKeys(out)
    && KeySet(out) == RenamedSet(KeySet(v.members[..i])) + KeySet(v.members[i..])
    && Bounded(out, Depth(v))
    && SafeOutside(out, KeySet(v.members[i..]))
    && (KeysSafe(v) ==> out == v.members)
  }

  /** Every value in `out` is well formed and less than `d` deep. */
  ghost predicate Bounded(out: seq<Member>, d: nat) {
    forall j :: j in KeySet(out) ==> WellFormed(Lookup(out, j).value) && Depth(Lookup(out, j).value) < d
  }

  /** Every key of `out` outside `pending` is safe and holds a safe value. */
  ghost predicate SafeOutside(out: seq<Member>, pending: set<string>) {
    forall j :: j in KeySet(out) && j !in pending ==> !Selected(j) && KeysSafe(Lookup(out, j).value)
  }

  lemma BoundedStep(out: seq<Member>, k: string, w: Json, d: nat)
    requires UniqueKeys(out) && k in KeySet(out) && Bounded(out, d)
    requires WellFormed(w) && Depth(w) < d
    ensures Bounded(Put(Moved(out, k), Renamed(k), w), d)
  {
    var mid := Moved(out, k);
    var next := Put(mid, Renamed(k), w);
    forall j | j in KeySet(next)
      ensures WellFormed(Lookup(next, j).value) && Depth(Lookup(next, j).value) < d
    {
      if j != Renamed(k) {
        assert Lookup(next, j) == Lookup(mid, j);
        if j != k {
          assert Lookup(mid, j) == Lookup(out, j);
        }
      }
    }
  }

  lemma SafeStep(out: seq<Member>, k: string, w: Json, later: set<string>)
    requires UniqueKeys(out) && k in KeySet(out) && SafeOutside(out, {k} + later)
    requires KeysSafe(w)
    ensures SafeOutside(Put(Moved(out, k), Renamed(k), w), later)
  {
    var mid := Moved(out, k);
    var next := Put(mid, Renamed(k), w);
    forall j | j in KeySet(next) && j !in later
      ensures !Selected(j) && KeysSafe(Lookup(next, j).value)
    {
      if j != Renamed(k) {
        assert j != k;
        assert Lookup(next, j) == Lookup(out, j);
      }
    }
  }

  lemma VisitStart(v: Json)
    requires v.JObj? && WellFormed(v)
    ensures Visited(v, 0, v.members)
  {
    var ms0 := v.members;
    assert ms0[..0] == [] && ms0[0..] == ms0;
    forall j | j in KeySet(ms0)
      ensures WellFormed(Lookup(ms0, j).value) && Depth(Lookup(ms0, j).value) < Depth(v)
    {
      var idx := LookupIndex(ms0, j);
      ChildShallower(v, idx);
    }
  }

  /** Before the visit of key `i` recurses: the value under the key's new name is well formed, and shallower. */
  lemma VisitRename(v: Json, i: nat, out: seq<Member>)
    requires v.JObj? && WellFormed(v) && i < |v.members| && Visited(v, i, out)
    ensures v.members[i].key in KeySet(out)
    ensures var mid := Moved(out, v.members[i].key);
      && Renamed(v.members[i].key) in KeySet(mid)
      && WellFormed(Lookup(mid, Renamed(v.members[i].key)).value)
      && Depth(Lookup(mid, Renamed(v.members[i].key)).value) < Depth(v)
      && (KeysSafe(v) ==> mid == v.members && Lookup(mid, Renamed(v.members[i].key)).value == v.members[i].value
                          && KeysSafe(v.members[i].value))
  {
    UniqueSuffix(v.members, i);
    if KeysSafe(v) {
      LookupAt(v.members, i);
    }
  }

  /** After the visit of key `i` stores the walked value `w` under the key's new name. */
  lemma VisitStore(v: Json, i: nat, out: seq<Member>, w: Json)
    requires v.JObj? && WellFormed(v) && i < |v.members| && Visited(v, i, out)
    requires v.members[i].key in KeySet(out)
    requires var mid := Moved(out, v.members[i].key);
      && Renamed(v.members[i].key) in KeySet(mid)
      && WellFormed(w) && KeysSafe(w) && Depth(w) < Depth(v)
      && (KeysSafe(v) ==> mid == v.members && w == Lookup(mid, Renamed(v.members[i].key)).value)
    ensures Visited(v, i + 1, Put(Moved(out, v.members[i].key), Renamed(v.members[i].key), w))
  {
    var ms0 := v.members;
    var k := ms0[i].key;
    var mid := Moved(out, k);
    UniqueSuffix(ms0, i);
    KeySetStep(ms0, i, KeySet(out), KeySet(mid));
    BoundedStep(out, k, w, Depth(v));
    SafeStep(out, k, w, KeySet(ms0[i + 1..]));
    if KeysSafe(v) {
      PutSame(mid, Renamed(k));
    }
  }

  /**
   * One whole visit: the value under the key's new name is replaced by its
   * walked form `w`, which is safe, no deeper, and the same when it was safe.
   */
  lemma VisitStep(v: Json, i: nat, out: seq<Member>, w: Json)
    requires v.JObj? && WellFormed(v) && i < |v.members| && Visited(v, i, out)
    requires v.members[i].key in KeySet(out)
    requires var mid := Moved(out, v.members[i].key);
      var old_w := Lookup(mid, Renamed(v.members[i].key)).value;
      && Renamed(v.members[i].key) in KeySet(mid)
      && WellFormed(old_w) && Depth(old_w) < Depth(v)
      && (KeysSafe(v) ==> mid == v.members && KeysSafe(old_w))
      && WellFormed(w) && KeysSafe(w) && Depth(w) <= Depth(old_w) && (KeysSafe(old_w) ==> w == old_w)
    ensures Visited(v, i + 1, Put(Moved(out, v.members[i].key), Renamed(v.members[i].key), w))
  {
    VisitStore(v, i, out, w);
  }

  /** Once every key has been visited, every member is safe, well formed and shallower than `v`. */
  lemma VisitDone(v: Json, out: seq<Member>)
    requires v.JObj? && Visited(v, |v.members|, out)
    ensures UniqueKeys(out) && KeySet(out) == RenamedSet(KeySet(v.members))
    ensures forall idx :: 0 <= idx < |out| ==>
      && !Selected(out[idx].key) && WellFormed(out[idx].value) && KeysSafe(out[idx].value)
      && Depth(out[idx].value) < Depth(v)
    ensures KeysSafe(v) ==> out == v.members
  {
    var ms0 := v.members;
    assert ms0[..|ms0|] == ms0 && ms0[|ms0|..] == [];
    assert KeySet(ms0[|ms0|..]) == {};
    forall idx | 0 <= idx < |out|
      ensures !Selected(out[idx].key) && WellFormed(out[idx].value) && KeysSafe(out[idx].value)
      ensures Depth(out[idx].value) < Depth(v)
    {
      DoneMember(out, idx, Depth(v));
    }
  }

  lemma DoneMember(out: seq<Member>, idx: nat, d: nat)
    requires UniqueKeys(out) && idx < |out| && Bounded(out, d) && SafeOutside(out, {})
    ensures !Selected(out[idx].key) && WellFormed(out[idx].value) && KeysSafe(out[idx].value)
    ensures Depth(out[idx].value) < d
  {
    LookupAt(out, idx);
  }

  /** The loop of sanitize.js:6-15 over an object's keys, as taken on entry. */
  method SanitizeMembers(v: Json) returns (out: seq<Member>)
    requires v.JObj? && WellFormed(v)
    ensures out == SanitizedUpTo(v, |v.members|)
    decreases Depth(v), 1
  {
    out := v.members;
    var i := 0;
    while i < |v.members|
      invariant i <= |v.members| && out == SanitizedUpTo(v, i)
    {
      UpToVisited(v, i);
      out := VisitKey(v, i, out);
      i := i + 1;
    }
  }

  /**
   * One pass of the loop body (sanitize.js:7-13): rename the key if it is
   * selected, then walk the value now under the key's final name.
   */
  method VisitKey(v: Json, i: nat, out: seq<Member>) returns (next: seq<Member>)
    requires v.JObj? && WellFormed(v) && i < |v.members| && Visited(v, i, out)
    ensures next == VisitOnce(v, i, out)
    decreases Depth(v), 0
  {
    var k := v.members[i].key;
    VisitRename(v, i, out);
    next := out;
    var target := k;
    if Selected(k) {
      target := SafeKey(k);
      next := MoveKey(next, k, target);
    }
    assert next == Moved(out, k) && target == Renamed(k);
    var w := Lookup(next, target).value;
    if IsObjectLike(w) {
      var w' := SanitizeIntended(w);
      next := Put(next, target, w');
    } else {
      PutSame(next, target);
    }
  }

  /** The same loop over an array: its keys are indices, never selected. */
  method SanitizeItems(v: Json) returns (out: seq<Json>)
    requires v.JArr? && WellFormed(v)
    ensures out == SanitizedItems(v, |v.items|)
    decreases Depth(v), 1
  {
    var items := v.items;
    out := items;
    for j := 0 to |items|
      invariant |out| == |items|
      invariant forall t :: 0 <= t < j ==> out[t] == Sanitized(items[t])
      invariant forall t :: j <= t < |items| ==> out[t] == items[t]
    {
      ChildShallower(v, j);
      if IsObjectLike(out[j]) {
        var w := SanitizeIntended(out[j]);
        out := out[j := w];
      }
    }
    forall t | 0 <= t < |items|
      ensures out[t] == SanitizedItems(v, |items|)[t]
    {
      SanitizedItemsAt(v, |items|, t);
    }
  }

  /**
   * `sanitizeRequest` as evidently intended: body and params are walked,
   * `next()` is always reached and `req.query` is passed on untouched.
   */
  method SanitizeRequest(req: RequestData) returns (out: RequestData)
    requires WellFormed(req.body) && WellFormed(req.params)
    ensures out == RequestData(Sanitized(req.body), Sanitized(req.params), req.query)
    ensures KeysSafe(out.body) && KeysSafe(out.params)
    ensures KeysSafe(req.body) ==> out.body == req.body
    ensures KeysSafe(req.params) ==> out.params == req.params
  {
    var body := SanitizeIntended(req.body);
    var params := SanitizeIntended(req.params);
    out := RequestData(body, params, req.query);
  }
}
