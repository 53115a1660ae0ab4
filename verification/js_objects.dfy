/**
 * Plain JavaScript objects as ordered lists of own properties: what
 * `Object.keys` enumerates, what `obj[key] = value` does to it, and what
 * `obj[key]` reads back.
 */
module JsObjects {
  import opened Wrappers
  import opened JsValues

  /** One own property: its key and its value. */
  type Entry = (string, JsValue)

  /**
   * The one key an assignment to a plain object never creates as an own
   * property: writing it runs the `__proto__` setter of `Object.prototype`.
   */
  const ProtoKey: string := "__proto__"

  predicate HasKey(ps: seq<Entry>, k: string)
  {
    exists i :: 0 <= i < |ps| && ps[i].0 == k
  }

  /** No key occurs twice: true of the own properties of every object. */
  predicate Unique(ps: seq<Entry>)
  {
    forall i, j :: 0 <= i < j < |ps| ==> ps[i].0 != ps[j].0
  }

  /** The keys of `ps` are the first keys of `qs`, in the same order. */
  predicate KeysPrefix(ps: seq<Entry>, qs: seq<Entry>)
  {
    |ps| <= |qs| && forall i :: 0 <= i < |ps| ==> ps[i].0 == qs[i].0
  }

  /** The position of the first property named `k`, or -1. */
  function IndexOf(ps: seq<Entry>, k: string): (r: int)
    ensures -1 <= r < |ps|
    ensures r == -1 <==> !HasKey(ps, k)
    ensures 0 <= r ==> ps[r].0 == k && forall j :: 0 <= j < r ==> ps[j].0 != k
  {
    if ps == [] then -1
    else if ps[0].0 == k then 0
    else
      var r := IndexOf(ps[1..], k);
      assert forall j :: 1 <= j < |ps| ==> ps[j] == ps[1..][j - 1];
      if r == -1 then -1 else r + 1
  }

  /**
   * The own properties of a plain object after `obj[k] = v`: a key already
   * present keeps its place and takes the new value, a new key is added
   * last, and `__proto__` adds nothing (it replaces the prototype, or is
   * ignored when `v` is not an object).
   */
  function Put(ps: seq<Entry>, k: string, v: JsValue): seq<Entry>
  {
    if k == ProtoKey then ps
    else
      var i := IndexOf(ps, k);
      if i == -1 then ps + [(k, v)] else ps[i := (k, v)]
  }

  /**
   * The value `obj[k]` reads from a list of property writes: that of the
   * last write to `k`, or nothing when `k` was never written.
   */
  function Get(ps: seq<Entry>, k: string): (r: Option<JsValue>)
    ensures r.None? <==> !HasKey(ps, k)
    ensures r.Some? ==> (k, r.value) in ps
  {
    if ps == [] then None
    else if ps[|ps| - 1].0 == k then Some(ps[|ps| - 1].1)
    else
      assert forall j :: 0 <= j < |ps| - 1 ==> ps[j] == ps[..|ps| - 1][j];
      Get(ps[..|ps| - 1], k)
  }

  /** `target[key] = value` for each write of `source`, in order. */
  function Assign(target: seq<Entry>, source: seq<Entry>): seq<Entry>
    decreases |source|
  {
    if source == [] then target
    else
      var last := source[|source| - 1];
      Put(Assign(target, source[..|source| - 1]), last.0, last.1)
  }

  /**
   * `obj[k] = v` keeps every key where it was, changes no other key's
   * value, adds `k` last when it was missing, and leaves `k` holding `v`;
   * writing `__proto__` changes no own property.
   */
  lemma PutKeys(ps: seq<Entry>, k: string, v: JsValue)
    ensures var r := Put(ps, k, v);
      && KeysPrefix(ps, r)
      && |r| == (if HasKey(ps, k) || k == ProtoKey then |ps| else |ps| + 1)
      && (forall j :: HasKey(r, j) <==> HasKey(ps, j) || (j == k && k != ProtoKey))
      && (forall i :: 0 <= i < |ps| && ps[i].0 != k ==> r[i] == ps[i])
      && (k != ProtoKey ==> (k, v) in r)
      && (k == ProtoKey ==> r == ps)
  {
    var r := Put(ps, k, v);
    var i := IndexOf(ps, k);
    if k == ProtoKey {
    } else if i == -1 {
      assert forall j :: 0 <= j < |ps| ==> r[j] == ps[j];
      assert r[|ps|] == (k, v);
    } else {
      assert r[i] == (k, v);
    }
  }

  /** `obj[k] = v` never makes a key occur twice. */
  lemma PutUnique(ps: seq<Entry>, k: string, v: JsValue)
    requires Unique(ps)
    ensures Unique(Put(ps, k, v))
  {
    var r := Put(ps, k, v);
    var i := IndexOf(ps, k);
    if k != ProtoKey && i == -1 {
      assert forall j :: 0 <= j < |ps| ==> r[j] == ps[j];
    }
  }

  /** Writing a key the object lacks adds it last, unless it is `__proto__`. */
  lemma PutNew(ps: seq<Entry>, k: string, v: JsValue)
    requires !HasKey(ps, k)
    ensures Put(ps, k, v) == if k == ProtoKey then ps else ps + [(k, v)]
  {
  }

  /** Writing a key the object has replaces its value where it stands, unless it is `__proto__`. */
  lemma PutExisting(ps: seq<Entry>, k: string, v: JsValue, i: int)
    requires Unique(ps) && 0 <= i < |ps| && ps[i].0 == k
    ensures Put(ps, k, v) == if k == ProtoKey then ps else ps[i := (k, v)]
  {
  }

  /**
   * Assigning onto an object keeps its keys first and in order, and the
   * keys afterwards are those of the object and those written, `__proto__`
   * excepted.
   */
  lemma {:induction false} AssignKeys(target: seq<Entry>, source: seq<Entry>)
    ensures var r := Assign(target, source);
      && KeysPrefix(target, r)
      && forall k :: HasKey(r, k) <==> HasKey(target, k) || (HasKey(source, k) && k != ProtoKey)
    decreases |source|
  {
    if source != [] {
      var front := source[..|source| - 1];
      var last := source[|source| - 1];
      assert forall k :: HasKey(source, k) <==> HasKey(front, k) || last.0 == k by {
        assert forall j :: 0 <= j < |front| ==> front[j] == source[j];
      }
      AssignKeys(target, front);
      PutKeys(Assign(target, front), last.0, last.1);
    }
  }

  /** Assigning onto an object whose keys are distinct keeps them distinct. */
  lemma {:induction false} AssignUnique(target: seq<Entry>, source: seq<Entry>)
    requires Unique(target)
    ensures Unique(Assign(target, source))
    decreases |source|
  {
    if source != [] {
      var last := source[|source| - 1];
      AssignUnique(target, source[..|source| - 1]);
      PutUnique(Assign(target, source[..|source| - 1]), last.0, last.1);
    }
  }

  /** One more write: the loop step of an assignment made key by key. */
  lemma AssignStep(target: seq<Entry>, source: seq<Entry>, i: int)
    requires 0 <= i < |source|
    ensures Assign(target, source[..i + 1]) == Put(Assign(target, source[..i]), source[i].0, source[i].1)
  {
    assert source[..i + 1][..i] == source[..i];
  }

  /** An object literal's own properties: each key once, and exactly the keys it writes other than `__proto__`. */
  lemma OwnEntriesOfObject(ps: seq<Entry>)
    ensures Unique(OwnEntries(Obj(ps)))
    ensures forall k :: HasKey(OwnEntries(Obj(ps)), k) <==> HasKey(ps, k) && k != ProtoKey
  {
    AssignUnique([], ps);
    AssignKeys([], ps);
  }

  /**
   * The own properties of a value, in the order `Object.keys` lists them.
   * An object literal that writes a key twice keeps the key where it was
   * first written, with the value last written, and a `__proto__` entry
   * sets its prototype instead of a property; arrays and strings have
   * their indices as keys; other values have none.
   */
  function OwnEntries(v: JsValue): seq<Entry>
  {
    match v
    case Obj(ps) => Assign([], ps)
    case Arr(es) => seq(|es|, i requires 0 <= i < |es| => (DecimalString(i), es[i]))
    case Str(s) => seq(|s|, i requires 0 <= i < |s| => (DecimalString(i), Str([s[i]])))
    case _ => []
  }

  /** The decimal spelling of an array index, as property keys carry it. */
  function DecimalString(n: nat): string
  {
    if n < 10 then ["0123456789"[n]] else DecimalString(n / 10) + ["0123456789"[n % 10]]
  }

  /** In a list without repeated keys, each key reads back its one value. */
  lemma {:induction false} GetAt(ps: seq<Entry>, i: int)
    requires Unique(ps) && 0 <= i < |ps|
    ensures Get(ps, ps[i].0) == Some(ps[i].1)
    decreases |ps|
  {
    if i < |ps| - 1 {
      var front := ps[..|ps| - 1];
      assert front[i] == ps[i];
      GetAt(front, i);
    }
  }

  /** After `obj[k] = v`, `obj[k]` reads `v` and every other key reads as before; `__proto__` writes nothing. */
  lemma PutGet(ps: seq<Entry>, k: string, v: JsValue, j: string)
    requires Unique(ps)
    ensures Get(Put(ps, k, v), j) == if j == k && k != ProtoKey then Some(v) else Get(ps, j)
  {
    var r := Put(ps, k, v);
    PutKeys(ps, k, v);
    PutUnique(ps, k, v);
    if k == ProtoKey {
    } else if j == k {
      var i :| 0 <= i < |r| && r[i] == (k, v);
      GetAt(r, i);
    } else if HasKey(ps, j) {
      var m :| 0 <= m < |ps| && ps[m].0 == j;
      GetAt(ps, m);
      GetAt(r, m);
    }
  }

  /**
   * After assigning the writes of `source` onto `target`, a key reads the
   * value `source` gives it when `source` writes it, and the value it had
   * in `target` otherwise; `__proto__` keeps reading as before.
   */
  lemma {:induction false} AssignGet(target: seq<Entry>, source: seq<Entry>, k: string)
    requires Unique(target)
    ensures Get(Assign(target, source), k) ==
      if Get(source, k).Some? && k != ProtoKey then Get(source, k) else Get(target, k)
    decreases |source|
  {
    if source != [] {
      var front := source[..|source| - 1];
      var last := source[|source| - 1];
      AssignGet(target, front, k);
      AssignUnique(target, front);
      PutGet(Assign(target, front), last.0, last.1, k);
    }
  }

  /** Assigning a list without repeated keys, and without `__proto__`, onto an empty object rebuilds that list. */
  lemma {:induction false} AssignOntoEmpty(ps: seq<Entry>)
    requires Unique(ps) && !HasKey(ps, ProtoKey)
    ensures Assign([], ps) == ps
    decreases |ps|
  {
    if ps != [] {
      var front := ps[..|ps| - 1];
      var last := ps[|ps| - 1];
      AssignOntoEmpty(front);
      assert !HasKey(front, last.0);
      PutNew(front, last.0, last.1);
      assert ps == front + [last];
    }
  }
}
