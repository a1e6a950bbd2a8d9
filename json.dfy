/**
 * The JSON value tree the decoder reads. Turning JSON text into this tree is the
 * job of the serialization library's lexer and is not part of this model.
 */
module JsonValue {
  import opened Wrappers

  /**
   * A JSON value. Numbers are integers: no property of the component schema is
   * numeric, so a number only ever appears as a value of the wrong kind or as
   * part of an ignored key.
   */
  datatype Json =
    | JNull
    | JBool(b: bool)
    | JNum(n: int)
    | JStr(s: string)
    | JArr(elems: seq<Json>)
    | JObj(members: Members)

  /** The members of a JSON object, in the order in which they were written. */
  type Members = seq<(string, Json)>

  /** The set of keys an object has. */
  function Keys(ms: Members): set<string> {
    set m | m in ms :: m.0
  }

  /**
   * The value stored under `key`. On an object with a repeated key this picks
   * the first occurrence. That choice is the model's own: `LookupAppend` states
   * it, and a property stated through `Lookup` describes it on such an object.
   */
  function Lookup(ms: Members, key: string): (r: Option<Json>)
    ensures r.Some? ==> (key, r.value) in ms
    ensures r.None? <==> key !in Keys(ms)
  {
    if ms == [] then None
    else if ms[0].0 == key then Some(ms[0].1)
    else
      assert Keys(ms) == {ms[0].0} + Keys(ms[1..]) by {
        assert ms == [ms[0]] + ms[1..];
      }
      Lookup(ms[1..], key)
  }

  /** The object `ms` with the member `(key, v)` written at position `i`. */
  function Insert(ms: Members, i: nat, key: string, v: Json): (r: Members)
    requires i <= |ms|
    ensures |r| == |ms| + 1 && r[i] == (key, v)
    ensures r[..i] == ms[..i] && r[i + 1..] == ms[i..]
  {
    ms[..i] + [(key, v)] + ms[i..]
  }

  /** The object `ms` with every member whose key is `key` deleted. */
  function Remove(ms: Members, key: string): (r: Members)
    ensures key !in Keys(r)
    ensures forall m :: m in r <==> m in ms && m.0 != key
  {
    if ms == [] then []
    else if ms[0].0 == key then Remove(ms[1..], key)
    else [ms[0]] + Remove(ms[1..], key)
  }

  /** The object whose i-th member is the string `vals[i]` under the key `keys[i]`. */
  function StringMembers(keys: seq<string>, vals: seq<string>): (r: Members)
    requires |keys| == |vals|
    ensures |r| == |keys| && forall i | 0 <= i < |keys| :: r[i] == (keys[i], JStr(vals[i]))
  {
    seq(|keys|, i requires 0 <= i < |keys| => (keys[i], JStr(vals[i])))
  }

  /** No key is written twice in the object. */
  predicate DistinctKeys(ms: Members) {
    forall i, j :: 0 <= i < j < |ms| ==> ms[i].0 != ms[j].0
  }

  /** Every object anywhere inside `j` has distinct keys. */
  predicate WellFormed(j: Json) {
    match j
    case JArr(es) => forall e | e in es :: WellFormed(e)
    case JObj(ms) => DistinctKeys(ms) && forall m | m in ms :: WellFormed(m.1)
    case _ => true
  }

  /** Inserting a member under one key does not change what any other key holds. */
  lemma {:induction false} LookupInsertOther(ms: Members, i: nat, key: string, v: Json, other: string)
    requires i <= |ms| && other != key
    ensures Lookup(Insert(ms, i, key, v), other) == Lookup(ms, other)
  {
    if i > 0 {
      assert Insert(ms, i, key, v) == [ms[0]] + Insert(ms[1..], i - 1, key, v);
      LookupInsertOther(ms[1..], i - 1, key, v, other);
    }
  }

  /** Deleting the members under one key does not change what any other key holds. */
  lemma {:induction false} LookupRemoveOther(ms: Members, key: string, other: string)
    requires other != key
    ensures Lookup(Remove(ms, key), other) == Lookup(ms, other)
  {
    if ms != [] {
      LookupRemoveOther(ms[1..], key, other);
    }
  }

  /** Looking a key up in two objects written one after the other finds it in the first if it is there. */
  lemma {:induction false} LookupAppend(ms: Members, ns: Members, key: string)
    ensures Lookup(ms + ns, key) == if key in Keys(ms) then Lookup(ms, key) else Lookup(ns, key)
  {
    if ms == [] {
      assert ms + ns == ns;
    } else {
      assert (ms + ns)[1..] == ms[1..] + ns;
      assert Keys(ms) == {ms[0].0} + Keys(ms[1..]) by {
        assert ms == [ms[0]] + ms[1..];
      }
      LookupAppend(ms[1..], ns, key);
    }
  }

  /** Each key of an object built from distinct keys holds the string written beside it. */
  lemma LookupStringMembers(keys: seq<string>, vals: seq<string>, i: nat)
    requires |keys| == |vals| && i < |keys|
    requires forall a, b | 0 <= a < b < |keys| :: keys[a] != keys[b]
    ensures Lookup(StringMembers(keys, vals), keys[i]) == Some(JStr(vals[i]))
  {
    var ms := StringMembers(keys, vals);
    assert ms[i] == (keys[i], JStr(vals[i]));
    LookupDistinct(ms, keys[i], JStr(vals[i]));
  }

  /** In an object with distinct keys a key holds exactly the value written beside it. */
  lemma {:induction false} LookupDistinct(ms: Members, key: string, v: Json)
    requires DistinctKeys(ms) && (key, v) in ms
    ensures Lookup(ms, key) == Some(v)
  {
    if ms[0].0 != key {
      var i :| 0 <= i < |ms| && ms[i] == (key, v);
      assert ms[1..][i - 1] == (key, v);
      LookupDistinct(ms[1..], key, v);
    }
  }

  /**
   * Two orderings of the same members, both without repeated keys, hold the same
   * value under every key: JSON objects are unordered (section 4 of RFC 8259).
   */
  lemma LookupPermutation(ms: Members, ms': Members, key: string)
    requires DistinctKeys(ms) && DistinctKeys(ms')
    requires multiset(ms) == multiset(ms')
    ensures Lookup(ms, key) == Lookup(ms', key)
  {
    forall m | true ensures m in ms <==> m in ms' {
      assert m in ms <==> m in multiset(ms);
      assert m in ms' <==> m in multiset(ms');
    }
    match Lookup(ms, key)
    case Some(v) => LookupDistinct(ms', key, v);
    case None =>
  }
}
