/**
 * The in-memory TTL cache for API responses (src/services/cache.ts).
 *
 * `Date.now()` becomes the explicit parameter `now` (milliseconds), and
 * `JSON.stringify` inside the key generator becomes the parameter `stringify`.
 */
module Cache {
  import opened Wrappers

  datatype CacheEntry<T> = CacheEntry(data: T, timestamp: int, expiresAt: int)

  /** Five minutes, in milliseconds. */
  const DefaultTtl: int := 5 * 60 * 1000

  /** `ttl || this.defaultTTL`: an absent or zero ttl falls back to the default. */
  function EffectiveTtl(ttl: Option<int>): (t: int)
    ensures ttl.None? || ttl.value == 0 ==> t == DefaultTtl
    ensures ttl.Some? && ttl.value != 0 ==> t == ttl.value
  {
    if ttl.Some? && ttl.value != 0 then ttl.value else DefaultTtl
  }

  /** The answer `get(key)` gives at time `now`: present and not past its expiry time. */
  function Lookup<T>(entries: map<string, CacheEntry<T>>, key: string, now: int): Option<T> {
    if key in entries && now <= entries[key].expiresAt then Some(entries[key].data) else None
  }

  /** The store after `set(key, data, ttl)` at time `now`. */
  function Stored<T>(entries: map<string, CacheEntry<T>>, key: string, data: T, ttl: Option<int>, now: int): map<string, CacheEntry<T>> {
    entries[key := CacheEntry(data, now, now + EffectiveTtl(ttl))]
  }

  /** The store after `get(key)` at time `now`: an expired entry for `key` is dropped. */
  function AfterGet<T>(entries: map<string, CacheEntry<T>>, key: string, now: int): map<string, CacheEntry<T>> {
    if key in entries && now > entries[key].expiresAt then entries - {key} else entries
  }

  class ApiCache<T> {
    var entries: map<string, CacheEntry<T>>

    constructor()
      ensures entries == map[]
    {
      entries := map[];
    }

    /** `get(key)` at time `now`. */
    method Get(key: string, now: int) returns (r: Option<T>)
      modifies this
      ensures r == Lookup(old(entries), key, now)
      ensures key !in old(entries) ==> r == None && entries == old(entries)
      ensures key in old(entries) && now > old(entries)[key].expiresAt ==> r == None && entries == old(entries) - {key}
      ensures key in old(entries) && now <= old(entries)[key].expiresAt ==> r == Some(old(entries)[key].data) && entries == old(entries)
    {
      if key !in entries {
        return None;
      }
      var entry := entries[key];
      if now > entry.expiresAt {
        entries := entries - {key};
        return None;
      }
      return Some(entry.data);
    }

    /** `set(key, data, ttl)` at time `now`: overwrites any earlier entry for `key`. */
    method Set(key: string, data: T, ttl: Option<int>, now: int)
      modifies this
      ensures entries == Stored(old(entries), key, data, ttl, now)
      ensures entries.Keys == old(entries).Keys + {key}
      ensures entries[key] == CacheEntry(data, now, now + EffectiveTtl(ttl))
    {
      var expiresAt := now + EffectiveTtl(ttl);
      entries := entries[key := CacheEntry(data, now, expiresAt)];
    }

    /** `delete(key)`. */
    method Delete(key: string)
      modifies this
      ensures entries == old(entries) - {key}
    {
      entries := entries - {key};
    }

    /** `clear()`. */
    method Clear()
      modifies this
      ensures entries == map[]
    {
      entries := map[];
    }
  }

  /** Right after `set`, `get` at the same time returns the new data, unless a negative ttl made it expire at once. */
  lemma SetThenGet<T>(entries: map<string, CacheEntry<T>>, key: string, data: T, ttl: Option<int>, now: int)
    ensures Lookup(Stored(entries, key, data, ttl, now), key, now) == if EffectiveTtl(ttl) >= 0 then Some(data) else None
    ensures ttl.None? ==> Lookup(Stored(entries, key, data, ttl, now), key, now) == Some(data)
  {
  }

  /** A stored entry is visible exactly up to and including its expiry time. */
  lemma StoredVisibleUntilExpiry<T>(entries: map<string, CacheEntry<T>>, key: string, data: T, ttl: Option<int>, now: int, t: int)
    ensures Lookup(Stored(entries, key, data, ttl, now), key, t) == if t <= now + EffectiveTtl(ttl) then Some(data) else None
  {
  }

  /** `set`, `delete` and the expiry in `get` touch no other key. */
  lemma OtherKeysUntouched<T>(entries: map<string, CacheEntry<T>>, key: string, other: string, data: T, ttl: Option<int>, now: int, t: int)
    requires other != key
    ensures Lookup(Stored(entries, key, data, ttl, now), other, t) == Lookup(entries, other, t)
    ensures Lookup(entries - {key}, other, t) == Lookup(entries, other, t)
    ensures Lookup(AfterGet(entries, key, now), other, t) == Lookup(entries, other, t)
  {
  }

  /** Removing an expired entry on read changes no answer from then on. */
  lemma ExpiryOnReadUnobservable<T>(entries: map<string, CacheEntry<T>>, key: string, now: int, k: string, t: int)
    requires t >= now
    ensures Lookup(AfterGet(entries, key, now), k, t) == Lookup(entries, k, t)
  {
  }

  // ---- generateKey -------------------------------------------------------

  /** Strict lexicographic order on strings, by character code: the default order of `sort()`. */
  predicate StrLess(a: string, b: string)
    decreases |a|
  {
    |b| > 0 && (|a| == 0 || a[0] < b[0] || (a[0] == b[0] && StrLess(a[1..], b[1..])))
  }

  lemma {:induction false} StrLessIrreflexive(a: string)
    ensures !StrLess(a, a)
    decreases |a|
  {
    if |a| > 0 {
      StrLessIrreflexive(a[1..]);
    }
  }

  lemma {:induction false} StrLessTransitive(a: string, b: string, c: string)
    requires StrLess(a, b) && StrLess(b, c)
    ensures StrLess(a, c)
    decreases |a|
  {
    if |a| > 0 && a[0] == b[0] && b[0] == c[0] {
      StrLessTransitive(a[1..], b[1..], c[1..]);
    }
  }

  lemma {:induction false} StrLessTotal(a: string, b: string)
    requires a != b
    ensures StrLess(a, b) || StrLess(b, a)
    decreases |a|
  {
    if |a| > 0 && |b| > 0 && a[0] == b[0] {
      assert a == [a[0]] + a[1..] && b == [b[0]] + b[1..];
      StrLessTotal(a[1..], b[1..]);
    }
  }

  predicate StrictlySorted(s: seq<string>) {
    forall i, j :: 0 <= i < j < |s| ==> StrLess(s[i], s[j])
  }

  /** Insert `x` in front of the first element that is not below it. */
  function Insert(x: string, s: seq<string>): (r: seq<string>)
    ensures multiset(r) == multiset(s) + multiset{x}
  {
    if s == [] then [x]
    else if StrLess(s[0], x) then
      assert s == [s[0]] + s[1..];
      [s[0]] + Insert(x, s[1..])
    else [x] + s
  }

  /** `keys.sort()`. */
  function SortStrings(xs: seq<string>): (r: seq<string>)
    ensures multiset(r) == multiset(xs)
  {
    if xs == [] then []
    else
      assert xs == [xs[0]] + xs[1..];
      Insert(xs[0], SortStrings(xs[1..]))
  }

  lemma SortedTail(s: seq<string>)
    requires |s| > 0 && StrictlySorted(s)
    ensures StrictlySorted(s[1..])
    ensures forall e :: e in s[1..] ==> StrLess(s[0], e)
  {
    var rest := s[1..];
    forall i, j | 0 <= i < j < |rest| ensures StrLess(rest[i], rest[j]) {
      assert rest[i] == s[i + 1] && rest[j] == s[j + 1];
    }
    forall e | e in rest ensures StrLess(s[0], e) {
      var k :| 0 <= k < |rest| && rest[k] == e;
      assert s[k + 1] == e;
    }
  }

  lemma SortedCons(h: string, t: seq<string>)
    requires StrictlySorted(t)
    requires forall e :: e in t ==> StrLess(h, e)
    ensures StrictlySorted([h] + t)
  {
    var s := [h] + t;
    forall i, j | 0 <= i < j < |s| ensures StrLess(s[i], s[j]) {
      assert s[j] == t[j - 1];
      if i > 0 {
        assert s[i] == t[i - 1];
      }
    }
  }

  lemma {:induction false} InsertSorted(x: string, s: seq<string>)
    requires StrictlySorted(s) && x !in s
    ensures StrictlySorted(Insert(x, s))
  {
    if s != [] {
      if StrLess(s[0], x) {
        var rest := s[1..];
        SortedTail(s);
        assert x !in rest;
        InsertSorted(x, rest);
        var ins := Insert(x, rest);
        forall e | e in ins ensures StrLess(s[0], e) {
          assert e in multiset(ins);
          if e != x {
            assert e in multiset(rest);
          }
        }
        SortedCons(s[0], ins);
      } else {
        StrLessTotal(s[0], x);
        forall e | e in s ensures StrLess(x, e) {
          if e != s[0] {
            SortedTail(s);
            assert e in s[1..];
            StrLessTransitive(x, s[0], e);
          }
        }
        SortedCons(x, s);
      }
    }
  }

  predicate NoDuplicates(s: seq<string>) {
    forall i, j :: 0 <= i < j < |s| ==> s[i] != s[j]
  }

  lemma {:induction false} SortedWhenDistinct(xs: seq<string>)
    requires NoDuplicates(xs)
    ensures StrictlySorted(SortStrings(xs))
  {
    if xs != [] {
      var rest := xs[1..];
      assert NoDuplicates(rest);
      SortedWhenDistinct(rest);
      var sorted := SortStrings(rest);
      assert xs[0] !in rest by {
        forall k | 0 <= k < |rest| ensures rest[k] != xs[0] {
          assert rest[k] == xs[k + 1];
        }
      }
      assert xs[0] !in multiset(sorted);
      InsertSorted(xs[0], sorted);
    }
  }

  /** Two strictly sorted lists with the same elements are the same list. */
  lemma {:induction false} SortedUnique(a: seq<string>, b: seq<string>)
    requires StrictlySorted(a) && StrictlySorted(b)
    requires forall x :: x in a <==> x in b
    ensures a == b
  {
    assert a == [] <==> b == [] by {
      if a != [] { assert a[0] in b; }
      if b != [] { assert b[0] in a; }
    }
    if a != [] && b != [] {
      assert a[0] in b && b[0] in a;
      if a[0] != b[0] {
        var i :| 0 < i < |b| && b[i] == a[0];
        var j :| 0 < j < |a| && a[j] == b[0];
        StrLessTransitive(a[0], b[0], a[0]);
        StrLessIrreflexive(a[0]);
      }
      assert a == [a[0]] + a[1..] && b == [b[0]] + b[1..];
      StrLessIrreflexive(a[0]);
      forall x ensures x in a[1..] <==> x in b[1..] {
        if x in a[1..] {
          var i :| 0 <= i < |a[1..]| && a[1..][i] == x;
          assert StrLess(a[0], a[i + 1]);
          assert x != b[0] && x in b;
          var k :| 0 <= k < |b| && b[k] == x;
          assert k > 0 && b[1..][k - 1] == x;
        }
        if x in b[1..] {
          var i :| 0 <= i < |b[1..]| && b[1..][i] == x;
          assert StrLess(b[0], b[i + 1]);
          assert x != a[0] && x in a;
          var k :| 0 <= k < |a| && a[k] == x;
          assert k > 0 && a[1..][k - 1] == x;
        }
      }
      SortedUnique(a[1..], b[1..]);
      assert a == [a[0]] + a[1..] && b == [b[0]] + b[1..];
    }
  }

  /** The property names of a parameter object, in insertion order. */
  function KeysOf<V>(params: seq<(string, V)>): (ks: seq<string>)
    ensures |ks| == |params|
    ensures forall i :: 0 <= i < |params| ==> ks[i] == params[i].0
  {
    seq(|params|, i requires 0 <= i < |params| => params[i].0)
  }

  /** `params[key]` (None when there is no such property). */
  function ParamValue<V>(params: seq<(string, V)>, key: string): Option<V> {
    if params == [] then None
    else if params[0].0 == key then Some(params[0].1)
    else ParamValue(params[1..], key)
  }

  /** `parts.join(sep)`. */
  function Join(parts: seq<string>, sep: string): string {
    if parts == [] then ""
    else if |parts| == 1 then parts[0]
    else parts[0] + sep + Join(parts[1..], sep)
  }

  /** `key:JSON.stringify(params[key])`. */
  function KeyPart<V>(params: seq<(string, V)>, key: string, stringify: Option<V> -> string): string {
    key + ":" + stringify(ParamValue(params, key))
  }

  /** The `name:value` part of each name, in the given order (the `map` step of `generateKey`). */
  function KeyParts<V>(params: seq<(string, V)>, keys: seq<string>, stringify: Option<V> -> string): (parts: seq<string>)
    ensures |parts| == |keys|
    ensures forall i :: 0 <= i < |keys| ==> parts[i] == KeyPart(params, keys[i], stringify)
  {
    seq(|keys|, i requires 0 <= i < |keys| => KeyPart(params, keys[i], stringify))
  }

  /** `generateKey(prefix, params)`: the sorted `key:value` parts joined by `|`, after `prefix:`. */
  function GenerateKey<V>(prefix: string, params: seq<(string, V)>, stringify: Option<V> -> string): string {
    prefix + ":" + Join(KeyParts(params, SortStrings(KeysOf(params)), stringify), "|")
  }

  lemma {:induction false} ParamValueOfMember<V>(params: seq<(string, V)>, key: string, v: V)
    requires NoDuplicates(KeysOf(params))
    requires (key, v) in params
    ensures ParamValue(params, key) == Some(v)
  {
    if params[0] != (key, v) {
      var rest := params[1..];
      assert (key, v) in rest;
      assert params[0].0 != key by {
        var k :| 0 <= k < |rest| && rest[k] == (key, v);
        assert params[k + 1] == (key, v);
        assert KeysOf(params)[0] != KeysOf(params)[k + 1];
      }
      assert NoDuplicates(KeysOf(rest)) by {
        forall i, j | 0 <= i < j < |rest| ensures KeysOf(rest)[i] != KeysOf(rest)[j] {
          assert KeysOf(rest)[i] == KeysOf(params)[i + 1] && KeysOf(rest)[j] == KeysOf(params)[j + 1];
        }
      }
      ParamValueOfMember(rest, key, v);
    }
  }

  /** Parameter objects with the same properties have the same property names. */
  lemma SameKeys<V>(p1: seq<(string, V)>, p2: seq<(string, V)>, x: string)
    requires forall e :: e in p1 <==> e in p2
    requires x in KeysOf(p1)
    ensures x in KeysOf(p2)
  {
    var k1 := KeysOf(p1);
    var i :| 0 <= i < |k1| && k1[i] == x;
    assert p1[i] in p2;
    var j :| 0 <= j < |p2| && p2[j] == p1[i];
    assert KeysOf(p2)[j] == x;
  }

  /** ... and so the same sorted property names. */
  lemma SortedKeysAgree<V>(p1: seq<(string, V)>, p2: seq<(string, V)>)
    requires NoDuplicates(KeysOf(p1)) && NoDuplicates(KeysOf(p2))
    requires forall e :: e in p1 <==> e in p2
    ensures SortStrings(KeysOf(p1)) == SortStrings(KeysOf(p2))
  {
    var k1 := KeysOf(p1);
    var k2 := KeysOf(p2);
    var s1 := SortStrings(k1);
    var s2 := SortStrings(k2);
    SortedWhenDistinct(k1);
    SortedWhenDistinct(k2);
    forall x ensures x in s1 <==> x in s2 {
      assert x in s1 <==> x in multiset(s1);
      assert x in s2 <==> x in multiset(s2);
      assert x in k1 <==> x in multiset(k1);
      assert x in k2 <==> x in multiset(k2);
      if x in k1 { SameKeys(p1, p2, x); }
      if x in k2 { SameKeys(p2, p1, x); }
    }
    SortedUnique(s1, s2);
  }

  /** Parameter objects with the same properties and no repeated name agree on every name's value. */
  lemma SameParamValue<V>(p1: seq<(string, V)>, p2: seq<(string, V)>, key: string)
    requires NoDuplicates(KeysOf(p1)) && NoDuplicates(KeysOf(p2))
    requires forall e :: e in p1 <==> e in p2
    requires key in KeysOf(p1)
    ensures ParamValue(p1, key) == ParamValue(p2, key)
  {
    var j :| 0 <= j < |p1| && KeysOf(p1)[j] == key;
    var v := p1[j].1;
    assert p1[j] == (key, v);
    assert (key, v) in p2;
    ParamValueOfMember(p1, key, v);
    ParamValueOfMember(p2, key, v);
  }

  /**
   * The key does not depend on the order in which the parameters were inserted:
   * two parameter objects with the same properties give the same key.
   */
  lemma GenerateKeyOrderInsensitive<V>(prefix: string, p1: seq<(string, V)>, p2: seq<(string, V)>, stringify: Option<V> -> string)
    requires NoDuplicates(KeysOf(p1)) && NoDuplicates(KeysOf(p2))
    requires forall e :: e in p1 <==> e in p2
    ensures GenerateKey(prefix, p1, stringify) == GenerateKey(prefix, p2, stringify)
  {
    SortedKeysAgree(p1, p2);
    var s := SortStrings(KeysOf(p1));
    var parts1 := KeyParts(p1, s, stringify);
    var parts2 := KeyParts(p2, s, stringify);
    forall i | 0 <= i < |s| ensures parts1[i] == parts2[i] {
      assert s[i] in multiset(s);
      assert s[i] in multiset(KeysOf(p1));
      SameParamValue(p1, p2, s[i]);
    }
    assert parts1 == parts2;
  }
}
