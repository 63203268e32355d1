/** The pending user-property list of `ApphudDataActor`: an ordered list
    holding at most the latest value per key once built by
    `addPendingUserProperty` ("remove the same key, then append"). */
module PendingProperties {
  import opened Json

  /** A queued user-property update. Only the key matters to the list. */
  datatype UserProperty = UserProperty(key: string, value: Json)

  /** `removeAll { $0.key == key }`: the entries with another key, in order. */
  function WithoutKey(props: seq<UserProperty>, key: string): (r: seq<UserProperty>)
    ensures |r| <= |props|
    ensures forall i :: 0 <= i < |r| ==> r[i].key != key
  {
    if props == [] then []
    else
      var init, last := props[..|props| - 1], props[|props| - 1];
      assert props == init + [last];
      WithoutKey(init, key) + (if last.key == key then [] else [last])
  }

  /** `removeAll` keeps exactly the entries whose key differs. */
  lemma {:induction false} WithoutKeyMembers(props: seq<UserProperty>, key: string, p: UserProperty)
    ensures p in WithoutKey(props, key) <==> p in props && p.key != key
    decreases |props|
  {
    if props != [] {
      var init, last := props[..|props| - 1], props[|props| - 1];
      assert props == init + [last];
      WithoutKeyMembers(init, key, p);
    }
  }

  /** How many entries carry `key`. */
  function KeyCount(props: seq<UserProperty>, key: string): nat
  {
    if props == [] then 0
    else KeyCount(props[..|props| - 1], key) + (if props[|props| - 1].key == key then 1 else 0)
  }

  /** No key occurs twice. */
  ghost predicate UniqueKeys(props: seq<UserProperty>) {
    forall k :: KeyCount(props, k) <= 1
  }

  lemma {:induction false} KeyCountAppend(a: seq<UserProperty>, b: seq<UserProperty>, key: string)
    ensures KeyCount(a + b, key) == KeyCount(a, key) + KeyCount(b, key)
    decreases |b|
  {
    if b == [] {
      assert a + b == a;
    } else {
      var init := b[..|b| - 1];
      assert (a + b)[..|a + b| - 1] == a + init;
      assert (a + b)[|a + b| - 1] == b[|b| - 1];
      KeyCountAppend(a, init, key);
    }
  }

  lemma {:induction false} WithoutKeyAppend(a: seq<UserProperty>, b: seq<UserProperty>, key: string)
    ensures WithoutKey(a + b, key) == WithoutKey(a, key) + WithoutKey(b, key)
    decreases |b|
  {
    if b == [] {
      assert a + b == a;
    } else {
      var init, last := b[..|b| - 1], b[|b| - 1];
      assert (a + b)[..|a + b| - 1] == a + init;
      assert (a + b)[|a + b| - 1] == last;
      WithoutKeyAppend(a, init, key);
    }
  }

  /** Removing a key leaves no entry with it, and as many entries with any
      other key as before. */
  lemma {:induction false} KeyCountWithoutKey(props: seq<UserProperty>, key: string, k: string)
    ensures KeyCount(WithoutKey(props, key), k) == if k == key then 0 else KeyCount(props, k)
    decreases |props|
  {
    if props != [] {
      var init, last := props[..|props| - 1], props[|props| - 1];
      KeyCountWithoutKey(init, key, k);
      KeyCountAppend(WithoutKey(init, key), if last.key == key then [] else [last], k);
    }
  }

  /** Removing the same key twice removes nothing more. */
  lemma {:induction false} WithoutKeyIdempotent(props: seq<UserProperty>, key: string)
    ensures WithoutKey(WithoutKey(props, key), key) == WithoutKey(props, key)
    decreases |props|
  {
    if props != [] {
      var init, last := props[..|props| - 1], props[|props| - 1];
      WithoutKeyIdempotent(init, key);
      WithoutKeyAppend(WithoutKey(init, key), if last.key == key then [] else [last], key);
    }
  }

  /** After adding `x` there is exactly one entry with `x.key`: `x` itself, last. */
  lemma AddLeavesOneEntryForKey(props: seq<UserProperty>, x: UserProperty)
    ensures KeyCount(WithoutKey(props, x.key) + [x], x.key) == 1
    ensures (WithoutKey(props, x.key) + [x])[|WithoutKey(props, x.key)|] == x
  {
    KeyCountAppend(WithoutKey(props, x.key), [x], x.key);
    KeyCountWithoutKey(props, x.key, x.key);
    assert [x][..0] == [];
  }

  /** Adding `x` keeps every entry with another key, in its relative order:
      removing `x.key` from the new list gives the old list without `x.key`. */
  lemma AddKeepsOtherEntriesInOrder(props: seq<UserProperty>, x: UserProperty)
    ensures WithoutKey(WithoutKey(props, x.key) + [x], x.key) == WithoutKey(props, x.key)
  {
    WithoutKeyAppend(WithoutKey(props, x.key), [x], x.key);
    WithoutKeyIdempotent(props, x.key);
    assert [x][..0] == [];
  }

  /** Adding keeps the list free of duplicate keys. */
  lemma AddKeepsKeysUnique(props: seq<UserProperty>, x: UserProperty)
    requires UniqueKeys(props)
    ensures UniqueKeys(WithoutKey(props, x.key) + [x])
  {
    forall k ensures KeyCount(WithoutKey(props, x.key) + [x], k) <= 1 {
      KeyCountAppend(WithoutKey(props, x.key), [x], k);
      KeyCountWithoutKey(props, x.key, k);
      assert [x][..0] == [];
    }
  }

  /** Adding a key that is already queued moves it to the end with its new
      value: `[a, b]` plus a new `a` is `[b, a']`. */
  lemma UpdateMovesKeyToEnd(a: UserProperty, b: UserProperty, a': UserProperty)
    requires a.key == a'.key && a.key != b.key
    ensures WithoutKey([a, b], a'.key) + [a'] == [b, a']
  {
    assert [a, b][..1] == [a];
    assert [a][..0] == [];
  }
}
