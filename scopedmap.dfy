/**
 * A map with nested scopes. Ending a scope rolls back every insert made since the
 * matching `BeginScope`; `InsertGlobal` writes through every open scope.
 *
 * The representation is the one of the Rust type: for each key a stack of values (one
 * element per scope that changed the key, plus one if the key was set globally) and a
 * stack of changed-key sets (one per open scope). The abstract value is the sequence of
 * maps visible at each scope depth: `View()[0]` is what remains after every open scope is
 * ended and the last element is what `Get` currently sees.
 */
module ScopedMaps {
  import opened Wrappers

  /** Number of changed-key sets at index `d` or above that contain `k`. */
  function CountFrom<K>(changed: seq<set<K>>, k: K, d: nat): nat
    decreases |changed| - d
  {
    if d >= |changed| then 0
    else (if k in changed[d] then 1 else 0) + CountFrom(changed, k, d + 1)
  }

  lemma {:induction false} CountFromAppend<K>(changed: seq<set<K>>, s: set<K>, k: K, d: nat)
    requires d <= |changed|
    ensures CountFrom(changed + [s], k, d) == CountFrom(changed, k, d) + (if k in s then 1 else 0)
    decreases |changed| - d
  {
    if d < |changed| {
      CountFromAppend(changed, s, k, d + 1);
      assert (changed + [s])[d] == changed[d];
    }
  }

  lemma {:induction false} CountFromPositive<K>(changed: seq<set<K>>, k: K, d: nat, i: nat)
    requires d <= i < |changed| && k in changed[i]
    ensures CountFrom(changed, k, d) >= 1
    decreases i - d
  {
    if d < i {
      CountFromPositive(changed, k, d + 1, i);
    }
  }

  lemma {:induction false} CountFromZero<K>(changed: seq<set<K>>, k: K, d: nat)
    requires forall i :: d <= i < |changed| ==> k !in changed[i]
    ensures CountFrom(changed, k, d) == 0
    decreases |changed| - d
  {
    if d < |changed| {
      CountFromZero(changed, k, d + 1);
    }
  }

  lemma {:induction false} CountFromMonotone<K>(changed: seq<set<K>>, k: K, d: nat)
    ensures forall e :: d <= e ==> CountFrom(changed, k, e) <= CountFrom(changed, k, d)
    decreases |changed| - d
  {
    if d < |changed| {
      CountFromMonotone(changed, k, d + 1);
    }
  }

  /** Removing `key` from every set leaves the counts of the other keys and zeroes `key`'s. */
  lemma {:induction false} CountFromRemove<K>(changed: seq<set<K>>, removed: seq<set<K>>, key: K, k: K, d: nat)
    requires |removed| == |changed|
    requires forall j :: 0 <= j < |changed| ==> removed[j] == changed[j] - {key}
    ensures CountFrom(removed, k, d) == if k == key then 0 else CountFrom(changed, k, d)
    decreases |changed| - d
  {
    if d < |changed| {
      CountFromRemove(changed, removed, key, k, d + 1);
    }
  }

  /**
   * The two representation invariants of the Rust type: (1) every value stack has at least
   * one element; (2) its size is the number of changed-key sets holding the key, plus one if
   * the key was set in the global scope. A key in a changed-key set has a value stack.
   */
  ghost predicate Inv<K(!new), V>(stacks: map<K, seq<V>>, changed: seq<set<K>>) {
    && (forall k :: k in stacks ==>
          1 <= |stacks[k]| && CountFrom(changed, k, 0) <= |stacks[k]| <= CountFrom(changed, k, 0) + 1)
    && (forall i, k :: 0 <= i < |changed| && k in changed[i] ==> k in stacks)
  }

  /** The value of `k` visible at scope depth `d`, if any. */
  ghost function At<K(!new), V>(stacks: map<K, seq<V>>, changed: seq<set<K>>, d: nat, k: K): Option<V> {
    if k in stacks && CountFrom(changed, k, d) < |stacks[k]|
    then Some(stacks[k][|stacks[k]| - 1 - CountFrom(changed, k, d)])
    else None
  }

  /** The whole map visible at scope depth `d`. */
  ghost function Level<K(!new), V>(stacks: map<K, seq<V>>, changed: seq<set<K>>, d: nat): (m: map<K, V>)
    ensures forall k :: Lookup(m, k) == At(stacks, changed, d, k)
  {
    map k | k in stacks && CountFrom(changed, k, d) < |stacks[k]|
      :: stacks[k][|stacks[k]| - 1 - CountFrom(changed, k, d)]
  }

  /** The maps visible at every scope depth, outermost (global) first. */
  ghost function Scopes<K(!new), V>(stacks: map<K, seq<V>>, changed: seq<set<K>>): (v: seq<map<K, V>>)
    ensures |v| == |changed| + 1
  {
    seq(|changed| + 1, d requires 0 <= d <= |changed| => Level(stacks, changed, d))
  }

  lemma LevelsEqual<K(!new), V>(s1: map<K, seq<V>>, c1: seq<set<K>>, d1: nat, s2: map<K, seq<V>>, c2: seq<set<K>>, d2: nat)
    requires forall k :: At(s1, c1, d1, k) == At(s2, c2, d2, k)
    ensures Level(s1, c1, d1) == Level(s2, c2, d2)
  {
    var m1, m2 := Level(s1, c1, d1), Level(s2, c2, d2);
    assert forall k :: k in m1 <==> Lookup(m1, k).Some?;
    assert forall k :: k in m2 <==> Lookup(m2, k).Some?;
  }

  lemma LevelUpdated<K(!new), V>(s1: map<K, seq<V>>, c1: seq<set<K>>, d1: nat, s2: map<K, seq<V>>, c2: seq<set<K>>, d2: nat, key: K, val: V)
    requires forall k :: k != key ==> At(s1, c1, d1, k) == At(s2, c2, d2, k)
    requires At(s2, c2, d2, key) == Some(val)
    ensures Level(s2, c2, d2) == Level(s1, c1, d1)[key := val]
  {
    var m1, m2 := Level(s1, c1, d1)[key := val], Level(s2, c2, d2);
    assert forall k :: Lookup(m1, k) == Lookup(m2, k) by {
      forall k ensures Lookup(m1, k) == Lookup(m2, k) {
        if k != key {
          assert Lookup(m1, k) == Lookup(Level(s1, c1, d1), k);
        }
      }
    }
    assert forall k :: k in m1 <==> Lookup(m1, k).Some?;
    assert forall k :: k in m2 <==> Lookup(m2, k).Some?;
  }

  /** Whether `insert` pushes a new value for `key` (true) or overwrites the top one. */
  predicate IsNewInScope<K(!new), V>(s: map<K, seq<V>>, c: seq<set<K>>, key: K) {
    if |c| == 0 then key !in s else key !in c[|c| - 1]
  }

  /** The representation change made by `insert`: the key joins the innermost changed-key
    * set; a new value is pushed when the key is new in the scope, else the top is replaced. */
  ghost predicate InsertStep<K(!new), V>(s: map<K, seq<V>>, c: seq<set<K>>, key: K, val: V, s2: map<K, seq<V>>, c2: seq<set<K>>) {
    && (|c| == 0 ==> c2 == c)
    && (|c| > 0 ==> c2 == c[..|c| - 1] + [c[|c| - 1] + {key}])
    && (IsNewInScope(s, c, key) ==> s2 == s[key := (if key in s then s[key] else []) + [val]])
    && (!IsNewInScope(s, c, key) ==> key in s && |s[key]| > 0 && s2 == s[key := s[key][..|s[key]| - 1] + [val]])
  }

  lemma InsertCounts<K(!new), V>(s: map<K, seq<V>>, c: seq<set<K>>, key: K, val: V, s2: map<K, seq<V>>, c2: seq<set<K>>, k: K, d: nat)
    requires InsertStep(s, c, key, val, s2, c2)
    requires d < |c|
    ensures CountFrom(c2, k, d) == CountFrom(c, k, d) + (if k == key && IsNewInScope(s, c, key) then 1 else 0)
  {
    var n := |c|;
    var p := c[..n - 1];
    assert c == p + [c[n - 1]];
    CountFromAppend(p, c[n - 1], k, d);
    CountFromAppend(p, c[n - 1] + {key}, k, d);
  }

  lemma InsertKeepsInv<K(!new), V>(s: map<K, seq<V>>, c: seq<set<K>>, key: K, val: V, s2: map<K, seq<V>>, c2: seq<set<K>>)
    requires Inv(s, c)
    requires InsertStep(s, c, key, val, s2, c2)
    ensures Inv(s2, c2)
  {
    var n := |c|;
    forall k | k in s2
      ensures 1 <= |s2[k]| && CountFrom(c2, k, 0) <= |s2[k]| <= CountFrom(c2, k, 0) + 1
    {
      if n > 0 {
        InsertCounts(s, c, key, val, s2, c2, k, 0);
      }
      if k == key && key !in s {
        forall i | 0 <= i < n ensures key !in c[i] { }
        CountFromZero(c, key, 0);
      }
    }
    forall i, k | 0 <= i < |c2| && k in c2[i] ensures k in s2 {
      if i < n - 1 {
        assert c2[i] == c[i];
      }
    }
  }

  lemma InsertKeepsOuterLevel<K(!new), V>(s: map<K, seq<V>>, c: seq<set<K>>, key: K, val: V, s2: map<K, seq<V>>, c2: seq<set<K>>, d: nat)
    requires Inv(s, c)
    requires InsertStep(s, c, key, val, s2, c2)
    requires d < |c|
    ensures Level(s2, c2, d) == Level(s, c, d)
  {
    forall k ensures At(s, c, d, k) == At(s2, c2, d, k) {
      InsertCounts(s, c, key, val, s2, c2, k, d);
      if k == key && !IsNewInScope(s, c, key) {
        CountFromPositive(c, key, d, |c| - 1);
      }
    }
    LevelsEqual(s, c, d, s2, c2, d);
  }

  lemma InsertUpdatesInnermostLevel<K(!new), V>(s: map<K, seq<V>>, c: seq<set<K>>, key: K, val: V, s2: map<K, seq<V>>, c2: seq<set<K>>)
    requires Inv(s, c)
    requires InsertStep(s, c, key, val, s2, c2)
    ensures Level(s2, c2, |c|) == Level(s, c, |c|)[key := val]
  {
    var n := |c|;
    assert |c2| == n;
    forall k ensures CountFrom(c2, k, n) == 0 && CountFrom(c, k, n) == 0 { }
    assert s2[key][|s2[key]| - 1] == val;
    LevelUpdated(s, c, n, s2, c2, n, key, val);
  }

  /** What an insert does to the representation leaves every outer scope as it was and
    * updates the innermost one. */
  lemma InsertKeepsOuterScopes<K(!new), V>(s: map<K, seq<V>>, c: seq<set<K>>, key: K, val: V, s2: map<K, seq<V>>, c2: seq<set<K>>)
    requires Inv(s, c)
    requires InsertStep(s, c, key, val, s2, c2)
    ensures Scopes(s2, c2) == Scopes(s, c)[..|c|] + [Level(s, c, |c|)[key := val]]
  {
    var n := |c|;
    var v1, v2 := Scopes(s2, c2), Scopes(s, c)[..n] + [Level(s, c, n)[key := val]];
    assert |c2| == n;
    forall d | 0 <= d <= n ensures v1[d] == v2[d] {
      if d < n {
        InsertKeepsOuterLevel(s, c, key, val, s2, c2, d);
      } else {
        InsertUpdatesInnermostLevel(s, c, key, val, s2, c2);
      }
    }
  }

  /** A global insert writes `val` for `key` into the map of every scope depth. */
  lemma InsertGlobalWritesAllScopes<K(!new), V>(s: map<K, seq<V>>, c: seq<set<K>>, key: K, val: V, c2: seq<set<K>>)
    requires Inv(s, c)
    requires |c2| == |c|
    requires forall j :: 0 <= j < |c| ==> c2[j] == c[j] - {key}
    ensures Inv(s[key := [val]], c2)
    ensures |Scopes(s[key := [val]], c2)| == |Scopes(s, c)|
    ensures forall d :: 0 <= d <= |c| ==> Scopes(s[key := [val]], c2)[d] == Scopes(s, c)[d][key := val]
  {
    var s2 := s[key := [val]];
    forall k, d: nat ensures CountFrom(c2, k, d) == if k == key then 0 else CountFrom(c, k, d) {
      CountFromRemove(c, c2, key, k, d);
    }
    assert Inv(s2, c2) by {
      forall i, k | 0 <= i < |c2| && k in c2[i] ensures k in s2 {
        assert k in c[i];
      }
    }
    forall d: nat | d <= |c| ensures Level(s2, c2, d) == Level(s, c, d)[key := val] {
      LevelUpdated(s, c, d, s2, c2, d, key, val);
    }
  }

  /** Opening a scope keeps every depth and repeats the innermost map one level deeper. */
  lemma BeginScopeRepeatsInnermost<K(!new), V>(s: map<K, seq<V>>, c: seq<set<K>>)
    requires Inv(s, c)
    ensures Inv(s, c + [{}])
    ensures Scopes(s, c + [{}]) == Scopes(s, c) + [Level(s, c, |c|)]
  {
    var c2 := c + [{}];
    forall k, d: nat | d <= |c| ensures CountFrom(c2, k, d) == CountFrom(c, k, d) {
      CountFromAppend(c, {}, k, d);
    }
    assert Inv(s, c2) by {
      forall i, k | 0 <= i < |c2| && k in c2[i] ensures k in s {
        assert c2[i] == c[i];
      }
    }
    forall d | 0 <= d <= |c| ensures Level(s, c2, d) == Level(s, c, d) {
      LevelsEqual(s, c, d, s, c2, d);
    }
    LevelsEqual(s, c, |c|, s, c2, |c| + 1);
  }

  /** The value stacks after one value is popped for each key of `ks`; a stack left empty
    * is removed. */
  ghost function PopKeys<K(!new), V>(stacks: map<K, seq<V>>, ks: set<K>): map<K, seq<V>> {
    map k | k in stacks && (k !in ks || |stacks[k]| > 1)
      :: if k in ks then stacks[k][..|stacks[k]| - 1] else stacks[k]
  }

  /** Ending a scope drops the innermost map and leaves every other depth as it was. */
  lemma EndScopeDropsInnermost<K(!new), V>(s: map<K, seq<V>>, c: seq<set<K>>)
    requires Inv(s, c) && |c| > 0
    ensures Inv(PopKeys(s, c[|c| - 1]), c[..|c| - 1])
    ensures Scopes(PopKeys(s, c[|c| - 1]), c[..|c| - 1]) == Scopes(s, c)[..|c|]
  {
    var n := |c|;
    var top, p := c[n - 1], c[..n - 1];
    var s2 := PopKeys(s, top);
    assert c == p + [top];
    forall k, d: nat | d <= |p| ensures CountFrom(c, k, d) == CountFrom(p, k, d) + (if k in top then 1 else 0) {
      CountFromAppend(p, top, k, d);
    }
    forall k | k in top ensures k in s && CountFrom(c, k, 0) >= 1 {
      CountFromPositive(c, k, 0, n - 1);
    }
    assert Inv(s2, p) by {
      forall i, k | 0 <= i < |p| && k in p[i] ensures k in s2 {
        assert k in c[i];
        if k in top {
          CountFromPositive(c, k, 0, i);
          CountFromPositive(c, k, i + 1, n - 1);
          assert CountFrom(c, k, 0) >= CountFrom(c, k, i) by {
            CountFromMonotone(c, k, 0);
          }
        }
      }
    }
    forall d: nat | d <= |p| ensures Level(s2, p, d) == Level(s, c, d) {
      LevelsEqual(s, c, d, s2, p, d);
    }
  }

  class ScopedMap<K(==,!new), V> {
    var keyToValueStack: map<K, seq<V>>
    var changedKeysStack: seq<set<K>>

    ghost predicate Valid()
      reads this
    {
      Inv(keyToValueStack, changedKeysStack)
    }

    /** The map visible at each scope depth; the last element is the current map. */
    ghost function View(): (v: seq<map<K, V>>)
      reads this
      ensures |v| == |changedKeysStack| + 1
    {
      Scopes(keyToValueStack, changedKeysStack)
    }

    /** Returns a new map with no entries and no open scope. */
    constructor ()
      ensures Valid()
      ensures View() == [map[]]
    {
      keyToValueStack := map[];
      changedKeysStack := [];
      new;
      assert Level(keyToValueStack, changedKeysStack, 0) == map[];
    }

    /** Retrieves the value the innermost scope sees for `key`. */
    function Get(key: K): (r: Option<V>)
      reads this
      requires Valid()
      ensures r == Lookup(View()[|View()| - 1], key)
    {
      if key in keyToValueStack then
        var values := keyToValueStack[key];
        Some(values[|values| - 1])
      else None
    }

    /** The whole map the innermost scope sees. */
    function Current(): (m: map<K, V>)
      reads this
      requires Valid()
      ensures m == View()[|View()| - 1]
    {
      var m := map k | k in keyToValueStack :: keyToValueStack[k][|keyToValueStack[k]| - 1];
      LevelsEqual(keyToValueStack, changedKeysStack, |changedKeysStack|, keyToValueStack, [], 0);
      m
    }

    /** Inserts the pair in the innermost scope; a second insert of the same key in the same
      * scope overwrites the first. */
    method Insert(key: K, val: V)
      requires Valid()
      modifies this
      ensures Valid()
      ensures View() == old(View())[..|old(View())| - 1] + [old(View())[|old(View())| - 1][key := val]]
      ensures Get(key) == Some(val)
    {
      ghost var s, c := keyToValueStack, changedKeysStack;
      var newInScope: bool;
      if |changedKeysStack| == 0 {
        newInScope := key !in keyToValueStack;
      } else {
        var changedKeys := changedKeysStack[|changedKeysStack| - 1];
        newInScope := key !in changedKeys;
        changedKeysStack := changedKeysStack[..|changedKeysStack| - 1] + [changedKeys + {key}];
      }
      if newInScope {
        var values := if key in keyToValueStack then keyToValueStack[key] else [];
        keyToValueStack := keyToValueStack[key := values + [val]];
      } else {
        var values := keyToValueStack[key];
        keyToValueStack := keyToValueStack[key := values[..|values| - 1] + [val]];
      }
      InsertKeepsInv(s, c, key, val, keyToValueStack, changedKeysStack);
      InsertKeepsOuterScopes(s, c, key, val, keyToValueStack, changedKeysStack);
    }

    /** Inserts the pair in the global scope, erasing the key from every open scope. */
    method InsertGlobal(key: K, val: V)
      requires Valid()
      modifies this
      ensures Valid()
      ensures |View()| == |old(View())|
      ensures forall d :: 0 <= d < |View()| ==> View()[d] == old(View())[d][key := val]
    {
      for i := 0 to |changedKeysStack|
        invariant |changedKeysStack| == |old(changedKeysStack)|
        invariant forall j :: 0 <= j < i ==> changedKeysStack[j] == old(changedKeysStack)[j] - {key}
        invariant forall j :: i <= j < |changedKeysStack| ==> changedKeysStack[j] == old(changedKeysStack)[j]
        invariant keyToValueStack == old(keyToValueStack)
      {
        changedKeysStack := changedKeysStack[i := changedKeysStack[i] - {key}];
      }
      keyToValueStack := keyToValueStack[key := [val]];
      InsertGlobalWritesAllScopes(old(keyToValueStack), old(changedKeysStack), key, val, changedKeysStack);
    }

    /** Opens a new scope; what `Get` sees does not change. */
    method BeginScope()
      requires Valid()
      modifies this
      ensures Valid()
      ensures View() == old(View()) + [old(View())[|old(View())| - 1]]
    {
      BeginScopeRepeatsInnermost(keyToValueStack, changedKeysStack);
      changedKeysStack := changedKeysStack + [{}];
    }

    /** Ends the innermost scope, rolling back every change made in it; returns false, changing
      * nothing, when no scope is open. */
    method EndScope() returns (ended: bool)
      requires Valid()
      modifies this
      ensures Valid()
      ensures ended <==> |old(View())| > 1
      ensures ended ==> View() == old(View())[..|old(View())| - 1]
      ensures !ended ==> View() == old(View())
    {
      if |changedKeysStack| == 0 {
        return false;
      }
      ghost var s, c := keyToValueStack, changedKeysStack;
      var changedKeys := changedKeysStack[|changedKeysStack| - 1];
      changedKeysStack := changedKeysStack[..|changedKeysStack| - 1];
      var remaining := changedKeys;
      while remaining != {}
        invariant remaining <= changedKeys
        invariant changedKeysStack == c[..|c| - 1]
        invariant keyToValueStack == PopKeys(s, changedKeys - remaining)
        decreases remaining
      {
        var k :| k in remaining;
        assert k in s && |s[k]| >= 1 by {
          assert k in c[|c| - 1];
        }
        assert keyToValueStack[k] == s[k];
        var values := keyToValueStack[k];
        if |values| <= 1 {
          keyToValueStack := keyToValueStack - {k};
        } else {
          keyToValueStack := keyToValueStack[k := values[..|values| - 1]];
        }
        remaining := remaining - {k};
        assert keyToValueStack == PopKeys(s, changedKeys - remaining);
      }
      assert changedKeys - remaining == changedKeys;
      EndScopeDropsInnermost(s, c);
      return true;
    }
  }
}
