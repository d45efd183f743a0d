/**
 * The JavaScript array operations the admin panel builds its new collections with,
 * over sequences of records that carry a string key (`id`):
 *   `s.filter(x => x.id !== k)`, `s.map(x => x.id === k ? v : x)`,
 *   `s.find(x => x.id === k)` and `copy.splice(index, 1)`.
 * The key is passed as a projection function so one definition serves products,
 * categories and neighborhoods alike.
 */
module Collections {
  import opened Wrappers

  /** No two elements of `s` share a key. */
  ghost predicate UniqueKeys<T>(s: seq<T>, key: T -> string) {
    forall i, j :: 0 <= i < j < |s| ==> key(s[i]) != key(s[j])
  }

  /** Some element of `s` has key `k`. */
  ghost predicate HasKey<T>(s: seq<T>, key: T -> string, k: string) {
    exists i :: 0 <= i < |s| && key(s[i]) == k
  }

  /** `s.filter(x => key(x) !== k)`: no longer than `s`, and no element left has key `k`. */
  function WithoutKey<T>(s: seq<T>, key: T -> string, k: string): (r: seq<T>)
    ensures |r| <= |s|
    ensures !HasKey(r, key, k)
  {
    if s == [] then []
    else
      var rest := WithoutKey(s[1..], key, k);
      var r := (if key(s[0]) != k then [s[0]] else []) + rest;
      assert forall i :: 0 <= i < |r| - |rest| ==> r[i] == s[0];
      assert forall i :: |r| - |rest| <= i < |r| ==> r[i] == rest[i - (|r| - |rest|)];
      r
  }

  /** The filtered list holds exactly the elements of `s` whose key is not `k`. */
  lemma {:induction false} WithoutKeyMembers<T>(s: seq<T>, key: T -> string, k: string, x: T)
    ensures x in WithoutKey(s, key, k) <==> x in s && key(x) != k
  {
    if s != [] {
      WithoutKeyMembers(s[1..], key, k, x);
      assert s == [s[0]] + s[1..];
    }
  }

  /** Filtering distributes over concatenation, so the survivors keep their relative order. */
  lemma {:induction false} WithoutKeyAppend<T>(a: seq<T>, b: seq<T>, key: T -> string, k: string)
    ensures WithoutKey(a + b, key, k) == WithoutKey(a, key, k) + WithoutKey(b, key, k)
  {
    if a == [] {
      assert a + b == b;
    } else {
      assert (a + b)[1..] == a[1..] + b;
      WithoutKeyAppend(a[1..], b, key, k);
    }
  }

  /** Filtering out a key nobody has changes nothing. */
  lemma {:induction false} WithoutKeyAbsent<T>(s: seq<T>, key: T -> string, k: string)
    requires !HasKey(s, key, k)
    ensures WithoutKey(s, key, k) == s
  {
    if s != [] {
      assert key(s[0]) != k;
      assert !HasKey(s[1..], key, k) by {
        forall j | 0 <= j < |s| - 1 ensures key(s[1..][j]) != k { assert s[1..][j] == s[j + 1]; }
      }
      WithoutKeyAbsent(s[1..], key, k);
      assert [s[0]] + s[1..] == s;
    }
  }

  /** The filtered list holds exactly the elements of `s` whose key is not `k`, for every element at once. */
  lemma WithoutKeyMembersAll<T(!new)>(s: seq<T>, key: T -> string, k: string)
    ensures forall x :: x in WithoutKey(s, key, k) <==> x in s && key(x) != k
  {
    forall x { WithoutKeyMembers(s, key, k, x); }
  }

  /**
   * Deleting the key of the element at index `i`, when keys are unique, removes exactly
   * that element and keeps every other in its original order.
   */
  lemma {:induction false} WithoutKeyAt<T>(s: seq<T>, key: T -> string, i: nat)
    requires UniqueKeys(s, key) && i < |s|
    ensures WithoutKey(s, key, key(s[i])) == s[..i] + s[i + 1..]
  {
    var k := key(s[i]);
    var tail := s[1..];
    assert UniqueKeys(tail, key) by {
      forall a, b | 0 <= a < b < |tail| ensures key(tail[a]) != key(tail[b]) {
        assert tail[a] == s[a + 1] && tail[b] == s[b + 1];
      }
    }
    if i == 0 {
      assert !HasKey(tail, key, k) by {
        forall j | 0 <= j < |tail| ensures key(tail[j]) != k { assert tail[j] == s[j + 1]; }
      }
      WithoutKeyAbsent(tail, key, k);
    } else {
      assert tail[i - 1] == s[i];
      WithoutKeyAt(tail, key, i - 1);
      assert key(s[0]) != k;
      assert [s[0]] + (tail[..i - 1] + tail[i..]) == s[..i] + s[i + 1..];
    }
  }

  /** Filtering keeps keys unique. */
  lemma WithoutKeyKeepsUnique<T>(s: seq<T>, key: T -> string, k: string)
    ensures UniqueKeys(s, key) ==> UniqueKeys(WithoutKey(s, key, k), key)
  {
    if !UniqueKeys(s, key) {
    } else if HasKey(s, key, k) {
      var i :| 0 <= i < |s| && key(s[i]) == k;
      WithoutKeyAt(s, key, i);
      var r := s[..i] + s[i + 1..];
      forall a, b | 0 <= a < b < |r| ensures key(r[a]) != key(r[b]) {
        var a' := if a < i then a else a + 1;
        var b' := if b < i then b else b + 1;
        assert r[a] == s[a'] && r[b] == s[b'];
      }
    } else {
      WithoutKeyAbsent(s, key, k);
    }
  }

  /** `s.map(x => key(x) === k ? v : x)`: same length, `v` wherever the key was `k`, the rest untouched. */
  function ReplaceKey<T>(s: seq<T>, key: T -> string, k: string, v: T): (r: seq<T>)
    ensures |r| == |s|
    ensures forall i :: 0 <= i < |s| ==> r[i] == if key(s[i]) == k then v else s[i]
  {
    if s == [] then []
    else [if key(s[0]) == k then v else s[0]] + ReplaceKey(s[1..], key, k, v)
  }

  /** With unique keys, replacing by key is replacing in place at the one index that holds the key. */
  lemma ReplaceKeyAt<T>(s: seq<T>, key: T -> string, j: nat, v: T)
    requires UniqueKeys(s, key) && j < |s|
    ensures ReplaceKey(s, key, key(s[j]), v) == s[j := v]
  {
    var r := ReplaceKey(s, key, key(s[j]), v);
    forall i | 0 <= i < |s| ensures r[i] == s[j := v][i] {
      if i != j {
        assert key(s[i]) != key(s[j]) by {
          if i < j { } else { }
        }
      }
    }
  }

  /** Replacing a key nobody has changes nothing. */
  lemma ReplaceKeyAbsent<T>(s: seq<T>, key: T -> string, k: string, v: T)
    requires !HasKey(s, key, k)
    ensures ReplaceKey(s, key, k, v) == s
  {
    var r := ReplaceKey(s, key, k, v);
    forall i | 0 <= i < |s| ensures r[i] == s[i] {
      assert key(s[i]) != k;
    }
  }

  /** A replacement that carries the replaced key leaves every key where it was, so uniqueness is kept. */
  lemma ReplaceKeyKeepsKeys<T>(s: seq<T>, key: T -> string, k: string, v: T)
    requires key(v) == k
    ensures forall i :: 0 <= i < |s| ==> key(ReplaceKey(s, key, k, v)[i]) == key(s[i])
    ensures UniqueKeys(s, key) ==> UniqueKeys(ReplaceKey(s, key, k, v), key)
  {
  }

  /** `s.find(x => key(x) === k)`: the first element with key `k`, or nothing when no element has it. */
  function FindByKey<T(==)>(s: seq<T>, key: T -> string, k: string): (r: Option<T>)
    ensures r.None? <==> !HasKey(s, key, k)
    ensures r.Some? ==> exists i :: 0 <= i < |s| && s[i] == r.value && key(s[i]) == k
                          && forall j :: 0 <= j < i ==> key(s[j]) != k
  {
    if s == [] then None
    else if key(s[0]) == k then Some(s[0])
    else
      var r := FindByKey(s[1..], key, k);
      assert HasKey(s, key, k) ==> HasKey(s[1..], key, k) by {
        if HasKey(s, key, k) {
          var i :| 0 <= i < |s| && key(s[i]) == k;
          assert i != 0 && s[1..][i - 1] == s[i];
        }
      }
      if r.Some? then
        var i :| 0 <= i < |s| - 1 && s[1..][i] == r.value && key(s[1..][i]) == k
                 && forall j :: 0 <= j < i ==> key(s[1..][j]) != k;
        assert s[i + 1] == r.value && forall j :: 0 <= j < i + 1 ==> key(s[j]) != k by {
          forall j | 0 <= j < i + 1 ensures key(s[j]) != k {
            if j > 0 { assert s[j] == s[1..][j - 1]; }
          }
        }
        r
      else
        r
  }

  /** With unique keys, `find` returns the one element that has the key. */
  lemma FindByKeyUnique<T>(s: seq<T>, key: T -> string, i: nat)
    requires UniqueKeys(s, key) && i < |s|
    ensures FindByKey(s, key, key(s[i])) == Some(s[i])
  {
    var r := FindByKey(s, key, key(s[i]));
    var j :| 0 <= j < |s| && s[j] == r.value && key(s[j]) == key(s[i])
             && forall l :: 0 <= l < j ==> key(s[l]) != key(s[i]);
    if j != i {
      if j < i { } else { }
    }
  }

  /**
   * `copy.splice(index, 1)`: removes the element at `index`, an index counted from the end
   * when negative; an index at or past the end removes nothing.
   */
  function SpliceOne<T>(s: seq<T>, index: int): (r: seq<T>)
    ensures 0 <= index < |s| ==> r == s[..index] + s[index + 1..]
    ensures -|s| <= index < 0 ==> r == s[..|s| + index] + s[|s| + index + 1..]
    ensures index < -|s| && s != [] ==> r == s[1..]
    ensures index >= |s| || s == [] ==> r == s
  {
    var start := if index < 0 then (if |s| + index < 0 then 0 else |s| + index)
                 else if index > |s| then |s| else index;
    if start < |s| then s[..start] + s[start + 1..] else s
  }

  /**
   * Removing a valid index takes out exactly one element, `s[i]`: the elements before it stay
   * where they were, the ones after move down by one, and nothing else is lost.
   */
  lemma SpliceOneAt<T>(s: seq<T>, i: nat)
    requires i < |s|
    ensures var r := SpliceOne(s, i);
      |r| == |s| - 1
      && (forall k :: 0 <= k < i ==> r[k] == s[k])
      && (forall k :: i <= k < |r| ==> r[k] == s[k + 1])
      && multiset(r) + multiset{s[i]} == multiset(s)
  {
    var r := SpliceOne(s, i);
    assert s == s[..i] + [s[i]] + s[i + 1..];
  }

  /** Appending a record under a fresh id keeps ids unique. */
  lemma AppendFreshKeepsUnique<T>(s: seq<T>, key: T -> string, x: T)
    requires UniqueKeys(s, key) && !HasKey(s, key, key(x))
    ensures UniqueKeys(s + [x], key)
  {
    var r := s + [x];
    forall i, j | 0 <= i < j < |r| ensures key(r[i]) != key(r[j]) {
      assert r[i] == s[i];
    }
  }
}
