/** Sorting by a key, stably, as Python's sorted does; and when the result does not depend on the order given. */
module CanonicalOrder {

  /** Strings in the order of their code points. */
  predicate Less(a: string, b: string) {
    if b == "" then false
    else if a == "" then true
    else if a[0] != b[0] then a[0] < b[0]
    else Less(a[1..], b[1..])
  }

  /** A sort key of one or two strings. */
  datatype Key = Key(first: string, second: string)

  predicate KeyLess(k: Key, l: Key) { Less(k.first, l.first) || (k.first == l.first && Less(k.second, l.second)) }

  lemma {:induction false} LessTotal(a: string, b: string)
    ensures Less(a, b) || a == b || Less(b, a)
    ensures !(Less(a, b) && Less(b, a)) && (a == b ==> !Less(a, b))
  {
    if a != "" && b != "" {
      LessTotal(a[1..], b[1..]);
      if a[0] == b[0] && a[1..] == b[1..] { assert a == [a[0]] + a[1..] && b == [b[0]] + b[1..]; }
    }
  }

  lemma {:induction false} LessTransitive(a: string, b: string, c: string)
    requires Less(a, b) && Less(b, c)
    ensures Less(a, c)
  {
    if a != "" && a[0] == b[0] == c[0] { LessTransitive(a[1..], b[1..], c[1..]); }
  }

  lemma KeyTotal(k: Key, l: Key)
    ensures KeyLess(k, l) || k == l || KeyLess(l, k)
    ensures !(KeyLess(k, l) && KeyLess(l, k)) && (k == l ==> !KeyLess(k, l))
  {
    LessTotal(k.first, l.first);
    LessTotal(k.second, l.second);
  }

  lemma KeyTransitive(k: Key, l: Key, m: Key)
    requires KeyLess(k, l) && KeyLess(l, m)
    ensures KeyLess(k, m)
  {
    if Less(k.first, l.first) && Less(l.first, m.first) { LessTransitive(k.first, l.first, m.first); }
    LessTotal(k.first, k.first);
    LessTotal(l.first, l.first);
    if Less(k.second, l.second) && Less(l.second, m.second) { LessTransitive(k.second, l.second, m.second); }
  }

  /** Put an element behind every element of a sorted sequence whose key is not greater. */
  function Insert<T>(s: seq<T>, x: T, key: T -> Key): seq<T> {
    if s == [] then [x]
    else if KeyLess(key(x), key(s[|s| - 1])) then Insert(s[..|s| - 1], x, key) + [s[|s| - 1]]
    else s + [x]
  }

  function SortBy<T>(s: seq<T>, key: T -> Key): seq<T> {
    if s == [] then [] else Insert(SortBy(s[..|s| - 1], key), s[|s| - 1], key)
  }

  predicate Sorted<T>(s: seq<T>, key: T -> Key) {
    forall i :: 0 <= i < |s| - 1 ==> !KeyLess(key(s[i + 1]), key(s[i]))
  }

  lemma {:induction false} InsertCounts<T>(s: seq<T>, x: T, key: T -> Key)
    ensures multiset(Insert(s, x, key)) == multiset(s) + multiset{x} && |Insert(s, x, key)| == |s| + 1
  {
    hide KeyLess;
    if s != [] && KeyLess(key(x), key(s[|s| - 1])) {
      InsertCounts(s[..|s| - 1], x, key);
      assert s == s[..|s| - 1] + [s[|s| - 1]];
    }
  }

  lemma SortedAppend<T>(s: seq<T>, x: T, key: T -> Key)
    requires Sorted(s, key) && (s == [] || !KeyLess(key(x), key(s[|s| - 1])))
    ensures Sorted(s + [x], key)
  {
    hide KeyLess;
  }

  lemma {:induction false} InsertSorts<T>(s: seq<T>, x: T, key: T -> Key)
    requires Sorted(s, key)
    ensures Sorted(Insert(s, x, key), key)
    ensures Insert(s, x, key) != []
    ensures var last := Insert(s, x, key)[|Insert(s, x, key)| - 1]; last == x || (s != [] && last == s[|s| - 1])
  {
    hide KeyLess;
    if s != [] && KeyLess(key(x), key(s[|s| - 1])) {
      var init, last := s[..|s| - 1], s[|s| - 1];
      assert Sorted(init, key);
      InsertSorts(init, x, key);
      KeyTotal(key(x), key(last));
      if init != [] { assert s[|s| - 2 + 1] == last && init[|init| - 1] == s[|s| - 2]; }
      SortedAppend(Insert(init, x, key), last, key);
    } else {
      SortedAppend(s, x, key);
    }
  }

  lemma {:induction false} SortSorts<T>(s: seq<T>, key: T -> Key)
    ensures Sorted(SortBy(s, key), key) && multiset(SortBy(s, key)) == multiset(s)
  {
    if s != [] {
      SortSorts(s[..|s| - 1], key);
      InsertSorts(SortBy(s[..|s| - 1], key), s[|s| - 1], key);
      InsertCounts(SortBy(s[..|s| - 1], key), s[|s| - 1], key);
      hide Insert, Sorted;
      assert s == s[..|s| - 1] + [s[|s| - 1]];
    }
  }

  /** Sorting what is sorted changes nothing, whatever repeats in it. */
  lemma {:induction false} SortKeepsSorted<T>(s: seq<T>, key: T -> Key)
    requires Sorted(s, key)
    ensures SortBy(s, key) == s
  {
    if s != [] {
      var init := s[..|s| - 1];
      SortKeepsSorted(init, key);
      if init != [] { assert !KeyLess(key(s[|s| - 2 + 1]), key(s[|s| - 2])); }
      assert s == init + [s[|s| - 1]];
    }
  }

  lemma SortIsIdempotent<T>(s: seq<T>, key: T -> Key)
    ensures SortBy(SortBy(s, key), key) == SortBy(s, key)
  {
    SortSorts(s, key);
    SortKeepsSorted(SortBy(s, key), key);
  }

  /** Elements with the same key are the same. */
  ghost predicate KeysIdentify<T(!new)>(s: seq<T>, key: T -> Key) {
    forall i, j :: 0 <= i < |s| && 0 <= j < |s| && key(s[i]) == key(s[j]) ==> s[i] == s[j]
  }

  lemma {:induction false} LastIsGreatest<T>(s: seq<T>, key: T -> Key, i: nat)
    requires Sorted(s, key) && i < |s|
    ensures !KeyLess(key(s[|s| - 1]), key(s[i]))
    decreases |s| - i
  {
    KeyTotal(key(s[i]), key(s[i]));
    if i < |s| - 1 {
      LastIsGreatest(s, key, i + 1);
      var a, b, z := key(s[i]), key(s[i + 1]), key(s[|s| - 1]);
      assert !KeyLess(b, a);
      KeyTotal(a, b);
      KeyTotal(b, z);
      KeyTotal(a, z);
      if KeyLess(z, a) {
        if KeyLess(a, b) { KeyTransitive(z, a, b); }
      }
    }
  }

  lemma LastsAgree<T(!new)>(s: seq<T>, t: seq<T>, key: T -> Key)
    requires Sorted(s, key) && Sorted(t, key) && multiset(s) == multiset(t) && KeysIdentify(s, key) && s != []
             && t != []
    ensures s[|s| - 1] == t[|t| - 1]
  {
    hide KeyLess, Sorted;
    var a, b := s[|s| - 1], t[|t| - 1];
    assert b in multiset(t) && a in multiset(s);
    assert b in multiset(s) && a in multiset(t);
    var i :| 0 <= i < |s| && s[i] == b;
    var j :| 0 <= j < |t| && t[j] == a;
    LastIsGreatest(s, key, i);
    LastIsGreatest(t, key, j);
    KeyTotal(key(a), key(b));
  }

  lemma WithoutLast<T>(s: seq<T>, t: seq<T>)
    requires multiset(s) == multiset(t) && s != [] && t != [] && s[|s| - 1] == t[|t| - 1]
    ensures multiset(s[..|s| - 1]) == multiset(t[..|t| - 1])
  {
    var a := s[|s| - 1];
    assert s == s[..|s| - 1] + [a] && t == t[..|t| - 1] + [a];
    assert multiset(s[..|s| - 1]) == multiset(s) - multiset{a};
    assert multiset(t[..|t| - 1]) == multiset(t) - multiset{a};
  }

  lemma PrefixFacts<T(!new)>(s: seq<T>, key: T -> Key)
    requires Sorted(s, key) && KeysIdentify(s, key) && s != []
    ensures Sorted(s[..|s| - 1], key) && KeysIdentify(s[..|s| - 1], key)
  {
    hide KeyLess;
  }

  /** Two sorted sequences of the same elements are equal, when keys identify elements. */
  lemma {:induction false} SortedIsUnique<T(!new)>(s: seq<T>, t: seq<T>, key: T -> Key)
    requires Sorted(s, key) && Sorted(t, key) && multiset(s) == multiset(t) && KeysIdentify(s, key)
    ensures s == t
    decreases |s|
  {
    SameLength(s, t);
    if s != [] {
      LastsAgree(s, t, key);
      WithoutLast(s, t);
      PrefixFacts(s, key);
      IdentifyIsOrderless(s, t, key);
      PrefixFacts(t, key);
      hide Sorted, KeysIdentify;
      SortedIsUnique(s[..|s| - 1], t[..|t| - 1], key);
      assert s == s[..|s| - 1] + [s[|s| - 1]] && t == t[..|t| - 1] + [t[|t| - 1]];
    }
  }

  lemma SameLength<T>(s: seq<T>, t: seq<T>)
    requires multiset(s) == multiset(t)
    ensures |s| == |t|
  {
    assert |multiset(s)| == |s| && |multiset(t)| == |t|;
  }

  lemma IdentifyIsOrderless<T(!new)>(s: seq<T>, t: seq<T>, key: T -> Key)
    requires multiset(s) == multiset(t) && KeysIdentify(s, key)
    ensures KeysIdentify(t, key)
  {
    forall i, j | 0 <= i < |t| && 0 <= j < |t| && key(t[i]) == key(t[j]) ensures t[i] == t[j] {
      assert t[i] in multiset(s) && t[j] in multiset(s);
      var k :| 0 <= k < |s| && s[k] == t[i];
      var l :| 0 <= l < |s| && s[l] == t[j];
    }
  }

  /** Sorting gives the same result for every order of the same elements, when keys identify elements. */
  lemma SortIgnoresOrder<T(!new)>(s: seq<T>, t: seq<T>, key: T -> Key)
    requires multiset(s) == multiset(t) && KeysIdentify(s, key)
    ensures SortBy(s, key) == SortBy(t, key)
  {
    SortSorts(s, key);
    SortSorts(t, key);
    IdentifyIsOrderless(s, SortBy(s, key), key);
    SortedIsUnique(SortBy(s, key), SortBy(t, key), key);
  }

  // ---------- which order it is ----------

  /** A string comes before another that it begins, and otherwise by the first character that differs. */
  lemma {:induction false} LessExactly(a: string, b: string)
    ensures Less(a, b) <==> a < b || exists k :: 0 <= k < |a| && k < |b| && a[..k] == b[..k] && a[k] < b[k]
  {
    if a != "" && b != "" && a[0] == b[0] {
      LessExactly(a[1..], b[1..]);
      assert a == [a[0]] + a[1..] && b == [b[0]] + b[1..];
      if k :| 0 <= k < |a| && k < |b| && a[..k] == b[..k] && a[k] < b[k] {
        assert k > 0 && a[1..][..k - 1] == a[..k][1..] && b[1..][..k - 1] == b[..k][1..];
      }
      if k :| 0 <= k < |a[1..]| && k < |b[1..]| && a[1..][..k] == b[1..][..k] && a[1..][k] < b[1..][k] {
        assert a[..k + 1] == [a[0]] + a[1..][..k] && b[..k + 1] == [b[0]] + b[1..][..k];
        assert a[..k + 1] == b[..k + 1] && a[k + 1] < b[k + 1];
      }
    } else if a != "" && b != "" {
      assert a[..0] == b[..0];
    }
  }

  /** A sorted sequence ascends from every element to every later one. */
  lemma {:induction false} SortAscends<T>(s: seq<T>, key: T -> Key, i: nat, j: nat)
    requires i < j < |SortBy(s, key)|
    ensures !KeyLess(key(SortBy(s, key)[j]), key(SortBy(s, key)[i]))
  {
    SortSorts(s, key);
    var t := SortBy(s, key)[..j + 1];
    hide SortBy, KeyLess;
    LastIsGreatest(t, key, i);
  }
}
