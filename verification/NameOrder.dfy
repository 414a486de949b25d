/** Code-point order of strings, and sorting by a string key. */
module NameOrder {

  predicate Before(a: string, b: string) {
    b != [] && (a == [] || a[0] < b[0] || (a[0] == b[0] && Before(a[1..], b[1..])))
  }

  // The first `k` characters are the same, and then `a` ends, or has the smaller character.
  ghost predicate FirstDifference(a: string, b: string, k: nat) {
    && k <= |a| && k < |b| && a[..k] == b[..k] && (k == |a| || a[k] < b[k])
  }

  /** It is the order by code points: of two strings the one comes first that has the smaller character where they first
      differ, or that ends there. */
  lemma {:induction false} BeforeIff(a: string, b: string)
    ensures Before(a, b) <==> exists k: nat :: FirstDifference(a, b, k)
  {
    if a != [] && b != [] {
      BeforeIff(a[1..], b[1..]);
      if k: nat :| FirstDifference(a[1..], b[1..], k) && a[0] == b[0] {
        assert a[..k + 1] == [a[0]] + a[1..][..k] && b[..k + 1] == [b[0]] + b[1..][..k];
        assert FirstDifference(a, b, k + 1);
      }
      if k: nat :| FirstDifference(a, b, k) && k > 0 {
        assert a[..k][1..] == a[1..][..k - 1] && b[..k][1..] == b[1..][..k - 1] && a[..k][0] == b[..k][0];
        assert FirstDifference(a[1..], b[1..], k - 1);
      }
    }
    if b != [] && (a == [] || a[0] < b[0]) { assert FirstDifference(a, b, 0); }
  }

  lemma {:induction false} BeforeOrders(a: string, b: string)
    ensures !(Before(a, b) && Before(b, a)) && !Before(a, a)
    ensures Before(a, b) || Before(b, a) || a == b
  {
    if a != [] && b != [] {
      BeforeOrders(a[1..], b[1..]);
      BeforeOrders(a[1..], a[1..]);
      assert a == [a[0]] + a[1..] && b == [b[0]] + b[1..];
    } else if a != [] {
      BeforeOrders(a[1..], a[1..]);
    }
  }

  lemma {:induction false} BeforeTrans(a: string, b: string, c: string)
    requires Before(a, b) && Before(b, c)
    ensures Before(a, c)
  {
    if a != [] && a[0] == b[0] == c[0] { BeforeTrans(a[1..], b[1..], c[1..]); }
  }

  /* ---- Sorting ---- */

  function Insert<T>(key: T -> string, x: T, s: seq<T>): (r: seq<T>)
    ensures |r| == |s| + 1
  {
    if s == [] then [x]
    else if Before(key(s[0]), key(x)) then [s[0]] + Insert(key, x, s[1..])
    else [x] + s
  }

  function Sort<T>(key: T -> string, s: seq<T>): (r: seq<T>)
    ensures |r| == |s|
  {
    if s == [] then [] else Insert(key, s[0], Sort(key, s[1..]))
  }

  ghost predicate Ascending<T(!new)>(key: T -> string, s: seq<T>) {
    forall i, j :: 0 <= i < j < |s| ==> Before(key(s[i]), key(s[j]))
  }

  ghost predicate DistinctKeys<T(!new)>(key: T -> string, s: seq<T>) {
    forall i, j :: 0 <= i < j < |s| ==> key(s[i]) != key(s[j])
  }

  lemma {:induction false} InsertKeeps<T>(key: T -> string, x: T, s: seq<T>)
    ensures multiset(Insert(key, x, s)) == multiset(s) + multiset{x}
  {
    if s != [] {
      assert s == [s[0]] + s[1..];
      if Before(key(s[0]), key(x)) { InsertKeeps(key, x, s[1..]); }
    }
  }

  lemma {:induction false} SortKeeps<T>(key: T -> string, s: seq<T>)
    ensures multiset(Sort(key, s)) == multiset(s)
    ensures forall x :: x in Sort(key, s) <==> x in s
  {
    if s != [] {
      SortKeeps(key, s[1..]);
      InsertKeeps(key, s[0], Sort(key, s[1..]));
      assert s == [s[0]] + s[1..];
    }
    forall x ensures x in Sort(key, s) <==> x in s {
      assert x in Sort(key, s) <==> x in multiset(Sort(key, s));
      assert x in s <==> x in multiset(s);
    }
  }

  lemma {:induction false} InsertMember<T>(key: T -> string, x: T, s: seq<T>, y: T)
    ensures y in Insert(key, x, s) <==> y == x || y in s
  {
    InsertKeeps(key, x, s);
    assert y in Insert(key, x, s) <==> y in multiset(Insert(key, x, s));
    assert y in s <==> y in multiset(s);
  }

  lemma {:induction false} InsertAscending<T(!new)>(key: T -> string, x: T, s: seq<T>)
    requires Ascending(key, s) && forall k :: 0 <= k < |s| ==> key(s[k]) != key(x)
    ensures Ascending(key, Insert(key, x, s))
  {
    if s != [] {
      if Before(key(s[0]), key(x)) {
        InsertAscending(key, x, s[1..]);
        var rest := Insert(key, x, s[1..]);
        forall k | 0 <= k < |rest| ensures Before(key(s[0]), key(rest[k])) {
          InsertMember(key, x, s[1..], rest[k]);
          if rest[k] != x {
            var j :| 0 <= j < |s[1..]| && s[1..][j] == rest[k];
            assert s[j + 1] == rest[k];
          }
        }
        assert Insert(key, x, s) == [s[0]] + rest;
      } else {
        BeforeOrders(key(s[0]), key(x));
        forall k | 0 <= k < |s| ensures Before(key(x), key(s[k])) {
          if k > 0 { BeforeTrans(key(x), key(s[0]), key(s[k])); }
        }
        assert Insert(key, x, s) == [x] + s;
      }
    }
  }

  lemma {:induction false} SortAscending<T(!new)>(key: T -> string, s: seq<T>)
    requires DistinctKeys(key, s)
    ensures Ascending(key, Sort(key, s))
  {
    if s != [] {
      SortAscending(key, s[1..]);
      var rest := Sort(key, s[1..]);
      forall k | 0 <= k < |rest| ensures key(rest[k]) != key(s[0]) {
        SortKeeps(key, s[1..]);
        assert rest[k] in s[1..];
        var j :| 0 <= j < |s[1..]| && s[1..][j] == rest[k];
        assert s[j + 1] == rest[k];
      }
      InsertAscending(key, s[0], rest);
    }
  }

  // The least element comes first in either of two ascending sequences of the same elements.
  lemma AscendingFirst<T(!new)>(key: T -> string, a: seq<T>, b: seq<T>)
    requires Ascending(key, a) && Ascending(key, b) && a != [] && b != [] && forall x :: x in a <==> x in b
    ensures a[0] == b[0]
  {
    assert a[0] in b && b[0] in a;
    var i :| 0 <= i < |b| && b[i] == a[0];
    var j :| 0 <= j < |a| && a[j] == b[0];
    if i > 0 && j > 0 { BeforeOrders(key(a[0]), key(b[0])); }
  }

  lemma {:induction false} AscendingUnique<T(!new)>(key: T -> string, a: seq<T>, b: seq<T>)
    requires Ascending(key, a) && Ascending(key, b) && forall x :: x in a <==> x in b
    ensures a == b
  {
    NotEmpty(a, b);
    NotEmpty(b, a);
    if a != [] {
      AscendingFirst(key, a, b);
      RestSame(key, a, b);
      RestSame(key, b, a);
      AscendingUnique(key, a[1..], b[1..]);
      assert a == [a[0]] + a[1..] && b == [b[0]] + b[1..];
    }
  }

  lemma NotEmpty<T(!new)>(a: seq<T>, b: seq<T>)
    requires forall x :: x in a ==> x in b
    ensures a != [] ==> b != []
  {
    if a != [] { assert a[0] in b; }
  }

  lemma RestSame<T(!new)>(key: T -> string, a: seq<T>, b: seq<T>)
    requires Ascending(key, a) && a != [] && b != [] && a[0] == b[0] && forall x :: x in a ==> x in b
    ensures forall x :: x in a[1..] ==> x in b[1..]
  {
    forall x | x in a[1..] ensures x in b[1..] {
      var i :| 0 <= i < |a[1..]| && a[1..][i] == x;
      assert a[i + 1] == x && x in b;
      BeforeOrders(key(a[0]), key(x));
      assert b == [b[0]] + b[1..];
    }
  }

  /** Sequences of the same elements, with distinct keys, are sorted into the same sequence. */
  lemma SortUnique<T(!new)>(key: T -> string, a: seq<T>, b: seq<T>)
    requires DistinctKeys(key, a) && DistinctKeys(key, b) && forall x :: x in a <==> x in b
    ensures Sort(key, a) == Sort(key, b)
  {
    SortAscending(key, a);
    SortAscending(key, b);
    SortKeeps(key, a);
    SortKeeps(key, b);
    AscendingUnique(key, Sort(key, a), Sort(key, b));
  }
}
