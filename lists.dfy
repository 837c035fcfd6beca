/** Duplicate-free lists: the release list of a NodeImage is kept without
    duplicates by adding only absent elements and removing the first
    occurrence. */
module Lists {

  predicate NoDup<T(==)>(s: seq<T>) {
    forall i, j :: 0 <= i < j < |s| ==> s[i] != s[j]
  }

  function Elements<T(==)>(s: seq<T>): set<T> {
    set x | x in s
  }

  /** `s` without its first occurrence of `x`. */
  function RemoveFirst<T(==)>(s: seq<T>, x: T): (r: seq<T>)
    ensures |r| == if x in s then |s| - 1 else |s|
  {
    if s == [] then []
    else if s[0] == x then
      assert s == [s[0]] + s[1..];
      s[1..]
    else
      assert s == [s[0]] + s[1..];
      [s[0]] + RemoveFirst(s[1..], x)
  }

  /** The list after adding `x` unless it is already listed. */
  function AddOnce<T(==)>(s: seq<T>, x: T): (r: seq<T>)
    ensures |r| == if x in s then |s| else |s| + 1
    ensures x in r && r[..|s|] == s
  {
    if x in s then s else s + [x]
  }

  /** When `x` first occurs at `i`, removing it splices out exactly index `i`. */
  lemma {:induction false} RemoveFirstAt<T>(s: seq<T>, x: T, i: nat)
    requires i < |s| && s[i] == x
    requires forall k :: 0 <= k < i ==> s[k] != x
    ensures RemoveFirst(s, x) == s[..i] + s[i + 1..]
    decreases i
  {
    if i == 0 {
      assert s[..0] + s[1..] == s[1..];
    } else {
      var t := s[1..];
      assert forall k :: 0 <= k < i - 1 ==> t[k] == s[k + 1];
      RemoveFirstAt(t, x, i - 1);
      calc {
        RemoveFirst(s, x);
        [s[0]] + RemoveFirst(t, x);
        [s[0]] + (t[..i - 1] + t[i..]);
        { assert [s[0]] + t[..i - 1] == s[..i]; assert t[i..] == s[i + 1..]; }
        s[..i] + s[i + 1..];
      }
    }
  }

  lemma {:induction false} RemoveFirstAbsent<T>(s: seq<T>, x: T)
    requires x !in s
    ensures RemoveFirst(s, x) == s
  {
    if s != [] {
      assert s[0] != x;
      RemoveFirstAbsent(s[1..], x);
      assert s == [s[0]] + s[1..];
    }
  }

  /** Splicing out index `i` keeps a list duplicate-free. */
  lemma SpliceNoDup<T>(s: seq<T>, i: nat)
    requires i < |s| && NoDup(s)
    ensures NoDup(s[..i] + s[i + 1..])
  {
    var r := s[..i] + s[i + 1..];
    forall a, b | 0 <= a < b < |r| ensures r[a] != r[b] {
      var a' := if a < i then a else a + 1;
      var b' := if b < i then b else b + 1;
      assert r[a] == s[a'] && r[b] == s[b'];
    }
  }

  /** Splicing out index `i` of a duplicate-free list drops exactly `s[i]`. */
  lemma SpliceElements<T>(s: seq<T>, i: nat)
    requires i < |s| && NoDup(s)
    ensures Elements(s[..i] + s[i + 1..]) == Elements(s) - {s[i]}
  {
    var r := s[..i] + s[i + 1..];
    forall y ensures y in r <==> y in s && y != s[i] {
      if y in r {
        var k :| 0 <= k < |r| && r[k] == y;
        var k' := if k < i then k else k + 1;
        assert s[k'] == y && k' != i;
      }
      if y in s && y != s[i] {
        var k :| 0 <= k < |s| && s[k] == y;
        assert k != i;
        assert r[if k < i then k else k - 1] == y;
      }
    }
  }

  /** On a duplicate-free list, removing `x` drops exactly `x` and keeps the
      list duplicate-free. */
  lemma RemoveFirstNoDup<T>(s: seq<T>, x: T)
    requires NoDup(s)
    ensures NoDup(RemoveFirst(s, x))
    ensures Elements(RemoveFirst(s, x)) == Elements(s) - {x}
  {
    if x in s {
      var i :| 0 <= i < |s| && s[i] == x;
      assert forall k :: 0 <= k < i ==> s[k] != x;
      RemoveFirstAt(s, x, i);
      SpliceNoDup(s, i);
      SpliceElements(s, i);
    } else {
      RemoveFirstAbsent(s, x);
    }
  }

  /** Adding keeps the list duplicate-free, and `x` is listed afterwards. */
  lemma AddOnceNoDup<T>(s: seq<T>, x: T)
    requires NoDup(s)
    ensures NoDup(AddOnce(s, x))
    ensures Elements(AddOnce(s, x)) == Elements(s) + {x}
  {
    var r := AddOnce(s, x);
    forall y ensures y in r <==> y in s || y == x {
      if x !in s {
        assert y in s + [x] <==> y in s || y == x;
      }
    }
  }

  lemma AddOnceIdempotent<T>(s: seq<T>, x: T)
    ensures AddOnce(AddOnce(s, x), x) == AddOnce(s, x)
  {
    assert x in AddOnce(s, x) by {
      if x !in s { assert AddOnce(s, x)[|s|] == x; }
    }
  }
}
