/** Byte-wise string order, and the one strictly sorted listing of a set of strings. */
module StringOrder {

  predicate Less(a: string, b: string) {
    b != "" && (a == "" || a[0] < b[0] || (a[0] == b[0] && Less(a[1..], b[1..])))
  }

  /** The strings agree up to place `n`, where the first one ends or has the smaller character. */
  ghost predicate SmallerAt(a: string, b: string, n: nat) {
    n <= |a| && n < |b| && a[..n] == b[..n] && (n < |a| ==> a[n] < b[n])
  }

  /** The order is the lexicographic one: a proper prefix comes first, and otherwise the first difference decides. */
  lemma {:induction false} LessExactly(a: string, b: string)
    ensures Less(a, b) <==> exists n: nat :: SmallerAt(a, b, n)
  {
    if a == "" && b != "" {
      assert SmallerAt(a, b, 0);
    } else if a != "" && b != "" {
      LessExactly(a[1..], b[1..]);
      if a[0] < b[0] {
        assert SmallerAt(a, b, 0);
      } else if a[0] == b[0] {
        if Less(a[1..], b[1..]) {
          var n: nat :| SmallerAt(a[1..], b[1..], n);
          assert a[..n + 1] == [a[0]] + a[1..][..n] && b[..n + 1] == [b[0]] + b[1..][..n];
          assert SmallerAt(a, b, n + 1);
        }
        if n: nat :| SmallerAt(a, b, n) {
          assert a[..n][1..] == b[..n][1..] && a[1..][..n - 1] == a[..n][1..] && b[1..][..n - 1] == b[..n][1..];
          assert SmallerAt(a[1..], b[1..], n - 1);
        }
      } else {
        assert forall n: nat | 0 < n <= |a| && n <= |b| :: a[..n][0] != b[..n][0];
      }
    }
  }

  lemma {:induction false} LessTotal(a: string, b: string)
    ensures a == b || Less(a, b) || Less(b, a)
    ensures !(Less(a, b) && Less(b, a)) && !Less(a, a)
  {
    if a != "" && b != "" {
      LessTotal(a[1..], b[1..]);
      if a[0] == b[0] && a[1..] == b[1..] {
        assert a == [a[0]] + a[1..] && b == [b[0]] + b[1..];
      }
    }
    if a != "" { LessTotal(a[1..], a[1..]); }
  }

  lemma {:induction false} LessTransitive(a: string, b: string, c: string)
    requires Less(a, b) && Less(b, c)
    ensures Less(a, c)
  {
    if a != "" && a[0] == b[0] == c[0] {
      LessTransitive(a[1..], b[1..], c[1..]);
    }
  }

  ghost predicate Sorted(s: seq<string>) {
    forall i, j | 0 <= i < j < |s| :: Less(s[i], s[j])
  }

  ghost predicate Lists(s: seq<string>, ks: set<string>) {
    Sorted(s) && (forall k :: k in s <==> k in ks)
  }

  /** A strictly sorted listing is unique. */
  lemma {:induction false} ListingUnique(s: seq<string>, t: seq<string>, ks: set<string>)
    requires Lists(s, ks) && Lists(t, ks)
    ensures s == t
  {
    if s == [] {
      HeadIsMember(t);
    } else {
      assert s[0] in t && (t[0] in s);
      var i :| 0 <= i < |t| && t[i] == s[0];
      var j :| 0 <= j < |s| && s[j] == t[0];
      LessTotal(s[0], t[0]);
      assert s[0] == t[0];
      forall k ensures k in s[1..] <==> k in ks - {s[0]} { TailMembers(s, k); }
      forall k ensures k in t[1..] <==> k in ks - {s[0]} { TailMembers(t, k); }
      ListingUnique(s[1..], t[1..], ks - {s[0]});
    }
  }

  lemma HeadIsMember(s: seq<string>)
    ensures s != [] ==> s[0] in s
  {
  }

  lemma TailMembers(s: seq<string>, k: string)
    requires Sorted(s) && s != []
    ensures k in s[1..] <==> k in s && k != s[0]
  {
    LessTotal(s[0], s[0]);
    if k in s && k != s[0] {
      var i :| 0 <= i < |s| && s[i] == k;
      assert s[1..][i - 1] == k;
    }
    if k in s[1..] {
      var i :| 0 <= i < |s| - 1 && s[1..][i] == k;
      assert Less(s[0], s[i + 1]);
    }
  }

  /** Where `k` belongs in a sorted listing. */
  function Place(s: seq<string>, k: string): (i: nat)
    ensures i <= |s|
  {
    if s == [] || !Less(s[0], k) then 0 else 1 + Place(s[1..], k)
  }

  lemma {:induction false} PlaceSplits(s: seq<string>, k: string)
    requires Sorted(s) && k !in s
    ensures forall j | 0 <= j < Place(s, k) :: Less(s[j], k)
    ensures forall j | Place(s, k) <= j < |s| :: Less(k, s[j])
  {
    if s != [] {
      if Less(s[0], k) {
        PlaceSplits(s[1..], k);
        assert forall j | 1 <= j < |s| :: s[j] == s[1..][j - 1];
      } else {
        LessTotal(s[0], k);
        forall j | 1 <= j < |s| ensures Less(k, s[j]) { LessTransitive(k, s[0], s[j]); }
      }
    }
  }

  function Insert(s: seq<string>, k: string): seq<string> {
    s[..Place(s, k)] + [k] + s[Place(s, k)..]
  }

  lemma InsertLists(s: seq<string>, k: string, ks: set<string>)
    requires Lists(s, ks) && k !in ks
    ensures Lists(Insert(s, k), ks + {k})
  {
    PlaceSplits(s, k);
    var i := Place(s, k);
    var t := Insert(s, k);
    assert s == s[..i] + s[i..];
    forall x ensures x in t <==> x in ks + {k} {
      assert x in t <==> x in s[..i] || x == k || x in s[i..];
      assert x in s <==> x in s[..i] || x in s[i..];
    }
    forall a, b | 0 <= a < b < |t| ensures Less(t[a], t[b]) {
      var x := if a < i then a else a - 1;
      var y := if b < i then b else b - 1;
    }
  }

  /** The listing of a set. */
  ghost function Listing(ks: set<string>): (s: seq<string>)
    ensures Lists(s, ks)
    decreases |ks|
  {
    if ks == {} then []
    else
      var k :| k in ks;
      InsertLists(Listing(ks - {k}), k, ks - {k});
      assert (ks - {k}) + {k} == ks;
      Insert(Listing(ks - {k}), k)
  }

  /** The keys in sorted order, in whatever order the set yields them. */
  method SortedKeys(ks: set<string>) returns (keys: seq<string>)
    ensures keys == Listing(ks)
  {
    keys := [];
    var left := ks;
    while left != {}
      invariant left <= ks && Lists(keys, ks - left)
      decreases |left|
    {
      var k :| k in left;
      InsertLists(keys, k, ks - left);
      keys := Insert(keys, k);
      assert ks - (left - {k}) == (ks - left) + {k};
      left := left - {k};
    }
    assert ks - left == ks;
    ListingUnique(keys, Listing(ks), ks);
  }
}
