/**
 * Shared pieces: an optional value and the ascending sort the source gets
 * from `Array.prototype.sort` with a numeric comparator.
 */
module Common {

  datatype Option<T> = None | Some(value: T)

  /** `s` is in ascending order of `key`. */
  ghost predicate SortedBy<T>(s: seq<T>, key: T -> int) {
    forall i, j :: 0 <= i < j < |s| ==> key(s[i]) <= key(s[j])
  }

  /**
   * `s.sort((a, b) => key(a) - key(b))`: the same elements, in ascending
   * order of `key`. Insertion from the right keeps equal keys in input order.
   */
  method SortBy<T>(s: seq<T>, key: T -> int) returns (r: seq<T>)
    ensures SortedBy(r, key)
    ensures multiset(r) == multiset(s)
  {
    r := [];
    var i := 0;
    while i < |s|
      invariant 0 <= i <= |s|
      invariant SortedBy(r, key)
      invariant multiset(r) == multiset(s[..i])
    {
      var x := s[i];
      var j := |r|;
      while j > 0 && key(r[j - 1]) > key(x)
        invariant 0 <= j <= |r|
        invariant forall k :: j <= k < |r| ==> key(r[k]) > key(x)
      {
        j := j - 1;
      }
      assert forall k :: 0 <= k < j ==> key(r[k]) <= key(x) by {
        if j > 0 {
          forall k | 0 <= k < j ensures key(r[k]) <= key(x) {
            assert key(r[k]) <= key(r[j - 1]);
          }
        }
      }
      var r' := r[..j] + [x] + r[j..];
      InsertKeepsSorted(r, j, x, key);
      InsertAddsOne(r, j, x);
      PrefixSnoc(s, i);
      r := r';
      i := i + 1;
    }
    assert s[..i] == s;
  }

  lemma InsertAddsOne<T>(r: seq<T>, j: int, x: T)
    requires 0 <= j <= |r|
    ensures multiset(r[..j] + [x] + r[j..]) == multiset(r) + multiset{x}
  {
    assert r[..j] + r[j..] == r;
  }

  lemma PrefixSnoc<T>(s: seq<T>, i: int)
    requires 0 <= i < |s|
    ensures multiset(s[..i + 1]) == multiset(s[..i]) + multiset{s[i]}
  {
    assert s[..i + 1] == s[..i] + [s[i]];
  }

  /** Putting `x` between the keys at most its own and those above it keeps the order. */
  lemma InsertKeepsSorted<T>(r: seq<T>, j: int, x: T, key: T -> int)
    requires 0 <= j <= |r| && SortedBy(r, key)
    requires forall k :: 0 <= k < j ==> key(r[k]) <= key(x)
    requires forall k :: j <= k < |r| ==> key(r[k]) > key(x)
    ensures SortedBy(r[..j] + [x] + r[j..], key)
  {
    var r' := r[..j] + [x] + r[j..];
    forall a, b | 0 <= a < b < |r'| ensures key(r'[a]) <= key(r'[b]) {
      if b < j {
        assert r'[a] == r[a] && r'[b] == r[b];
      } else if b == j {
        assert r'[b] == x && r'[a] == r[a];
      } else if a < j {
        assert r'[a] == r[a] && r'[b] == r[b - 1];
      } else if a == j {
        assert r'[a] == x && r'[b] == r[b - 1];
      } else {
        assert r'[a] == r[a - 1] && r'[b] == r[b - 1];
      }
    }
  }
}
