/**
 * String helpers the bookkeeping code relies on: JavaScript's `split`,
 * `includes`, `startsWith`, `parseInt` on digit strings and a number's
 * decimal rendering, each stated by what it means.
 */
module Text {

  /** Index of the first `c` in `s`, or `|s|` when `s` holds no `c`. */
  function IndexOf(s: string, c: char): (r: nat)
    ensures r <= |s|
    ensures r < |s| ==> s[r] == c
    ensures forall i :: 0 <= i < r ==> s[i] != c
  {
    if |s| == 0 then 0
    else if s[0] == c then 0
    else 1 + IndexOf(s[1..], c)
  }

  /** `s.split(c)[0]`: the text before the first `c`. */
  function BeforeFirst(s: string, c: char): (r: string)
    ensures c !in r
    ensures r <= s
    ensures |r| < |s| ==> s[|r|] == c
  {
    s[..IndexOf(s, c)]
  }

  /** `s.split(c)`: the pieces of `s` between occurrences of `c`. */
  function Split(s: string, c: char): (parts: seq<string>)
    ensures |parts| >= 1
    ensures |parts| == 1 <==> c !in s
    ensures forall i :: 0 <= i < |parts| ==> c !in parts[i]
    decreases |s|
  {
    var i := IndexOf(s, c);
    if i == |s| then [s]
    else [s[..i]] + Split(s[i + 1..], c)
  }

  /** `parts.join(c)`, the inverse of `Split`. */
  function Join(parts: seq<string>, c: char): string
    requires |parts| >= 1
  {
    if |parts| == 1 then parts[0]
    else parts[0] + [c] + Join(parts[1..], c)
  }

  lemma {:induction false} JoinSplit(s: string, c: char)
    ensures Join(Split(s, c), c) == s
    decreases |s|, 1
  {
    if IndexOf(s, c) < |s| {
      JoinSplitStep(s, c);
    } else {
      assert Split(s, c) == [s];
    }
  }

  /** Splitting at the first `c` and joining the rest back puts that `c` back. */
  lemma {:induction false} JoinSplitStep(s: string, c: char)
    requires IndexOf(s, c) < |s|
    ensures Join(Split(s, c), c) == s
    decreases |s|, 0
  {
    var i := IndexOf(s, c);
    var rest := s[i + 1..];
    JoinSplit(rest, c);
    SplitStep(s, c);
    JoinCons(s[..i], Split(rest, c), c);
    Around(s, i);
  }

  lemma SplitStep(s: string, c: char)
    requires IndexOf(s, c) < |s|
    ensures Split(s, c) == [s[..IndexOf(s, c)]] + Split(s[IndexOf(s, c) + 1..], c)
  {
  }

  lemma Around(s: string, i: int)
    requires 0 <= i < |s|
    ensures s[..i] + [s[i]] + s[i + 1..] == s
  {
  }

  lemma JoinCons(first: string, parts: seq<string>, c: char)
    requires |parts| >= 1
    ensures Join([first] + parts, c) == first + [c] + Join(parts, c)
  {
    assert ([first] + parts)[1..] == parts;
  }

  /** `s.split(c).pop()`: the text after the last `c`, all of `s` when it holds none. */
  function LastSegment(s: string, c: char): (r: string)
    ensures c !in r
  {
    if |s| == 0 || s[|s| - 1] == c then ""
    else LastSegment(s[..|s| - 1], c) + [s[|s| - 1]]
  }

  lemma {:induction false} LastSegmentIsSuffix(s: string, c: char)
    ensures |LastSegment(s, c)| <= |s|
    ensures s[|s| - |LastSegment(s, c)|..] == LastSegment(s, c)
    ensures |LastSegment(s, c)| < |s| ==> s[|s| - |LastSegment(s, c)| - 1] == c
    decreases |s|
  {
    if |s| > 0 && s[|s| - 1] != c {
      var init := s[..|s| - 1];
      LastSegmentIsSuffix(init, c);
      var k := |init| - |LastSegment(init, c)|;
      assert s[k..] == init[k..] + [s[|s| - 1]];
      if k > 0 {
        assert s[k - 1] == init[k - 1];
      }
    }
  }

  /** The segment after a `c` that the rest does not contain is that rest. */
  lemma {:induction false} LastSegmentAfter(prefix: string, c: char, t: string)
    requires c !in t
    ensures LastSegment(prefix + [c] + t, c) == t
    decreases |t|
  {
    var s := prefix + [c] + t;
    if |t| == 0 {
      assert s[|s| - 1] == c;
    } else {
      assert s[..|s| - 1] == prefix + [c] + t[..|t| - 1];
      LastSegmentAfter(prefix, c, t[..|t| - 1]);
      assert t[..|t| - 1] + [t[|t| - 1]] == t;
    }
  }

  /** A string without `c` is its own last segment. */
  lemma {:induction false} LastSegmentWhole(t: string, c: char)
    requires c !in t
    ensures LastSegment(t, c) == t
    decreases |t|
  {
    if |t| > 0 {
      LastSegmentWhole(t[..|t| - 1], c);
      assert t[..|t| - 1] + [t[|t| - 1]] == t;
    }
  }

  /** Splitting at one `c` splits each side separately: `(a + c + b).split(c)` is `a.split(c)` followed by `b.split(c)`. */
  lemma {:induction false} SplitAppend(a: string, c: char, b: string)
    ensures Split(a + [c] + b, c) == Split(a, c) + Split(b, c)
    decreases |a|, 1
  {
    if IndexOf(a, c) == |a| {
      SplitAppendFirst(a, c, b);
    } else {
      SplitAppendLater(a, c, b);
    }
  }

  /** When `a` holds no `c`, the joining `c` is the first one. */
  lemma SplitAppendFirst(a: string, c: char, b: string)
    requires IndexOf(a, c) == |a|
    ensures Split(a + [c] + b, c) == Split(a, c) + Split(b, c)
  {
    assert c !in a;
    SplitAtFirst(a, c, b);
  }

  /** Splitting peels off the text before the first `c`. */
  lemma SplitAtFirst(s: string, c: char, t: string)
    requires c !in s
    ensures Split(s + [c] + t, c) == [s] + Split(t, c)
  {
    var u := s + [c] + t;
    assert u[|s|] == c;
    assert u[..|s|] == s;
    assert u[|s| + 1..] == t;
  }

  /** When `a` holds a `c`, both splits peel off the text before it, and the rest after it splits by `SplitAppend`. */
  lemma {:induction false} SplitAppendLater(a: string, c: char, b: string)
    requires IndexOf(a, c) < |a|
    ensures Split(a + [c] + b, c) == Split(a, c) + Split(b, c)
    decreases |a|, 0
  {
    var k := IndexOf(a, c);
    var first, rest := a[..k], a[k + 1..];
    SplitAppend(rest, c, b);
    assert a == first + [c] + rest by {
      Around(a, k);
    }
    Regroup(first, [c], rest, b);
    SplitAtFirst(first, c, rest);
    SplitAtFirst(first, c, rest + [c] + b);
    ConcatAssoc([first], Split(rest, c), Split(b, c));
  }

  lemma Regroup<T>(x: seq<T>, m: seq<T>, y: seq<T>, z: seq<T>)
    ensures x + m + y + m + z == x + m + (y + m + z)
  {
  }

  lemma ConcatAssoc<T>(x: seq<T>, y: seq<T>, z: seq<T>)
    ensures x + (y + z) == (x + y) + z
  {
  }

  /** `s.startsWith(p)`. */
  predicate StartsWith(s: string, p: string) {
    |p| <= |s| && s[..|p|] == p
  }

  /** `sub` occurs in `s` starting at index `i`. */
  predicate OccursAt(s: string, sub: string, i: int) {
    0 <= i <= |s| - |sub| && s[i..i + |sub|] == sub
  }

  /** `s.includes(sub)`, computed by scanning. */
  function Contains(s: string, sub: string): (r: bool)
    ensures r <==> exists i :: OccursAt(s, sub, i)
    decreases |s|
  {
    if |sub| > |s| then false
    else if s[..|sub|] == sub then assert OccursAt(s, sub, 0); true
    else
      var r := Contains(s[1..], sub);
      assert r ==> exists i :: OccursAt(s, sub, i) by {
        if r {
          var i :| OccursAt(s[1..], sub, i);
          assert s[1..][i..i + |sub|] == s[i + 1..i + 1 + |sub|];
          assert OccursAt(s, sub, i + 1);
        }
      }
      assert (exists i :: OccursAt(s, sub, i)) ==> r by {
        if exists i :: OccursAt(s, sub, i) {
          var i :| OccursAt(s, sub, i);
          assert i != 0;
          assert s[1..][i - 1..i - 1 + |sub|] == s[i..i + |sub|];
          assert OccursAt(s[1..], sub, i - 1);
        }
      }
      r
  }

  predicate IsDigit(c: char) {
    '0' <= c <= '9'
  }

  /** The `^\d+$` test: a non-empty string of decimal digits. */
  predicate IsDigits(s: string) {
    |s| > 0 && forall i :: 0 <= i < |s| ==> IsDigit(s[i])
  }

  function DigitChar(d: nat): (c: char)
    requires d < 10
    ensures IsDigit(c)
  {
    ['0', '1', '2', '3', '4', '5', '6', '7', '8', '9'][d]
  }

  function DigitValue(c: char): (d: nat)
    ensures d < 10
  {
    if IsDigit(c) then (c as int - '0' as int) else 0
  }

  /** `parseInt(s)` for a string of decimal digits. */
  function CodeValue(s: string): nat {
    if |s| == 0 then 0
    else CodeValue(s[..|s| - 1]) * 10 + DigitValue(s[|s| - 1])
  }

  /** `n.toString()` for a natural number. */
  function DecimalString(n: nat): (s: string)
    ensures IsDigits(s)
  {
    if n < 10 then [DigitChar(n)]
    else DecimalString(n / 10) + [DigitChar(n % 10)]
  }

  lemma {:induction false} CodeValueOfDecimalString(n: nat)
    ensures CodeValue(DecimalString(n)) == n
  {
    var s := DecimalString(n);
    assert DigitValue(DigitChar(n % 10)) == n % 10 by {
      var d := n % 10;
      assert d == 0 || d == 1 || d == 2 || d == 3 || d == 4 || d == 5 || d == 6 || d == 7 || d == 8 || d == 9;
    }
    if n >= 10 {
      CodeValueOfDecimalString(n / 10);
      assert s[..|s| - 1] == DecimalString(n / 10);
    } else {
      assert s[..0] == [];
    }
  }

  lemma LeadingDigitPositive(s: string)
    requires IsDigits(s) && s[0] != '0'
    ensures CodeValue(s) > 0
    decreases |s|
  {
    if |s| > 1 {
      LeadingDigitPositive(s[..|s| - 1]);
    } else {
      assert s[..0] == [];
    }
  }

  lemma DigitCharOfValue(c: char)
    requires IsDigit(c)
    ensures DigitChar(DigitValue(c)) == c
  {
    assert c == '0' || c == '1' || c == '2' || c == '3' || c == '4' || c == '5' || c == '6' || c == '7' || c == '8' || c == '9';
  }

  /** A digit string without a leading zero is the decimal rendering of its value. */
  lemma {:induction false} DecimalStringOfCodeValue(s: string)
    requires IsDigits(s) && s[0] != '0'
    ensures DecimalString(CodeValue(s)) == s
    decreases |s|
  {
    var n := |s| - 1;
    var c := s[n];
    DigitCharOfValue(c);
    if n == 0 {
      assert s[..0] == [];
      assert s == [c];
    } else {
      var prefix := s[..n];
      LeadingDigitPositive(prefix);
      DecimalStringOfCodeValue(prefix);
      var v := CodeValue(s);
      assert v == CodeValue(prefix) * 10 + DigitValue(c);
      assert v / 10 == CodeValue(prefix) && v % 10 == DigitValue(c);
      assert s == prefix + [c];
    }
  }
}
