/** String helpers with the meaning Python gives them: `t in s` for strings,
    `str.lower()`, `f"{n}"` for a natural number, and the ordering `sorted`
    uses on strings (code point by code point, a proper prefix first). */
module Text {

  /** Python's `t in s` on strings: `t` occurs in `s` as a contiguous run. */
  predicate Contains(s: string, t: string)
    decreases |s|
  {
    if |s| < |t| then false
    else t <= s || (|s| > 0 && Contains(s[1..], t))
  }

  /** `t` occurs in `s` starting at index `i`. */
  predicate OccursAt(s: string, t: string, i: int)
  {
    0 <= i <= |s| - |t| && s[i..i + |t|] == t
  }

  /** `Contains` means "occurs at some index". */
  lemma {:induction false} ContainsAt(s: string, t: string)
    ensures Contains(s, t) <==> exists i :: OccursAt(s, t, i)
    decreases |s|
  {
    if |s| < |t| {
    } else if t <= s {
      assert OccursAt(s, t, 0);
    } else {
      assert |s| > 0;
      ContainsAt(s[1..], t);
      if Contains(s[1..], t) {
        var i :| OccursAt(s[1..], t, i);
        assert s[i + 1..i + 1 + |t|] == s[1..][i..i + |t|];
        assert OccursAt(s, t, i + 1);
      } else {
        forall i | 0 <= i <= |s| - |t|
          ensures !OccursAt(s, t, i)
        {
          if i > 0 {
            assert s[i..i + |t|] == s[1..][i - 1..i - 1 + |t|];
            assert !OccursAt(s[1..], t, i - 1);
          }
        }
      }
    }
  }

  /** A string contains each of its prefixes. */
  lemma ContainsPrefix(a: string, b: string)
    ensures Contains(a + b, a)
  {
    assert a <= a + b;
  }

  /** A string contains each of its suffixes. */
  lemma {:induction false} ContainsSuffix(a: string, b: string)
    ensures Contains(a + b, b)
    decreases |a|
  {
    if |a| == 0 {
      assert a + b == b;
      ContainsPrefix(b, []);
      assert b + [] == b;
    } else {
      ContainsSuffix(a[1..], b);
      assert (a + b)[1..] == a[1..] + b;
    }
  }

  /** A string that contains `a + b` contains both `a` and `b`. */
  lemma ContainsParts(s: string, a: string, b: string)
    ensures Contains(s, a + b) ==> Contains(s, a) && Contains(s, b)
  {
    if Contains(s, a + b) {
      ContainsAt(s, a + b);
      var i :| OccursAt(s, a + b, i);
      var w := s[i..i + |a| + |b|];
      assert w == a + b;
      assert OccursAt(s, a, i) by {
        assert s[i..i + |a|] == w[..|a|] == a;
      }
      assert OccursAt(s, b, i + |a|) by {
        assert s[i + |a|..i + |a| + |b|] == w[|a|..] == b;
      }
      ContainsAt(s, a);
      ContainsAt(s, b);
    }
  }

  /** `t` does not occur in `s` when no index starts an occurrence of it. */
  lemma NotContained(s: string, t: string)
    requires forall i :: !OccursAt(s, t, i)
    ensures !Contains(s, t)
  {
    ContainsAt(s, t);
  }

  /** `t` does not occur in `s` when some character of `t` is missing from `s`. */
  lemma MissingCharNotContained(s: string, t: string, c: char)
    requires c in t && c !in s
    ensures !Contains(s, t)
  {
    forall i | 0 <= i <= |s| - |t|
      ensures !OccursAt(s, t, i)
    {
      var j :| 0 <= j < |t| && t[j] == c;
      assert s[i..i + |t|][j] == s[i + j];
    }
    NotContained(s, t);
  }

  /** `t` does not occur in `s` when two adjacent characters of `t` are never
      adjacent, in that order, in `s`. */
  lemma MissingPairNotContained(s: string, t: string, k: nat)
    requires k + 1 < |t|
    requires forall i :: 0 <= i < |s| - 1 ==> !(s[i] == t[k] && s[i + 1] == t[k + 1])
    ensures !Contains(s, t)
  {
    forall i | 0 <= i <= |s| - |t|
      ensures !OccursAt(s, t, i)
    {
      assert s[i..i + |t|][k] == s[i + k] && s[i..i + |t|][k + 1] == s[i + k + 1];
    }
    NotContained(s, t);
  }

  /** `t` does not occur in `[t[0]] + w + rest` when the first character of `t`
      appears nowhere else and the head is followed by something other than `t`. */
  lemma HeadWordNotContained(w: string, rest: string, t: string, k: nat)
    requires 1 <= k < |t| && k <= |w| && w[k - 1] != t[k]
    requires t[0] !in w && t[0] !in rest
    ensures !Contains([t[0]] + w + rest, t)
  {
    var s := [t[0]] + w + rest;
    forall i | 0 <= i <= |s| - |t|
      ensures !OccursAt(s, t, i)
    {
      if i == 0 {
        assert s[..|t|][k] == w[k - 1];
      } else {
        assert s[i..i + |t|][0] == s[i];
        if i <= |w| {
          assert w[i - 1] == s[i];
        } else {
          assert rest[i - 1 - |w|] == s[i];
        }
      }
    }
    NotContained(s, t);
  }

  /** `str.lower()` restricted to ASCII: 'A'..'Z' become 'a'..'z', every other character is kept. */
  function LowerChar(c: char): (d: char)
    ensures 'A' <= c <= 'Z' ==> 'a' <= d <= 'z'
    ensures !('A' <= c <= 'Z') ==> d == c
  {
    if 'A' <= c <= 'Z' then (c as int - 'A' as int + 'a' as int) as char else c
  }

  function Lower(s: string): (r: string)
    ensures |r| == |s|
    ensures forall i :: 0 <= i < |s| ==> r[i] == LowerChar(s[i])
  {
    seq(|s|, i requires 0 <= i < |s| => LowerChar(s[i]))
  }

  function Digit(d: nat): (c: char)
    requires d < 10
    ensures '0' <= c <= '9'
  {
    ('0' as int + d) as char
  }

  /** Decimal rendering of a natural number, as `f"{n}"` gives it. */
  function NatToString(n: nat): (s: string)
    ensures |s| > 0
    ensures n >= 10 ==> |s| >= 2
    ensures forall i :: 0 <= i < |s| ==> '0' <= s[i] <= '9'
    decreases n
  {
    if n < 10 then [Digit(n)] else NatToString(n / 10) + [Digit(n % 10)]
  }

  /** Different numbers are rendered differently. */
  lemma {:induction false} NatToStringInjective(a: nat, b: nat)
    ensures NatToString(a) == NatToString(b) ==> a == b
    decreases a
  {
    var sa, sb := NatToString(a), NatToString(b);
    if a >= 10 && b >= 10 {
      NatToStringInjective(a / 10, b / 10);
      if sa == sb {
        assert sa[|sa| - 1] == Digit(a % 10) && sb[|sb| - 1] == Digit(b % 10);
        assert sa[..|sa| - 1] == NatToString(a / 10);
        assert sb[..|sb| - 1] == NatToString(b / 10);
      }
    } else if a < 10 && b < 10 {
      assert sa[0] == Digit(a) && sb[0] == Digit(b);
    }
  }

  /** Python's `a < b` on strings. */
  predicate Below(a: string, b: string)
    decreases |a|
  {
    if |a| == 0 then |b| > 0
    else |b| > 0 && (a[0] < b[0] || (a[0] == b[0] && Below(a[1..], b[1..])))
  }

  lemma {:induction false} BelowIrreflexive(a: string)
    ensures !Below(a, a)
    decreases |a|
  {
    if |a| > 0 {
      BelowIrreflexive(a[1..]);
    }
  }

  lemma {:induction false} BelowTransitive(a: string, b: string, c: string)
    requires Below(a, b) && Below(b, c)
    ensures Below(a, c)
    decreases |a|
  {
    if |a| > 0 && a[0] == b[0] && b[0] == c[0] {
      BelowTransitive(a[1..], b[1..], c[1..]);
    }
  }

  lemma {:induction false} BelowTotal(a: string, b: string)
    requires a != b
    ensures Below(a, b) || Below(b, a)
    decreases |a|
  {
    if |a| > 0 && |b| > 0 && a[0] == b[0] {
      assert a == [a[0]] + a[1..] && b == [b[0]] + b[1..];
      BelowTotal(a[1..], b[1..]);
    }
  }

  lemma BelowAsymmetric(a: string, b: string)
    requires Below(a, b)
    ensures !Below(b, a)
  {
    if Below(b, a) {
      BelowTransitive(a, b, a);
      BelowIrreflexive(a);
    }
  }

  predicate IsLeast(x: string, s: set<string>)
  {
    x in s && forall y :: y in s && y != x ==> Below(x, y)
  }

  /** Every finite non-empty set of strings has a least element. */
  lemma {:induction false} LeastExists(s: set<string>)
    requires s != {}
    ensures exists x :: IsLeast(x, s)
    decreases |s|
  {
    var y :| y in s;
    if s - {y} == {} {
      assert s == {y};
      assert IsLeast(y, s);
    } else {
      LeastExists(s - {y});
      var x :| IsLeast(x, s - {y});
      if Below(x, y) {
        forall z | z in s && z != x
          ensures Below(x, z)
        {
        }
        assert IsLeast(x, s);
      } else {
        BelowTotal(x, y);
        forall z | z in s && z != y
          ensures Below(y, z)
        {
          if z != x {
            BelowTransitive(y, x, z);
          }
        }
        assert IsLeast(y, s);
      }
    }
  }

  lemma LeastUnique(s: set<string>)
    ensures forall x, x' :: IsLeast(x, s) && IsLeast(x', s) ==> x == x'
  {
    forall x, x' | IsLeast(x, s) && IsLeast(x', s)
      ensures x == x'
    {
      if x != x' {
        BelowAsymmetric(x, x');
      }
    }
  }

  /** Python's `sorted(keys)` for a set of strings: ascending, each key once. */
  function Sorted(s: set<string>): (r: seq<string>)
    ensures |r| == |s|
    ensures forall x :: x in r <==> x in s
    ensures forall i, j :: 0 <= i < j < |r| ==> Below(r[i], r[j])
    decreases |s|
  {
    if s == {} then []
    else
      LeastExists(s);
      LeastUnique(s);
      var x :| IsLeast(x, s);
      var rest := Sorted(s - {x});
      assert forall i :: 0 <= i < |rest| ==> rest[i] in s - {x};
      [x] + rest
  }
}
