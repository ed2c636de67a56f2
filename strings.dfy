/** The string operations the source relies on from its languages' libraries:
    `startswith`, `in`, `replace(old, new, 1)`, `split(sep)[-1]`, and the
    decimal rendering and parsing of non-negative numbers. */
module Strings {
  import opened Common

  /** Python `s.startswith(p)`. */
  predicate StartsWith(s: string, p: string) {
    |p| <= |s| && s[..|p|] == p
  }

  /** An occurrence of `p` begins at index `i` of `s`. */
  ghost predicate OccursAt(s: string, p: string, i: int) {
    0 <= i && i + |p| <= |s| && s[i..i + |p|] == p
  }

  /** Python `p in s` (JavaScript `s.includes(p)`). */
  predicate Contains(s: string, p: string)
    decreases |s|
  {
    StartsWith(s, p) || (|s| > 0 && Contains(s[1..], p))
  }

  /** Index of the first occurrence of `p` in `s`, if any. */
  function FindFirst(s: string, p: string): (r: Option<nat>)
    decreases |s|
    ensures r.Some? ==> OccursAt(s, p, r.value)
    ensures r.Some? ==> forall j :: 0 <= j < r.value ==> !OccursAt(s, p, j)
    ensures r.None? ==> forall j :: 0 <= j ==> !OccursAt(s, p, j)
  {
    if StartsWith(s, p) then Some(0)
    else if |s| == 0 then None
    else
      var rest := FindFirst(s[1..], p);
      assert forall j :: 1 <= j && OccursAt(s, p, j) ==> OccursAt(s[1..], p, j - 1) by {
        forall j | 1 <= j && OccursAt(s, p, j) ensures OccursAt(s[1..], p, j - 1) {
          assert s[1..][j - 1..j - 1 + |p|] == s[j..j + |p|];
        }
      }
      match rest
      case None => None
      case Some(k) =>
        assert s[1..][k..k + |p|] == s[k + 1..k + 1 + |p|];
        Some(k + 1)
  }

  /** `Contains` holds exactly when `p` occurs at some index of `s`. */
  lemma {:induction false} ContainsIffOccurs(s: string, p: string)
    ensures Contains(s, p) <==> exists i :: OccursAt(s, p, i)
    decreases |s|
  {
    if StartsWith(s, p) {
      assert OccursAt(s, p, 0);
    } else if |s| == 0 {
      assert forall i :: !OccursAt(s, p, i);
    } else {
      ContainsIffOccurs(s[1..], p);
      if Contains(s[1..], p) {
        var i :| OccursAt(s[1..], p, i);
        assert s[1..][i..i + |p|] == s[i + 1..i + 1 + |p|];
        assert OccursAt(s, p, i + 1);
      } else {
        forall i | OccursAt(s, p, i) ensures false {
          assert i != 0;
          assert s[1..][i - 1..i - 1 + |p|] == s[i..i + |p|];
          assert OccursAt(s[1..], p, i - 1);
        }
      }
    }
  }

  /** Python `s.replace(old, new, 1)`: only the first occurrence is replaced. */
  function ReplaceFirst(s: string, target: string, replacement: string): (r: string)
    ensures FindFirst(s, target).None? ==> r == s
  {
    match FindFirst(s, target)
    case None => s
    case Some(i) => s[..i] + replacement + s[i + |target|..]
  }

  /** Removing a prefix with `replace(prefix, "", 1)` drops exactly that prefix once,
      even when the prefix occurs again later in the string. */
  lemma StripPrefixOnce(s: string, prefix: string)
    requires StartsWith(s, prefix)
    ensures ReplaceFirst(s, prefix, "") == s[|prefix|..]
    ensures |ReplaceFirst(s, prefix, "")| == |s| - |prefix|
  {
    assert OccursAt(s, prefix, 0);
    assert FindFirst(s, prefix) == Some(0);
  }

  /** Python `s.split(sep)[-1]`: what follows the last `sep`, or all of `s`. */
  function LastSegment(s: string, sep: char): string {
    if |s| == 0 then ""
    else if s[|s| - 1] == sep then ""
    else LastSegment(s[..|s| - 1], sep) + [s[|s| - 1]]
  }

  /** The last segment is a separator-free suffix that is either all of `s` or
      preceded by a separator. */
  lemma {:induction false} LastSegmentIsSuffix(s: string, sep: char)
    ensures var r := LastSegment(s, sep);
            sep !in r && |r| <= |s| && s[|s| - |r|..] == r
            && (|r| < |s| ==> s[|s| - |r| - 1] == sep)
  {
    if |s| > 0 && s[|s| - 1] != sep {
      var t := s[..|s| - 1];
      LastSegmentIsSuffix(t, sep);
      var q := LastSegment(t, sep);
      var r := q + [s[|s| - 1]];
      assert LastSegment(s, sep) == r;
      assert sep !in r by {
        assert forall c :: c in r ==> c in q || c == s[|s| - 1];
      }
      assert s[|s| - |r|..] == t[|t| - |q|..] + [s[|s| - 1]];
      assert |r| < |s| ==> s[|s| - |r| - 1] == t[|t| - |q| - 1];
    }
  }

  /** Joining a path with a final separator-free segment and taking the last
      segment gives that segment back. */
  lemma {:induction false} LastSegmentOfJoin(dir: string, sep: char, seg: string)
    requires sep !in seg
    ensures LastSegment(dir + [sep] + seg, sep) == seg
  {
    var s := dir + [sep] + seg;
    LastSegmentIsSuffix(s, sep);
    var r := LastSegment(s, sep);
    assert s[|s| - |seg| - 1] == sep;
    assert s[|s| - |seg|..] == seg;
    assert forall k :: |s| - |seg| <= k < |s| ==> s[k] in seg;
  }

  predicate IsDigit(c: char) {
    '0' <= c <= '9'
  }

  predicate IsDigits(s: string) {
    forall i :: 0 <= i < |s| ==> IsDigit(s[i])
  }

  function DigitChar(d: nat): (c: char)
    requires d < 10
    ensures IsDigit(c)
  {
    "0123456789"[d]
  }

  function DigitValue(c: char): (d: nat)
    requires IsDigit(c)
    ensures d < 10
  {
    (c as int - '0' as int) as nat
  }

  /** Decimal rendering of a non-negative number, without leading zeros. */
  function ShowNat(n: nat): (r: string)
    ensures |r| > 0 && IsDigits(r)
    ensures |r| > 1 ==> r[0] != '0'
  {
    if n < 10 then [DigitChar(n)] else ShowNat(n / 10) + [DigitChar(n % 10)]
  }

  /** JavaScript `parseInt(s)` restricted to strings made only of decimal digits. */
  function ParseDigits(s: string): nat
    requires IsDigits(s)
  {
    if |s| == 0 then 0 else ParseDigits(s[..|s| - 1]) * 10 + DigitValue(s[|s| - 1])
  }

  /** Parsing a rendered number gives the number back. */
  lemma {:induction false} ParseShowNat(n: nat)
    ensures ParseDigits(ShowNat(n)) == n
  {
    var r := ShowNat(n);
    if n < 10 {
      assert r[..0] == [];
    } else {
      ParseShowNat(n / 10);
      assert r[..|r| - 1] == ShowNat(n / 10);
      assert DigitValue(DigitChar(n % 10)) == n % 10 by {
        var d := n % 10;
        assert "0123456789"[d] as int - '0' as int == d;
      }
    }
  }
}
