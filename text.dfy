/** The string operations the source borrows from JavaScript's String.prototype. */
module Text {

  /** ASCII lower-casing of one character. */
  function LowerChar(c: char): char
  {
    if 'A' <= c <= 'Z' then (c as int + 32) as char else c
  }

  /** ASCII upper-casing of one character. */
  function UpperChar(c: char): char
  {
    if 'a' <= c <= 'z' then (c as int - 32) as char else c
  }

  /** `s.toLowerCase()`, restricted to the ASCII letters. */
  function Lower(s: string): (r: string)
    ensures |r| == |s|
    ensures forall i :: 0 <= i < |s| ==> r[i] == LowerChar(s[i])
  {
    seq(|s|, i requires 0 <= i < |s| => LowerChar(s[i]))
  }

  /** `s.toUpperCase()`, restricted to the ASCII letters. */
  function Upper(s: string): (r: string)
    ensures |r| == |s|
    ensures forall i :: 0 <= i < |s| ==> r[i] == UpperChar(s[i])
  {
    seq(|s|, i requires 0 <= i < |s| => UpperChar(s[i]))
  }

  /** `s.startsWith(p)`. */
  predicate StartsWith(s: string, p: string)
  {
    |p| <= |s| && s[..|p|] == p
  }

  /** `s.endsWith(p)`. */
  predicate EndsWith(s: string, p: string)
  {
    |p| <= |s| && s[|s| - |p|..] == p
  }

  /** `s.slice(0, n)` for a non-negative `n`. */
  function Take(s: string, n: nat): (r: string)
    ensures StartsWith(s, r)
    ensures |r| == if n < |s| then n else |s|
  {
    if n < |s| then s[..n] else s
  }

  /** `s.replace(pat, rep)` with a string pattern: only the first occurrence is replaced. */
  function ReplaceFirst(s: string, pat: string, rep: string): (r: string)
    ensures StartsWith(s, pat) ==> r == rep + s[|pat|..]
    decreases |s|
  {
    if StartsWith(s, pat) then rep + s[|pat|..]
    else if s == [] then []
    else [s[0]] + ReplaceFirst(s[1..], pat, rep)
  }

  /** The total length of the strings in `xs`. */
  function TotalLength(xs: seq<string>): nat
  {
    if xs == [] then 0 else |xs[0]| + TotalLength(xs[1..])
  }

  /** `xs.join(sep)`. */
  function Join(xs: seq<string>, sep: string): (r: string)
    ensures xs == [] ==> r == ""
    ensures |xs| > 0 ==> StartsWith(r, xs[0]) && EndsWith(r, xs[|xs| - 1])
    ensures |r| == TotalLength(xs) + (if xs == [] then 0 else (|xs| - 1) * |sep|)
  {
    if xs == [] then ""
    else if |xs| == 1 then xs[0]
    else
      var rest := Join(xs[1..], sep);
      MulStep(|xs| - 2, |sep|);
      assert xs[1..][|xs[1..]| - 1] == xs[|xs| - 1];
      JoinedEnds(xs[0], sep, rest, xs[|xs| - 1]);
      xs[0] + sep + rest
  }

  /** One more separator adds its length once. */
  lemma MulStep(n: nat, k: nat)
    ensures (n + 1) * k == n * k + k
  {
  }

  /** Prepending `a + sep` keeps the end of `rest` and puts `a` first. */
  lemma JoinedEnds(a: string, sep: string, rest: string, last: string)
    requires EndsWith(rest, last)
    ensures StartsWith(a + sep + rest, a) && EndsWith(a + sep + rest, last)
  {
    assert (a + sep + rest)[..|a|] == a;
    assert (a + sep + rest)[|a + sep + rest| - |last|..] == rest[|rest| - |last|..];
  }

  /** Joining one more part appends the separator and the part, so every part and separator is in place. */
  lemma {:induction false} JoinSnoc(xs: seq<string>, x: string, sep: string)
    requires |xs| > 0
    ensures Join(xs + [x], sep) == Join(xs, sep) + sep + x
    decreases |xs|
  {
    var ys := xs + [x];
    if |xs| == 1 {
      assert ys[1..] == [x];
    } else {
      assert ys[1..] == xs[1..] + [x];
      JoinSnoc(xs[1..], x, sep);
      assert Join(ys, sep) == xs[0] + sep + (Join(xs[1..], sep) + sep + x);
    }
  }

  /** The decimal digit `d`. */
  function DigitChar(d: nat): (c: char)
    requires d < 10
    ensures '0' <= c <= '9'
  {
    (48 + d) as char
  }

  /** The number a text of decimal digits denotes. */
  function DecimalValue(s: string): nat
    requires forall i :: 0 <= i < |s| ==> '0' <= s[i] <= '9'
  {
    if s == [] then 0 else DecimalValue(s[..|s| - 1]) * 10 + (s[|s| - 1] as int - 48)
  }

  /** Decimal text of a natural number, as `${n}` prints it: digits only, no leading zero. */
  function NatToString(n: nat): (r: string)
    ensures |r| > 0
    ensures forall i :: 0 <= i < |r| ==> '0' <= r[i] <= '9'
    ensures r[0] == '0' ==> n == 0
  {
    if n < 10 then [DigitChar(n)] else NatToString(n / 10) + [DigitChar(n % 10)]
  }

  /** Reading the printed digits back yields the number: the text is its decimal numeral. */
  lemma {:induction false} NatToStringValue(n: nat)
    ensures DecimalValue(NatToString(n)) == n
  {
    if n >= 10 {
      NatToStringValue(n / 10);
      var r := NatToString(n);
      assert r[..|r| - 1] == NatToString(n / 10);
    }
  }

  /** Decimal text of an integer, as `${i}` prints it. */
  function IntToString(i: int): (r: string)
    ensures |r| > 0 && (r[0] == '-' <==> i < 0)
    ensures i >= 0 ==> r == NatToString(i)
    ensures i < 0 ==> r[1..] == NatToString(-i)
  {
    if i < 0 then "-" + NatToString(-i) else NatToString(i)
  }

  /** Distinct integers print as distinct texts, so the printed timestamp determines the number. */
  lemma IntToStringInjective(i: int, j: int)
    requires IntToString(i) == IntToString(j)
    ensures i == j
  {
    var t := IntToString(i);
    assert (i < 0) == (j < 0) by {
      assert t[0] == '-' <==> i < 0;
      assert t[0] == '-' <==> j < 0;
    }
    if i < 0 {
      assert NatToString(-i) == t[1..] == NatToString(-j);
      NatToStringValue(-i);
      NatToStringValue(-j);
    } else {
      assert NatToString(i) == t == NatToString(j);
      NatToStringValue(i);
      NatToStringValue(j);
    }
  }

  /** The ref prefix that the source strips to obtain a branch name. */
  const HeadsPrefix := "refs/heads/"

  /** `ref.replace('refs/heads/', '')`: a leading prefix goes, and at most one occurrence is removed. */
  function StripHeads(ref: string): (r: string)
    ensures StartsWith(ref, HeadsPrefix) ==> r == ref[|HeadsPrefix|..]
    ensures r == ref || |r| == |ref| - |HeadsPrefix|
  {
    ReplaceFirstLength(ref, HeadsPrefix, "");
    ReplaceFirst(ref, HeadsPrefix, "")
  }

  /** At most one occurrence is replaced, so the length changes at most once by the difference. */
  lemma {:induction false} ReplaceFirstLength(s: string, pat: string, rep: string)
    ensures ReplaceFirst(s, pat, rep) == s || |ReplaceFirst(s, pat, rep)| == |s| - |pat| + |rep|
    decreases |s|
  {
    if !StartsWith(s, pat) && s != [] {
      ReplaceFirstLength(s[1..], pat, rep);
      assert [s[0]] + s[1..] == s;
    }
  }

  /** Lower-casing is idempotent, so it is a normal form for case-insensitive comparison. */
  lemma LowerIdempotent(s: string)
    ensures Lower(Lower(s)) == Lower(s)
  {
  }

  /** A branch ref loses exactly its `refs/heads/` prefix. */
  lemma StripHeadsOfBranch(name: string)
    ensures StripHeads(HeadsPrefix + name) == name
  {
    assert StartsWith(HeadsPrefix + name, HeadsPrefix);
    assert (HeadsPrefix + name)[|HeadsPrefix|..] == name;
  }

  /** A text that does not contain the pattern anywhere is left as it is. */
  lemma {:induction false} ReplaceFirstAbsent(s: string, pat: string, rep: string)
    requires forall i :: 0 <= i <= |s| ==> !StartsWith(s[i..], pat)
    ensures ReplaceFirst(s, pat, rep) == s
    decreases |s|
  {
    assert s[0..] == s;
    if s != [] {
      forall i | 0 <= i <= |s[1..]|
        ensures !StartsWith(s[1..][i..], pat)
      {
        assert s[1..][i..] == s[i + 1..];
      }
      ReplaceFirstAbsent(s[1..], pat, rep);
    }
  }

  /** The first occurrence of the pattern, wherever it is, is the one replaced. */
  lemma {:induction false} ReplaceFirstAt(s: string, pat: string, rep: string, k: nat)
    requires k + |pat| <= |s| && StartsWith(s[k..], pat)
    requires forall j :: 0 <= j < k ==> !StartsWith(s[j..], pat)
    ensures ReplaceFirst(s, pat, rep) == s[..k] + rep + s[k + |pat|..]
    decreases k
  {
    if k == 0 {
      assert s[0..] == s;
    } else {
      var t := s[1..];
      ReplaceFirstSkip(s, pat, rep);
      forall j | 0 <= j < k - 1
        ensures !StartsWith(t[j..], pat)
      {
        assert t[j..] == s[j + 1..];
      }
      assert t[k - 1..] == s[k..];
      ReplaceFirstAt(t, pat, rep, k - 1);
      ConsSplit(s, k, |pat|, rep);
    }
  }

  lemma ReplaceFirstSkip(s: string, pat: string, rep: string)
    requires s != [] && !StartsWith(s[0..], pat)
    ensures ReplaceFirst(s, pat, rep) == [s[0]] + ReplaceFirst(s[1..], pat, rep)
  {
    assert s[0..] == s;
  }

  lemma ConsSplit(s: string, k: nat, m: nat, rep: string)
    requires 0 < k && k + m <= |s|
    ensures [s[0]] + (s[1..][..k - 1] + rep + s[1..][k - 1 + m..]) == s[..k] + rep + s[k + m..]
  {
    assert s[..k] == [s[0]] + s[1..][..k - 1];
    assert s[1..][k - 1 + m..] == s[k + m..];
  }
}
