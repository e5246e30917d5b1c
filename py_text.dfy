/**
  The few Python `str` operations the label layout code relies on, on
  `string` (a sequence of Unicode scalar values): `isspace`, `strip`,
  `rstrip(c)`, `rpartition(c)`, the `in` substring test, `split("\n")`,
  `"\n".join` and `int(...)` on text.
 */
module PyText {
  import opened Wrappers

  /** `c.isspace()`: the characters Python classes as whitespace. */
  predicate IsSpace(c: char) {
    || ('\t' <= c <= '\r')
    || ('\U{1C}' <= c <= '\U{1F}')
    || c == ' '
    || c == '\U{85}'
    || c == '\U{A0}'
    || c == '\U{1680}'
    || ('\U{2000}' <= c <= '\U{200A}')
    || c == '\U{2028}'
    || c == '\U{2029}'
    || c == '\U{202F}'
    || c == '\U{205F}'
    || c == '\U{3000}'
  }

  ghost predicate AllSpace(s: string) {
    forall i :: 0 <= i < |s| ==> IsSpace(s[i])
  }

  /** `s.lstrip()`: the suffix left after dropping every leading whitespace character. */
  function LStrip(s: string): (r: string)
    ensures |r| <= |s| && r == s[|s| - |r|..]
    ensures forall i :: 0 <= i < |s| - |r| ==> IsSpace(s[i])
    ensures r == [] || !IsSpace(r[0])
  {
    if |s| > 0 && IsSpace(s[0]) then LStrip(s[1..]) else s
  }

  /** `s.rstrip()`: the prefix left after dropping every trailing whitespace character. */
  function RStrip(s: string): (r: string)
    ensures |r| <= |s| && r == s[..|r|]
    ensures forall i :: |r| <= i < |s| ==> IsSpace(s[i])
    ensures r == [] || !IsSpace(r[|r| - 1])
  {
    if |s| > 0 && IsSpace(s[|s| - 1]) then RStrip(s[..|s| - 1]) else s
  }

  /** `s` is `r` with `k` whitespace characters in front of it and only whitespace behind it. */
  ghost predicate PaddedBy(s: string, k: int, r: string) {
    && 0 <= k <= |s| - |r|
    && r == s[k..k + |r|]
    && (forall i :: 0 <= i < k ==> IsSpace(s[i]))
    && (forall i :: k + |r| <= i < |s| ==> IsSpace(s[i]))
  }

  /**
    `s.strip()`: the middle part of `s` between a run of leading and a run of
    trailing whitespace, itself neither starting nor ending with whitespace.
   */
  function Strip(s: string): (r: string)
    ensures r == [] || (!IsSpace(r[0]) && !IsSpace(r[|r| - 1]))
    ensures exists k :: PaddedBy(s, k, r)
  {
    var l := LStrip(s);
    var r := RStrip(l);
    var k := |s| - |l|;
    assert PaddedBy(s, k, r);
    r
  }

  /** `s.rstrip(c)`: the prefix left after dropping every trailing `c`. */
  function RStripChar(s: string, c: char): (r: string)
    ensures |r| <= |s| && r == s[..|r|]
    ensures forall i :: |r| <= i < |s| ==> s[i] == c
    ensures r == [] || r[|r| - 1] != c
  {
    if |s| > 0 && s[|s| - 1] == c then RStripChar(s[..|s| - 1], c) else s
  }

  /** `rstrip(c)` keeps a prefix, so it adds no character that was not there. */
  lemma RStripCharKeepsAbsent(s: string, c: char, x: char)
    requires x !in s
    ensures x !in RStripChar(s, c)
  {
    var r := RStripChar(s, c);
    forall j | 0 <= j < |r| ensures r[j] != x {
      assert r[j] == s[j];
    }
  }

  /** Index of the last `c` in `s`, or -1 when `c` does not occur (`s.rfind(c)`). */
  function LastIndexOf(s: string, c: char): (k: int)
    ensures -1 <= k < |s|
    ensures k >= 0 ==> s[k] == c
    ensures forall i :: k < i < |s| ==> s[i] != c
  {
    if |s| == 0 then -1
    else if s[|s| - 1] == c then |s| - 1
    else LastIndexOf(s[..|s| - 1], c)
  }

  /** The last occurrence is the one with no occurrence after it. */
  lemma LastIndexOfIs(s: string, c: char, k: int)
    requires 0 <= k < |s| && s[k] == c
    requires forall i :: k < i < |s| ==> s[i] != c
    ensures LastIndexOf(s, c) == k
  {
  }

  /**
    `s.rpartition(sep)` for a one-character separator: the text before the last
    `sep`, the separator, and the text after it; `("", "", s)` when `sep` does
    not occur. It never fails and never yields `None`.
   */
  function RPartition(s: string, sep: char): (p: (string, string, string))
    ensures p.0 + p.1 + p.2 == s
    ensures sep !in p.2
    ensures p.1 == [sep] || (p.1 == [] && p.0 == [] && sep !in s)
  {
    var k := LastIndexOf(s, sep);
    if k < 0 then ("", "", s)
    else
      assert s == s[..k] + [sep] + s[k + 1..];
      (s[..k], [sep], s[k + 1..])
  }

  /** Partitioning at a separator that does not occur later splits exactly there. */
  lemma RPartitionAt(head: string, sep: char, tail: string)
    requires sep !in tail
    ensures RPartition(head + [sep] + tail, sep) == (head, [sep], tail)
  {
    var s := head + [sep] + tail;
    var k := |head|;
    forall i | k < i < |s| ensures s[i] != sep {
      assert s[i] == tail[i - k - 1];
    }
    LastIndexOfIs(s, sep, k);
    assert s[..k] == head;
    assert s[k + 1..] == tail;
  }

  /** `rstrip(c)` removes a single trailing `c` from a text that does not otherwise end in `c`. */
  lemma RStripCharAppended(t: string, c: char)
    requires t == [] || t[|t| - 1] != c
    ensures RStripChar(t + [c], c) == t
  {
    assert (t + [c])[..|t|] == t;
  }

  /** `pat in s` for strings: `pat` occurs somewhere in `s` as a contiguous run. */
  predicate Contains(s: string, pat: string)
    decreases |s|
  {
    |pat| <= |s| && (s[..|pat|] == pat || Contains(s[1..], pat))
  }

  /** `pat` occurs in `s` starting at index `i`. */
  ghost predicate OccursAt(s: string, pat: string, i: int) {
    0 <= i <= |s| - |pat| && s[i..i + |pat|] == pat
  }

  /** A slice of `s[1..]` is the slice of `s` one place further on. */
  lemma SliceOfTail(s: string, a: int, b: int)
    requires 0 <= a <= b <= |s| - 1
    ensures s[1..][a..b] == s[a + 1..b + 1]
  {
  }

  lemma {:induction false} ContainsIff(s: string, pat: string)
    ensures Contains(s, pat) <==> exists i :: OccursAt(s, pat, i)
    decreases |s|
  {
    if |pat| <= |s| {
      if s[..|pat|] == pat {
        assert OccursAt(s, pat, 0);
      } else {
        ContainsIff(s[1..], pat);
        if exists i :: OccursAt(s, pat, i) {
          var i :| OccursAt(s, pat, i);
          assert i != 0;
          SliceOfTail(s, i - 1, i - 1 + |pat|);
          assert OccursAt(s[1..], pat, i - 1);
        }
        if Contains(s[1..], pat) {
          var j :| OccursAt(s[1..], pat, j);
          SliceOfTail(s, j, j + |pat|);
          assert OccursAt(s, pat, j + 1);
        }
      }
    } else {
      assert forall i :: !OccursAt(s, pat, i);
    }
  }

  /** `s.split("\n")`: the lines of `s`; always at least one, none holding a newline. */
  function Split(s: string): (lines: seq<string>)
    ensures |lines| >= 1
    ensures forall k :: 0 <= k < |lines| ==> '\n' !in lines[k]
  {
    if |s| == 0 then [""]
    else
      var rest := Split(s[1..]);
      if s[0] == '\n' then [""] + rest
      else [[s[0]] + rest[0]] + rest[1..]
  }

  /** `"\n".join(lines)`. */
  function Join(lines: seq<string>): string {
    if |lines| == 0 then ""
    else if |lines| == 1 then lines[0]
    else lines[0] + "\n" + Join(lines[1..])
  }

  /** Joining the lines of a text gives the text back. */
  lemma {:induction false} JoinSplit(s: string)
    ensures Join(Split(s)) == s
  {
    if |s| > 0 {
      var rest := Split(s[1..]);
      JoinSplit(s[1..]);
      if s[0] == '\n' {
        assert ([""] + rest)[1..] == rest;
        assert s == "\n" + s[1..];
      } else if |rest| == 1 {
        assert s == [s[0]] + s[1..];
      } else {
        var lines := [[s[0]] + rest[0]] + rest[1..];
        assert lines[1..] == rest[1..];
        assert s == [s[0]] + s[1..];
      }
    }
  }

  /** Splitting a text whose first line is `a` puts `a` in front of the first line of the rest. */
  lemma {:induction false} SplitPrefix(a: string, t: string)
    requires '\n' !in a
    ensures Split(a + t) == [a + Split(t)[0]] + Split(t)[1..]
  {
    if |a| == 0 {
      assert a + t == t;
      assert a + Split(t)[0] == Split(t)[0];
      assert Split(t) == [Split(t)[0]] + Split(t)[1..];
    } else {
      assert (a + t)[1..] == a[1..] + t;
      SplitPrefix(a[1..], t);
      assert [a[0]] + (a[1..] + Split(t)[0]) == a + Split(t)[0];
    }
  }

  /** Splitting the join of newline-free lines gives the lines back. */
  lemma {:induction false} SplitJoin(lines: seq<string>)
    requires |lines| >= 1
    requires forall k :: 0 <= k < |lines| ==> '\n' !in lines[k]
    ensures Split(Join(lines)) == lines
  {
    if |lines| == 1 {
      SplitPrefix(lines[0], "");
      assert lines[0] + "" == lines[0];
    } else {
      var more := lines[1..];
      SplitJoin(more);
      var t := "\n" + Join(more);
      assert Join(lines) == lines[0] + t;
      SplitPrefix(lines[0], t);
      assert t[1..] == Join(more);
      assert Split(t) == [""] + Split(Join(more));
      assert lines[0] + "" == lines[0];
    }
  }

  predicate IsDigit(c: char) {
    '0' <= c <= '9'
  }

  predicate AllDigits(s: string) {
    forall i :: 0 <= i < |s| ==> IsDigit(s[i])
  }

  function DigitValue(c: char): nat
    requires IsDigit(c)
  {
    (c as int) - ('0' as int)
  }

  /** The value of a run of decimal digits, most significant first. */
  function DigitsValue(ds: string): nat
    requires AllDigits(ds)
  {
    if |ds| == 0 then 0 else 10 * DigitsValue(ds[..|ds| - 1]) + DigitValue(ds[|ds| - 1])
  }

  /**
    `int(s)` on text: surrounding whitespace is ignored, then an optional sign
    and at least one decimal digit; anything else is Python's `ValueError`,
    here `None`.
   */
  function ParseInt(s: string): Option<int> {
    ParseSigned(Strip(s))
  }

  /** An optional sign followed by at least one decimal digit, and nothing else. */
  function ParseSigned(t: string): Option<int> {
    var signed := |t| > 0 && (t[0] == '-' || t[0] == '+');
    var body := if signed then t[1..] else t;
    if |body| > 0 && AllDigits(body) then
      var n: int := DigitsValue(body);
      Some(if signed && t[0] == '-' then -n else n)
    else None
  }

  function DigitChar(d: nat): char
    requires d < 10
  {
    (('0' as int) + d) as char
  }

  /** Decimal digits of `n`, most significant first, without leading zeros (`str(n)`). */
  function NatDigits(n: nat): (ds: string)
    ensures |ds| > 0 && AllDigits(ds)
    ensures ds[0] != '0' || n == 0
  {
    if n < 10 then [DigitChar(n)] else NatDigits(n / 10) + [DigitChar(n % 10)]
  }

  /** `str(n)` for an integer. */
  function ShowInt(n: int): string {
    if n < 0 then "-" + NatDigits(-n) else NatDigits(n)
  }

  lemma {:induction false} NatDigitsValue(n: nat)
    ensures DigitsValue(NatDigits(n)) == n
  {
    if n >= 10 {
      var ds := NatDigits(n);
      NatDigitsValue(n / 10);
      assert ds[..|ds| - 1] == NatDigits(n / 10);
    }
  }

  /** Dropping leading whitespace in front of a text that does not start with whitespace. */
  lemma {:induction false} LStripPadded(pre: string, t: string)
    requires AllSpace(pre)
    requires t == [] || !IsSpace(t[0])
    ensures LStrip(pre + t) == t
  {
    if |pre| > 0 {
      assert (pre + t)[1..] == pre[1..] + t;
      LStripPadded(pre[1..], t);
    } else {
      assert pre + t == t;
    }
  }

  /** Dropping trailing whitespace behind a text that does not end with whitespace. */
  lemma {:induction false} RStripPadded(t: string, post: string)
    requires AllSpace(post)
    requires t == [] || !IsSpace(t[|t| - 1])
    ensures RStrip(t + post) == t
  {
    if |post| > 0 {
      assert (t + post)[..|t + post| - 1] == t + post[..|post| - 1];
      RStripPadded(t, post[..|post| - 1]);
    } else {
      assert t + post == t;
    }
  }

  /** `strip` removes exactly the whitespace padding around a text with no whitespace at its ends. */
  lemma StripPadded(pre: string, t: string, post: string)
    requires AllSpace(pre) && AllSpace(post)
    requires t == [] || (!IsSpace(t[0]) && !IsSpace(t[|t| - 1]))
    ensures Strip(pre + t + post) == t
  {
    if t == [] {
      assert pre + t + post == pre + post;
      LStripPadded(pre + post, []);
      assert pre + post + [] == pre + post;
    } else {
      assert pre + t + post == pre + (t + post);
      LStripPadded(pre, t + post);
      RStripPadded(t, post);
    }
  }

  lemma ParseSignedShowInt(n: int)
    ensures ParseSigned(ShowInt(n)) == Some(n)
  {
    var m := if n < 0 then -n else n;
    NatDigitsValue(m);
    if n < 0 {
      assert ShowInt(n)[1..] == NatDigits(m);
    }
  }

  /** `int(str(n)) == n`, also with whitespace around the digits. */
  lemma ParseIntShowInt(n: int, pre: string, post: string)
    requires AllSpace(pre) && AllSpace(post)
    ensures ParseInt(pre + ShowInt(n) + post) == Some(n)
  {
    var t := ShowInt(n);
    assert t[0] == '-' || IsDigit(t[0]);
    assert IsDigit(t[|t| - 1]);
    StripPadded(pre, t, post);
    ParseSignedShowInt(n);
  }

  /** `int()` of a parameter: blank text is rejected, and `str(n)` reads back as `n`. */
  lemma ParseIntCases(v: string)
    ensures AllSpace(v) ==> ParseInt(v).None?
    ensures forall n :: v == ShowInt(n) ==> ParseInt(v) == Some(n)
  {
    if AllSpace(v) {
      ParseIntRejectsBlank(v);
    }
    forall n | v == ShowInt(n) ensures ParseInt(v) == Some(n) {
      ParseIntOfShowInt(n);
    }
  }

  lemma ParseIntOfShowInt(n: int)
    ensures ParseInt(ShowInt(n)) == Some(n)
  {
    var t := ShowInt(n);
    assert [] + t + [] == t;
    ParseIntShowInt(n, [], []);
  }

  /**
    `s` is an integer literal for `n` as `int()` reads it: whitespace `pre`,
    an optional sign, the decimal digits `ds`, and whitespace `post`.
   */
  ghost predicate IntLiteral(s: string, n: int, pre: string, sign: string, ds: string, post: string) {
    && AllSpace(pre) && AllSpace(post)
    && (sign == "" || sign == "+" || sign == "-")
    && |ds| > 0 && AllDigits(ds)
    && s == pre + sign + ds + post
    && n == SignedValue(sign, ds)
  }

  /** The value of the digits `ds` under the sign `sign`. */
  function SignedValue(sign: string, ds: string): int
    requires AllDigits(ds)
  {
    var v: int := DigitsValue(ds);
    if sign == "-" then -v else v
  }

  /** `s` is some integer literal: the texts `int()` accepts. */
  ghost predicate IsIntText(s: string) {
    exists n, pre, sign, ds, post :: IntLiteral(s, n, pre, sign, ds, post)
  }

  /** A sign and digits, with nothing around them, are read as their value. */
  lemma ParseSignedOf(sign: string, ds: string)
    requires sign == "" || sign == "+" || sign == "-"
    requires |ds| > 0 && AllDigits(ds)
    ensures ParseSigned(sign + ds) == Some(SignedValue(sign, ds))
  {
    var t := sign + ds;
    if sign == "" {
      assert t == ds;
    } else {
      assert t[0] == sign[0];
      assert t[1..] == ds;
    }
  }

  /** A text that `ParseSigned` accepts is a sign followed by digits. */
  lemma ParseSignedParts(t: string)
    requires ParseSigned(t).Some?
    ensures var signed := t[0] == '-' || t[0] == '+';
            var sign := if signed then t[..1] else "";
            var ds := if signed then t[1..] else t;
            && (sign == "" || sign == "+" || sign == "-")
            && |ds| > 0 && AllDigits(ds)
            && t == sign + ds
            && ParseSigned(t) == Some(SignedValue(sign, ds))
  {
    if t[0] == '-' || t[0] == '+' {
      assert t == t[..1] + t[1..];
      assert t[..1] == [t[0]];
    }
  }

  /** A text padded by whitespace splits into the padding and the text. */
  lemma PaddedParts(s: string, k: int, t: string)
    requires PaddedBy(s, k, t)
    ensures AllSpace(s[..k]) && AllSpace(s[k + |t|..])
    ensures s == s[..k] + t + s[k + |t|..]
  {
    var post := s[k + |t|..];
    forall i | 0 <= i < |post| ensures IsSpace(post[i]) {
      assert post[i] == s[k + |t| + i];
    }
  }

  /** Splitting the middle part of a three-part concatenation in two. */
  lemma ConcatSplit(s: string, pre: string, t: string, post: string, sign: string, ds: string)
    requires s == pre + t + post && t == sign + ds
    ensures s == pre + sign + ds + post
  {
  }

  /** Every literal is read as its value. */
  lemma ParseIntOfLiteral(s: string, n: int, pre: string, sign: string, ds: string, post: string)
    requires IntLiteral(s, n, pre, sign, ds, post)
    ensures ParseInt(s) == Some(n)
  {
    var t := sign + ds;
    assert s == pre + t + post;
    assert t[|t| - 1] == ds[|ds| - 1];
    assert t[0] == if sign == "" then ds[0] else sign[0];
    StripPadded(pre, t, post);
    ParseSignedOf(sign, ds);
  }

  /** Whitespace around a text that `ParseSigned` accepts makes a literal of its value. */
  lemma LiteralOfParts(s: string, pre: string, t: string, post: string)
    requires AllSpace(pre) && AllSpace(post) && s == pre + t + post
    requires ParseSigned(t).Some?
    ensures exists sign, ds :: IntLiteral(s, ParseSigned(t).value, pre, sign, ds, post)
  {
    ParseSignedParts(t);
    var signed := t[0] == '-' || t[0] == '+';
    var sign := if signed then t[..1] else "";
    var ds := if signed then t[1..] else t;
    ConcatSplit(s, pre, t, post, sign, ds);
    assert IntLiteral(s, ParseSigned(t).value, pre, sign, ds, post);
  }

  /** Whatever `int()` accepts is a literal of the value it yields. */
  lemma ParseIntIsLiteral(s: string)
    requires ParseInt(s).Some?
    ensures exists pre, sign, ds, post :: IntLiteral(s, ParseInt(s).value, pre, sign, ds, post)
  {
    var t := Strip(s);
    var k :| PaddedBy(s, k, t);
    PaddedParts(s, k, t);
    LiteralOfParts(s, s[..k], t, s[k + |t|..]);
  }

  /**
    `int()` succeeds exactly on the integer literals, and then yields the
    literal's value; any other text (`"12px"`, `"1.5"`, `"abc"`) is a `ValueError`.
   */
  lemma ParseIntIff(s: string, n: int)
    ensures ParseInt(s) == Some(n) <==> exists pre, sign, ds, post :: IntLiteral(s, n, pre, sign, ds, post)
  {
    if ParseInt(s) == Some(n) {
      ParseIntIsLiteral(s);
    }
    if exists pre, sign, ds, post :: IntLiteral(s, n, pre, sign, ds, post) {
      var pre, sign, ds, post :| IntLiteral(s, n, pre, sign, ds, post);
      ParseIntOfLiteral(s, n, pre, sign, ds, post);
    }
  }

  /** The texts `int()` accepts are the integer literals, each read as its value. */
  lemma ParseIntAccepts(s: string)
    ensures ParseInt(s).Some? <==> IsIntText(s)
    ensures ParseInt(s).Some? ==> exists pre, sign, ds, post :: IntLiteral(s, ParseInt(s).value, pre, sign, ds, post)
  {
    if ParseInt(s).Some? {
      ParseIntIsLiteral(s);
    }
    if IsIntText(s) {
      var n, pre, sign, ds, post :| IntLiteral(s, n, pre, sign, ds, post);
      ParseIntOfLiteral(s, n, pre, sign, ds, post);
    }
  }

  /** `int("")` and `int("   ")` raise `ValueError`. */
  lemma ParseIntRejectsBlank(s: string)
    requires AllSpace(s)
    ensures ParseInt(s) == None
  {
    assert s + [] + [] == s;
    StripPadded(s, [], []);
    assert Strip(s) == [];
    assert ParseSigned([]) == None;
  }
}
