/** The parts of java.lang.String the services rely on, stated on `seq<char>`:
  * `trim` (drops leading and trailing characters up to U+0020), `indexOf`,
  * `contains`, `startsWith`, ASCII `toLowerCase`, `split` on one character and
  * the UTF-8 byte length that `getBytes()` gives. */
module JavaStrings {

  /** Every character would be removed by `trim`. */
  predicate IsBlank(s: string)
  {
    forall i :: 0 <= i < |s| ==> s[i] <= ' '
  }

  /** `s` with its leading characters up to U+0020 removed. */
  function TrimLeft(s: string): (r: string)
    ensures |r| <= |s| && r == s[|s| - |r|..]
    ensures forall i :: 0 <= i < |s| - |r| ==> s[i] <= ' '
    ensures r != [] ==> r[0] > ' '
  {
    if s != [] && s[0] <= ' ' then TrimLeft(s[1..]) else s
  }

  /** `s` with its trailing characters up to U+0020 removed. */
  function TrimRight(s: string): (r: string)
    ensures |r| <= |s| && r == s[..|r|]
    ensures forall i :: |r| <= i < |s| ==> s[i] <= ' '
    ensures r != [] ==> r[|r| - 1] > ' '
  {
    if s != [] && s[|s| - 1] <= ' ' then TrimRight(s[..|s| - 1]) else s
  }

  /** java.lang.String.trim: a slice of `s` that neither starts nor ends with a
    * character up to U+0020, everything cut away being such characters. */
  function Trim(s: string): (r: string)
    ensures |r| <= |s|
    ensures r == [] <==> IsBlank(s)
    ensures r != [] ==> r[0] > ' ' && r[|r| - 1] > ' '
    ensures |r| <= |TrimLeft(s)| && r == TrimLeft(s)[..|r|]
  {
    TrimRight(TrimLeft(s))
  }

  /** A string that already neither starts nor ends with a blank character is its own trim. */
  lemma TrimOfTrimmed(s: string)
    requires s != [] ==> s[0] > ' ' && s[|s| - 1] > ' '
    ensures Trim(s) == s
  {
  }

  /** Trimming twice is trimming once. */
  lemma TrimIdempotent(s: string)
    ensures Trim(Trim(s)) == Trim(s)
  {
    TrimOfTrimmed(Trim(s));
  }

  /** A leading blank character does not change the trim. */
  lemma TrimSkipsLeadingBlank(c: char, s: string)
    requires c <= ' '
    ensures Trim([c] + s) == Trim(s)
  {
    assert ([c] + s)[1..] == s;
  }

  /** `p` occurs in `s` at position `k`. */
  predicate OccursAt(s: string, p: string, k: int)
  {
    0 <= k && k + |p| <= |s| && s[k..k + |p|] == p
  }

  /** `p` occurs somewhere in `s` (java.lang.String.contains). */
  predicate Contains(s: string, p: string)
  {
    exists k :: 0 <= k <= |s| - |p| && OccursAt(s, p, k)
  }

  /** The first position at or after `from` where `p` occurs, or -1. */
  function IndexOfFrom(s: string, p: string, from: nat): (r: int)
    requires from <= |s|
    ensures r == -1 || (from <= r && OccursAt(s, p, r))
    ensures r == -1 ==> forall k :: from <= k ==> !OccursAt(s, p, k)
    ensures r != -1 ==> forall k :: from <= k < r ==> !OccursAt(s, p, k)
    decreases |s| - from
  {
    if from + |p| > |s| then -1
    else if s[from..from + |p|] == p then from
    else IndexOfFrom(s, p, from + 1)
  }

  /** java.lang.String.indexOf: the first position where `p` occurs, or -1. */
  function IndexOf(s: string, p: string): (r: int)
    ensures r == -1 <==> !Contains(s, p)
    ensures r != -1 ==> OccursAt(s, p, r) && forall k :: 0 <= k < r ==> !OccursAt(s, p, k)
  {
    IndexOfFrom(s, p, 0)
  }

  /** When `pre` ends a line and `h` holds no line feed and does not occur in `pre`,
    * the first occurrence of `h` in `pre + h + rest` is right after `pre`. */
  lemma {:induction false} FirstOccurrenceAfterLine(pre: string, h: string, rest: string)
    requires pre == [] || pre[|pre| - 1] == '\n'
    requires '\n' !in h && h != []
    requires !Contains(pre, h)
    ensures IndexOf(pre + h + rest, h) == |pre|
  {
    var s := pre + h + rest;
    assert OccursAt(s, h, |pre|) by {
      assert s[|pre|..|pre| + |h|] == h;
    }
    forall k | 0 <= k < |pre|
      ensures !OccursAt(s, h, k)
    {
      if k + |h| <= |pre| {
        assert s[k..k + |h|] == pre[k..k + |h|];
        assert !OccursAt(pre, h, k);
      } else if k + |h| <= |s| {
        var d := |pre| - 1 - k;
        assert s[k..k + |h|][d] == '\n';
        assert h[d] != '\n';
      }
    }
  }

  /** The first CRLF after a text that holds no line feed is the one right after it. */
  lemma {:induction false} FirstCrlfAfter(a: string, rest: string)
    requires '\n' !in a
    ensures IndexOf(a + "\r\n" + rest, "\r\n") == |a|
  {
    var s := a + "\r\n" + rest;
    assert OccursAt(s, "\r\n", |a|) by {
      assert s[|a|..|a| + 2] == "\r\n";
    }
    forall k | 0 <= k < |a|
      ensures !OccursAt(s, "\r\n", k)
    {
      assert s[k..k + 2][1] == s[k + 1] != '\n';
    }
  }

  /** A text lacking one of the characters of `p` cannot contain `p`. */
  lemma NotContainsMissingChar(s: string, p: string, d: nat)
    requires d < |p| && p[d] !in s
    ensures !Contains(s, p)
  {
    forall k | 0 <= k <= |s| - |p|
      ensures !OccursAt(s, p, k)
    {
      assert s[k + d] in s;
      assert s[k..k + |p|][d] == s[k + d] != p[d];
    }
  }

  /** An occurrence exhibited at a position. */
  lemma ContainsAt(s: string, p: string, k: nat)
    requires k + |p| <= |s| && s[k..k + |p|] == p
    ensures Contains(s, p)
  {
    assert OccursAt(s, p, k);
  }

  /** java.lang.String.startsWith. */
  predicate StartsWith(s: string, p: string)
  {
    |p| <= |s| && s[..|p|] == p
  }

  /** java.lang.String.endsWith. */
  predicate EndsWith(s: string, p: string)
  {
    |p| <= |s| && s[|s| - |p|..] == p
  }

  /** Appending keeps a prefix. */
  lemma StartsWithAppend(s: string, p: string, t: string)
    requires StartsWith(s, p)
    ensures StartsWith(s + t, p)
  {
    assert (s + t)[..|p|] == s[..|p|];
  }

  /** Prepending keeps a suffix. */
  lemma EndsWithPrepend(a: string, s: string, p: string)
    requires EndsWith(s, p)
    ensures EndsWith(a + s, p)
  {
    assert (a + s)[|a + s| - |p|..] == s[|s| - |p|..];
  }

  /** The two halves of a concatenation are its prefix and its suffix. */
  lemma ConcatEnds(a: string, b: string)
    ensures StartsWith(a + b, a) && EndsWith(a + b, b)
  {
    assert (a + b)[..|a|] == a;
    assert (a + b)[|a|..] == b;
  }

  /** Appending keeps an occurrence. */
  lemma ContainsAppend(s: string, p: string, t: string)
    requires Contains(s, p)
    ensures Contains(s + t, p)
  {
    var k :| 0 <= k <= |s| - |p| && OccursAt(s, p, k);
    assert (s + t)[k..k + |p|] == s[k..k + |p|];
    assert OccursAt(s + t, p, k);
  }

  /** A string occurs in any text it ends. */
  lemma ContainsSuffix(a: string, p: string)
    ensures Contains(a + p, p)
  {
    assert (a + p)[|a|..|a| + |p|] == p;
    assert OccursAt(a + p, p, |a|);
  }

  /** Lower-cases an ASCII capital letter; other characters are kept. */
  function LowerChar(c: char): (r: char)
    ensures 'A' <= c <= 'Z' ==> r as int == c as int + 32
    ensures !('A' <= c <= 'Z') ==> r == c
  {
    if 'A' <= c <= 'Z' then (c as int + 32) as char else c
  }

  /** java.lang.String.toLowerCase restricted to ASCII letters. */
  function ToLower(s: string): (r: string)
    ensures |r| == |s|
    ensures forall i :: 0 <= i < |s| ==> r[i] == LowerChar(s[i])
  {
    if s == [] then [] else [LowerChar(s[0])] + ToLower(s[1..])
  }

  /** java.lang.String.equalsIgnoreCase restricted to ASCII letters. */
  predicate EqualsIgnoreCase(s: string, t: string)
  {
    |s| == |t| && forall i :: 0 <= i < |s| ==> LowerChar(s[i]) == LowerChar(t[i])
  }

  /** java.lang.String.split on a one-character separator, before Java drops the
    * trailing empty tokens: every maximal run of non-separator characters, empty
    * runs included. */
  function Split(s: string, sep: char): (r: seq<string>)
    ensures |r| >= 1
    ensures forall i :: 0 <= i < |r| ==> sep !in r[i]
    ensures JoinWith(r, sep) == s
  {
    if s == [] then [""]
    else
      var rest := Split(s[1..], sep);
      if s[0] == sep then
        assert [s[0]] + JoinWith(rest, sep) == s;
        [""] + rest
      else
        var r := [[s[0]] + rest[0]] + rest[1..];
        assert r[1..] == rest[1..];
        JoinAppendFirst(s[0], rest, sep);
        r
  }

  /** The tokens of `xs` separated by `sep` (TextUtils.join). */
  function JoinWith(xs: seq<string>, sep: char): string
  {
    if xs == [] then ""
    else if |xs| == 1 then xs[0]
    else xs[0] + [sep] + JoinWith(xs[1..], sep)
  }

  /** Prefixing the first token prefixes the joined string. */
  lemma JoinAppendFirst(c: char, xs: seq<string>, sep: char)
    requires xs != []
    ensures JoinWith([[c] + xs[0]] + xs[1..], sep) == [c] + JoinWith(xs, sep)
  {
    var ys := [[c] + xs[0]] + xs[1..];
    assert ys[1..] == xs[1..];
  }

  /** Splitting a join of separator-free tokens gives back the tokens. */
  lemma {:induction false} SplitJoin(xs: seq<string>, sep: char)
    requires xs != []
    requires forall i :: 0 <= i < |xs| ==> sep !in xs[i]
    ensures Split(JoinWith(xs, sep), sep) == xs
  {
    if |xs| == 1 {
      SplitOfToken(xs[0], sep);
    } else {
      SplitJoin(xs[1..], sep);
      SplitPrefixToken(xs[0], JoinWith(xs[1..], sep), sep);
      assert [xs[0]] + xs[1..] == xs;
    }
  }

  /** A separator-free text splits into itself. */
  lemma {:induction false} SplitOfToken(t: string, sep: char)
    requires sep !in t
    ensures Split(t, sep) == [t]
  {
    if t != [] {
      SplitOfToken(t[1..], sep);
      assert [t[0]] + t[1..] == t;
    }
  }

  /** A separator-free token followed by a separator is split off as the first token. */
  lemma {:induction false} SplitPrefixToken(t: string, rest: string, sep: char)
    requires sep !in t
    ensures Split(t + [sep] + rest, sep) == [t] + Split(rest, sep)
  {
    if t == [] {
      assert t + [sep] + rest == [sep] + rest;
      assert ([sep] + rest)[1..] == rest;
    } else {
      var s := t + [sep] + rest;
      assert s[1..] == t[1..] + [sep] + rest;
      SplitPrefixToken(t[1..], rest, sep);
      assert [t[0]] + t[1..] == t;
    }
  }

  /** A trailing separator adds one empty token. */
  lemma {:induction false} SplitTrailingSeparator(s: string, sep: char)
    ensures Split(s + [sep], sep) == Split(s, sep) + [""]
  {
    if s == [] {
      assert Split([sep][1..], sep) == [""];
    } else {
      assert (s + [sep])[1..] == s[1..] + [sep];
      SplitTrailingSeparator(s[1..], sep);
    }
  }

  /** Bytes that encoding one character takes in UTF-8 (RFC 3629, section 3). */
  function Utf8CharLength(c: char): (n: nat)
    ensures 1 <= n <= 4
    ensures n == 1 <==> c as int < 0x80
  {
    if c as int < 0x80 then 1
    else if c as int < 0x800 then 2
    else if c as int < 0x10000 then 3
    else 4
  }

  /** String.getBytes().length for the UTF-8 default charset. */
  function Utf8Length(s: string): (n: nat)
  {
    if s == [] then 0 else Utf8CharLength(s[0]) + Utf8Length(s[1..])
  }

  /** UTF-8 takes at least one byte per character, and exactly one for ASCII text. */
  lemma {:induction false} Utf8LengthBounds(s: string)
    ensures |s| <= Utf8Length(s) <= 4 * |s|
    ensures Utf8Length(s) == |s| <==> forall i :: 0 <= i < |s| ==> s[i] as int < 0x80
  {
    if s != [] {
      Utf8LengthBounds(s[1..]);
      assert forall i :: 1 <= i < |s| ==> s[i] == s[1..][i - 1];
    }
  }

  /** The decimal digit of a value below ten. */
  function Digit(d: nat): (c: char)
    requires d < 10
    ensures '0' <= c <= '9' && c as int - '0' as int == d
  {
    ('0' as int + d) as char
  }

  /** String.valueOf on a non-negative int: its decimal digits, no leading zero. */
  function DecimalString(n: nat): (r: string)
    ensures r != [] && (|r| > 1 ==> r[0] != '0')
    ensures forall i :: 0 <= i < |r| ==> '0' <= r[i] <= '9'
  {
    if n < 10 then [Digit(n)] else DecimalString(n / 10) + [Digit(n % 10)]
  }

  /** The value of a string of decimal digits. */
  function DecimalValue(s: string): nat
    requires forall i :: 0 <= i < |s| ==> '0' <= s[i] <= '9'
  {
    if s == [] then 0 else 10 * DecimalValue(s[..|s| - 1]) + (s[|s| - 1] as int - '0' as int)
  }

  /** Reading back the decimal rendering of a number gives the number. */
  lemma {:induction false} DecimalRoundTrip(n: nat)
    ensures DecimalValue(DecimalString(n)) == n
  {
    if n >= 10 {
      DecimalRoundTrip(n / 10);
      var s := DecimalString(n);
      assert s[..|s| - 1] == DecimalString(n / 10);
    }
  }
}
