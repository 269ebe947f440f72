/**
 * The few Python string operations the handlers rely on, restricted to ASCII:
 * `str.strip()`, `str.lower()`, `str.startswith`, `str.split(sep)`,
 * `sep.join(...)`, `s.rsplit("/", 1)[-1]` and `int(s)` / `str(n)` in base 10.
 */
module PyText {
  import opened Results

  // ---------------------------------------------------------------------------
  // Whitespace and strip()
  // ---------------------------------------------------------------------------

  /** The ASCII characters for which Python's `str.isspace()` holds. */
  predicate IsSpace(c: char)
  {
    c == ' ' || (9 <= c as int <= 13) || (28 <= c as int <= 31)
  }

  predicate AllSpace(s: string)
  {
    forall i :: 0 <= i < |s| ==> IsSpace(s[i])
  }

  /** `s.lstrip()`: the suffix left after dropping leading whitespace. */
  function StripLeft(s: string): (r: string)
    ensures |r| <= |s| && r == s[|s| - |r|..]
    ensures AllSpace(s[..|s| - |r|])
    ensures r == [] || !IsSpace(r[0])
  {
    if s != [] && IsSpace(s[0]) then
      var r := StripLeft(s[1..]);
      assert s[..|s| - |r|] == [s[0]] + s[1..][..|s| - 1 - |r|];
      r
    else s
  }

  /** `s.rstrip()`: the prefix left after dropping trailing whitespace. */
  function StripRight(s: string): (r: string)
    ensures |r| <= |s| && r == s[..|r|]
    ensures AllSpace(s[|r|..])
    ensures r == [] || !IsSpace(r[|r| - 1])
  {
    if s != [] && IsSpace(s[|s| - 1]) then
      var init := s[..|s| - 1];
      var r := StripRight(init);
      assert s[|r|..] == init[|r|..] + [s[|s| - 1]];
      assert s[..|r|] == init[..|r|];
      r
    else s
  }

  /** Where `s.strip()` starts: the number of leading whitespace characters. */
  function StripOffset(s: string): (k: nat)
    ensures k <= |s|
  {
    |s| - |StripLeft(s)|
  }

  /**
   * `s.strip()`: the middle part of `s` starting at StripOffset(s), neither
   * starting nor ending with whitespace.
   */
  function Strip(s: string): (r: string)
    ensures StripOffset(s) + |r| <= |s| && r == s[StripOffset(s)..StripOffset(s) + |r|]
    ensures r == [] || (!IsSpace(r[0]) && !IsSpace(r[|r| - 1]))
  {
    var left := StripLeft(s);
    var r := StripRight(left);
    PrefixOfSuffix(s, StripOffset(s), left, r);
    r
  }

  /** A prefix of a suffix is a slice. */
  lemma PrefixOfSuffix(s: string, k: nat, left: string, r: string)
    requires k <= |s| && left == s[k..]
    requires |r| <= |left| && r == left[..|r|]
    ensures k + |r| <= |s| && r == s[k..k + |r|]
    ensures r != [] ==> r[0] == left[0]
  {
    assert s[k..k + |r|] == left[..|r|];
  }

  /** What Strip drops on either side is whitespace. */
  lemma StripDropsOnlySpace(s: string)
    ensures AllSpace(s[..StripOffset(s)])
    ensures AllSpace(s[StripOffset(s) + |Strip(s)|..])
  {
    var left := StripLeft(s);
    var i := StripOffset(s);
    assert s[i + |Strip(s)|..] == left[|Strip(s)|..];
  }

  /** Strip gives the empty string exactly when `s` is all whitespace. */
  lemma StripEmptyIffAllSpace(s: string)
    ensures Strip(s) == [] <==> AllSpace(s)
  {
    var i := StripOffset(s);
    var r := Strip(s);
    assert r != [] ==> r[0] == s[i];
    if r == [] {
      StripDropsOnlySpace(s);
      var left := StripLeft(s);
      assert left == s[i..];
      assert i == |s|;
      assert s[..i] == s;
    }
  }

  /** Strip leaves a string alone exactly when it has no surrounding whitespace. */
  lemma StripKeeps(s: string)
    requires s == [] || (!IsSpace(s[0]) && !IsSpace(s[|s| - 1]))
    ensures Strip(s) == s
  {
  }

  // ---------------------------------------------------------------------------
  // lower() and startswith()
  // ---------------------------------------------------------------------------

  function LowerChar(c: char): char
  {
    if 'A' <= c <= 'Z' then (c as int + 32) as char else c
  }

  /** `s.lower()` on ASCII letters. */
  function Lower(s: string): string
  {
    seq(|s|, i requires 0 <= i < |s| => LowerChar(s[i]))
  }

  lemma LowerIdempotent(s: string)
    ensures Lower(Lower(s)) == Lower(s)
  {
  }

  predicate HasPrefix(s: string, prefix: string)
  {
    |prefix| <= |s| && s[..|prefix|] == prefix
  }

  // ---------------------------------------------------------------------------
  // split(sep) and join
  // ---------------------------------------------------------------------------

  /** `s.split(sep)` for a one-character separator: never empty, no piece holds `sep`. */
  function Split(s: string, sep: char): (r: seq<string>)
    ensures |r| >= 1
    ensures forall i :: 0 <= i < |r| ==> sep !in r[i]
  {
    if s == [] then [[]]
    else
      var rest := Split(s[1..], sep);
      if s[0] == sep then [[]] + rest else [[s[0]] + rest[0]] + rest[1..]
  }

  /** `sep.join(xs)`. */
  function Join(xs: seq<string>, sep: char): string
  {
    if xs == [] then []
    else if |xs| == 1 then xs[0]
    else xs[0] + [sep] + Join(xs[1..], sep)
  }

  lemma {:induction false} SplitWithoutSeparator(s: string, sep: char)
    requires sep !in s
    ensures Split(s, sep) == [s]
  {
    if s != [] {
      SplitWithoutSeparator(s[1..], sep);
      assert [s[0]] + s[1..] == s;
    }
  }

  lemma {:induction false} SplitAfterPiece(x: string, sep: char, t: string)
    requires sep !in x
    ensures Split(x + [sep] + t, sep) == [x] + Split(t, sep)
  {
    if x == [] {
      assert (x + [sep] + t)[1..] == t;
    } else {
      assert (x + [sep] + t)[1..] == x[1..] + [sep] + t;
      SplitAfterPiece(x[1..], sep, t);
      assert [x[0]] + x[1..] == x;
    }
  }

  /** Joining and splitting again gives back pieces that do not hold the separator. */
  lemma {:induction false} SplitJoin(xs: seq<string>, sep: char)
    requires |xs| >= 1
    requires forall i :: 0 <= i < |xs| ==> sep !in xs[i]
    ensures Split(Join(xs, sep), sep) == xs
  {
    if |xs| == 1 {
      SplitWithoutSeparator(xs[0], sep);
    } else {
      SplitAfterPiece(xs[0], sep, Join(xs[1..], sep));
      SplitJoin(xs[1..], sep);
    }
  }

  /** Splitting and joining again gives back the string. */
  lemma {:induction false} JoinSplit(s: string, sep: char)
    ensures Join(Split(s, sep), sep) == s
  {
    if s != [] {
      JoinSplit(s[1..], sep);
    }
  }

  // ---------------------------------------------------------------------------
  // rsplit("/", 1)[-1]
  // ---------------------------------------------------------------------------

  /**
   * `s.rsplit("/", 1)[-1]`: the longest suffix of `s` without a slash, which
   * is the whole string or starts right after a slash.
   */
  function LastSegment(s: string): (r: string)
    ensures '/' !in r
    ensures |r| <= |s| && r == s[|s| - |r|..]
    ensures |r| < |s| ==> s[|s| - |r| - 1] == '/'
  {
    if s == [] then []
    else if s[|s| - 1] == '/' then []
    else LastSegment(s[..|s| - 1]) + [s[|s| - 1]]
  }

  /** The segment after the last slash of `prefix + "/" + name` is `name`. */
  lemma {:induction false} LastSegmentAfterSlash(prefix: string, name: string)
    requires '/' !in name
    ensures LastSegment(prefix + "/" + name) == name
  {
    var s := prefix + "/" + name;
    if name == [] {
      assert s[|s| - 1] == '/';
    } else {
      var name' := name[..|name| - 1];
      assert s[..|s| - 1] == prefix + "/" + name';
      LastSegmentAfterSlash(prefix, name');
      assert name == name' + [name[|name| - 1]];
    }
  }

  // ---------------------------------------------------------------------------
  // int(s) and str(n)
  // ---------------------------------------------------------------------------

  predicate IsDigit(c: char)
  {
    '0' <= c <= '9'
  }

  function DigitValue(c: char): nat
    requires IsDigit(c)
  {
    c as int - '0' as int
  }

  function DigitChar(d: nat): (c: char)
    requires d < 10
    ensures IsDigit(c) && DigitValue(c) == d
  {
    ('0' as int + d) as char
  }

  /**
   * The value of a Python digit group `[0-9](_?[0-9])*` (single underscores
   * between digits are allowed), or None when `s` is not one.
   */
  function GroupValue(s: string): Option<nat>
  {
    if s == [] || !IsDigit(s[|s| - 1]) then None
    else if |s| == 1 then Some(DigitValue(s[0]))
    else
      var init := s[..|s| - 1];
      var head := if init[|init| - 1] == '_' then init[..|init| - 1] else init;
      match GroupValue(head)
      case None => None
      case Some(v) => Some(v * 10 + DigitValue(s[|s| - 1]))
  }

  /**
   * The characters `int(s)` skips around the number: space, \t, \n, \v, \f
   * and \r. Unlike `str.isspace()`, this leaves out \x1c-\x1f.
   */
  predicate IsIntSpace(c: char)
  {
    c == ' ' || 9 <= c as int <= 13
  }

  predicate AllIntSpace(s: string)
  {
    forall i :: 0 <= i < |s| ==> IsIntSpace(s[i])
  }

  /** The text `int` reads once the padding is gone: an optional sign, then a digit group. */
  function SignedGroupValue(t: string): Option<int>
  {
    if t != [] && (t[0] == '-' || t[0] == '+') then
      match GroupValue(t[1..])
      case None => None
      case Some(v) => var n: int := v; Some(if t[0] == '-' then -n else n)
    else
      match GroupValue(t)
      case None => None
      case Some(v) => Some(v)
  }

  /**
   * Python's `int(s)`: surrounding whitespace, an optional sign, a digit
   * group. `int` skips only IsIntSpace characters, all of which Strip drops
   * too; a \x1c-\x1f that `int` leaves in place is neither a sign nor a
   * digit, so the text is refused exactly when Strip drops one of those.
   */
  function ParseInt(s: string): Option<int>
  {
    var k := StripOffset(s);
    var t := Strip(s);
    if !AllIntSpace(s[..k]) || !AllIntSpace(s[k + |t|..]) then None
    else SignedGroupValue(t)
  }

  /** Python's `str(n)` for a natural number. */
  function FormatNat(n: nat): (r: string)
    ensures r != [] && forall i :: 0 <= i < |r| ==> IsDigit(r[i])
  {
    if n < 10 then [DigitChar(n)] else FormatNat(n / 10) + [DigitChar(n % 10)]
  }

  /** Python's `str(n)`. */
  function FormatInt(n: int): string
  {
    if n < 0 then "-" + FormatNat(-n) else FormatNat(n)
  }

  lemma {:induction false} GroupValueFormatNat(n: nat)
    ensures GroupValue(FormatNat(n)) == Some(n)
  {
    if n >= 10 {
      var s := FormatNat(n);
      assert s[..|s| - 1] == FormatNat(n / 10);
      GroupValueFormatNat(n / 10);
    }
  }

  /** A leading \x1c-\x1f, which `str.strip()` would remove, makes `int` refuse the text. */
  lemma ParseIntRefusesLeadingSeparator(s: string)
    requires s != [] && IsSpace(s[0]) && !IsIntSpace(s[0])
    ensures ParseInt(s) == None
  {
    var k := StripOffset(s);
    assert k >= 1;
    assert s[..k][0] == s[0];
  }

  /** A trailing \x1c-\x1f, which `str.strip()` would remove, makes `int` refuse the text. */
  lemma ParseIntRefusesTrailingSeparator(s: string)
    requires s != [] && IsSpace(s[|s| - 1]) && !IsIntSpace(s[|s| - 1])
    ensures ParseInt(s) == None
  {
    var k := StripOffset(s);
    var t := Strip(s);
    assert t != [] ==> s[k + |t| - 1] == t[|t| - 1];
    assert k + |t| < |s| || (t == [] && k == |s|);
    if k + |t| < |s| {
      assert s[k + |t|..][|s| - 1 - k - |t|] == s[|s| - 1];
    } else {
      assert s[..k][|s| - 1] == s[|s| - 1];
    }
  }

  /** Text with no surrounding whitespace is read by `int` as its sign and digits alone. */
  lemma ParseIntOfUnpadded(s: string)
    requires Strip(s) == s
    ensures ParseInt(s) == SignedGroupValue(s)
  {
    assert StripOffset(s) == 0;
    assert s[..0] == [] && s[|s|..] == [];
  }

  lemma StripLeftOfSpace(c: char, s: string)
    requires IsSpace(c)
    ensures StripLeft([c] + s) == StripLeft(s)
  {
    assert ([c] + s)[1..] == s;
  }

  lemma StripRightOfSpace(s: string, c: char)
    requires IsSpace(c)
    ensures StripRight(s + [c]) == StripRight(s)
  {
    assert (s + [c])[..|s|] == s;
  }

  /** Stripping one whitespace character from each side of a non-space one. */
  lemma StripOfPadded(a: char, x: char, b: char)
    requires IsSpace(a) && IsSpace(b) && !IsSpace(x)
    ensures Strip([a, x, b]) == [x] && StripOffset([a, x, b]) == 1
  {
    assert [a, x, b] == [a] + [x, b];
    StripLeftOfSpace(a, [x, b]);
    assert StripLeft([x, b]) == [x, b];
    assert [x, b] == [x] + [b];
    StripRightOfSpace([x], b);
    assert StripRight([x]) == [x];
  }

  /** Leading whitespace of any length is what lstrip drops. */
  lemma {:induction false} StripLeftOfSpaces(pre: string, s: string)
    requires AllSpace(pre)
    ensures StripLeft(pre + s) == StripLeft(s)
  {
    if pre != [] {
      var rest := pre[1..];
      assert AllSpace(rest) by {
        forall i | 0 <= i < |rest|
          ensures IsSpace(rest[i])
        {
          assert rest[i] == pre[i + 1];
        }
      }
      assert pre + s == [pre[0]] + (rest + s);
      StripLeftOfSpace(pre[0], rest + s);
      StripLeftOfSpaces(rest, s);
    } else {
      assert pre + s == s;
    }
  }

  /** Trailing whitespace of any length is what rstrip drops. */
  lemma {:induction false} StripRightOfSpaces(s: string, post: string)
    requires AllSpace(post)
    ensures StripRight(s + post) == StripRight(s)
  {
    if post != [] {
      var init := post[..|post| - 1];
      assert AllSpace(init) by {
        forall i | 0 <= i < |init|
          ensures IsSpace(init[i])
        {
          assert init[i] == post[i];
        }
      }
      assert IsSpace(post[|post| - 1]);
      assert s + post == (s + init) + [post[|post| - 1]];
      StripRightOfSpace(s + init, post[|post| - 1]);
      StripRightOfSpaces(s, init);
    } else {
      assert s + post == s;
    }
  }

  /** Text between two whitespace runs strips to itself when it has no surrounding whitespace. */
  lemma StripOfSurrounded(pre: string, x: string, post: string)
    requires AllSpace(pre) && AllSpace(post)
    requires x != [] && !IsSpace(x[0]) && !IsSpace(x[|x| - 1])
    ensures Strip(pre + x + post) == x
  {
    assert pre + x + post == pre + (x + post);
    StripLeftOfSpaces(pre, x + post);
    assert StripLeft(x + post) == x + post;
    StripRightOfSpaces(x, post);
    assert StripRight(x) == x;
  }

  /** `int` reads a number between two IsIntSpace characters. */
  lemma ParseIntSkipsPadding(a: char, x: char, b: char)
    requires IsIntSpace(a) && IsIntSpace(b) && IsDigit(x)
    ensures ParseInt([a, x, b]) == Some(DigitValue(x))
  {
    var s := [a, x, b];
    StripOfPadded(a, x, b);
    assert s[..1] == [a] && s[2..] == [b];
    assert AllIntSpace(s[..1]) && AllIntSpace(s[2..]);
    assert SignedGroupValue([x]) == Some(DigitValue(x));
  }

  /** `int` skips a tab and a newline around the number, but not \x1c or \x1f. */
  lemma ParseIntPadding()
    ensures ParseInt("\t5\n") == Some(5)
    ensures ParseInt("\U{1C}5") == None
    ensures ParseInt("5\U{1F}") == None
  {
    ParseIntSkipsPadding('\t', '5', '\n');
    assert "\t5\n" == ['\t', '5', '\n'];
    ParseIntRefusesLeadingSeparator("\U{1C}5");
    ParseIntRefusesTrailingSeparator("5\U{1F}");
  }

  /** `str(n)` has no surrounding whitespace and starts with a digit or a minus sign. */
  lemma FormatIntEdges(n: int)
    ensures var s := FormatInt(n);
      && s != [] && !IsSpace(s[0]) && !IsSpace(s[|s| - 1])
      && (n < 0 ==> s[0] == '-' && s[1..] == FormatNat(-n))
      && (n >= 0 ==> s == FormatNat(n) && IsDigit(s[0]))
  {
    var s := FormatInt(n);
    var digits := if n < 0 then FormatNat(-n) else FormatNat(n);
    assert s[|s| - 1] == digits[|digits| - 1];
    if n < 0 {
      assert s[1..] == digits;
    }
  }

  /** `int(str(n)) == n`. */
  lemma ParseFormatInt(n: int)
    ensures ParseInt(FormatInt(n)) == Some(n)
  {
    var s := FormatInt(n);
    FormatIntEdges(n);
    StripKeeps(s);
    ParseIntOfUnpadded(s);
    if n < 0 {
      GroupValueFormatNat(-n);
      assert GroupValue(s[1..]) == Some(-n);
    } else {
      GroupValueFormatNat(n);
      assert GroupValue(s) == Some(n);
      assert s[0] != '-' && s[0] != '+';
    }
  }
}
