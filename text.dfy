/** The string operations the engine relies on: `Integer.toString`,
  * `String.isBlank`, and the StringBuilder idiom that appends every
  * element followed by ", " and then cuts the trailing separator. */
module Text {
  import opened Wrappers

  // ---------------------------------------------------------------- digits

  predicate IsDigit(c: char) { '0' <= c <= '9' }

  predicate AllDigits(s: string) { forall i :: 0 <= i < |s| ==> IsDigit(s[i]) }

  function DigitChar(d: int): (c: char)
    requires 0 <= d < 10
    ensures IsDigit(c)
  {
    (d + '0' as int) as char
  }

  function DigitValue(c: char): (d: int)
    requires IsDigit(c)
    ensures 0 <= d < 10
  {
    c as int - '0' as int
  }

  /** Decimal digits of `n`, most significant first, without leading zeros. */
  function NatToString(n: nat): (s: string)
    ensures |s| >= 1 && AllDigits(s)
    ensures |s| > 1 ==> s[0] != '0'
  {
    if n < 10 then [DigitChar(n)] else NatToString(n / 10) + [DigitChar(n % 10)]
  }

  /** `Integer.toString` (and string concatenation of an `int`). */
  function IntToString(i: int): (s: string)
    ensures |s| >= 1
    ensures s[0] == '-' <==> i < 0
  {
    if i < 0 then "-" + NatToString(-i) else NatToString(i)
  }

  /** The value of a string of decimal digits. */
  function ParseDigits(s: string): nat
    requires AllDigits(s)
  {
    if s == [] then 0 else ParseDigits(s[..|s| - 1]) * 10 + DigitValue(s[|s| - 1])
  }

  /** `Integer.parseInt` restricted to what `IntToString` produces. */
  function ParseInt(s: string): Option<int>
  {
    if |s| > 1 && s[0] == '-' && AllDigits(s[1..]) then Some(0 - ParseDigits(s[1..]) as int)
    else if |s| > 0 && AllDigits(s) then Some(ParseDigits(s))
    else None
  }

  lemma {:induction false} ParseNatToString(n: nat)
    ensures ParseDigits(NatToString(n)) == n
  {
    if n >= 10 {
      ParseNatToString(n / 10);
      var s := NatToString(n / 10) + [DigitChar(n % 10)];
      assert s[..|s| - 1] == NatToString(n / 10);
    }
  }

  /** Every integer printed in a message can be read back from it. */
  lemma IntToStringRoundTrip(i: int)
    ensures ParseInt(IntToString(i)) == Some(i)
  {
    if i < 0 {
      ParseNatToString(-i);
      assert IntToString(i)[1..] == NatToString(-i);
    } else {
      ParseNatToString(i);
    }
  }

  /** Distinct integers print differently. */
  lemma IntToStringInjective(i: int, j: int)
    requires IntToString(i) == IntToString(j)
    ensures i == j
  {
    IntToStringRoundTrip(i);
    IntToStringRoundTrip(j);
  }

  /** A character `Integer.toString` may print. */
  predicate IsIntChar(c: char) { IsDigit(c) || c == '-' }

  lemma IntToStringChars(i: int)
    ensures forall k :: 0 <= k < |IntToString(i)| ==> IsIntChar(IntToString(i)[k])
  {
  }

  /** A printed integer followed by text that starts with some other
    * character can be read back: equal texts have equal integers and
    * equal rests. */
  lemma IntFieldsAgree(x: int, y: int, r1: string, r2: string)
    requires IntToString(x) + r1 == IntToString(y) + r2
    requires |r1| > 0 && |r2| > 0 && !IsIntChar(r1[0]) && !IsIntChar(r2[0])
    ensures x == y && r1 == r2
  {
    var s1, s2 := IntToString(x), IntToString(y);
    IntToStringChars(x);
    IntToStringChars(y);
    // Where the shorter integer ends, a text shows an integer character
    // exactly when that integer goes on, so both end there.
    var m := if |s1| < |s2| then |s1| else |s2|;
    assert IsIntChar((s1 + r1)[m]) <==> m < |s1|;
    assert IsIntChar((s2 + r2)[m]) <==> m < |s2|;
    assert s1 == (s1 + r1)[..|s1|] && s2 == (s2 + r2)[..|s2|];
    assert r1 == (s1 + r1)[|s1|..] && r2 == (s2 + r2)[|s2|..];
    IntToStringInjective(x, y);
  }

  /** A common prefix can be cut off both sides of an equation. */
  lemma PrefixCancel(p: string, r1: string, r2: string)
    requires p + r1 == p + r2
    ensures r1 == r2
  {
    assert r1 == (p + r1)[|p|..];
  }

  /** A common suffix can be cut off both sides of an equation. */
  lemma SuffixCancel(r1: string, r2: string, q: string)
    requires r1 + q == r2 + q
    ensures r1 == r2
  {
    assert r1 == (r1 + q)[..|r1|];
    assert r2 == (r2 + q)[..|r2|];
  }

  /** Text of the shape `head` + x + `sep` + y + `tail`, where `sep` and
    * `tail` start with characters no integer prints, gives back both
    * integers. */
  lemma TwoIntsText(head: string, x1: int, x2: int, sep: string, y1: int, y2: int, tail: string)
    requires |sep| > 0 && !IsIntChar(sep[0]) && |tail| > 0 && !IsIntChar(tail[0])
    requires head + (IntToString(x1) + (sep + (IntToString(y1) + tail)))
             == head + (IntToString(x2) + (sep + (IntToString(y2) + tail)))
    ensures x1 == x2 && y1 == y2
  {
    PrefixCancel(head, IntToString(x1) + (sep + (IntToString(y1) + tail)), IntToString(x2) + (sep + (IntToString(y2) + tail)));
    IntFieldsAgree(x1, x2, sep + (IntToString(y1) + tail), sep + (IntToString(y2) + tail));
    PrefixCancel(sep, IntToString(y1) + tail, IntToString(y2) + tail);
    IntFieldsAgree(y1, y2, tail, tail);
  }

  /** The middle part of a concatenation can be cut back out of it. */
  lemma SliceOfConcat(a: string, b: string, c: string)
    ensures (a + b + c)[..|a|] == a
    ensures (a + b + c)[|a|..|a| + |b|] == b
  {
  }

  // ------------------------------------------------------------ whitespace

  /** `Character.isWhitespace`: the Unicode space, line and paragraph
    * separators except the three no-break spaces, and the ASCII controls
    * U+0009..U+000D and U+001C..U+001F. */
  predicate IsJavaWhitespace(c: char)
  {
    var u := c as int;
    (0x09 <= u <= 0x0D) || (0x1C <= u <= 0x20) || u == 0x1680
    || (0x2000 <= u <= 0x2006) || (0x2008 <= u <= 0x200A)
    || u == 0x2028 || u == 0x2029 || u == 0x205F || u == 0x3000
  }

  /** `String.isBlank`: empty, or whitespace only. */
  predicate IsBlank(s: string)
  {
    forall i :: 0 <= i < |s| ==> IsJavaWhitespace(s[i])
  }

  /** A string holding one character that is not whitespace is not blank. */
  lemma NotBlankWitness(s: string, i: int)
    requires 0 <= i < |s| && !IsJavaWhitespace(s[i])
    ensures !IsBlank(s)
  {
  }

  // ----------------------------------------------------------------- lists

  const SEPARATOR: string := ", "

  predicate EndsWith(s: string, suffix: string)
  {
    |s| >= |suffix| && s[|s| - |suffix|..] == suffix
  }

  /** The elements in order, separated by ", " (what `String.join(", ", …)`
    * would give): the meaning of the StringBuilder idiom below. */
  function Join(xs: seq<int>): (s: string)
    ensures xs == [] <==> s == []
  {
    if xs == [] then ""
    else if |xs| == 1 then IntToString(xs[0])
    else IntToString(xs[0]) + SEPARATOR + Join(xs[1..])
  }

  /** What the StringBuilder holds after appending `x` and ", " for every `x`. */
  function AppendEach(xs: seq<int>): string
  {
    if xs == [] then "" else AppendEach(xs[..|xs| - 1]) + IntToString(xs[|xs| - 1]) + SEPARATOR
  }

  /** `if (sb.toString().endsWith(", ")) sb.setLength(sb.length() - 2)`. */
  function StripSeparator(s: string): (r: string)
    ensures EndsWith(s, SEPARATOR) ==> s == r + SEPARATOR
    ensures !EndsWith(s, SEPARATOR) ==> r == s
  {
    if EndsWith(s, SEPARATOR) then s[..|s| - 2] else s
  }

  lemma {:induction false} JoinSnoc(xs: seq<int>, y: int)
    requires xs != []
    ensures Join(xs + [y]) == Join(xs) + SEPARATOR + IntToString(y)
    decreases |xs|
  {
    if |xs| == 1 {
      assert xs + [y] == [xs[0], y];
      assert [xs[0], y][1..] == [y];
    } else {
      JoinSnoc(xs[1..], y);
      assert (xs + [y])[1..] == xs[1..] + [y];
    }
  }

  lemma {:induction false} AppendEachIsJoin(xs: seq<int>)
    requires xs != []
    ensures AppendEach(xs) == Join(xs) + SEPARATOR
    decreases |xs|
  {
    var init, last := xs[..|xs| - 1], xs[|xs| - 1];
    if init == [] {
      assert xs == [last];
    } else {
      assert init + [last] == xs;
      calc {
        AppendEach(xs);
        AppendEach(init) + IntToString(last) + SEPARATOR;
        { AppendEachIsJoin(init); }
        (Join(init) + SEPARATOR) + IntToString(last) + SEPARATOR;
        { JoinSnoc(init, last); }
        Join(xs) + SEPARATOR;
      }
    }
  }

  /** The StringBuilder idiom yields `prefix` followed by the joined list,
    * provided the prefix does not itself end with the separator. */
  lemma StripAppendEach(prefix: string, xs: seq<int>)
    requires !EndsWith(prefix, SEPARATOR)
    ensures StripSeparator(prefix + AppendEach(xs)) == prefix + Join(xs)
  {
    if xs != [] {
      AppendEachIsJoin(xs);
      assert prefix + AppendEach(xs) == (prefix + Join(xs)) + SEPARATOR;
    }
  }

  /** Appending the `i`-th element and the separator extends the builder
    * by one more element. */
  lemma AppendEachPrefix(prefix: string, xs: seq<int>, i: int)
    requires 0 <= i < |xs|
    ensures prefix + AppendEach(xs[..i + 1]) == (prefix + AppendEach(xs[..i])) + (IntToString(xs[i]) + SEPARATOR)
  {
    var next := xs[..i + 1];
    assert next[..|next| - 1] == xs[..i] && next[|next| - 1] == xs[i];
  }

  /** The StringBuilder loop: append every element and ", ", then cut the
    * trailing separator. */
  method BuildList(prefix: string, xs: seq<int>) returns (s: string)
    requires !EndsWith(prefix, SEPARATOR)
    ensures s == prefix + Join(xs)
  {
    s := prefix;
    var i := 0;
    while i < |xs|
      invariant 0 <= i <= |xs|
      invariant s == prefix + AppendEach(xs[..i])
    {
      AppendEachPrefix(prefix, xs, i);
      s := s + (IntToString(xs[i]) + SEPARATOR);
      i := i + 1;
    }
    assert xs[..i] == xs;
    StripAppendEach(prefix, xs);
    s := StripSeparator(s);
  }
}
