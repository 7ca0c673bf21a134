/**
 * The java.lang.String and Apache Commons Lang StringUtils operations the
 * proxy relies on, stated on Dafny strings: blank tests, case-insensitive
 * comparison against ASCII literals, String.split on one character and
 * StringUtils.join with one separator.
 */
module JavaStrings {
  import opened Wrappers

  /** Character.isWhitespace: the Unicode space, line and paragraph separators
      other than the three no-break spaces, plus the ASCII controls
      U+0009..U+000D and U+001C..U+001F. */
  predicate IsWhitespace(c: char) {
    || ('\t' <= c <= '\r')
    || ('\U{001C}' <= c <= '\U{001F}')
    || c == ' '
    || c == '\U{1680}'
    || ('\U{2000}' <= c <= '\U{2006}')
    || ('\U{2008}' <= c <= '\U{200A}')
    || c == '\U{2028}'
    || c == '\U{2029}'
    || c == '\U{205F}'
    || c == '\U{3000}'
  }

  /** StringUtils.isBlank on a non-null string: empty or only whitespace. */
  predicate IsBlank(s: string) {
    forall i :: 0 <= i < |s| ==> IsWhitespace(s[i])
  }

  /** StringUtils.isBlank on a possibly-null string. */
  predicate IsBlankOrNull(s: Option<string>) {
    s.None? || IsBlank(s.value)
  }

  predicate IsAscii(s: string) {
    forall i :: 0 <= i < |s| ==> s[i] < 128 as char
  }

  /** Character.toLowerCase restricted to the ASCII letters. */
  function AsciiLower(c: char): char {
    if 'A' <= c <= 'Z' then (c as int + 32) as char else c
  }

  function LowerAscii(s: string): (r: string)
    ensures |r| == |s|
    ensures forall i :: 0 <= i < |s| ==> r[i] == AsciiLower(s[i])
  {
    seq(|s|, i requires 0 <= i < |s| => AsciiLower(s[i]))
  }

  /** Whether String.equalsIgnoreCase treats the character c as equal to the
      ASCII character a. Besides the two cases of an ASCII letter, four
      non-ASCII characters case-map onto ASCII letters: dotless i (U+0131) and
      long s (U+017F) upper-case to 'I' and 'S', and dotted capital I (U+0130)
      and the Kelvin sign (U+212A) lower-case to 'i' and 'k'. */
  predicate CharEqualsIgnoreCase(c: char, a: char) {
    || AsciiLower(c) == AsciiLower(a)
    || (AsciiLower(a) == 'i' && (c == '\U{0130}' || c == '\U{0131}'))
    || (AsciiLower(a) == 's' && c == '\U{017F}')
    || (AsciiLower(a) == 'k' && c == '\U{212A}')
  }

  /** s.equalsIgnoreCase(lit) (and StringUtils.equalsIgnoreCase) for an ASCII
      literal lit, which is the only way the proxy uses it. */
  predicate EqualsIgnoreCase(s: string, lit: string) {
    |s| == |lit| && forall i :: 0 <= i < |s| ==> CharEqualsIgnoreCase(s[i], lit[i])
  }

  /** For an ASCII string, or against a literal without the letters i, s and k,
      ignoring case is just comparing ASCII lower-case forms. */
  lemma EqualsIgnoreCaseIsLowerAscii(s: string, lit: string)
    requires IsAscii(s) || forall j :: 0 <= j < |lit| ==> AsciiLower(lit[j]) !in "isk"
    ensures EqualsIgnoreCase(s, lit) <==> LowerAscii(s) == LowerAscii(lit)
  {
    if EqualsIgnoreCase(s, lit) {
      forall i | 0 <= i < |s| ensures LowerAscii(s)[i] == LowerAscii(lit)[i] {
        assert CharEqualsIgnoreCase(s[i], lit[i]);
        if !IsAscii(s) {
          assert AsciiLower(lit[i]) !in "isk";
        } else {
          assert s[i] < 128 as char;
        }
      }
    }
    if LowerAscii(s) == LowerAscii(lit) {
      forall i | 0 <= i < |s| ensures CharEqualsIgnoreCase(s[i], lit[i]) {
        assert LowerAscii(s)[i] == LowerAscii(lit)[i];
      }
    }
  }

  /** StringUtils.join(parts, sep): the parts with sep between neighbours. */
  function Join(parts: seq<string>, sep: char): string {
    if |parts| == 0 then ""
    else if |parts| == 1 then parts[0]
    else parts[0] + [sep] + Join(parts[1..], sep)
  }

  /** Every piece of s between separators, empty pieces included. */
  function Split(s: string, sep: char): (parts: seq<string>)
    ensures |parts| >= 1
    ensures forall i :: 0 <= i < |parts| ==> sep !in parts[i]
    ensures Join(parts, sep) == s
    decreases |s|
  {
    if |s| == 0 then [""]
    else if s[0] == sep then [""] + Split(s[1..], sep)
    else
      var rest := Split(s[1..], sep);
      [[s[0]] + rest[0]] + rest[1..]
  }

  function DropTrailingEmpty(parts: seq<string>): (r: seq<string>)
    ensures |r| <= |parts| && r == parts[..|r|]
    ensures |r| > 0 ==> r[|r| - 1] != ""
    ensures forall i :: |r| <= i < |parts| ==> parts[i] == ""
  {
    if |parts| > 0 && parts[|parts| - 1] == "" then DropTrailingEmpty(parts[..|parts| - 1])
    else parts
  }

  /** String.split(regex) for a regex matching exactly one character:
      trailing empty strings are removed, and the empty string splits into
      itself. */
  function JavaSplit(s: string, sep: char): seq<string> {
    if s == "" then [""] else DropTrailingEmpty(Split(s, sep))
  }

  lemma {:induction false} SplitWithoutSeparator(s: string, sep: char)
    requires sep !in s
    ensures Split(s, sep) == [s]
    decreases |s|
  {
    if |s| > 0 {
      SplitWithoutSeparator(s[1..], sep);
      assert [s[0]] + s[1..] == s;
    }
  }

  lemma {:induction false} SplitAtFirstSeparator(a: string, b: string, sep: char)
    requires sep !in a
    ensures Split(a + [sep] + b, sep) == [a] + Split(b, sep)
    decreases |a|
  {
    var s := a + [sep] + b;
    if |a| == 0 {
      assert s[1..] == b;
    } else {
      SplitAtFirstSeparator(a[1..], b, sep);
      assert s[1..] == a[1..] + [sep] + b;
      assert [a[0]] + a[1..] == a;
    }
  }

  /** Splitting undoes joining, provided no part contains the separator. */
  lemma {:induction false} SplitJoin(parts: seq<string>, sep: char)
    requires |parts| >= 1
    requires forall i :: 0 <= i < |parts| ==> sep !in parts[i]
    ensures Split(Join(parts, sep), sep) == parts
  {
    if |parts| == 1 {
      SplitWithoutSeparator(parts[0], sep);
    } else {
      SplitJoin(parts[1..], sep);
      SplitAtFirstSeparator(parts[0], Join(parts[1..], sep), sep);
      assert [parts[0]] + parts[1..] == parts;
    }
  }
}
