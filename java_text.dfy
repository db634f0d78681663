/**
 * The few pieces of Java's `String` and Spring's `StringUtils` that the core relies on:
 * `hasText`, `startsWith`, `equalsIgnoreCase` and `split` on a one-character separator.
 */
module JavaText {
  import opened Wrappers

  /** `Character.isWhitespace`: the space, line and paragraph separators except the
      non-breaking ones, and the ASCII controls TAB, LF, VT, FF, CR and FS..US. */
  predicate IsWhitespace(c: char) {
    || c == '\t' || c == '\n' || c == '\U{000B}' || c == '\U{000C}' || c == '\r'
    || ('\U{001C}' <= c <= '\U{001F}') || c == ' '
    || c == '\U{1680}' || ('\U{2000}' <= c <= '\U{2006}') || ('\U{2008}' <= c <= '\U{200A}')
    || c == '\U{2028}' || c == '\U{2029}' || c == '\U{205F}' || c == '\U{3000}'
  }

  /** `StringUtils.hasText(String)`: not empty and holding a non-whitespace character. */
  predicate HasText(s: string)
    ensures HasText(s) ==> |s| > 0
    ensures forall i :: 0 <= i < |s| && !IsWhitespace(s[i]) ==> HasText(s)
  {
    exists i :: 0 <= i < |s| && !IsWhitespace(s[i])
  }

  /** `StringUtils.hasText` on a nullable string: `null` has no text. */
  predicate HasTextOpt(s: Option<string>) {
    s.Some? && HasText(s.value)
  }

  /** `String.startsWith`. */
  predicate StartsWith(s: string, prefix: string) {
    |prefix| <= |s| && s[..|prefix|] == prefix
  }

  /** `Character.toUpperCase` on ASCII letters, and on the two non-ASCII letters whose
      upper case is an ASCII letter (dotless i and long s). */
  function ToUpperChar(c: char): (u: char)
    ensures 'a' <= c <= 'z' ==> 'A' <= u <= 'Z'
  {
    if 'a' <= c <= 'z' then (c as int - 32) as char
    else if c == '\U{0131}' then 'I'
    else if c == '\U{017F}' then 'S'
    else c
  }

  /** `Character.toLowerCase` on ASCII letters, and on the two non-ASCII letters whose
      lower case is an ASCII letter (dotted capital I and the Kelvin sign). */
  function ToLowerChar(c: char): (l: char)
    ensures 'A' <= c <= 'Z' ==> 'a' <= l <= 'z'
  {
    if 'A' <= c <= 'Z' then (c as int + 32) as char
    else if c == '\U{0130}' then 'i'
    else if c == '\U{212A}' then 'k'
    else c
  }

  /** The per-character test of `String.regionMatches(true, ...)`: equal, equal after
      upper-casing, or equal after upper- then lower-casing. */
  predicate CharEqualsIgnoreCase(a: char, b: char) {
    || a == b
    || ToUpperChar(a) == ToUpperChar(b)
    || ToLowerChar(ToUpperChar(a)) == ToLowerChar(ToUpperChar(b))
  }

  /** `String.equalsIgnoreCase` on a non-null argument. */
  predicate EqualsIgnoreCase(s: string, t: string)
    ensures s == t ==> EqualsIgnoreCase(s, t)
    ensures EqualsIgnoreCase(s, t) ==> |s| == |t|
  {
    |s| == |t| && forall i :: 0 <= i < |s| ==> CharEqualsIgnoreCase(s[i], t[i])
  }

  /** The pieces between occurrences of `sep`, empty ones included: "a;;b;" gives
      ["a", "", "b", ""]. */
  function RawSplit(s: string, sep: char): (r: seq<string>)
    ensures |r| >= 1
    decreases |s|
  {
    if |s| == 0 then [""]
    else
      var rest := RawSplit(s[1..], sep);
      if s[0] == sep then [""] + rest
      else [[s[0]] + rest[0]] + rest[1..]
  }

  /** `String.join` with a one-character separator. */
  function Join(pieces: seq<string>, sep: char): string
    decreases |pieces|
  {
    if |pieces| == 0 then ""
    else if |pieces| == 1 then pieces[0]
    else pieces[0] + [sep] + Join(pieces[1..], sep)
  }

  /** Removes the empty strings at the end of a list, as `split` with limit 0 does. */
  function DropTrailingEmpty(pieces: seq<string>): (r: seq<string>)
    ensures |r| <= |pieces| && r == pieces[..|r|]
    ensures forall j :: |r| <= j < |pieces| ==> pieces[j] == ""
    ensures |r| > 0 ==> r[|r| - 1] != ""
    decreases |pieces|
  {
    if |pieces| == 0 then []
    else if pieces[|pieces| - 1] == "" then DropTrailingEmpty(pieces[..|pieces| - 1])
    else pieces
  }

  /** `String.split(String.valueOf(sep))`: the string itself when `sep` does not occur,
      otherwise the pieces with the trailing empty ones removed. */
  function JavaSplit(s: string, sep: char): (r: seq<string>)
    ensures forall k :: 0 <= k < |r| ==> sep !in r[k]
    ensures |r| > 0 && sep in s ==> r[|r| - 1] != ""
  {
    RawSplitSeparatorFree(s, sep);
    if sep !in s then [s] else DropTrailingEmpty(RawSplit(s, sep))
  }

  /** Joining the raw pieces gives back the string. */
  lemma {:induction false} JoinRawSplit(s: string, sep: char)
    ensures Join(RawSplit(s, sep), sep) == s
    decreases |s|
  {
    if |s| > 0 {
      var rest := RawSplit(s[1..], sep);
      var r := RawSplit(s, sep);
      JoinRawSplit(s[1..], sep);
      assert s == [s[0]] + s[1..];
      if s[0] == sep {
        assert r == [""] + rest && r[1..] == rest;
        assert Join(r, sep) == "" + [sep] + Join(rest, sep);
      } else if |rest| == 1 {
        assert r == [[s[0]] + rest[0]];
        assert Join(rest, sep) == rest[0];
      } else {
        var head := [s[0]] + rest[0];
        assert r == [head] + rest[1..] && r[1..] == rest[1..];
        assert Join(rest, sep) == rest[0] + [sep] + Join(rest[1..], sep);
        assert Join(r, sep) == head + [sep] + Join(rest[1..], sep);
        assert head + [sep] + Join(rest[1..], sep) == [s[0]] + (rest[0] + [sep] + Join(rest[1..], sep));
      }
    }
  }

  /** No raw piece contains the separator. */
  lemma {:induction false} RawSplitSeparatorFree(s: string, sep: char)
    ensures forall k :: 0 <= k < |RawSplit(s, sep)| ==> sep !in RawSplit(s, sep)[k]
    decreases |s|
  {
    if |s| > 0 {
      RawSplitSeparatorFree(s[1..], sep);
    }
  }

  /** What `JavaSplit` returns: the whole string when the separator is absent; otherwise
      a prefix of the raw pieces, without the separator in any piece, that drops only
      empty pieces and ends with a non-empty one. */
  lemma JavaSplitShape(s: string, sep: char)
    ensures sep !in s ==> JavaSplit(s, sep) == [s]
    ensures sep in s ==>
      var raw, r := RawSplit(s, sep), JavaSplit(s, sep);
      && r == raw[..|r|]
      && (forall j :: |r| <= j < |raw| ==> raw[j] == "")
      && (|r| > 0 ==> r[|r| - 1] != "")
      && (forall k :: 0 <= k < |r| ==> sep !in r[k])
  {
    RawSplitSeparatorFree(s, sep);
  }
}
