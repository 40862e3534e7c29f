/** Text-level helpers of the rewriter: escaping of inserted text, ASCII case
    folding for attribute lookup, and the HTML void elements. */
module HtmlText {

  /** The replacement of one character of inserted text in text mode. */
  function EscapeChar(c: char): string
  {
    if c == '&' then "&amp;"
    else if c == '<' then "&lt;"
    else if c == '>' then "&gt;"
    else [c]
  }

  /** Text-mode content: `&`, `<` and `>` become character references, so
      that inserted text can never be read back as markup. */
  function EscapeText(s: string): (r: string)
    ensures |r| >= |s|
  {
    if |s| == 0 then "" else EscapeChar(s[0]) + EscapeText(s[1..])
  }

  /** Decoding of the three references `EscapeText` produces. */
  function UnescapeText(s: string): string
    decreases |s|
  {
    if |s| == 0 then ""
    else if s[0] == '&' && |s| >= 5 && s[1] == 'a' && s[2] == 'm' && s[3] == 'p' && s[4] == ';'
    then "&" + UnescapeText(s[5..])
    else if s[0] == '&' && |s| >= 4 && s[1] == 'l' && s[2] == 't' && s[3] == ';'
    then "<" + UnescapeText(s[4..])
    else if s[0] == '&' && |s| >= 4 && s[1] == 'g' && s[2] == 't' && s[3] == ';'
    then ">" + UnescapeText(s[4..])
    else [s[0]] + UnescapeText(s[1..])
  }

  /** Decoding one escaped character in front of any text. */
  lemma UnescapeEscapedChar(c: char, t: string)
    ensures UnescapeText(EscapeChar(c) + t) == [c] + UnescapeText(t)
  {
    var e := EscapeChar(c) + t;
    if c == '&' {
      assert e[5..] == t;
    } else if c == '<' {
      assert e[4..] == t;
    } else if c == '>' {
      assert e[4..] == t;
    } else {
      assert e[1..] == t;
    }
  }

  /** Escaping loses nothing: decoding gives back the inserted text. */
  lemma {:induction false} EscapeRoundTrip(s: string)
    ensures UnescapeText(EscapeText(s)) == s
  {
    if |s| > 0 {
      EscapeRoundTrip(s[1..]);
      UnescapeEscapedChar(s[0], EscapeText(s[1..]));
      assert [s[0]] + s[1..] == s;
    }
  }

  /** Escaping works character by character, so it distributes over concatenation. */
  lemma {:induction false} EscapeAppend(a: string, b: string)
    ensures EscapeText(a + b) == EscapeText(a) + EscapeText(b)
  {
    if |a| > 0 {
      assert (a + b)[1..] == a[1..] + b;
      EscapeAppend(a[1..], b);
    } else {
      assert a + b == b;
    }
  }

  /** Escaped text contains no tag delimiters. */
  lemma {:induction false} EscapedHasNoAngleBrackets(s: string)
    ensures '<' !in EscapeText(s) && '>' !in EscapeText(s)
  {
    if |s| > 0 {
      EscapedHasNoAngleBrackets(s[1..]);
      assert EscapeText(s) == EscapeChar(s[0]) + EscapeText(s[1..]);
    }
  }

  /** Text free of the three special characters is inserted unchanged. */
  lemma {:induction false} EscapePlainText(s: string)
    requires forall i :: 0 <= i < |s| ==> s[i] != '&' && s[i] != '<' && s[i] != '>'
    ensures EscapeText(s) == s
  {
    if |s| > 0 {
      EscapePlainText(s[1..]);
      assert [s[0]] + s[1..] == s;
    }
  }

  function ToAsciiLowerChar(c: char): (r: char)
    ensures 'A' <= c <= 'Z' ==> 'a' <= r <= 'z' && r as int == c as int + 32
    ensures !('A' <= c <= 'Z') ==> r == c
  {
    if 'A' <= c <= 'Z' then (c as int + 32) as char else c
  }

  function ToAsciiLowercase(s: string): (r: string)
    ensures |r| == |s|
  {
    if |s| == 0 then "" else [ToAsciiLowerChar(s[0])] + ToAsciiLowercase(s[1..])
  }

  /** Lowercasing works character by character. */
  lemma {:induction false} LowercaseChars(s: string)
    ensures forall i :: 0 <= i < |s| ==> ToAsciiLowercase(s)[i] == ToAsciiLowerChar(s[i])
  {
    if |s| > 0 {
      LowercaseChars(s[1..]);
      forall i | 0 <= i < |s|
        ensures ToAsciiLowercase(s)[i] == ToAsciiLowerChar(s[i])
      {
        if i > 0 {
          assert ToAsciiLowercase(s)[i] == ToAsciiLowercase(s[1..])[i - 1];
        }
      }
    }
  }

  /** Lowercasing twice is lowercasing once. */
  lemma LowercaseIdempotent(s: string)
    ensures ToAsciiLowercase(ToAsciiLowercase(s)) == ToAsciiLowercase(s)
  {
    var l := ToAsciiLowercase(s);
    LowercaseChars(s);
    LowercaseChars(l);
  }

  predicate EqualsIgnoreAsciiCase(a: string, b: string)
  {
    ToAsciiLowercase(a) == ToAsciiLowercase(b)
  }

  /** Elements that never have content or an end tag. */
  predicate IsVoidElement(name: string)
  {
    name in {"area", "base", "br", "col", "embed", "hr", "img", "input",
             "link", "meta", "source", "track", "wbr"}
  }
}
