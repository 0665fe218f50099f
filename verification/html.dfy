/**
 * `htmlEncode`: the escaper hn2mbox applies to a story's URL when it is
 * used as the text of the body's link.
 */
module Html {
  import opened Strings

  /** The replacement text of one character. */
  function EscapeChar(c: char): string
  {
    if c == '&' then "&amp;"
    else if c == '"' then "&quot;"
    else if c == '\'' then "&apos;"
    else if c == '<' then "&lt;"
    else if c == '>' then "&gt;"
    else [c]
  }

  predicate IsSpecial(c: char) { c == '&' || c == '"' || c == '\'' || c == '<' || c == '>' }

  /** The escaped form of `s`: each character replaced by its escape, in order. */
  function Escaped(s: string): (r: string)
    ensures |r| >= |s|
    ensures |r| == |s| <==> forall i :: 0 <= i < |s| ==> !IsSpecial(s[i])
  {
    if s == [] then [] else EscapeChar(s[0]) + Escaped(s[1..])
  }

  lemma {:induction false} EscapedAppend(s: string, c: char)
    ensures Escaped(s + [c]) == Escaped(s) + EscapeChar(c)
  {
    if s == [] {
      assert s + [c] == [c];
    } else {
      assert (s + [c])[1..] == s[1..] + [c];
      EscapedAppend(s[1..], c);
    }
  }

  /** The loop of `htmlEncode`: append each character's escape to a buffer. */
  method HtmlEncode(data: string) returns (buffer: string)
    ensures buffer == Escaped(data)
  {
    buffer := [];
    for pos := 0 to |data|
      invariant buffer == Escaped(data[..pos])
    {
      var c := data[pos];
      if c == '&' {
        buffer := buffer + "&amp;";
      } else if c == '"' {
        buffer := buffer + "&quot;";
      } else if c == '\'' {
        buffer := buffer + "&apos;";
      } else if c == '<' {
        buffer := buffer + "&lt;";
      } else if c == '>' {
        buffer := buffer + "&gt;";
      } else {
        buffer := buffer + [c];
      }
      assert data[..pos + 1] == data[..pos] + [c];
      EscapedAppend(data[..pos], c);
    }
    assert data[..|data|] == data;
  }

  /** No replacement text contains a quote, an apostrophe or an angle bracket. */
  lemma EscapeCharIsMarkupFree(c: char)
    ensures forall x :: x in EscapeChar(c) ==> x != '"' && x != '\'' && x != '<' && x != '>'
  {
  }

  /** The escaped text never contains a quote, an apostrophe or an angle bracket. */
  lemma {:induction false} EscapedIsMarkupFree(s: string)
    ensures '"' !in Escaped(s) && '\'' !in Escaped(s)
    ensures '<' !in Escaped(s) && '>' !in Escaped(s)
  {
    if s != [] {
      EscapeCharIsMarkupFree(s[0]);
      EscapedIsMarkupFree(s[1..]);
      assert Escaped(s) == EscapeChar(s[0]) + Escaped(s[1..]);
    }
  }

  /** Each `&` grows by 4 characters, each quote or apostrophe by 5, each angle bracket by 3. */
  lemma {:induction false} EscapedLength(s: string)
    ensures |Escaped(s)| == |s| + 4 * Count(s, '&')
                                 + 5 * (Count(s, '"') + Count(s, '\''))
                                 + 3 * (Count(s, '<') + Count(s, '>'))
  {
    if s != [] {
      EscapedLength(s[1..]);
    }
  }

  /** Text without any of the five special characters is left as it is. */
  lemma {:induction false} EscapedPlain(s: string)
    requires forall i :: 0 <= i < |s| ==> !IsSpecial(s[i])
    ensures Escaped(s) == s
  {
    if s != [] {
      EscapedPlain(s[1..]);
      assert [s[0]] + s[1..] == s;
    }
  }

  /** Reverses the escaping: decodes the five entities `htmlEncode` produces. */
  function Unescape(t: string): string
  {
    if t == [] then []
    else if "&amp;" <= t then "&" + Unescape(t[5..])
    else if "&quot;" <= t then "\"" + Unescape(t[6..])
    else if "&apos;" <= t then "'" + Unescape(t[6..])
    else if "&lt;" <= t then "<" + Unescape(t[4..])
    else if "&gt;" <= t then ">" + Unescape(t[4..])
    else [t[0]] + Unescape(t[1..])
  }

  /**
   * Nothing is lost: every character of the input, special or not, is
   * recovered in its place and order from the escaped text.
   */
  lemma {:induction false} UnescapeEscaped(s: string)
    ensures Unescape(Escaped(s)) == s
  {
    if s != [] {
      assert Escaped(s) == EscapeChar(s[0]) + Escaped(s[1..]);
      UnescapeOne(s[0], Escaped(s[1..]));
      UnescapeEscaped(s[1..]);
      assert [s[0]] + s[1..] == s;
    }
  }

  /** One escaped character, followed by anything, decodes to that character first. */
  lemma UnescapeOne(c: char, rest: string)
    ensures Unescape(EscapeChar(c) + rest) == [c] + Unescape(rest)
  {
    if c == '&' || c == '"' || c == '\'' {
      UnescapeQuoteOrAmp(c, rest);
    } else if c == '<' || c == '>' {
      UnescapeAngle(c, rest);
    } else {
      var t := EscapeChar(c) + rest;
      assert t[0] == c && t[1..] == rest;
    }
  }

  lemma UnescapeQuoteOrAmp(c: char, rest: string)
    requires c == '&' || c == '"' || c == '\''
    ensures Unescape(EscapeChar(c) + rest) == [c] + Unescape(rest)
  {
    var e := EscapeChar(c);
    var t := e + rest;
    assert t[|e|..] == rest;
    if c == '&' {
      assert "&amp;" <= t;
    } else if c == '"' {
      assert t[1] == 'q' && "&quot;" <= t;
    } else {
      assert t[1] == 'a' && t[2] == 'p' && "&apos;" <= t;
    }
  }

  lemma UnescapeAngle(c: char, rest: string)
    requires c == '<' || c == '>'
    ensures Unescape(EscapeChar(c) + rest) == [c] + Unescape(rest)
  {
    var e := EscapeChar(c);
    var t := e + rest;
    assert t[|e|..] == rest;
    if c == '<' {
      assert t[1] == 'l' && "&lt;" <= t;
    } else {
      assert t[1] == 'g' && "&gt;" <= t;
    }
  }
}
