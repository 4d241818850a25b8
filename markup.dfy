/** The line printed for a message: the author's name in the author's
    colour, then the message text escaped as XML character data. */
module Markup {
  import opened Entities

  /** Every occurrence of the character `c` in `s` replaced by `rep`
      (Python's `str.replace` with a one-character pattern). */
  function Replace(s: string, c: char, rep: string): string {
    if s == [] then [] else (if s[0] == c then rep else [s[0]]) + Replace(s[1..], c, rep)
  }

  /** `xml.sax.saxutils.escape`: `&` first, then `>`, then `<`. */
  function Escape(s: string): string {
    Replace(Replace(Replace(s, '&', "&amp;"), '>', "&gt;"), '<', "&lt;")
  }

  /** The escaped form of a single character. */
  function EscapeChar(c: char): string {
    if c == '&' then "&amp;" else if c == '<' then "&lt;" else if c == '>' then "&gt;" else [c]
  }

  /** Character-by-character escaping, the reference for `Escape`. */
  function EscapeEach(s: string): string {
    if s == [] then [] else EscapeChar(s[0]) + EscapeEach(s[1..])
  }

  /** Decoding of the three entities `escape` produces: each back to its
      character, everything else unchanged. */
  function Unescape(s: string): string
    decreases |s|
  {
    if s == [] then []
    else if |s| >= 5 && s[..5] == "&amp;" then ['&'] + Unescape(s[5..])
    else if |s| >= 4 && s[..4] == "&lt;" then ['<'] + Unescape(s[4..])
    else if |s| >= 4 && s[..4] == "&gt;" then ['>'] + Unescape(s[4..])
    else [s[0]] + Unescape(s[1..])
  }

  lemma {:induction false} ReplaceAppend(a: string, b: string, c: char, rep: string)
    ensures Replace(a + b, c, rep) == Replace(a, c, rep) + Replace(b, c, rep)
  {
    if a == [] {
      assert a + b == b;
    } else {
      assert (a + b)[0] == a[0];
      assert (a + b)[1..] == a[1..] + b;
      ReplaceAppend(a[1..], b, c, rep);
    }
  }

  lemma {:induction false} ReplaceAbsent(s: string, c: char, rep: string)
    requires c !in s
    ensures Replace(s, c, rep) == s
  {
    if s != [] {
      assert s == [s[0]] + s[1..];
      ReplaceAbsent(s[1..], c, rep);
    }
  }

  lemma ReplaceSingle(c: char, x: char, rep: string)
    ensures Replace([c], x, rep) == if c == x then rep else [c]
  {
    assert [c][1..] == [];
  }

  lemma EscapeOneChar(c: char)
    ensures Escape([c]) == EscapeChar(c)
  {
    ReplaceSingle(c, '&', "&amp;");
    if c == '&' {
      ReplaceAbsent("&amp;", '>', "&gt;");
      ReplaceAbsent("&amp;", '<', "&lt;");
    } else {
      ReplaceSingle(c, '>', "&gt;");
      if c == '>' {
        ReplaceAbsent("&gt;", '<', "&lt;");
      } else {
        ReplaceSingle(c, '<', "&lt;");
      }
    }
  }

  /** The three chained replacements escape each character independently. */
  lemma {:induction false} EscapeIsPerCharacter(s: string)
    ensures Escape(s) == EscapeEach(s)
  {
    if s != [] {
      var head, tail := [s[0]], s[1..];
      assert s == head + tail;
      ReplaceAppend(head, tail, '&', "&amp;");
      var h1, t1 := Replace(head, '&', "&amp;"), Replace(tail, '&', "&amp;");
      ReplaceAppend(h1, t1, '>', "&gt;");
      var h2, t2 := Replace(h1, '>', "&gt;"), Replace(t1, '>', "&gt;");
      ReplaceAppend(h2, t2, '<', "&lt;");
      EscapeOneChar(s[0]);
      EscapeIsPerCharacter(tail);
    }
  }

  /** Escaped text contains no tag delimiters. */
  lemma {:induction false} EscapedHasNoTags(s: string)
    ensures '<' !in Escape(s) && '>' !in Escape(s)
  {
    EscapeIsPerCharacter(s);
    EachHasNoTags(s);
  }

  lemma {:induction false} EachHasNoTags(s: string)
    ensures '<' !in EscapeEach(s) && '>' !in EscapeEach(s)
  {
    if s != [] {
      EachHasNoTags(s[1..]);
    }
  }

  /** Decoding the three entities turns escaped text back into the original text. */
  lemma {:induction false} UnescapeEscape(s: string)
    ensures Unescape(Escape(s)) == s
  {
    EscapeIsPerCharacter(s);
    UnescapeEach(s);
  }

  lemma {:induction false} UnescapeEach(s: string)
    ensures Unescape(EscapeEach(s)) == s
  {
    if s != [] {
      UnescapeStep(s[0], EscapeEach(s[1..]));
      UnescapeEach(s[1..]);
      assert s == [s[0]] + s[1..];
    }
  }

  /** Decoding consumes the escaped form of one character at a time. */
  lemma UnescapeStep(c: char, rest: string)
    ensures Unescape(EscapeChar(c) + rest) == [c] + Unescape(rest)
  {
    var w := EscapeChar(c) + rest;
    if c == '&' {
      assert w[..5] == "&amp;" && w[5..] == rest;
    } else if c == '<' {
      assert w[..4] == "&lt;" && w[4..] == rest;
      assert |w| >= 5 ==> w[..5][1] == 'l';
    } else if c == '>' {
      assert w[..4] == "&gt;" && w[4..] == rest;
      assert w[..4][1] == 'g';
      assert |w| >= 5 ==> w[..5][1] == 'g';
    } else {
      assert w[0] == c && w[1..] == rest;
      assert |w| >= 5 ==> w[..5][0] == c;
      assert |w| >= 4 ==> w[..4][0] == c;
    }
  }

  /** The markup that opens a message line: the colour tag around the
      author's display name, which is inserted unescaped. */
  function AuthorTag(a: Author): string {
    "<_ fg=\"" + a.color + "\">" + a.displayName + "</_>> "
  }

  /** `'<_ fg="%s">%s</_>> %s' % (color, display_name, escape(content))`. */
  function RenderLine(m: Message): string {
    AuthorTag(m.author) + Escape(m.content)
  }

  /** The rendered line is the author tag followed by text that carries no
      tag delimiters and decodes back to the message content. */
  lemma RenderLineParts(m: Message)
    ensures var line, tag := RenderLine(m), AuthorTag(m.author);
            |tag| <= |line| && line[..|tag|] == tag &&
            '<' !in line[|tag|..] && '>' !in line[|tag|..] &&
            Unescape(line[|tag|..]) == m.content
  {
    var line, tag := RenderLine(m), AuthorTag(m.author);
    assert line[|tag|..] == Escape(m.content);
    EscapedHasNoTags(m.content);
    UnescapeEscape(m.content);
  }
}
