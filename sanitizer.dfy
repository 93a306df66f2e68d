/**
 * The text filter applied to every chat message before it is broadcast
 * (`sanitize` in server.js): each `<` becomes `&lt;` and each `>` becomes
 * `&gt;`, by two successive global replacements. Nothing else is escaped.
 */
module Sanitizer {

  /** `s.replace(/c/g, rep)` for a one-character pattern `c`. */
  function ReplaceAll(s: string, c: char, rep: string): (r: string)
    ensures c !in rep ==> c !in r
    ensures c !in s ==> r == s
    ensures forall d :: d != c && d !in s && d !in rep ==> d !in r
  {
    if s == [] then []
    else (if s[0] == c then rep else [s[0]]) + ReplaceAll(s[1..], c, rep)
  }

  /** The source's two passes: first `<`, then `>`. */
  function Sanitize(text: string): (safe: string)
    ensures '<' !in safe && '>' !in safe
    ensures '<' !in text && '>' !in text ==> safe == text
  {
    ReplaceAll(ReplaceAll(text, '<', "&lt;"), '>', "&gt;")
  }

  /** The entity written for one character; every other character stands for itself. */
  function Escape(ch: char): string
  {
    if ch == '<' then "&lt;" else if ch == '>' then "&gt;" else [ch]
  }

  /** A one-pass reference definition: each character replaced by its escape, in order. */
  function EscapeEach(s: string): string
  {
    if s == [] then [] else Escape(s[0]) + EscapeEach(s[1..])
  }

  /** Decodes the two entities the sanitizer writes, reading left to right. */
  function Unescape(t: string): string
    decreases |t|
  {
    if t == [] then []
    else if |t| >= 4 && t[..4] == "&lt;" then "<" + Unescape(t[4..])
    else if |t| >= 4 && t[..4] == "&gt;" then ">" + Unescape(t[4..])
    else [t[0]] + Unescape(t[1..])
  }

  lemma {:induction false} ReplaceAllAppend(a: string, b: string, c: char, rep: string)
    ensures ReplaceAll(a + b, c, rep) == ReplaceAll(a, c, rep) + ReplaceAll(b, c, rep)
  {
    if a == [] {
      assert a + b == b;
    } else {
      var head := if a[0] == c then rep else [a[0]];
      assert (a + b)[0] == a[0];
      assert (a + b)[1..] == a[1..] + b;
      calc {
        ReplaceAll(a + b, c, rep);
        head + ReplaceAll(a[1..] + b, c, rep);
        { ReplaceAllAppend(a[1..], b, c, rep); }
        head + (ReplaceAll(a[1..], c, rep) + ReplaceAll(b, c, rep));
        (head + ReplaceAll(a[1..], c, rep)) + ReplaceAll(b, c, rep);
      }
    }
  }

  /** The two passes of the source agree with escaping each character once. */
  lemma {:induction false} SanitizeEscapesEachChar(s: string)
    ensures Sanitize(s) == EscapeEach(s)
  {
    if s != [] {
      var head := if s[0] == '<' then "&lt;" else [s[0]];
      var rest := ReplaceAll(s[1..], '<', "&lt;");
      assert ReplaceAll(s, '<', "&lt;") == head + rest;
      ReplaceAllAppend(head, rest, '>', "&gt;");
      SanitizeEscapesEachChar(s[1..]);
      if s[0] == '<' {
        assert ReplaceAll(head, '>', "&gt;") == "&lt;";
      } else if s[0] == '>' {
        assert ReplaceAll(head, '>', "&gt;") == "&gt;" + ReplaceAll([], '>', "&gt;");
      } else {
        assert ReplaceAll(head, '>', "&gt;") == [s[0]] + ReplaceAll([], '>', "&gt;");
      }
    }
  }

  /** No angle bracket survives sanitizing. */
  lemma SanitizeRemovesBrackets(s: string)
    ensures '<' !in Sanitize(s) && '>' !in Sanitize(s)
  {
    SanitizeEscapesEachChar(s);
    EscapeEachRemovesBrackets(s);
  }

  lemma {:induction false} EscapeEachRemovesBrackets(s: string)
    ensures '<' !in EscapeEach(s) && '>' !in EscapeEach(s)
  {
    if s != [] {
      EscapeEachRemovesBrackets(s[1..]);
    }
  }

  lemma {:induction false} EscapeEachAppend(a: string, b: string)
    ensures EscapeEach(a + b) == EscapeEach(a) + EscapeEach(b)
  {
    if a == [] {
      assert a + b == b;
    } else {
      assert (a + b)[0] == a[0];
      assert (a + b)[1..] == a[1..] + b;
      EscapeEachAppend(a[1..], b);
    }
  }

  /** Sanitizing changes a text exactly when it holds an angle bracket. */
  lemma SanitizeFixedPoint(s: string)
    ensures Sanitize(s) == s <==> '<' !in s && '>' !in s
  {
    SanitizeRemovesBrackets(s);
  }

  /** Every character other than the brackets is kept, in order: for text
      without `&` the entities can be read back and give the original text. */
  lemma {:induction false} UnescapeSanitize(s: string)
    requires '&' !in s
    ensures Unescape(Sanitize(s)) == s
  {
    SanitizeEscapesEachChar(s);
    UnescapeEscapeEach(s);
  }

  lemma {:induction false} UnescapeEscapeEach(s: string)
    requires '&' !in s
    ensures Unescape(EscapeEach(s)) == s
  {
    if s != [] {
      var t := EscapeEach(s);
      assert t == Escape(s[0]) + EscapeEach(s[1..]);
      UnescapeEscapeEach(s[1..]);
      if s[0] == '<' || s[0] == '>' {
        assert t[..4] == Escape(s[0]);
        assert t[4..] == EscapeEach(s[1..]);
      } else {
        assert t[0] == s[0] && t[1..] == EscapeEach(s[1..]);
      }
    }
  }

  /** The filter is deliberately minimal and does not escape `&`, so two
      different texts can be sent as the same frame text. */
  lemma SanitizeNotInjective(bracket: string, entity: string)
    requires bracket == "<" && entity == "&lt;"
    ensures Sanitize(bracket) == Sanitize(entity) && bracket != entity
  {
    SanitizeEscapesEachChar(bracket);
    EscapeEachOne('<');
    assert bracket == ['<'];
    SanitizeFixedPoint(entity);
  }

  lemma EscapeEachOne(ch: char)
    ensures EscapeEach([ch]) == Escape(ch)
  {
    assert EscapeEach([ch]) == Escape(ch) + EscapeEach([]);
  }

  /** A markup element around plain text comes out as inert text: both tags
      are escaped and the tag name and the content are kept. */
  lemma SanitizeElement(tag: string, body: string)
    requires '<' !in tag && '>' !in tag && '<' !in body && '>' !in body
    ensures Sanitize(OpenTag(tag) + body + CloseTag(tag))
         == "&lt;" + tag + "&gt;" + body + "&lt;/" + tag + "&gt;"
  {
    var open, close := OpenTag(tag), CloseTag(tag);
    calc {
      Sanitize(open + body + close);
      { SanitizeEscapesEachChar(open + body + close); }
      EscapeEach(open + body + close);
      { EscapeEachAppend(open + body, close); }
      EscapeEach(open + body) + EscapeEach(close);
      { EscapeEachAppend(open, body); }
      EscapeEach(open) + EscapeEach(body) + EscapeEach(close);
      { EscapeEachKeepsPlain(body); EscapeOpenTag(tag); EscapeCloseTag(tag); }
      ("&lt;" + tag + "&gt;") + body + ("&lt;/" + tag + "&gt;");
    }
  }

  function OpenTag(tag: string): string { "<" + tag + ">" }

  function CloseTag(tag: string): string { "</" + tag + ">" }

  lemma EscapeOpenTag(tag: string)
    requires '<' !in tag && '>' !in tag
    ensures EscapeEach(OpenTag(tag)) == "&lt;" + tag + "&gt;"
  {
    EscapeEachAppend("<" + tag, ">");
    EscapeEachAppend("<", tag);
    EscapeEachOne('<');
    EscapeEachOne('>');
    EscapeEachKeepsPlain(tag);
  }

  lemma EscapeCloseTag(tag: string)
    requires '<' !in tag && '>' !in tag
    ensures EscapeEach(CloseTag(tag)) == "&lt;/" + tag + "&gt;"
  {
    EscapeEachAppend("</" + tag, ">");
    EscapeEachAppend("</", tag);
    EscapeEachAppend("<", "/");
    EscapeEachOne('<');
    EscapeEachOne('>');
    EscapeEachOne('/');
    EscapeEachKeepsPlain(tag);
    assert "<" + "/" == "</";
    assert "&lt;" + "/" == "&lt;/";
  }

  lemma {:induction false} EscapeEachKeepsPlain(s: string)
    requires '<' !in s && '>' !in s
    ensures EscapeEach(s) == s
  {
    if s != [] {
      EscapeEachKeepsPlain(s[1..]);
    }
  }

  lemma SanitizeKeepsPlain(t: string)
    requires t == "plain"
    ensures Sanitize(t) == t
  {
    SanitizeFixedPoint(t);
  }
}
