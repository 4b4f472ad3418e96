/**
 * HTML escaping as both runtimes do it.  PHP's `htmlspecialchars` with the
 * PHP >= 8.1 default flags (ENT_QUOTES | ENT_SUBSTITUTE | ENT_HTML401) and the
 * Node helper `escapeHtml` rewrite the same five characters the same way,
 * one character at a time, so one function models both.
 */
module HtmlEscape {

  /** The characters that are rewritten. */
  predicate IsSpecial(c: char) {
    c == '&' || c == '<' || c == '>' || c == '"' || c == '\''
  }

  function EscapeChar(c: char): (r: string)
    ensures !IsSpecial(c) ==> r == [c]
    ensures IsSpecial(c) ==> |r| >= 4 && r[0] == '&'
  {
    if c == '&' then "&amp;"
    else if c == '<' then "&lt;"
    else if c == '>' then "&gt;"
    else if c == '"' then "&quot;"
    else if c == '\'' then "&#039;"
    else [c]
  }

  /** `htmlspecialchars(s)` in PHP, `escapeHtml(s)` in Node for a string `s`. */
  function Escape(s: string): (r: string)
    ensures |r| >= |s|
    ensures s != [] ==> r != []
  {
    if s == [] then [] else EscapeChar(s[0]) + Escape(s[1..])
  }

  /** An entity that the escaper produces starts the string. */
  predicate BeginsEntity(t: string) {
    "&amp;" <= t || "&lt;" <= t || "&gt;" <= t || "&quot;" <= t || "&#039;" <= t
  }

  /** No raw markup character is left ... */
  predicate NoMarkupChars(t: string) {
    forall i :: 0 <= i < |t| ==> t[i] != '<' && t[i] != '>' && t[i] != '"' && t[i] != '\''
  }

  /** ... and every ampersand starts one of the five entities. */
  predicate AmpersandsBeginEntities(t: string) {
    forall i :: 0 <= i < |t| && t[i] == '&' ==> BeginsEntity(t[i..])
  }

  predicate IsEscaped(t: string) {
    NoMarkupChars(t) && AmpersandsBeginEntities(t)
  }

  predicate HasNoSpecial(s: string) {
    forall i :: 0 <= i < |s| ==> !IsSpecial(s[i])
  }

  lemma EscapedConcat(a: string, b: string)
    requires IsEscaped(a) && IsEscaped(b)
    ensures IsEscaped(a + b)
  {
    var t := a + b;
    forall i | 0 <= i < |t| && t[i] == '&'
      ensures BeginsEntity(t[i..])
    {
      if i < |a| {
        assert t[i..] == a[i..] + b;
        assert BeginsEntity(a[i..]);
      } else {
        assert t[i..] == b[i - |a|..];
      }
    }
  }

  lemma EscapeCharIsEscaped(c: char)
    ensures IsEscaped(EscapeChar(c))
  {
    var r := EscapeChar(c);
    if IsSpecial(c) {
      forall i | 0 <= i < |r| && r[i] == '&'
        ensures BeginsEntity(r[i..])
      {
        assert i == 0;
        assert r[0..] == r;
      }
    }
  }

  /** Whatever the input, the escaped text holds no `<`, `>`, `"` or `'`,
      and each `&` in it opens `&amp;`, `&lt;`, `&gt;`, `&quot;` or `&#039;`. */
  lemma {:induction false} EscapeIsEscaped(s: string)
    ensures IsEscaped(Escape(s))
  {
    if s != [] {
      EscapeCharIsEscaped(s[0]);
      EscapeIsEscaped(s[1..]);
      EscapedConcat(EscapeChar(s[0]), Escape(s[1..]));
    }
  }

  /** Escaping distributes over concatenation. */
  lemma {:induction false} EscapeConcat(a: string, b: string)
    ensures Escape(a + b) == Escape(a) + Escape(b)
  {
    if a == [] {
      assert a + b == b;
    } else {
      assert (a + b)[1..] == a[1..] + b;
      EscapeConcat(a[1..], b);
    }
  }

  /** A string without any of the five special characters is left untouched. */
  lemma {:induction false} EscapeIdentity(s: string)
    requires HasNoSpecial(s)
    ensures Escape(s) == s
  {
    if s != [] {
      EscapeIdentity(s[1..]);
      assert [s[0]] + s[1..] == s;
    }
  }

  /** Decoding of the five entities; the partner of Escape. */
  function Unescape(t: string): (r: string)
    ensures |r| <= |t|
  {
    if t == [] then []
    else if "&amp;" <= t then "&" + Unescape(t[5..])
    else if "&lt;" <= t then "<" + Unescape(t[4..])
    else if "&gt;" <= t then ">" + Unescape(t[4..])
    else if "&quot;" <= t then "\"" + Unescape(t[6..])
    else if "&#039;" <= t then "'" + Unescape(t[6..])
    else [t[0]] + Unescape(t[1..])
  }

  lemma UnescapeAfterChar(c: char, rest: string)
    ensures Unescape(EscapeChar(c) + rest) == [c] + Unescape(rest)
  {
    var e := EscapeChar(c);
    var t := e + rest;
    assert t[..|e|] == e;
    if c == '&' {
      assert "&amp;" <= t;
      assert t[5..] == rest;
    } else if c == '<' {
      assert t[1] == 'l';
      assert t[4..] == rest;
    } else if c == '>' {
      assert t[1] == 'g';
      assert t[4..] == rest;
    } else if c == '"' {
      assert t[1] == 'q';
      assert t[6..] == rest;
    } else if c == '\'' {
      assert t[1] == '#';
      assert t[6..] == rest;
    } else {
      assert t[0] == c;
      assert t[1..] == rest;
    }
  }

  /** Escaping loses nothing: decoding gives the original text back. */
  lemma {:induction false} UnescapeEscape(s: string)
    ensures Unescape(Escape(s)) == s
  {
    if s != [] {
      UnescapeAfterChar(s[0], Escape(s[1..]));
      UnescapeEscape(s[1..]);
      assert [s[0]] + s[1..] == s;
    }
  }

  /** The second pass of Node's `escapeAttr`: `.replace(/"/g, '&quot;')`. */
  function ReplaceQuotes(t: string): (r: string)
    ensures |r| >= |t|
  {
    if t == [] then []
    else (if t[0] == '"' then "&quot;" else [t[0]]) + ReplaceQuotes(t[1..])
  }

  /** Node's `escapeAttr(s)` for a string `s`. */
  function EscapeAttr(s: string): string {
    ReplaceQuotes(Escape(s))
  }

  lemma {:induction false} ReplaceQuotesIdentity(t: string)
    requires NoMarkupChars(t)
    ensures ReplaceQuotes(t) == t
  {
    if t != [] {
      assert t[0] != '"';
      ReplaceQuotesIdentity(t[1..]);
      assert [t[0]] + t[1..] == t;
    }
  }

  /** The `"` replacement in `escapeAttr` never matches: it equals `escapeHtml`. */
  lemma EscapeAttrIsEscape(s: string)
    ensures EscapeAttr(s) == Escape(s)
  {
    EscapeIsEscaped(s);
    ReplaceQuotesIdentity(Escape(s));
  }
}
