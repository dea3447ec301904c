/**
 * `escapeHtml`: the client's guard for product and cart text placed into markup.
 * Each of `& < > ' "` becomes its character reference; every other character is kept.
 */
module Html {
  import opened Strings

  /** The five characters the escaping regular expression `[&<>'"]` matches. */
  predicate IsSpecial(c: char)
  {
    c == '&' || c == '<' || c == '>' || c == '\'' || c == '"'
  }

  /** The replacement table: the entity for a special character, the character itself otherwise. */
  function Entity(c: char): string
  {
    if c == '&' then "&amp;"
    else if c == '<' then "&lt;"
    else if c == '>' then "&gt;"
    else if c == '\'' then "&#39;"
    else if c == '"' then "&quot;"
    else [c]
  }

  /** `escapeHtml(s)`: the output holds no character that could open or close a tag or an attribute value. */
  function EscapeHtml(s: string): (r: string)
    ensures |r| >= |s|
    ensures forall k :: 0 <= k < |r| ==> r[k] != '<' && r[k] != '>' && r[k] != '"' && r[k] != '\''
  {
    if s == [] then [] else Entity(s[0]) + EscapeHtml(s[1..])
  }

  /** Decodes the five character references, as a browser does when it reads the markup back. */
  function Unescape(t: string): string
    decreases |t|
  {
    if t == [] then []
    else if t[0] != '&' then [t[0]] + Unescape(t[1..])
    else if StartsWith(t, "&amp;") then "&" + Unescape(t[5..])
    else if StartsWith(t, "&lt;") then "<" + Unescape(t[4..])
    else if StartsWith(t, "&gt;") then ">" + Unescape(t[4..])
    else if StartsWith(t, "&#39;") then "'" + Unescape(t[5..])
    else if StartsWith(t, "&quot;") then "\"" + Unescape(t[6..])
    else [t[0]] + Unescape(t[1..])
  }

  /** Reading one replacement back yields the character it replaced. */
  lemma {:induction false} UnescapeEntity(c: char, rest: string)
    ensures Unescape(Entity(c) + rest) == [c] + Unescape(rest)
  {
    var t := Entity(c) + rest;
    if !IsSpecial(c) {
      assert t[0] == c && t[1..] == rest;
    } else if c == '&' {
      assert t[..5] == "&amp;" && t[5..] == rest;
    } else {
      UnescapeMarkup(c, rest);
    }
  }

  lemma {:induction false} UnescapeMarkup(c: char, rest: string)
    requires c == '<' || c == '>' || c == '\'' || c == '"'
    ensures Unescape(Entity(c) + rest) == [c] + Unescape(rest)
  {
    var t := Entity(c) + rest;
    assert t[0] == '&';
    if c == '<' {
      assert t[..4] == "&lt;" && t[4..] == rest;
      assert !StartsWith(t, "&amp;") by { assert t[1] == 'l'; }
    } else if c == '>' {
      assert t[..4] == "&gt;" && t[4..] == rest;
      assert !StartsWith(t, "&amp;") && !StartsWith(t, "&lt;") by { assert t[1] == 'g'; }
    } else if c == '\'' {
      assert t[..5] == "&#39;" && t[5..] == rest;
      assert !StartsWith(t, "&amp;") && !StartsWith(t, "&lt;") && !StartsWith(t, "&gt;") by { assert t[1] == '#'; }
    } else {
      assert t[..6] == "&quot;" && t[6..] == rest;
      assert !StartsWith(t, "&amp;") && !StartsWith(t, "&lt;") && !StartsWith(t, "&gt;") && !StartsWith(t, "&#39;") by { assert t[1] == 'q'; }
    }
  }

  /** Escaping loses nothing: decoding the escaped text gives back the original. */
  lemma {:induction false} UnescapeEscapeHtml(s: string)
    ensures Unescape(EscapeHtml(s)) == s
  {
    if s != [] {
      UnescapeEntity(s[0], EscapeHtml(s[1..]));
      UnescapeEscapeHtml(s[1..]);
      assert s == [s[0]] + s[1..];
    }
  }

  /** Text without any of the five special characters passes through unchanged. */
  lemma {:induction false} EscapeHtmlKeepsPlainText(s: string)
    requires forall k :: 0 <= k < |s| ==> !IsSpecial(s[k])
    ensures EscapeHtml(s) == s
  {
    if s != [] {
      EscapeHtmlKeepsPlainText(s[1..]);
      assert s == [s[0]] + s[1..];
    }
  }

  /** Escaping works character by character: it distributes over concatenation. */
  lemma {:induction false} EscapeHtmlAppend(a: string, b: string)
    ensures EscapeHtml(a + b) == EscapeHtml(a) + EscapeHtml(b)
  {
    if a != [] {
      assert (a + b)[1..] == a[1..] + b;
      EscapeHtmlAppend(a[1..], b);
    } else {
      assert a + b == b;
    }
  }
}
