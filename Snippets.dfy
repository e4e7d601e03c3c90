/** `escapeHtml` of scripts/snippets.js: three `replaceAll` calls, `&` first, then `<`, then `>`. */
module Snippets {
  import opened Wrappers

  /** `s.replaceAll(c, rep)` for a one-character pattern: every occurrence of `c` becomes `rep`. */
  function ReplaceAll(s: string, c: char, rep: string): string {
    if s == [] then [] else (if s[0] == c then rep else [s[0]]) + ReplaceAll(s[1..], c, rep)
  }

  /** A non-empty replacement never shortens the text. */
  lemma {:induction false} ReplaceAllLength(s: string, c: char, rep: string)
    requires rep != []
    ensures |ReplaceAll(s, c, rep)| >= |s|
    decreases |s|
  {
    if s != [] {
      ReplaceAllLength(s[1..], c, rep);
    }
  }

  /** `escapeHtml(str = "")`: an absent argument is the empty string. */
  function EscapeHtml(str: Option<string>): (r: string)
    ensures str.None? ==> r == ""
    ensures |r| >= |str.GetOr("")|
  {
    var s := str.GetOr("");
    ReplaceAllLength(s, '&', "&amp;");
    ReplaceAllLength(ReplaceAll(s, '&', "&amp;"), '<', "&lt;");
    ReplaceAllLength(ReplaceAll(ReplaceAll(s, '&', "&amp;"), '<', "&lt;"), '>', "&gt;");
    ReplaceAll(ReplaceAll(ReplaceAll(s, '&', "&amp;"), '<', "&lt;"), '>', "&gt;")
  }

  /** The image of one character under the escaping. */
  function Image(c: char): (r: string)
    ensures c !in "&<>" ==> r == [c]
  {
    if c == '&' then "&amp;" else if c == '<' then "&lt;" else if c == '>' then "&gt;" else [c]
  }

  /** The escaping stated character by character: the concatenation of the images. */
  function Escaped(s: string): string {
    if s == [] then [] else Image(s[0]) + Escaped(s[1..])
  }

  /** The number of occurrences of `c` in `s`. */
  function Count(s: string, c: char): nat {
    if s == [] then 0 else (if s[0] == c then 1 else 0) + Count(s[1..], c)
  }

  lemma {:induction false} ReplaceAllAppend(a: string, b: string, c: char, rep: string)
    ensures ReplaceAll(a + b, c, rep) == ReplaceAll(a, c, rep) + ReplaceAll(b, c, rep)
    decreases |a|
  {
    if a == [] {
      assert a + b == b;
    } else {
      assert (a + b)[1..] == a[1..] + b;
      ReplaceAllAppend(a[1..], b, c, rep);
    }
  }

  /** The three passes applied to one character give its image: the `&` of an entity the first
      pass writes is never seen again, and the later passes find no `<` or `>` in it. */
  lemma ChainOnCharacter(c: char)
    ensures ReplaceAll(ReplaceAll(ReplaceAll([c], '&', "&amp;"), '<', "&lt;"), '>', "&gt;") == Image(c)
  {
    ReplaceAllSingle(c, '&', "&amp;");
    if c == '&' {
      ReplaceAllAbsent("&amp;", '<', "&lt;");
      ReplaceAllAbsent("&amp;", '>', "&gt;");
    } else if c == '<' {
      ReplaceAllSingle(c, '<', "&lt;");
      ReplaceAllAbsent("&lt;", '>', "&gt;");
    } else {
      ReplaceAllSingle(c, '<', "&lt;");
      ReplaceAllSingle(c, '>', "&gt;");
    }
  }

  lemma ReplaceAllSingle(c: char, d: char, rep: string)
    ensures ReplaceAll([c], d, rep) == if c == d then rep else [c]
  {
    assert [c][0] == c && [c][1..] == [];
  }

  lemma {:induction false} ReplaceAllAbsent(s: string, c: char, rep: string)
    requires c !in s
    ensures ReplaceAll(s, c, rep) == s
    decreases |s|
  {
    if s != [] {
      assert s == [s[0]] + s[1..];
      ReplaceAllAbsent(s[1..], c, rep);
    }
  }

  /** Because `&` is replaced first, the chain equals the per-character escaping: nothing is
      escaped twice. */
  lemma {:induction false} EscapeHtmlIsEscaped(s: string)
    ensures EscapeHtml(Some(s)) == Escaped(s)
    decreases |s|
  {
    if s != [] {
      var head, tail := [s[0]], s[1..];
      assert s == head + tail;
      ReplaceAllAppend(head, tail, '&', "&amp;");
      var a1, a2 := ReplaceAll(head, '&', "&amp;"), ReplaceAll(tail, '&', "&amp;");
      ReplaceAllAppend(a1, a2, '<', "&lt;");
      var b1, b2 := ReplaceAll(a1, '<', "&lt;"), ReplaceAll(a2, '<', "&lt;");
      ReplaceAllAppend(b1, b2, '>', "&gt;");
      ChainOnCharacter(s[0]);
      EscapeHtmlIsEscaped(tail);
    }
  }

  /** Called with no argument, `escapeHtml` gives the empty string. */
  lemma EscapeHtmlAbsent()
    ensures EscapeHtml(None) == ""
  {
  }

  /** The escaped text contains no angle bracket, and every `&` in it opens an entity. */
  lemma {:induction false} EscapedHasNoAngleBrackets(s: string)
    ensures '<' !in EscapeHtml(Some(s)) && '>' !in EscapeHtml(Some(s))
  {
    EscapeHtmlIsEscaped(s);
    EscapedNoBrackets(s);
  }

  lemma {:induction false} EscapedNoBrackets(s: string)
    ensures '<' !in Escaped(s) && '>' !in Escaped(s)
    decreases |s|
  {
    if s != [] {
      EscapedNoBrackets(s[1..]);
    }
  }

  /** Text without `&`, `<` or `>` comes back unchanged, quotes included. */
  lemma {:induction false} EscapeHtmlIdentity(s: string)
    requires forall i :: 0 <= i < |s| ==> s[i] !in "&<>"
    ensures EscapeHtml(Some(s)) == s
  {
    EscapeHtmlIsEscaped(s);
    EscapedIdentity(s);
  }

  lemma {:induction false} EscapedIdentity(s: string)
    requires forall i :: 0 <= i < |s| ==> s[i] !in "&<>"
    ensures Escaped(s) == s
    decreases |s|
  {
    if s != [] {
      assert s[0] !in "&<>";
      EscapedIdentity(s[1..]);
    }
  }

  /** Each `&` adds four characters, each `<` or `>` three. */
  lemma {:induction false} EscapeHtmlLength(s: string)
    ensures |EscapeHtml(Some(s))| == |s| + 4 * Count(s, '&') + 3 * (Count(s, '<') + Count(s, '>'))
  {
    EscapeHtmlIsEscaped(s);
    EscapedLength(s);
  }

  lemma {:induction false} EscapedLength(s: string)
    ensures |Escaped(s)| == |s| + 4 * Count(s, '&') + 3 * (Count(s, '<') + Count(s, '>'))
    decreases |s|
  {
    if s != [] {
      EscapedLength(s[1..]);
    }
  }

  /** The inverse of the escaping: the three entities are read back as their characters. */
  function Unescape(t: string): (s: string)
    decreases |t|
  {
    if t == [] then []
    else if |t| >= 5 && t[..5] == "&amp;" then "&" + Unescape(t[5..])
    else if |t| >= 4 && t[..4] == "&lt;" then "<" + Unescape(t[4..])
    else if |t| >= 4 && t[..4] == "&gt;" then ">" + Unescape(t[4..])
    else [t[0]] + Unescape(t[1..])
  }

  /** Escaping loses nothing: reading the entities back gives the original text. */
  lemma {:induction false} UnescapeEscapeHtml(s: string)
    ensures Unescape(EscapeHtml(Some(s))) == s
  {
    EscapeHtmlIsEscaped(s);
    UnescapeEscaped(s);
  }

  lemma {:induction false} UnescapeEscaped(s: string)
    ensures Unescape(Escaped(s)) == s
    decreases |s|
  {
    if s != [] {
      var t := Escaped(s);
      var img := Image(s[0]);
      assert t == img + Escaped(s[1..]);
      assert t[..|img|] == img && t[|img|..] == Escaped(s[1..]);
      UnescapeEscaped(s[1..]);
      assert |t| >= 5 ==> t[..5][0] == t[0] && t[..5][1] == t[1];
      assert |t| >= 4 ==> t[..4][0] == t[0] && t[..4][1] == t[1];
      if s[0] !in "&<>" {
        assert t[0] == s[0];
        assert t[1..] == Escaped(s[1..]);
      }
    }
  }
}
