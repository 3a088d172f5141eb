/**
 * The two text escapers of bot.ts: `esc` (bot.ts:295-297), which makes a
 * string safe inside Telegram HTML, and `escCsv` (bot.ts:1342), which quotes a
 * field of the ticket CSV export.  Each is paired with the decoder a reader
 * of its output would apply, and the round trip is proved.
 */
module Escape {

  /** `s.replace(/c/g, rep)`: every occurrence of `c` replaced by `rep`. */
  function ReplaceAll(s: string, c: char, rep: string): string {
    if s == [] then [] else (if s[0] == c then rep else [s[0]]) + ReplaceAll(s[1..], c, rep)
  }

  lemma {:induction false} ReplaceAllAppend(a: string, b: string, c: char, rep: string)
    ensures ReplaceAll(a + b, c, rep) == ReplaceAll(a, c, rep) + ReplaceAll(b, c, rep)
  {
    if a == [] {
      assert a + b == b;
    } else {
      assert (a + b)[0] == a[0];
      assert (a + b)[1..] == a[1..] + b;
      ReplaceAllAppend(a[1..], b, c, rep);
    }
  }

  // ---------------------------------------------------------------------------
  // esc
  // ---------------------------------------------------------------------------

  /**
   * `esc`: `&` first, then `<`, then `>`, each replaced by its HTML entity.
   * The result escapes each character on its own, holds no raw angle
   * bracket, and decoding the entities gives back the original text.
   */
  function Esc(s: string): (r: string)
    ensures r == EscapeEach(s)
    ensures '<' !in r && '>' !in r
    ensures Unescape(r) == s
  {
    EscIsPerCharacter(s);
    EscapeEachNoAngles(s);
    UnescapeEscapeEach(s);
    ReplaceAll(ReplaceAll(ReplaceAll(s, '&', "&amp;"), '<', "&lt;"), '>', "&gt;")
  }

  /** The entity of one character, or the character itself. */
  function EscChar(c: char): string {
    if c == '&' then "&amp;" else if c == '<' then "&lt;" else if c == '>' then "&gt;" else [c]
  }

  /** Character-by-character escaping: the reference definition `Esc` is checked against. */
  function EscapeEach(s: string): string {
    if s == [] then [] else EscChar(s[0]) + EscapeEach(s[1..])
  }

  /** Entity decoding, the inverse a browser applies. */
  function Unescape(t: string): string {
    if t == [] then []
    else if "&amp;" <= t then "&" + Unescape(t[5..])
    else if "&lt;" <= t then "<" + Unescape(t[4..])
    else if "&gt;" <= t then ">" + Unescape(t[4..])
    else [t[0]] + Unescape(t[1..])
  }

  /** The three replacements of `esc` distribute over concatenation. */
  lemma EscAppend(a: string, b: string)
    ensures ReplaceAll(ReplaceAll(ReplaceAll(a + b, '&', "&amp;"), '<', "&lt;"), '>', "&gt;") == ReplaceAll(ReplaceAll(ReplaceAll(a, '&', "&amp;"), '<', "&lt;"), '>', "&gt;") + ReplaceAll(ReplaceAll(ReplaceAll(b, '&', "&amp;"), '<', "&lt;"), '>', "&gt;")
  {
    ReplaceAllAppend(a, b, '&', "&amp;");
    var a1, b1 := ReplaceAll(a, '&', "&amp;"), ReplaceAll(b, '&', "&amp;");
    ReplaceAllAppend(a1, b1, '<', "&lt;");
    ReplaceAllAppend(ReplaceAll(a1, '<', "&lt;"), ReplaceAll(b1, '<', "&lt;"), '>', "&gt;");
  }

  lemma ReplaceOne(c: char, d: char, rep: string)
    ensures ReplaceAll([c], d, rep) == if c == d then rep else [c]
  {
    assert [c][1..] == [];
  }

  /** The three replacements of `esc` turn one character into its entity, or keep it. */
  lemma EscOneChar(c: char)
    ensures ReplaceAll(ReplaceAll(ReplaceAll([c], '&', "&amp;"), '<', "&lt;"), '>', "&gt;") == EscChar(c)
  {
    ReplaceOne(c, '&', "&amp;");
    if c == '&' {
      ReplaceAbsent("&amp;", '<', "&lt;");
      ReplaceAbsent("&amp;", '>', "&gt;");
    } else if c == '<' {
      ReplaceOne(c, '<', "&lt;");
      ReplaceAbsent("&lt;", '>', "&gt;");
    } else {
      ReplaceOne(c, '<', "&lt;");
      ReplaceOne(c, '>', "&gt;");
    }
  }

  /**
   * The three sequential replacements of `esc` act like a single pass that
   * escapes each character on its own: the `&` that `&lt;` and `&gt;`
   * introduce is never escaped again.
   */
  lemma {:induction false} EscIsPerCharacter(s: string)
    ensures ReplaceAll(ReplaceAll(ReplaceAll(s, '&', "&amp;"), '<', "&lt;"), '>', "&gt;") == EscapeEach(s)
  {
    if s != [] {
      assert s == [s[0]] + s[1..];
      EscAppend([s[0]], s[1..]);
      EscOneChar(s[0]);
      EscIsPerCharacter(s[1..]);
    }
  }

  lemma {:induction false} ReplaceAbsent(t: string, c: char, rep: string)
    requires c !in t
    ensures ReplaceAll(t, c, rep) == t
  {
    if t != [] {
      ReplaceAbsent(t[1..], c, rep);
      assert t == [t[0]] + t[1..];
    }
  }

  lemma {:induction false} EscapeEachNoAngles(s: string)
    ensures '<' !in EscapeEach(s) && '>' !in EscapeEach(s)
  {
    if s != [] {
      EscapeEachNoAngles(s[1..]);
    }
  }

  lemma {:induction false} UnescapeEscapeEach(s: string)
    ensures Unescape(EscapeEach(s)) == s
  {
    if s != [] {
      var c, rest := s[0], s[1..];
      var t := EscapeEach(s);
      assert t == EscChar(c) + EscapeEach(rest);
      UnescapeEscapeEach(rest);
      if c == '&' {
        assert "&amp;" <= t && t[5..] == EscapeEach(rest);
      } else if c == '<' {
        assert t[1] == 'l';
        assert !("&amp;" <= t) && "&lt;" <= t && t[4..] == EscapeEach(rest);
      } else if c == '>' {
        assert t[1] == 'g';
        assert !("&amp;" <= t) && !("&lt;" <= t) && "&gt;" <= t && t[4..] == EscapeEach(rest);
      } else {
        assert t[0] == c && t[1..] == EscapeEach(rest);
      }
      assert s == [c] + rest;
    }
  }

  // ---------------------------------------------------------------------------
  // escCsv
  // ---------------------------------------------------------------------------

  /** `/[",\n]/.test(s)`. */
  predicate NeedsQuoting(s: string) {
    '"' in s || ',' in s || '\n' in s
  }

  /**
   * `escCsv`: a field with a quote, comma or newline is quoted, its quotes
   * doubled; any other field is left as it is.  A CSV reader gets the
   * original field back.
   */
  function EscCsv(s: string): (r: string)
    ensures IsQuoted(r) <==> NeedsQuoting(s)
    ensures !NeedsQuoting(s) ==> r == s
    ensures UnquoteCsv(r) == s
  {
    if NeedsQuoting(s) then
      var inner := ReplaceAll(s, '"', "\"\"");
      var t := "\"" + inner + "\"";
      assert t[1..|t| - 1] == inner;
      UndoubleReplaceAll(s);
      t
    else s
  }

  predicate IsQuoted(t: string) {
    |t| >= 2 && t[0] == '"' && t[|t| - 1] == '"'
  }

  /** Collapses each doubled quote back into one. */
  function Undouble(t: string): string {
    if t == [] then []
    else if |t| >= 2 && t[0] == '"' && t[1] == '"' then "\"" + Undouble(t[2..])
    else [t[0]] + Undouble(t[1..])
  }

  /** How a CSV reader reads one field back. */
  function UnquoteCsv(t: string): string {
    if IsQuoted(t) then Undouble(t[1..|t| - 1]) else t
  }

  lemma {:induction false} UndoubleReplaceAll(s: string)
    ensures Undouble(ReplaceAll(s, '"', "\"\"")) == s
  {
    if s != [] {
      var t := ReplaceAll(s, '"', "\"\"");
      UndoubleReplaceAll(s[1..]);
      if s[0] == '"' {
        assert t == "\"\"" + ReplaceAll(s[1..], '"', "\"\"");
        assert t[2..] == ReplaceAll(s[1..], '"', "\"\"");
      } else {
        assert t == [s[0]] + ReplaceAll(s[1..], '"', "\"\"");
        assert t[1..] == ReplaceAll(s[1..], '"', "\"\"");
      }
      assert s == [s[0]] + s[1..];
    }
  }
}
