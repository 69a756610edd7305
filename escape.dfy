/**
 * `EscapeText` (bot.go): escapes the markup characters of one of the three
 * parse modes. Each input character is replaced by its table entry or copied;
 * a replacement is never scanned again. Any other parse mode yields "".
 */
module Escape {
  import opened Wrappers

  const ModeHTML: string := "HTML"
  const ModeMarkdown: string := "Markdown"
  const ModeMarkdownV2: string := "MarkdownV2"

  datatype ParseMode = Html | Markdown | MarkdownV2

  /** The parse-mode names the escaper knows, tried in the order the source tries them. */
  function ModeOf(parseMode: string): Option<ParseMode> {
    if parseMode == ModeHTML then Some(Html)
    else if parseMode == ModeMarkdown then Some(Markdown)
    else if parseMode == ModeMarkdownV2 then Some(MarkdownV2)
    else None
  }

  const MarkdownChars: string := "_*`["
  const MarkdownV2Chars: string := "_*[]()~`>#+-=|{}.!"

  /** The characters that the mode's table replaces. */
  predicate IsSpecial(mode: ParseMode, c: char) {
    match mode
    case Html => c == '<' || c == '>' || c == '&'
    case Markdown => c in MarkdownChars
    case MarkdownV2 => c in MarkdownV2Chars
  }

  /** One table lookup: HTML entities, or a backslash before a Markdown character. */
  function EscapeChar(mode: ParseMode, c: char): string {
    match mode
    case Html =>
      if c == '<' then "&lt;"
      else if c == '>' then "&gt;"
      else if c == '&' then "&amp;"
      else [c]
    case _ => if IsSpecial(mode, c) then ['\\', c] else [c]
  }

  function EscapeWith(mode: ParseMode, text: string): string
    decreases |text|
  {
    if text == [] then [] else EscapeChar(mode, text[0]) + EscapeWith(mode, text[1..])
  }

  /**
   * The inverse of the escaper: reads entities (HTML) or backslash pairs
   * (Markdown) back into the characters they stand for.
   */
  function Unescape(mode: ParseMode, s: string): string
    decreases |s|
  {
    if s == [] then []
    else if mode == Html then
      if |s| >= 4 && s[..4] == "&lt;" then "<" + Unescape(mode, s[4..])
      else if |s| >= 4 && s[..4] == "&gt;" then ">" + Unescape(mode, s[4..])
      else if |s| >= 5 && s[..5] == "&amp;" then "&" + Unescape(mode, s[5..])
      else [s[0]] + Unescape(mode, s[1..])
    else if |s| >= 2 && s[0] == '\\' && IsSpecial(mode, s[1]) then [s[1]] + Unescape(mode, s[2..])
    else [s[0]] + Unescape(mode, s[1..])
  }

  /**
   * `EscapeText`: "" for an unknown parse mode; for a known one, a string
   * from which the text can be read back exactly.
   */
  function EscapeText(parseMode: string, text: string): (r: string)
    ensures ModeOf(parseMode).None? ==> r == ""
    ensures ModeOf(parseMode).Some? ==> Unescape(ModeOf(parseMode).value, r) == text
  {
    match ModeOf(parseMode)
    case None => ""
    case Some(mode) =>
      EscapeRoundTrip(mode, text);
      EscapeWith(mode, text)
  }

  /** In the Markdown modes an escaped text never starts with a character of the table. */
  lemma EscapedHeadNotSpecial(mode: ParseMode, text: string)
    requires mode != Html && text != []
    ensures EscapeWith(mode, text) != [] && !IsSpecial(mode, EscapeWith(mode, text)[0])
  {
    assert EscapeWith(mode, text) == EscapeChar(mode, text[0]) + EscapeWith(mode, text[1..]);
    assert '\\' !in MarkdownChars && '\\' !in MarkdownV2Chars;
  }

  /** Reading one escaped character back, followed by the escape of the rest. */
  lemma UnescapeStep(mode: ParseMode, c: char, rest: string)
    requires mode != Html && rest != [] ==> !IsSpecial(mode, rest[0])
    ensures Unescape(mode, EscapeChar(mode, c) + rest) == [c] + Unescape(mode, rest)
  {
    var s := EscapeChar(mode, c) + rest;
    if mode == Html {
      if c == '<' {
        assert s[..4] == "&lt;" && s[4..] == rest;
      } else if c == '>' {
        assert s[..4] == "&gt;" && s[4..] == rest;
      } else if c == '&' {
        assert s[..4] != "&lt;" && s[..4] != "&gt;";
        assert s[..5] == "&amp;" && s[5..] == rest;
      } else {
        assert s[0] == c && s[1..] == rest;
      }
    } else if IsSpecial(mode, c) {
      assert s[0] == '\\' && s[1] == c && s[2..] == rest;
    } else {
      assert s[0] == c && s[1..] == rest;
    }
  }

  /** Escaping loses nothing: unescaping the result gives the text back. */
  lemma {:induction false} EscapeRoundTrip(mode: ParseMode, text: string)
    ensures Unescape(mode, EscapeWith(mode, text)) == text
    decreases |text|
  {
    if text != [] {
      var rest := EscapeWith(mode, text[1..]);
      if mode != Html && text[1..] != [] {
        EscapedHeadNotSpecial(mode, text[1..]);
      }
      UnescapeStep(mode, text[0], rest);
      EscapeRoundTrip(mode, text[1..]);
      assert [text[0]] + text[1..] == text;
    }
  }

  /** Two texts with the same escape are the same text. */
  lemma EscapeInjective(mode: ParseMode, a: string, b: string)
    requires EscapeWith(mode, a) == EscapeWith(mode, b)
    ensures a == b
  {
    EscapeRoundTrip(mode, a);
    EscapeRoundTrip(mode, b);
  }

  /** Escaping works character by character: it distributes over concatenation. */
  lemma {:induction false} EscapeConcat(mode: ParseMode, a: string, b: string)
    ensures EscapeWith(mode, a + b) == EscapeWith(mode, a) + EscapeWith(mode, b)
    decreases |a|
  {
    if a == [] {
      assert a + b == b;
    } else {
      assert (a + b)[0] == a[0] && (a + b)[1..] == a[1..] + b;
      EscapeConcat(mode, a[1..], b);
    }
  }

  /** Characters outside the mode's table are copied unchanged. */
  lemma {:induction false} EscapePlainIsIdentity(mode: ParseMode, text: string)
    requires forall i :: 0 <= i < |text| ==> !IsSpecial(mode, text[i])
    ensures EscapeWith(mode, text) == text
    decreases |text|
  {
    if text != [] {
      EscapePlainIsIdentity(mode, text[1..]);
      assert [text[0]] + text[1..] == text;
    }
  }

  /** The number of characters of the text that are in the mode's table. */
  function CountSpecial(mode: ParseMode, text: string): nat
    decreases |text|
  {
    if text == [] then 0
    else (if IsSpecial(mode, text[0]) then 1 else 0) + CountSpecial(mode, text[1..])
  }

  /** Every character of a Markdown table gains exactly one backslash; the rest keep their length. */
  lemma {:induction false} MarkdownEscapeLength(mode: ParseMode, text: string)
    requires mode != Html
    ensures |EscapeWith(mode, text)| == |text| + CountSpecial(mode, text)
    decreases |text|
  {
    if text != [] {
      MarkdownEscapeLength(mode, text[1..]);
    }
  }

  /** A replacement is not scanned again: `<` becomes `&lt;`, not `&amp;lt;`. */
  lemma HtmlNotRescanned()
    ensures EscapeText("HTML", "<") == "&lt;"
  {
    assert ModeOf("HTML") == Some(Html);
    assert EscapeWith(Html, "<") == EscapeChar(Html, '<') + EscapeWith(Html, []);
  }

  /** Any parse mode other than the three exact names gives the empty string. */
  lemma UnknownModeIsEmpty(text: string)
    ensures EscapeText("markdown", text) == ""
  {
    assert ModeOf("markdown") == None;
  }
}
