/**
 * Text primitives of the Telegram agent: the MarkdownV2 escaping it applies to
 * user-controlled text, the caption bound, and the decimal rendering of the
 * numeric ids it puts into links and extras.
 *
 * To say what escaping achieves, the module also defines how Telegram reads
 * MarkdownV2 text (Bot API, "Formatting options", MarkdownV2 style): a
 * backslash makes the next character literal, and the special characters
 * `_ * [ ] ( ) ~ ` > # + - = | { } . !` and the backslash may not appear bare.
 */
module Markup {
  import opened Model

  /** The characters the agent escapes: its own class, which lacks '`' and '\'. */
  predicate Reserved(c: char) {
    c in "_*[]()~>#+=|{}.!-"
  }

  function CountReserved(s: string): nat {
    if s == [] then 0 else (if Reserved(s[0]) then 1 else 0) + CountReserved(s[1..])
  }

  /** Puts one backslash before every reserved character and copies every other one. */
  function Escape(s: string): (r: string)
    ensures |r| == |s| + CountReserved(s)
    ensures CountReserved(s) == 0 ==> r == s
  {
    if s == [] then ""
    else (if Reserved(s[0]) then ['\\', s[0]] else [s[0]]) + Escape(s[1..])
  }

  /** `escapeText`: undefined and the empty string give the empty string. */
  function EscapeText(text: Option<string>): (r: string)
    ensures r == "" <==> !Truthy(text)
    ensures Truthy(text) ==> |r| == |text.value| + CountReserved(text.value)
  {
    if Truthy(text) then Escape(text.value) else ""
  }

  /** Escaping distributes over concatenation: each character is escaped on its own. */
  lemma {:induction false} EscapeAppend(a: string, b: string)
    ensures Escape(a + b) == Escape(a) + Escape(b)
  {
    if a != [] {
      assert (a + b)[0] == a[0];
      assert (a + b)[1..] == a[1..] + b;
      EscapeAppend(a[1..], b);
    } else {
      assert a + b == b;
    }
  }

  /** No reserved character of the output stands bare: a backslash precedes each. */
  lemma {:induction false} EscapedReservedArePreceded(s: string)
    ensures forall i :: 0 <= i < |Escape(s)| && Reserved(Escape(s)[i]) ==> i > 0 && Escape(s)[i - 1] == '\\'
  {
    if s != [] {
      EscapedReservedArePreceded(s[1..]);
      var h := if Reserved(s[0]) then ['\\', s[0]] else [s[0]];
      var t := Escape(s[1..]);
      assert Escape(s) == h + t;
      forall i | 0 <= i < |Escape(s)| && Reserved(Escape(s)[i])
        ensures i > 0 && Escape(s)[i - 1] == '\\'
      {
        if i >= |h| {
          assert Escape(s)[i] == t[i - |h|];
          if i - |h| == 0 {
            assert false;
          }
        }
      }
    }
  }

  /** Characters Telegram's MarkdownV2 treats as markup: the code's set plus '`' and '\'. */
  predicate MarkdownV2Special(c: char) {
    Reserved(c) || c == '`' || c == '\\'
  }

  /**
   * Reads MarkdownV2 text as Telegram does, up to the first unescaped '*'.
   * Returns the literal text read and the rest (empty, or starting at that '*');
   * None for a bare special character or a trailing lone backslash.
   */
  function ReadPlain(t: string): Option<(string, string)>
    decreases |t|
  {
    if t == [] then Some(("", ""))
    else if t[0] == '*' then Some(("", t))
    else if t[0] == '\\' then
      if |t| < 2 then None
      else match ReadPlain(t[2..])
        case None => None
        case Some((d, rest)) => Some(([t[1]] + d, rest))
    else if MarkdownV2Special(t[0]) then None
    else match ReadPlain(t[1..])
      case None => None
      case Some((d, rest)) => Some(([t[0]] + d, rest))
  }

  /** Reads a bold span `*...*` at the start of `t`: its literal text and what follows it. */
  function ReadBold(t: string): Option<(string, string)> {
    if t == [] || t[0] != '*' then None
    else match ReadPlain(t[1..])
      case None => None
      case Some((d, rest)) => if rest == "" then None else Some((d, rest[1..]))
  }

  /** Text without the two characters the code's escape set leaves out. */
  predicate Plain(s: string) {
    forall i :: 0 <= i < |s| ==> s[i] != '\\' && s[i] != '`'
  }

  /** One escaped plain character reads back as itself, ahead of whatever the rest reads as. */
  lemma ReadEscapedChar(c: char, tail: string)
    requires c != '\\' && c != '`'
    ensures ReadPlain((if Reserved(c) then ['\\', c] else [c]) + tail)
         == match ReadPlain(tail)
            case None => None
            case Some((d, rest)) => Some(([c] + d, rest))
  {
    if Reserved(c) {
      var t := ['\\', c] + tail;
      assert t[0] == '\\' && t[1] == c && t[2..] == tail;
    } else {
      var t := [c] + tail;
      assert t[0] == c && t[1..] == tail;
    }
  }

  /** The escape of a non-empty text is its first character's escape followed by the rest's. */
  lemma EscapeFirst(s: string, rest: string)
    requires s != []
    ensures Escape(s) + rest == (if Reserved(s[0]) then ['\\', s[0]] else [s[0]]) + (Escape(s[1..]) + rest)
  {
  }

  /** For plain text, Telegram reads back exactly what was escaped. */
  lemma {:induction false} ReadEscaped(s: string, rest: string)
    requires Plain(s)
    requires rest == "" || rest[0] == '*'
    ensures ReadPlain(Escape(s) + rest) == Some((s, rest))
  {
    if s != [] {
      var c, tail := s[0], Escape(s[1..]) + rest;
      assert c != '\\' && c != '`';
      EscapeFirst(s, rest);
      ReadEscaped(s[1..], rest);
      ReadEscapedChar(c, tail);
      assert [c] + s[1..] == s;
    } else {
      assert Escape(s) + rest == rest;
    }
  }

  /** A bold span around escaped plain text reads back as that text. */
  lemma BoldReadsBack(s: string, rest: string)
    requires Plain(s)
    ensures ReadBold("*" + Escape(s) + "*" + rest) == Some((s, rest))
  {
    var t := "*" + Escape(s) + "*" + rest;
    assert t[1..] == Escape(s) + ("*" + rest);
    ReadEscaped(s, "*" + rest);
  }

  /** A backtick is left bare, so Telegram cannot parse the bold span at all. */
  lemma BacktickBreaksBold()
    ensures ReadBold("*" + Escape("a`") + "*") == None
  {
    assert !Reserved('a') && !Reserved('`');
    assert "a`"[1..] == "`" && "`"[1..] == "";
    assert Escape("a`") == "a`";
    var t := "*a`*";
    assert "*" + Escape("a`") + "*" == t;
    assert t[1..] == "a`*" && t[1..][1..] == "`*";
  }

  /** The escape leaves a backslash, and the letters around it, as they are. */
  lemma BackslashLeftBare()
    ensures !MarkdownV2Special('a') && !MarkdownV2Special('b')
    ensures Escape("a\\b") == "a\\b" && Escape("a\\") == "a\\"
  {
    assert !Reserved('a') && !Reserved('b') && !Reserved('\\');
    assert "a\\b"[1..] == "\\b" && "\\b"[1..] == "b" && "b"[1..] == "";
    assert "a\\"[1..] == "\\" && "\\"[1..] == "";
  }

  /** A backslash in the text is read as an escape, and the character after it loses it. */
  lemma BackslashIsSwallowed()
    ensures ReadBold("*" + Escape("a\\b") + "*") == Some(("ab", ""))
  {
    BackslashLeftBare();
    var t := "*a\\b*";
    assert "*" + Escape("a\\b") + "*" == t;
    var u := t[1..][1..];
    assert u == "\\b*" && u[0] == '\\' && u[1] == 'b' && u[2..] == "*";
    assert ReadPlain(u[2..]) == Some(("", "*"));
    assert [u[1]] + "" == "b";
    assert ReadPlain(u) == Some(("b", "*"));
    assert t[1..][0] == 'a' && !MarkdownV2Special('a') && ['a'] + "b" == "ab";
    assert ReadPlain(t[1..]) == Some(("ab", "*"));
  }

  /** A trailing backslash escapes the closing '*': the bold span never closes. */
  lemma TrailingBackslashUnclosesBold()
    ensures ReadBold("*" + Escape("a\\") + "*") == None
  {
    BackslashLeftBare();
    var t := "*a\\*";
    assert "*" + Escape("a\\") + "*" == t;
    var u := t[1..][1..];
    assert u == "\\*" && u[0] == '\\' && u[1] == '*' && u[2..] == "";
    assert ReadPlain(u[2..]) == Some(("", ""));
    assert [u[1]] + "" == "*";
    assert ReadPlain(u) == Some(("*", ""));
    assert t[1..][0] == 'a' && !MarkdownV2Special('a') && ['a'] + "*" == "a*";
    assert ReadPlain(t[1..]) == Some(("a*", ""));
  }

  /** Telegram's bound on a photo caption. */
  const CaptionLimit: nat := 1024

  /**
   * `truncateCaption`: a caption over the bound keeps its first `maxLength - 3`
   * characters and gains "..."; JavaScript's `substring(0, k)` reads a negative
   * `k` as 0.
   */
  function TruncateCaption(caption: string, maxLength: nat := CaptionLimit): (r: string)
    ensures |caption| <= maxLength ==> r == caption
    ensures |caption| > maxLength >= 3 ==>
      |r| == maxLength && r[..maxLength - 3] == caption[..maxLength - 3] && r[maxLength - 3..] == "..."
    ensures |caption| > maxLength && maxLength < 3 ==> r == "..."
  {
    if |caption| > maxLength then caption[..if maxLength >= 3 then maxLength - 3 else 0] + "..." else caption
  }

  predicate IsDigits(s: string) {
    forall i :: 0 <= i < |s| ==> '0' <= s[i] <= '9'
  }

  function DigitChar(d: nat): (c: char)
    requires d < 10
    ensures '0' <= c <= '9' && c as int - '0' as int == d
  {
    ('0' as int + d) as char
  }

  /** JavaScript's `toString()` for a non-negative integer: digits, no leading zero. */
  function Decimal(n: nat): (r: string)
    ensures |r| >= 1 && IsDigits(r)
    ensures r[0] == '0' ==> n == 0
    decreases n
  {
    if n < 10 then [DigitChar(n)] else Decimal(n / 10) + [DigitChar(n % 10)]
  }

  /** The number a string of decimal digits denotes. */
  function DecimalValue(s: string): nat
    requires IsDigits(s)
    decreases |s|
  {
    if s == [] then 0 else DecimalValue(s[..|s| - 1]) * 10 + (s[|s| - 1] as int - '0' as int)
  }

  lemma {:induction false} DecimalRoundTrip(n: nat)
    ensures DecimalValue(Decimal(n)) == n
  {
    if n >= 10 {
      DecimalRoundTrip(n / 10);
      var r := Decimal(n);
      assert r[..|r| - 1] == Decimal(n / 10);
    }
  }

  lemma DecimalInjective(a: nat, b: nat)
    ensures Decimal(a) == Decimal(b) ==> a == b
  {
    DecimalRoundTrip(a);
    DecimalRoundTrip(b);
  }
}
