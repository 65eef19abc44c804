/**
 * The XChat scrollback parser.  Each line is 'T', a decimal POSIX epoch and
 * the text XChat displayed.  The text loses XChat's formatting codes and
 * an optional '<nickname>' prefix becomes the event's nickname.
 */
module XChatScrollback {
  import opened Common
  import opened Timelib

  const DATA_TYPE: string := "xchat:scrollback:line"

  /** The decorators removed one character at a time: bold, beep, backspace, reset, reverse, italic, underline. */
  predicate IsDecorator(c: char)
  {
    c == '\U{02}' || c == '\U{07}' || c == '\U{08}' || c == '\U{0F}' || c == '\U{16}' || c == '\U{1D}' || c == '\U{1F}'
  }

  const COLOR: char := '\U{03}'

  predicate IsDigitChar(c: char)
  {
    '0' <= c <= '9'
  }

  /** The number of digits, at most two, at the front of s. */
  function ColorDigits(s: string): (n: nat)
    ensures n <= 2 && n <= |s|
    ensures forall i :: 0 <= i < n ==> IsDigitChar(s[i])
    ensures n < 2 && n < |s| ==> !IsDigitChar(s[n])
  {
    if s != [] && IsDigitChar(s[0]) then
      if |s| > 1 && IsDigitChar(s[1]) then 2 else 1
    else 0
  }

  /**
   * STRIPPER.transformString: a color code is the color character and up to
   * two digits; when a third digit follows, the word is longer than its
   * maximum of three characters and does not match, so the color character
   * stays.  Each decorator is removed on its own; everything else is kept.
   */
  function StripDecorators(s: string): (r: string)
    ensures |r| <= |s|
    decreases |s|
  {
    if s == [] then []
    else if s[0] == COLOR then
      var n := ColorDigits(s[1..]);
      if n == 2 && |s| > 3 && IsDigitChar(s[3]) then [s[0]] + StripDecorators(s[1..])
      else StripDecorators(s[1 + n..])
    else if IsDecorator(s[0]) then StripDecorators(s[1..])
    else [s[0]] + StripDecorators(s[1..])
  }

  /** No decorator survives the stripping. */
  lemma {:induction false} NoDecoratorLeft(s: string)
    ensures forall i :: 0 <= i < |StripDecorators(s)| ==> !IsDecorator(StripDecorators(s)[i])
    decreases |s|
  {
    if s != [] {
      if s[0] == COLOR {
        var n := ColorDigits(s[1..]);
        if n == 2 && |s| > 3 && IsDigitChar(s[3]) { NoDecoratorLeft(s[1..]); } else { NoDecoratorLeft(s[1 + n..]); }
      } else {
        NoDecoratorLeft(s[1..]);
      }
    }
  }

  /** A color character survives only in front of three digits, which survive with it. */
  lemma {:induction false} ColorLeftBeforeDigits(s: string)
    ensures ColorsBeforeDigits(StripDecorators(s))
    decreases |s|
  {
    if s != [] {
      if s[0] == COLOR {
        var n := ColorDigits(s[1..]);
        if n == 2 && |s| > 3 && IsDigitChar(s[3]) {
          ColorLeftBeforeDigits(s[4..]);
          assert s[1..] == s[1..4] + s[4..];
          DigitsKept(s[1..4], s[4..]);
          var r' := StripDecorators(s[4..]);
          assert StripDecorators(s) == [s[0]] + (s[1..4] + r');
          KeepColor(s[1..4], r');
        } else {
          ColorLeftBeforeDigits(s[1 + n..]);
        }
      } else if IsDecorator(s[0]) {
        ColorLeftBeforeDigits(s[1..]);
      } else {
        ColorLeftBeforeDigits(s[1..]);
        KeepOther(s[0], StripDecorators(s[1..]));
      }
    }
  }

  /** Every color character is followed by three digits. */
  predicate ColorsBeforeDigits(r: string)
  {
    forall i :: 0 <= i < |r| && r[i] == COLOR ==>
      i + 3 < |r| && IsDigitChar(r[i + 1]) && IsDigitChar(r[i + 2]) && IsDigitChar(r[i + 3])
  }

  lemma KeepOther(c: char, r: string)
    requires c != COLOR && ColorsBeforeDigits(r)
    ensures ColorsBeforeDigits([c] + r)
  {
    var t := [c] + r;
    forall i | 0 <= i < |t| && t[i] == COLOR
      ensures i + 3 < |t| && IsDigitChar(t[i + 1]) && IsDigitChar(t[i + 2]) && IsDigitChar(t[i + 3])
    {
      assert t[i] == r[i - 1];
    }
  }

  lemma KeepColor(d: string, r: string)
    requires |d| == 3 && IsDigitChar(d[0]) && IsDigitChar(d[1]) && IsDigitChar(d[2]) && ColorsBeforeDigits(r)
    ensures ColorsBeforeDigits([COLOR] + (d + r))
  {
    var t := [COLOR] + (d + r);
    forall i | 0 <= i < |t| && t[i] == COLOR
      ensures i + 3 < |t| && IsDigitChar(t[i + 1]) && IsDigitChar(t[i + 2]) && IsDigitChar(t[i + 3])
    {
      if i >= 4 {
        assert t[i] == r[i - 4];
      }
    }
  }

  /** Digits at the front are kept in front. */
  lemma {:induction false} DigitsKept(d: string, rest: string)
    requires forall i :: 0 <= i < |d| ==> IsDigitChar(d[i])
    ensures StripDecorators(d + rest) == d + StripDecorators(rest)
    decreases |d|
  {
    if d == [] {
      assert d + rest == rest;
    } else {
      var s := d + rest;
      assert s[0] == d[0] && s[0] != COLOR && !IsDecorator(s[0]);
      assert s[1..] == d[1..] + rest;
      assert StripDecorators(s) == [d[0]] + StripDecorators(s[1..]);
      DigitsKept(d[1..], rest);
      assert d == [d[0]] + d[1..];
    }
  }

  /** Text without color characters and decorators is left alone. */
  lemma {:induction false} PlainTextKept(s: string)
    requires forall i :: 0 <= i < |s| ==> s[i] != COLOR && !IsDecorator(s[i])
    ensures StripDecorators(s) == s
    decreases |s|
  {
    if s != [] {
      PlainTextKept(s[1..]);
    }
  }

  /** The color code examples: two digits go, a third digit keeps the code, decorators go. */
  lemma StripExamples(a: string, b: string)
    requires a == [COLOR, '0', '4', 'x', '\U{02}'] && b == [COLOR, '1', '2', '3']
    ensures StripDecorators(a) == "x"
    ensures StripDecorators(b) == b
  {
    assert ColorDigits(a[1..]) == 2;
    assert StripDecorators(a[3..]) == "x" by {
      assert a[3..][1..] == [a[4]];
      assert StripDecorators([a[4]]) == [] by { assert [a[4]][1..] == []; }
    }
    assert ColorDigits(b[1..]) == 2;
    DigitsKept(b[1..], []);
    assert b[1..] + [] == b[1..];
  }

  // ---------------------------------------------------------------------
  // Nickname and text

  /** pyparsing's default whitespace, skipped in front of a token. */
  predicate IsWhite(c: char)
  {
    c == ' ' || c == '\t' || c == '\r' || c == '\n'
  }

  /** The number of whitespace characters at the front of s, which a token skips. */
  function WhiteCount(s: string): (n: nat)
    ensures n <= |s| && (n == |s| || !IsWhite(s[n]))
    ensures forall i :: 0 <= i < n ==> IsWhite(s[i])
  {
    if s != [] && IsWhite(s[0]) then 1 + WhiteCount(s[1..]) else 0
  }

  predicate IsBlank(c: char)
  {
    c == ' ' || c == '\t' || c == '\r'
  }

  /** The number of blanks skipped in front of a line end, which leaves the newline. */
  function BlankCount(s: string): (n: nat)
    ensures n <= |s| && (n == |s| || !IsBlank(s[n]))
    ensures forall i :: 0 <= i < n ==> IsBlank(s[i])
  {
    if s != [] && IsBlank(s[0]) then 1 + BlankCount(s[1..]) else 0
  }

  /** The first position of c in s. */
  function CharIndex(s: string, c: char): (r: Option<nat>)
    ensures r.Some? ==> r.value < |s| && s[r.value] == c && forall i :: 0 <= i < r.value ==> s[i] != c
    ensures r.None? ==> forall i :: 0 <= i < |s| ==> s[i] != c
  {
    if s == [] then None
    else if s[0] == c then Some(0)
    else match CharIndex(s[1..], c)
      case None => None
      case Some(k) => Some(k + 1)
  }

  /** SkipTo(LineEnd()): the text up to the first newline. */
  function ToLineEnd(s: string): (r: string)
    ensures |r| <= |s| && r == s[..|r|]
    ensures forall i :: 0 <= i < |r| ==> r[i] != '\n'
  {
    match CharIndex(s, '\n')
      case Some(k) => s[..k]
      case None => s
  }

  predicate NoDecorator(s: string)
  {
    forall i :: 0 <= i < |s| ==> !IsDecorator(s[i])
  }

  lemma SuffixNoDecorator(s: string, k: nat)
    requires k <= |s| && NoDecorator(s)
    ensures NoDecorator(s[k..])
  {
    assert forall i :: 0 <= i < |s| - k ==> s[k..][i] == s[k + i];
  }

  /** The rest of an entry: leading blanks skipped, up to the line end, tabs turned into spaces. */
  function EntryText(s: string): (r: string)
    ensures forall i :: 0 <= i < |r| ==> r[i] != '\t' && r[i] != '\n'
    ensures NoDecorator(s) ==> NoDecorator(r)
  {
    var from := s[BlankCount(s)..];
    var line := ToLineEnd(from);
    assert forall i :: 0 <= i < |line| ==> line[i] == s[BlankCount(s) + i];
    ReplaceChar(line, '\t', ' ')
  }

  /**
   * The nickname of MSG_ENTRY and where the text its rest is read from
   * starts: an optional '<' nickname '>' after whitespace.  Without a
   * closing '>' there is no nickname and the '<' belongs to the text.
   */
  function SplitNickname(stripped: string): (r: (string, nat))
    ensures forall i :: 0 <= i < |r.0| ==> r.0[i] != '>'
    ensures r.1 <= |stripped|
  {
    var a := WhiteCount(stripped);
    if a < |stripped| && stripped[a] == '<' then
      var b := a + 1 + WhiteCount(stripped[a + 1..]);
      match CharIndex(stripped[b..], '>')
        case Some(k) => (stripped[b..b + k], b + k + 1)
        case None => ([], a)
    else ([], a)
  }

  /** MSG_ENTRY on the stripped text: the nickname, with no '>', and the entry text, with no tab and no newline. */
  function NicknameAndText(stripped: string): (r: (string, string))
    ensures forall i :: 0 <= i < |r.0| ==> r.0[i] != '>'
    ensures forall i :: 0 <= i < |r.1| ==> r.1[i] != '\t' && r.1[i] != '\n'
  {
    var split := SplitNickname(stripped);
    (split.0, EntryText(stripped[split.1..]))
  }

  /** The text keeps no decorator when the stripped text has none. */
  lemma NicknameTextNoDecorator(stripped: string)
    requires NoDecorator(stripped)
    ensures NoDecorator(NicknameAndText(stripped).1)
  {
    SuffixNoDecorator(stripped, SplitNickname(stripped).1);
  }

  /** Without a leading '<' there is no nickname and the whole text after the whitespace is the entry. */
  lemma NoNickname(stripped: string)
    requires WhiteCount(stripped) == |stripped| || stripped[WhiteCount(stripped)] != '<'
    ensures SplitNickname(stripped) == ([], WhiteCount(stripped))
  {
  }

  /** Without a closing '>' there is no nickname and the '<' belongs to the text. */
  lemma UnclosedNickname(stripped: string, a: nat)
    requires a == WhiteCount(stripped) && a < |stripped| && stripped[a] == '<'
    requires forall i :: a < i < |stripped| ==> stripped[i] != '>'
    ensures SplitNickname(stripped) == ([], a)
  {
    var b := a + 1 + WhiteCount(stripped[a + 1..]);
    assert CharIndex(stripped[b..], '>').None? by {
      assert forall i :: 0 <= i < |stripped| - b ==> stripped[b..][i] == stripped[b + i];
    }
  }

  /** A '<' nickname '>' prefix, with the nickname starting at a non-white character, gives that nickname and leaves the text after it. */
  lemma NicknameTaken(nickname: string, text: string)
    requires nickname != [] && !IsWhite(nickname[0])
    requires forall i :: 0 <= i < |nickname| ==> nickname[i] != '>'
    ensures var s := ['<'] + nickname + ['>'] + text; SplitNickname(s) == (nickname, |s| - |text|)
  {
    var s := ['<'] + nickname + ['>'] + text;
    assert WhiteCount(s) == 0;
    assert s[1..] == nickname + ['>'] + text;
    assert WhiteCount(s[1..]) == 0;
    CharIndexAfter(nickname, '>', text);
    assert s[1..1 + |nickname|] == nickname;
  }

  lemma {:induction false} CharIndexAfter(prefix: string, c: char, rest: string)
    requires forall i :: 0 <= i < |prefix| ==> prefix[i] != c
    ensures CharIndex(prefix + [c] + rest, c) == Some(|prefix|)
    decreases |prefix|
  {
    var s := prefix + [c] + rest;
    if prefix == [] {
      assert s[0] == c;
    } else {
      assert s[0] == prefix[0];
      assert s[1..] == prefix[1..] + [c] + rest;
      CharIndexAfter(prefix[1..], c, rest);
    }
  }

  /** A single line that starts with no blank is the entry text but for its tabs, which become spaces. */
  lemma EntryTextOfLine(line: string)
    requires line == [] || (line[0] != ' ' && line[0] != '\t' && line[0] != '\r')
    requires forall i :: 0 <= i < |line| ==> line[i] != '\n'
    ensures EntryText(line) == ReplaceChar(line, '\t', ' ')
  {
    assert BlankCount(line) == 0;
    assert ToLineEnd(line) == line;
  }

  // ---------------------------------------------------------------------
  // Records

  /** The 'logline' structure: the epoch digits and the text after them. */
  datatype LogLine = LogLine(epoch: string, text: string)

  /** An XChatScrollbackEvent, a POSIX-time ADDED_TIME event. */
  datatype XChatEvent = XChatEvent(posixTime: int, offset: int, nickname: string, text: string)

  /** VerifyStructure on the result of matching the line grammar (None when it does not match). */
  function VerifyStructure(parsed: Option<LogLine>): (r: bool)
    ensures r <==> parsed.Some? && PyInt(parsed.value.epoch, 10).Some? && FromPosixTime(PyInt(parsed.value.epoch, 10).value) != 0
  {
    match parsed
      case None => false
      case Some(line) =>
        match PyInt(line.epoch, 10)
          case None => false
          case Some(epoch) => FromPosixTime(epoch) != 0
  }

  /** Epoch 0 is not accepted: its timestamp is 0. */
  lemma EpochZeroRejected(line: LogLine)
    requires line.epoch == "0"
    ensures !VerifyStructure(Some(line))
  {
    PyIntDigits(line.epoch, 10);
  }

  /**
   * ParseRecord.  The offset is the parser's own, which nothing ever
   * updates, so every event carries 0.
   */
  function ParseRecord(key: string, structure: LogLine): (r: Option<XChatEvent>)
    ensures r.Some? <==> key == "logline" && PyInt(structure.epoch, 10).Some?
    ensures r.Some? ==> (r.value.offset == 0 && r.value.posixTime == PyInt(structure.epoch, 10).value &&
      (r.value.nickname, r.value.text) == NicknameAndText(StripDecorators(structure.text)))
  {
    if key != "logline" then None
    else match PyInt(structure.epoch, 10)
      case None => None
      case Some(epoch) =>
        var (nickname, text) := NicknameAndText(StripDecorators(structure.text));
        Some(XChatEvent(epoch, 0, nickname, text))
  }

  /** The text of an event holds no decorator, no tab and no newline; its nickname no '>'. */
  lemma EventText(key: string, structure: LogLine)
    requires ParseRecord(key, structure).Some?
    ensures var e := ParseRecord(key, structure).value;
      (forall i :: 0 <= i < |e.text| ==> e.text[i] != '\t' && e.text[i] != '\n' && !IsDecorator(e.text[i])) &&
      (forall i :: 0 <= i < |e.nickname| ==> e.nickname[i] != '>')
  {
    NoDecoratorLeft(structure.text);
    NicknameTextNoDecorator(StripDecorators(structure.text));
  }
}
