/**
The application menu entry of npm/linux-desktop-entry.js, read back by the rules
of the freedesktop Desktop Entry Specification: "Basic format of the file",
"Possible value types" and "The Exec key".
*/
module DesktopEntry {
  import opened Wrappers

  // ----- writing ----------------------------------------------------------------------

  predicate IsReserved(c: char) {
    c == '\\' || c == '\"' || c == '`' || c == '$'
  }

  /** A backslash before every reserved character. */
  function EscapeReserved(s: string): string {
    if s == [] then []
    else (if IsReserved(s[0]) then ['\\', s[0]] else [s[0]]) + EscapeReserved(s[1..])
  }

  /** Every occurrence of `c` doubled. */
  function Double(c: char, s: string): string {
    if s == [] then [] else (if s[0] == c then [c, c] else [s[0]]) + Double(c, s[1..])
  }

  function Quoted(arg: string): string {
    ['\"'] + Double('%', EscapeReserved(arg)) + ['\"']
  }

  function QuoteExecArg(arg: string): string {
    Double('\\', Quoted(arg))
  }

  predicate SingleLine(s: string) {
    '\n' !in s && '\r' !in s
  }

  const COMMENT_HEAD := "Terminal session manager "
  const COMMENT_TAIL := "for AI coding agent teams"

  const HEAD := [
    "[Desktop Entry]",
    "Type=Application",
    "Version=1.0",
    "Name=AgentsCommander",
    "Comment=" + COMMENT_HEAD + COMMENT_TAIL]

  const TAIL := ["Terminal=false", "Categories=Development;Utility;", ""]

  function Lines(target: string, icon: string): seq<string> {
    HEAD + ["Exec=" + QuoteExecArg(target), "TryExec=" + Double('\\', target), "Icon=" + Double('\\', icon)] + TAIL
  }

  function Join(lines: seq<string>): string {
    if lines == [] then []
    else if |lines| == 1 then lines[0]
    else lines[0] + ['\n'] + Join(lines[1..])
  }

  datatype EntryText = Text(text: string) | LineBreak(offender: string)

  /** A path with a line break is an error; the executable is checked first. */
  function MakeEntry(target: string, icon: string): EntryText {
    if !SingleLine(target) then LineBreak(target)
    else if !SingleLine(icon) then LineBreak(icon)
    else Text(Join(Lines(target, icon)))
  }

  // ----- reading ------------------------------------------------------------------------

  /** The escapes of a value of type string. */
  function UnescapeString(s: string): Option<string> {
    if s == [] then Some([])
    else if s[0] != '\\' then Prepend(s[0], UnescapeString(s[1..]))
    else if |s| == 1 then None
    else
      match s[1]
      case '\\' => Prepend('\\', UnescapeString(s[2..]))
      case 's' => Prepend(' ', UnescapeString(s[2..]))
      case 'n' => Prepend('\n', UnescapeString(s[2..]))
      case 't' => Prepend('\t', UnescapeString(s[2..]))
      case 'r' => Prepend('\r', UnescapeString(s[2..]))
      case _ => None
  }

  function Prepend(c: char, s: Option<string>): Option<string> {
    match s case None => None case Some(t) => Some([c] + t)
  }

  datatype QuotedArg = Closed(arg: string, rest: string) | Malformed

  /** The characters that the specification wants escaped inside double quotes. */
  const ESCAPED_IN_QUOTES: set<char> := {'\"', '`', '$', '\\'}

  /** The rest of a double-quoted argument, behind its opening quote. A reserved
      character must be escaped; the first bare quote closes the argument. */
  function ReadQuoted(s: string): QuotedArg {
    if s == [] then Malformed
    else if s[0] == '\"' then Closed([], s[1..])
    else if s[0] == '\\' then
      if |s| > 1 && s[1] in ESCAPED_IN_QUOTES then Extend(s[1], ReadQuoted(s[2..])) else Malformed
    else if s[0] in ESCAPED_IN_QUOTES then Malformed
    else Extend(s[0], ReadQuoted(s[1..]))
  }

  function Extend(c: char, q: QuotedArg): QuotedArg {
    match q case Malformed => Malformed case Closed(arg, rest) => Closed([c] + arg, rest)
  }

  /** Field codes: `%%` is a percent sign; no other code is expected here. */
  function ExpandCodes(s: string): Option<string> {
    if s == [] then Some([])
    else if s[0] != '%' then Prepend(s[0], ExpandCodes(s[1..]))
    else if |s| > 1 && s[1] == '%' then Prepend('%', ExpandCodes(s[2..]))
    else None
  }

  /** The one argument of an Exec value that is a single quoted argument. */
  function ReadExec(value: string): Option<string> {
    match UnescapeString(value)
    case None => None
    case Some(line) =>
      if line == [] || line[0] != '\"' then None
      else
        match ReadQuoted(line[1..])
        case Malformed => None
        case Closed(arg, rest) => if rest == [] then ExpandCodes(arg) else None
  }

  function SplitLines(text: string): seq<string> {
    if text == [] then [[]]
    else
      var rest := SplitLines(text[1..]);
      if text[0] == '\n' then [[]] + rest
      else if rest == [] then [[text[0]]]
      else [[text[0]] + rest[0]] + rest[1..]
  }

  /** Spaces around the equals sign are ignored. */
  function SkipSpaces(s: string): string {
    if s != [] && s[0] == ' ' then SkipSpaces(s[1..]) else s
  }

  /** The value on the first line that starts with `prefix`, a key and its equals sign. */
  function ValueOf(prefix: string, text: string): Option<string> {
    FindKey(prefix, SplitLines(text))
  }

  function FindKey(prefix: string, lines: seq<string>): Option<string> {
    if lines == [] then None
    else if prefix <= lines[0] then Some(SkipSpaces(lines[0][|prefix|..]))
    else FindKey(prefix, lines[1..])
  }

  // ----- round trips -----------------------------------------------------------------------

  lemma {:induction false} DoubleBackslashRoundTrip(s: string)
    ensures UnescapeString(Double('\\', s)) == Some(s)
  {
    if s != [] {
      assert [s[0]] + s[1..] == s;
      var t := Double('\\', s);
      DoubleBackslashRoundTrip(s[1..]);
      if s[0] == '\\' {
        assert t[2..] == Double('\\', s[1..]);
      } else {
        assert t == [s[0]] + Double('\\', s[1..]);
        assert t[1..] == Double('\\', s[1..]);
      }
    }
  }

  lemma {:induction false} PercentRoundTrip(s: string)
    ensures ExpandCodes(Double('%', s)) == Some(s)
  {
    if s != [] {
      assert [s[0]] + s[1..] == s;
      var t := Double('%', s);
      PercentRoundTrip(s[1..]);
      if s[0] == '%' {
        assert t[2..] == Double('%', s[1..]);
      } else {
        assert t == [s[0]] + Double('%', s[1..]);
        assert t[1..] == Double('%', s[1..]);
      }
    }
  }

  /** Doubling percent signs commutes with escaping: they are not reserved. */
  lemma {:induction false} DoubleOfEscape(s: string)
    ensures Double('%', EscapeReserved(s)) == EscapeReserved(Double('%', s))
  {
    if s != [] {
      DoubleOfEscape(s[1..]);
      var rest := EscapeReserved(s[1..]);
      if IsReserved(s[0]) {
        var e := EscapeReserved(s);
        assert e == ['\\', s[0]] + rest;
        assert e[1..] == [s[0]] + rest && e[1..][1..] == rest;
        assert Double('%', e) == ['\\'] + Double('%', e[1..]);
        assert Double('%', e[1..]) == [s[0]] + Double('%', rest);
        var d := Double('%', s);
        assert d == [s[0]] + Double('%', s[1..]) && d[1..] == Double('%', s[1..]);
      } else if s[0] == '%' {
        var d := Double('%', s);
        assert d == ['%', '%'] + Double('%', s[1..]);
        assert d[1..] == ['%'] + Double('%', s[1..]) && d[1..][1..] == Double('%', s[1..]);
        assert EscapeReserved(s) == ['%'] + rest && EscapeReserved(s)[1..] == rest;
        assert EscapeReserved(d[1..]) == ['%'] + EscapeReserved(d[1..][1..]);
      } else {
        var d := Double('%', s);
        assert d == [s[0]] + Double('%', s[1..]) && d[1..] == Double('%', s[1..]);
        assert EscapeReserved(s) == [s[0]] + rest && EscapeReserved(s)[1..] == rest;
      }
    }
  }

  /** Behind the opening quote, an escaped text reads back to its own end: no
      character inside it closes the quote early. */
  lemma {:induction false} QuotedReadsToEnd(s: string, rest: string)
    ensures ReadQuoted(EscapeReserved(s) + ['\"'] + rest) == Closed(s, rest)
  {
    var t := EscapeReserved(s) + ['\"'] + rest;
    if s == [] {
      assert t == ['\"'] + rest;
    } else {
      QuotedReadsToEnd(s[1..], rest);
      var more := EscapeReserved(s[1..]) + ['\"'] + rest;
      if IsReserved(s[0]) {
        assert t == ['\\', s[0]] + more && t[2..] == more;
      } else {
        assert t == [s[0]] + more && t[1..] == more;
      }
    }
  }

  /** Undoing the string escapes, the quoting and the percent codes, in this
      order, gives back any argument at all. */
  lemma ExecRoundTrip(arg: string)
    ensures ReadExec(QuoteExecArg(arg)) == Some(arg)
  {
    var q := Quoted(arg);
    DoubleBackslashRoundTrip(q);
    DoubleOfEscape(arg);
    QuotedReadsToEnd(Double('%', arg), []);
    assert q[1..] == EscapeReserved(Double('%', arg)) + ['\"'] + [];
    PercentRoundTrip(arg);
  }

  /** Hence two executables never share an Exec value. */
  lemma ExecInjective(a: string, b: string)
    requires QuoteExecArg(a) == QuoteExecArg(b)
    ensures a == b
  {
    ExecRoundTrip(a);
    ExecRoundTrip(b);
  }

  // ----- the whole file -----------------------------------------------------------------------

  lemma {:induction false} SplitOne(line: string)
    requires '\n' !in line
    ensures SplitLines(line) == [line]
  {
    if line != [] {
      SplitOne(line[1..]);
      assert line == [line[0]] + line[1..];
    }
  }

  lemma {:induction false} SplitFirst(line: string, text: string)
    requires '\n' !in line
    ensures SplitLines(line + ['\n'] + text) == [line] + SplitLines(text)
  {
    var t := line + ['\n'] + text;
    if line == [] {
      assert t == ['\n'] + text && t[1..] == text;
    } else {
      SplitFirst(line[1..], text);
      assert t[1..] == line[1..] + ['\n'] + text;
      assert t[0] == line[0] && [line[0]] + line[1..] == line;
      assert SplitLines(t) == [[t[0]] + line[1..]] + SplitLines(text);
    }
  }

  /** Joined lines split back into the same lines. */
  lemma {:induction false} JoinSplits(lines: seq<string>)
    requires lines != [] && forall l | l in lines :: '\n' !in l
    ensures SplitLines(Join(lines)) == lines
  {
    assert lines[0] in lines;
    if |lines| == 1 {
      SplitOne(lines[0]);
    } else {
      assert forall l | l in lines[1..] :: l in lines;
      JoinSplits(lines[1..]);
      SplitFirst(lines[0], Join(lines[1..]));
    }
  }

  lemma {:induction false} DoubleMembers(c: char, s: string)
    ensures forall d :: d in Double(c, s) <==> d in s
  {
    if s != [] {
      DoubleMembers(c, s[1..]);
      assert s == [s[0]] + s[1..];
    }
  }

  lemma {:induction false} EscapeMembers(s: string)
    ensures forall d | d in EscapeReserved(s) :: d in s || d == '\\'
  {
    if s != [] {
      EscapeMembers(s[1..]);
      assert s == [s[0]] + s[1..];
    }
  }

  lemma FixedLines()
    ensures forall l | l in HEAD :: '\n' !in l
    ensures forall l | l in TAIL :: '\n' !in l
  {
    forall l | l in HEAD ensures '\n' !in l {
      var k: nat :| k < |HEAD| && HEAD[k] == l;
      FixedLine(k);
    }
    assert '\n' !in TAIL[0] && '\n' !in TAIL[1] && '\n' !in TAIL[2];
  }

  lemma FixedLine(k: nat)
    requires k < |HEAD|
    ensures '\n' !in HEAD[k]
  {
    if k == 4 {
      assert '\n' !in COMMENT_HEAD;
      assert '\n' !in COMMENT_TAIL;
      assert '\n' !in "Comment=";
    } else {
      assert k == 0 || k == 1 || k == 2 || k == 3;
    }
  }

  lemma QuotedSingleLine(arg: string)
    requires '\n' !in arg
    ensures '\n' !in QuoteExecArg(arg)
  {
    EscapeMembers(arg);
    DoubleMembers('%', EscapeReserved(arg));
    DoubleMembers('\\', Quoted(arg));
  }

  lemma LinesAreLines(target: string, icon: string)
    requires SingleLine(target) && SingleLine(icon)
    ensures forall l | l in Lines(target, icon) :: '\n' !in l
  {
    FixedLines();
    QuotedSingleLine(target);
    DoubleMembers('\\', target);
    DoubleMembers('\\', icon);
    hide QuoteExecArg, Double, HEAD, TAIL;
    var exec, tryExec, iconLine := "Exec=" + QuoteExecArg(target), "TryExec=" + Double('\\', target), "Icon=" + Double('\\', icon);
    assert '\n' !in "Exec=" && '\n' !in "TryExec=" && '\n' !in "Icon=";
    assert '\n' !in exec && '\n' !in tryExec && '\n' !in iconLine;
    forall l | l in Lines(target, icon) ensures '\n' !in l {
      assert l in HEAD || l in [exec, tryExec, iconLine] || l in TAIL;
    }
  }

  lemma FindKeyAt(prefix: string, lines: seq<string>, i: nat, value: string)
    requires i < |lines| && lines[i] == prefix + value
    requires forall k | 0 <= k < i :: !(prefix <= lines[k])
    ensures FindKey(prefix, lines) == Some(SkipSpaces(value))
  {
    if i == 0 {
      assert lines[0][|prefix|..] == value;
    } else {
      FindKeyAt(prefix, lines[1..], i - 1, value);
    }
  }

  /** An entry is written exactly if neither path has a line break; the error names
      the executable first. */
  lemma EntryIsWrittenIff(target: string, icon: string)
    ensures MakeEntry(target, icon).Text? <==>
              '\n' !in target && '\r' !in target && '\n' !in icon && '\r' !in icon
    ensures MakeEntry(target, icon).LineBreak? ==>
              MakeEntry(target, icon).offender == if '\n' in target || '\r' in target then target else icon
  {
  }

  /** The whole text of a written entry. */
  lemma EntryIsLines(target: string, icon: string)
    requires MakeEntry(target, icon).Text?
    ensures SplitLines(MakeEntry(target, icon).text) ==
            ["[Desktop Entry]", "Type=Application", "Version=1.0", "Name=AgentsCommander",
             "Comment=" + "Terminal session manager " + "for AI coding agent teams",
             "Exec=" + QuoteExecArg(target), "TryExec=" + Double('\\', target), "Icon=" + Double('\\', icon),
             "Terminal=false", "Categories=Development;Utility;", ""]
  {
    hide QuoteExecArg, Double, Join, SplitLines, Lines;
    LinesAreLines(target, icon);
    LinesSpelled(target, icon);
    JoinSplits(Lines(target, icon));
  }

  lemma LinesSpelled(target: string, icon: string)
    ensures Lines(target, icon) ==
            ["[Desktop Entry]", "Type=Application", "Version=1.0", "Name=AgentsCommander",
             "Comment=" + "Terminal session manager " + "for AI coding agent teams",
             "Exec=" + QuoteExecArg(target), "TryExec=" + Double('\\', target), "Icon=" + Double('\\', icon),
             "Terminal=false", "Categories=Development;Utility;", ""]
  {
    hide QuoteExecArg, Double;
  }

  /** The keys of a written entry, read line by line. */
  lemma EntryKeys(target: string, icon: string)
    requires SingleLine(target) && SingleLine(icon)
    ensures var text := MakeEntry(target, icon).text;
            && ValueOf("Exec=", text) == Some(SkipSpaces(QuoteExecArg(target)))
            && ValueOf("TryExec=", text) == Some(SkipSpaces(Double('\\', target)))
            && ValueOf("Icon=", text) == Some(SkipSpaces(Double('\\', icon)))
  {
    LinesAreLines(target, icon);
    OtherKeys(target, icon);
    ThreeKeys(target, icon);
    hide Double, QuoteExecArg, ValueOf, Join, Lines;
    KeyAt("Exec=", Lines(target, icon), 5, QuoteExecArg(target));
    KeyAt("TryExec=", Lines(target, icon), 6, Double('\\', target));
    KeyAt("Icon=", Lines(target, icon), 7, Double('\\', icon));
  }

  /** The first line of a key gives its value. */
  lemma KeyAt(prefix: string, lines: seq<string>, i: nat, value: string)
    requires i < |lines| && lines[i] == prefix + value
    requires forall l | l in lines :: '\n' !in l
    requires forall k | 0 <= k < i :: !(prefix <= lines[k])
    ensures ValueOf(prefix, Join(lines)) == Some(SkipSpaces(value))
  {
    JoinSplits(lines);
    FindKeyAt(prefix, lines, i, value);
  }

  lemma ThreeKeys(target: string, icon: string)
    ensures var lines := Lines(target, icon);
            |lines| == 11 && lines[5] == "Exec=" + QuoteExecArg(target) &&
            lines[6] == "TryExec=" + Double('\\', target) && lines[7] == "Icon=" + Double('\\', icon)
  {
  }

  lemma Unlike(prefix: string, line: string, i: nat)
    requires i < |prefix| && i < |line| && prefix[i] != line[i]
    ensures !(prefix <= line)
  {
  }

  /** No earlier line carries one of the keys that are read. */
  lemma OtherKeys(target: string, icon: string)
    ensures forall k | 0 <= k < 5 :: !("Exec=" <= Lines(target, icon)[k])
    ensures forall k | 0 <= k < 6 :: !("TryExec=" <= Lines(target, icon)[k])
    ensures forall k | 0 <= k < 7 :: !("Icon=" <= Lines(target, icon)[k])
  {
    var lines := Lines(target, icon);
    forall k | 0 <= k < 5 ensures !("Exec=" <= lines[k]) { Unlike("Exec=", lines[k], 0); }
    forall k | 0 <= k < 6 && k != 1 ensures !("TryExec=" <= lines[k]) {
      Unlike("TryExec=", lines[k], 0);
    }
    Unlike("TryExec=", lines[1], 1);
    forall k | 0 <= k < 7 ensures !("Icon=" <= lines[k]) { Unlike("Icon=", lines[k], 0); }
  }

  /** The executable of the Exec line reads back for every accepted path. */
  lemma ExecLineRoundTrip(target: string, icon: string)
    requires MakeEntry(target, icon).Text?
    ensures var value := ValueOf("Exec=", MakeEntry(target, icon).text);
            value.Some? && ReadExec(value.value) == Some(target)
  {
    EntryKeys(target, icon);
    ExecRoundTrip(target);
    assert QuoteExecArg(target)[0] == '\"';
  }

  /** The TryExec and Icon lines read back if and only if the path does not start
      with a space: the reader drops spaces behind the equals sign, and the
      writer does not escape them. */
  lemma PathLinesRoundTripIff(target: string, icon: string)
    requires MakeEntry(target, icon).Text?
    ensures var text := MakeEntry(target, icon).text;
            && ValueOf("TryExec=", text).Some? && ValueOf("Icon=", text).Some?
            && (UnescapeString(ValueOf("TryExec=", text).value) == Some(target) <==> !([' '] <= target))
            && (UnescapeString(ValueOf("Icon=", text).value) == Some(icon) <==> !([' '] <= icon))
  {
    EntryKeys(target, icon);
    SkippedDiffers(target);
    SkippedDiffers(icon);
  }

  lemma SkippedDiffers(path: string)
    ensures UnescapeString(SkipSpaces(Double('\\', path))) == Some(path) <==> !([' '] <= path)
  {
    DoubleBackslashRoundTrip(path);
    if [' '] <= path {
      SkipDoubled(path);
      DoubleBackslashRoundTrip(SkipSpaces(path));
      SkipShorter(path);
    }
  }

  lemma {:induction false} SkipDoubled(s: string)
    ensures SkipSpaces(Double('\\', s)) == Double('\\', SkipSpaces(s))
  {
    if s != [] && s[0] == ' ' {
      assert Double('\\', s)[1..] == Double('\\', s[1..]);
      SkipDoubled(s[1..]);
    }
  }

  lemma {:induction false} SkipShorter(s: string)
    ensures |SkipSpaces(s)| <= |s|
    ensures s != [] && s[0] == ' ' ==> |SkipSpaces(s)| < |s|
  {
    if s != [] && s[0] == ' ' { SkipShorter(s[1..]); }
  }
}
