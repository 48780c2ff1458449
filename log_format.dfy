/** The pure part of the logging facility: severity levels and their colours
    and labels, the stripping of directories from a source path, the decimal
    form of a line number, and the layout of one output line. */
module LogFormat {

  datatype Option<T> = None | Some(value: T)

  /** Severity of a log record. */
  datatype Level = Debug | Info | Warn | Err

  /** The semantic colours the console colour controller understands. */
  datatype Color = Red | Green | Yellow | Blue | Gray | Reset

  // ---------------------------------------------------------------------
  // Filename stripping
  // ---------------------------------------------------------------------

  /** The part of `path` after its last '/', or the whole of `path` when it
      holds no '/' (what strrchr(path, '/') + 1 points at, else path). */
  function Basename(path: string): (r: string)
    ensures |r| <= |path| && '/' !in r
  {
    if path == [] then []
    else if path[|path| - 1] == '/' then []
    else Basename(path[..|path| - 1]) + [path[|path| - 1]]
  }

  /** Basename returns a suffix of its input that holds no '/' and that is
      either the whole input or directly preceded by '/'. */
  lemma {:induction false} BasenameSpec(path: string)
    ensures |Basename(path)| <= |path| && Basename(path) == path[|path| - |Basename(path)|..]
    ensures '/' !in Basename(path)
    ensures |Basename(path)| == |path| || path[|path| - |Basename(path)| - 1] == '/'
  {
    if path != [] && path[|path| - 1] != '/' {
      var n := |path|;
      var front := path[..n - 1];
      BasenameSpec(front);
      var r' := Basename(front);
      assert r' == path[n - 1 - |r'|..n - 1];
      assert r' + [path[n - 1]] == path[n - 1 - |r'|..];
    }
  }

  /** A suffix with no '/' that is either the whole path or directly
      preceded by '/' is exactly what Basename returns. */
  lemma BasenameUnique(path: string, r: string)
    requires |r| <= |path| && r == path[|path| - |r|..]
    requires '/' !in r
    requires |r| == |path| || path[|path| - |r| - 1] == '/'
    ensures r == Basename(path)
  {
    BasenameSpec(path);
  }

  /** Joining a directory and a bare name with '/' and stripping again
      gives the name back. */
  lemma {:induction false} BasenameOfJoin(dir: string, name: string)
    requires '/' !in name
    ensures Basename(dir + "/" + name) == name
  {
    if name != [] {
      var front := name[..|name| - 1];
      assert (dir + "/" + name)[..|dir + "/" + name| - 1] == dir + "/" + front;
      BasenameOfJoin(dir, front);
      assert front + [name[|name| - 1]] == name;
    }
  }

  /** A path without '/' is left as it is. */
  lemma BasenameNoSlash(path: string)
    requires '/' !in path
    ensures Basename(path) == path
  {
    BasenameSpec(path);
  }

  lemma BasenameExample()
    ensures Basename("/a/b/c.cpp") == "c.cpp"
    ensures Basename("c.cpp") == "c.cpp"
  {
    BasenameOfJoin("/a/b", "c.cpp");
    assert "/a/b" + "/" + "c.cpp" == "/a/b/c.cpp";
    BasenameNoSlash("c.cpp");
  }

  // ---------------------------------------------------------------------
  // Level tables
  // ---------------------------------------------------------------------

  /** The console colour set before the timestamp of a record of level `l`. */
  function LevelColor(l: Level): (c: Color)
    ensures c != Reset && c != Gray
  {
    match l
    case Debug => Green
    case Info => Blue
    case Warn => Yellow
    case Err => Red
  }

  /** The level a colour stands for, if any. */
  function ColorLevel(c: Color): Option<Level>
  {
    match c
    case Green => Some(Debug)
    case Blue => Some(Info)
    case Yellow => Some(Warn)
    case Red => Some(Err)
    case _ => None
  }

  /** Distinct levels get distinct colours, and the colour names its level. */
  lemma LevelColorRoundTrip(l: Level, m: Level)
    ensures ColorLevel(LevelColor(l)) == Some(l)
    ensures LevelColor(l) == LevelColor(m) <==> l == m
  {
  }

  /** The fixed-width tag written after the timestamp: a five-character
      level name between "|" and "] ". */
  function LevelLabel(l: Level): (tag: string)
    ensures |tag| == 8
  {
    match l
    case Debug => "|Debug] "
    case Info => "|Info ] "
    case Warn => "|Warn ] "
    case Err => "|Error] "
  }

  /** Every label is eight characters: "|", a five-character name that
      does not start with a blank, and "] ". */
  lemma LabelShape(l: Level)
    ensures |LevelLabel(l)| == 8 && LevelLabel(l)[0] == '|' && LevelLabel(l)[6..] == "] "
    ensures LevelLabel(l)[1] != ' '
  {
  }

  /** The level whose label is `s`, if any. */
  function ParseLabel(s: string): (r: Option<Level>)
    ensures r.Some? ==> LevelLabel(r.value) == s
  {
    if s == "|Debug] " then Some(Debug)
    else if s == "|Info ] " then Some(Info)
    else if s == "|Warn ] " then Some(Warn)
    else if s == "|Error] " then Some(Err)
    else None
  }

  /** Every label parses back to its level, so distinct levels have
      distinct labels. */
  lemma LabelRoundTrip(l: Level, m: Level)
    ensures ParseLabel(LevelLabel(l)) == Some(l)
    ensures LevelLabel(l) == LevelLabel(m) <==> l == m
  {
    assert ParseLabel(LevelLabel(l)) == Some(l);
    assert ParseLabel(LevelLabel(m)) == Some(m);
  }

  // ---------------------------------------------------------------------
  // Decimal form of the line number (std::dec)
  // ---------------------------------------------------------------------

  predicate IsDigit(c: char) { '0' <= c <= '9' }

  /** Characters that can occur in the decimal form of an int. */
  predicate IsNumeral(c: char) { IsDigit(c) || c == '-' }

  function DigitValue(c: char): (d: nat)
    requires IsDigit(c)
    ensures d < 10
  {
    c as int - '0' as int
  }

  function DigitChar(d: nat): (c: char)
    requires d < 10
    ensures IsDigit(c) && c as int - '0' as int == d
  {
    ('0' as int + d) as char
  }

  /** Decimal digits of `n`, most significant first, without leading zeros. */
  function NatDecimal(n: nat): (r: string)
    ensures |r| >= 1 && IsDigit(r[0])
  {
    if n < 10 then [DigitChar(n)]
    else NatDecimal(n / 10) + [DigitChar(n % 10)]
  }

  /** The text `std::dec << n` produces for an int. */
  function Decimal(n: int): (r: string)
    ensures |r| >= 1 && (r[0] == '-' <==> n < 0)
  {
    if n < 0 then ['-'] + NatDecimal(-n) else NatDecimal(n)
  }

  /** The digits of a natural number: at least one, and a leading zero
      only for zero itself. */
  lemma {:induction false} NatDecimalSpec(n: nat)
    ensures |NatDecimal(n)| >= 1
    ensures forall i :: 0 <= i < |NatDecimal(n)| ==> IsDigit(NatDecimal(n)[i])
    ensures NatDecimal(n)[0] == '0' <==> n == 0
  {
    if n >= 10 {
      NatDecimalSpec(n / 10);
    }
  }

  /** The decimal form of an int is a non-empty run of numeral
      characters that starts with '-' exactly when the int is negative. */
  lemma DecimalSpec(n: int)
    ensures |Decimal(n)| >= 1 && forall i :: 0 <= i < |Decimal(n)| ==> IsNumeral(Decimal(n)[i])
    ensures (Decimal(n)[0] == '-') == (n < 0)
  {
    NatDecimalSpec(if n < 0 then -n else n);
  }

  /** The value of a string of decimal digits (a non-digit counts as 0;
      ParseDecimal rules those out first). */
  function ParseNat(s: string): nat
  {
    if s == [] then 0
    else ParseNat(s[..|s| - 1]) * 10 + (if IsDigit(s[|s| - 1]) then DigitValue(s[|s| - 1]) else 0)
  }

  /** The value of an optionally negated string of decimal digits. */
  function ParseDecimal(s: string): Option<int>
  {
    if |s| > 0 && s[0] == '-' then
      if s != "-" && forall i :: 1 <= i < |s| ==> IsDigit(s[i]) then Some(0 - ParseNat(s[1..]) as int) else None
    else if s != [] && forall i :: 0 <= i < |s| ==> IsDigit(s[i]) then Some(ParseNat(s))
    else None
  }

  lemma {:induction false} NatDecimalRoundTrip(n: nat)
    ensures ParseNat(NatDecimal(n)) == n
  {
    NatDecimalSpec(n);
    if n >= 10 {
      NatDecimalSpec(n / 10);
      NatDecimalRoundTrip(n / 10);
      var s := NatDecimal(n);
      assert s[..|s| - 1] == NatDecimal(n / 10);
    }
  }

  /** Reading the decimal form of a line number back gives the number. */
  lemma DecimalRoundTrip(n: int)
    ensures ParseDecimal(Decimal(n)) == Some(n)
  {
    if n < 0 {
      NegativeDecimalRoundTrip(n);
    } else {
      NatDecimalSpec(n);
      NatDecimalRoundTrip(n);
    }
  }

  lemma NegativeDecimalRoundTrip(n: int)
    requires n < 0
    ensures ParseDecimal(Decimal(n)) == Some(n)
  {
    var digits := NatDecimal(-n);
    NatDecimalSpec(-n);
    NatDecimalRoundTrip(-n);
    assert Decimal(n) == ['-'] + digits;
    assert Decimal(n)[1..] == digits;
  }

  // ---------------------------------------------------------------------
  // Layout of one output line
  // ---------------------------------------------------------------------

  /** The source location written after the message: " (file:line)". */
  function Location(file: string, line: int): (r: string)
    ensures |r| >= 5 && r[..2] == " (" && r[|r| - 1] == ')'
  {
    " (" + file + ":" + Decimal(line) + ")"
  }

  /** The text the console/file branch appends to the active stream for
      one record. */
  function FormatLine(time: string, level: Level, message: string, file: string, line: int): (r: string)
    ensures |r| == |time| + |message| + |Location(file, line)| + 10
    ensures r[0] == '[' && r[|r| - 1] == '\n'
  {
    "[" + time + LevelLabel(level) + message + Location(file, line) + "\n"
  }

  /** With an 8-character time, the timestamp and the label are exactly
      the first 17 characters of the line, and the message starts there. */
  lemma LineHeader(time: string, level: Level, message: string, file: string, line: int)
    requires |time| == 8
    ensures FormatLine(time, level, message, file, line)[..17] == "[" + time + LevelLabel(level)
    ensures FormatLine(time, level, message, file, line)[17..] == message + Location(file, line) + "\n"
  {
    var head := "[" + time + LevelLabel(level);
    var rest := message + Location(file, line) + "\n";
    SeqAppend4(head, [], message, Location(file, line), "\n");
    assert FormatLine(time, level, message, file, line) == head + rest;
    SplitConcat(head, rest);
  }

  lemma FormatLineAfterTime(time: string, level: Level, message: string, file: string, line: int)
    ensures FormatLine(time, level, message, file, line)
            == "[" + time + (LevelLabel(level) + message + Location(file, line) + "\n")
  {
    SeqAppend4("[" + time, LevelLabel(level), message, Location(file, line), "\n");
  }

  lemma EngineBasename()
    ensures Basename("src/engine.cpp") == "engine.cpp"
  {
    BasenameOfJoin("src", "engine.cpp");
    assert "src" + "/" + "engine.cpp" == "src/engine.cpp";
  }

  lemma Decimal42()
    ensures Decimal(42) == "42"
  {
    assert NatDecimal(4) == "4";
  }

  lemma InfoTail()
    ensures LevelLabel(Info) + "starting" + Location("engine.cpp", 42) + "\n"
            == "|Info ] starting (engine.cpp:42)\n"
  {
    Decimal42();
    assert Location("engine.cpp", 42) == " (engine.cpp:42)";
  }

  /** The line of an Info record "starting" logged at line 42 of
      "engine.cpp". */
  lemma FormatLineExample(time: string)
    ensures FormatLine(time, Info, "starting", "engine.cpp", 42)
            == "[" + time + "|Info ] starting (engine.cpp:42)\n"
  {
    FormatLineAfterTime(time, Info, "starting", "engine.cpp", 42);
    InfoTail();
  }

  lemma SplitConcat<T>(a: seq<T>, b: seq<T>)
    ensures (a + b)[..|a|] == a && (a + b)[|a|..] == b
  {
  }

  lemma SeqAppendPair<T>(s: seq<T>, a: T, b: T)
    ensures s + [a] + [b] == s + [a, b]
  {
  }

  lemma SeqAppend4<T>(s: seq<T>, a: seq<T>, b: seq<T>, c: seq<T>, d: seq<T>)
    ensures s + a + b + c + d == s + (a + b + c + d)
  {
  }

  lemma Regroup<T>(h: seq<T>, t: seq<T>, d: seq<T>, x: T, y: T)
    ensures h + (t + d + [x]) + [y] == (h + t + d) + [x, y]
  {
  }

  lemma SeqAppend5<T>(s: seq<T>, a: seq<T>, b: seq<T>, c: seq<T>, d: seq<T>, e: seq<T>)
    ensures s + a + b + c + d + e == s + (a + b + c + d + e)
  {
  }

  /** A colour change, stamped with the length the active stream had when
      it happened, which places it among the text written. */
  datatype ColorEvent = ColorEvent(color: Color, offset: nat)

  /** The colour events of one dispatch whose line starts at `start` in the
      active stream and whose timestamp and label take `header` characters
      there: the level's colour before the "[", and Reset right after the
      label. */
  function DispatchColors(level: Level, start: nat, header: nat): (r: seq<ColorEvent>)
    ensures |r| == 2 && r[0].color != Reset && r[1].color == Reset
    ensures r[0].offset == start <= r[1].offset == start + header
  {
    [ColorEvent(LevelColor(level), start), ColorEvent(Reset, start + header)]
  }

  /** The fields of one output line. */
  datatype LineFields = LineFields(time: string, level: Level, message: string, line: int)

  /** Length of the longest suffix of `s` made of numeral characters. */
  function NumeralRun(s: string): (k: nat)
    ensures k <= |s|
    ensures forall i :: |s| - k <= i < |s| ==> IsNumeral(s[i])
    ensures k < |s| ==> !IsNumeral(s[|s| - k - 1])
  {
    if s != [] && IsNumeral(s[|s| - 1]) then NumeralRun(s[..|s| - 1]) + 1 else 0
  }

  lemma {:induction false} NumeralRunAfter(p: string, d: string)
    requires p != [] && !IsNumeral(p[|p| - 1])
    requires forall i :: 0 <= i < |d| ==> IsNumeral(d[i])
    ensures NumeralRun(p + d) == |d|
  {
    if d != [] {
      var front := d[..|d| - 1];
      assert (p + d)[..|p + d| - 1] == p + front;
      NumeralRunAfter(p, front);
    }
  }

  /** Reads an output line back, given the file name it was logged from:
      "[", an 8-character time, a level label, the message, then
      " (" file ":" decimal ")" and a newline. */
  function ParseLine(s: string, file: string): Option<LineFields>
  {
    if |s| < 2 || s[|s| - 2..] != ")\n" then None
    else
      var body := s[..|s| - 2];
      var k := NumeralRun(body);
      var pre := body[..|body| - k];
      var tail := " (" + file + ":";
      if |pre| < 17 + |tail| || pre[|pre| - |tail|..] != tail then None
      else
        var head := pre[..|pre| - |tail|];
        match (ParseLabel(head[9..17]), ParseDecimal(body[|body| - k..]))
        case (Some(level), Some(n)) =>
          if head[0] == '[' then Some(LineFields(head[1..9], level, head[17..], n)) else None
        case _ => None
  }

  /** ParseLine on a line assembled from its head, the file tail and the
      decimal number. */
  lemma ParseAssembled(head: string, file: string, d: string)
    requires |head| >= 17 && head[0] == '[' && ParseLabel(head[9..17]).Some?
    requires d != [] && forall i :: 0 <= i < |d| ==> IsNumeral(d[i])
    requires ParseDecimal(d).Some?
    ensures ParseLine(head + (" (" + file + ":" + d + ")") + "\n", file)
            == Some(LineFields(head[1..9], ParseLabel(head[9..17]).value, head[17..], ParseDecimal(d).value))
  {
    var tail := " (" + file + ":";
    var pre := head + tail;
    Regroup(head, tail, d, ')', '\n');
    assert head + (" (" + file + ":" + d + ")") + "\n" == (pre + d) + ")\n";
    SplitConcat(pre + d, ")\n");
    NumeralRunAfter(pre, d);
    SplitConcat(pre, d);
    SplitConcat(head, tail);
  }

  /** Given the file name a record was logged from, the reader recovers
      the record's time, level, message and line from the line it
      produces, whatever the message holds. */
  lemma ParseFormatLine(time: string, level: Level, message: string, file: string, line: int)
    requires |time| == 8
    ensures ParseLine(FormatLine(time, level, message, file, line), file)
            == Some(LineFields(time, level, message, line))
  {
    var d := Decimal(line);
    DecimalSpec(line);
    LabelShape(level);
    var tag := LevelLabel(level);
    var head := "[" + time + tag + message;
    assert FormatLine(time, level, message, file, line) == head + (" (" + file + ":" + d + ")") + "\n";
    assert head[9..17] == tag;
    assert head[1..9] == time;
    assert head[17..] == message;
    LabelRoundTrip(level, level);
    DecimalRoundTrip(line);
    ParseAssembled(head, file, d);
  }
}
