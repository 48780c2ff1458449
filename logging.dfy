/** The stateful part of the logging facility: the process-wide sink (the
    console, or a log file opened for appending), and the log record that
    accumulates one message and dispatches it once, at the end of its scope. */
module Logging {
  import opened LogFormat

  /** The two destinations get_log_stream can hand out. */
  datatype Stream = Console | File

  /** An interception function: (level, message, file, line) -> handled. */
  type Callback = (Level, string, string, int) -> bool

  /** What strftime("%I:%M:%S") leaves in the time buffer: 8 characters. */
  type TimeText = s: string | |s| == 8 witness "12:00:00"

  /** The console line printed when the log file is not open afterwards. */
  function FailedNotice(path: string): string
  {
    "Failed to open log file: " + path + "\n"
  }

  /** The console line printed by every set_log_file. */
  function OpenedNotice(path: string): string
  {
    "Opened log file: " + path + "\n"
  }

  /** The failure notice ends with a newline and carries the path after a fixed
      25-character prefix, so the path can be read back from it. */
  lemma FailedNoticeLayout(path: string)
    ensures |FailedNotice(path)| == 26 + |path| && FailedNotice(path)[|FailedNotice(path)| - 1] == '\n'
    ensures FailedNotice(path)[25..|FailedNotice(path)| - 1] == path
  {
    assert FailedNotice(path) == "Failed to open log file: " + (path + "\n");
  }

  /** The success notice ends with a newline and carries the path after a fixed
      17-character prefix, and it never reads as a failure notice. */
  lemma OpenedNoticeLayout(path: string, other: string)
    ensures |OpenedNotice(path)| == 18 + |path| && OpenedNotice(path)[|OpenedNotice(path)| - 1] == '\n'
    ensures OpenedNotice(path)[17..|OpenedNotice(path)| - 1] == path
    ensures OpenedNotice(path) != FailedNotice(other)
  {
    assert OpenedNotice(path) == "Opened log file: " + (path + "\n");
    assert OpenedNotice(path)[0] == 'O' != FailedNotice(other)[0];
  }

  /** The sink state: whether the log file is open, whether its stream is
      in the failed state, what has been written to the console and to the
      file, and the colour changes made. */
  class LogSink {
    var fileOpen: bool
    var fileFailed: bool
    var console: string
    var file: string
    var colors: seq<ColorEvent>

    /** Before any set_log_file, output goes to the console. */
    constructor ()
      ensures !fileOpen && !fileFailed && console == [] && file == [] && colors == []
    {
      fileOpen, fileFailed, console, file, colors := false, false, [], [], [];
    }

    /** The selected stream is the log file in the failed state, so every
        `<<` on it is refused. */
    predicate Silenced()
      reads this`fileOpen, this`fileFailed
      ensures Silenced() ==> fileOpen
    {
      fileOpen && fileFailed
    }

    /** The trace of the stream get_log_stream currently selects. */
    function Active(): string
      reads this`fileOpen, this`console, this`file
    {
      if fileOpen then file else console
    }

    /** The trace of the stream get_log_stream does not select. */
    function Inactive(): string
      reads this`fileOpen, this`console, this`file
    {
      if fileOpen then console else file
    }

    /** set_log_file: open `path` for appending; `openSucceeds` is what the
        operating system answers. A stream that is already open refuses a
        second open: it stays open but enters the failed state, and no
        "Failed" notice is printed. Otherwise a successful open clears the
        failed state and a failed one sets it. The "Opened" notice is
        printed whatever the outcome, after the "Failed" notice when the
        file is not open. Opening never truncates: the file trace is kept. */
    method SetLogFile(path: string, openSucceeds: bool)
      modifies this`fileOpen, this`fileFailed, this`console
      ensures fileOpen == (old(fileOpen) || openSucceeds)
      ensures fileFailed == (old(fileOpen) || !openSucceeds)
      ensures Silenced() == old(fileOpen)
      ensures console == old(console) + (if fileOpen then "" else FailedNotice(path)) + OpenedNotice(path)
      ensures file == old(file) && colors == old(colors)
    {
      if !fileOpen {
        fileOpen := openSucceeds;
        fileFailed := !openSucceeds;
      } else {
        fileFailed := true;
      }
      if !fileOpen {
        console := console + FailedNotice(path);
      }
      console := console + OpenedNotice(path);
    }

    /** get_log_stream: the file exactly when it is open, else the console. */
    method GetLogStream() returns (s: Stream)
      ensures s == File <==> fileOpen
    {
      if fileOpen {
        s := File;
      } else {
        s := Console;
      }
    }

    /** One `<<` of text on stream `s`; the other stream is untouched. The
        file stream takes nothing while it is failed or not open (a write to
        a closed stream sets badbit, which only a later successful open,
        clearing it, can observe). */
    method Write(s: Stream, text: string)
      modifies this`console, this`file
      ensures s == Console ==> console == old(console) + text && file == old(file)
      ensures s == File ==> file == old(file) + (if fileOpen && !fileFailed then text else "") && console == old(console)
      ensures (s == File <==> fileOpen) ==>
        Active() == old(Active()) + (if Silenced() then "" else text) && Inactive() == old(Inactive())
    {
      if s == Console {
        console := console + text;
      } else if fileOpen && !fileFailed {
        file := file + text;
      }
    }

    /** `get_log_stream() << text`: the text goes to the active stream
        unless that stream is silenced, and the other one is untouched. */
    method Emit(text: string)
      modifies this`console, this`file
      ensures !Silenced() ==> Active() == old(Active()) + text
      ensures Silenced() ==> Active() == old(Active())
      ensures Inactive() == old(Inactive())
    {
      var s := GetLogStream();
      Write(s, text);
    }

    /** set_color, recorded as an event stamped with the current length of
        the active stream. The event records the call, which happens whether
        or not the file stream is silenced. */
    method SetColor(c: Color)
      modifies this`colors
      ensures colors == old(colors) + [ColorEvent(c, |Active()|)]
    {
      colors := colors + [ColorEvent(c, |Active()|)];
    }
  }

  /** One log record: its level, the (stripped) source file and line it
      was created at, and the message accumulated so far. `dispatched`
      marks the end of its scope, after which it takes no more text. */
  class LogRecord {
    var level: Level
    const filename: string
    const line: int
    var buffer: string
    var dispatched: bool

    /** The base record: level Debug until a level setter changes it. */
    constructor (filename: string, line: int)
      ensures level == Debug && this.filename == filename && this.line == line
      ensures buffer == [] && !dispatched
    {
      level := Debug;
      this.filename, this.line := filename, line;
      buffer, dispatched := [], false;
    }

    constructor DebugDetailed(filename: string, line: int)
      ensures level == Debug && this.filename == filename && this.line == line
      ensures buffer == [] && !dispatched
    {
      level := Debug;
      this.filename, this.line := filename, line;
      buffer, dispatched := [], false;
    }

    constructor InfoDetailed(filename: string, line: int)
      ensures level == Info && this.filename == filename && this.line == line
      ensures buffer == [] && !dispatched
    {
      level := Debug;
      this.filename, this.line := filename, line;
      buffer, dispatched := [], false;
      new;
      level := Info;
    }

    constructor WarnDetailed(filename: string, line: int)
      ensures level == Warn && this.filename == filename && this.line == line
      ensures buffer == [] && !dispatched
    {
      level := Debug;
      this.filename, this.line := filename, line;
      buffer, dispatched := [], false;
      new;
      level := Warn;
    }

    constructor ErrDetailed(filename: string, line: int)
      ensures level == Err && this.filename == filename && this.line == line
      ensures buffer == [] && !dispatched
    {
      level := Debug;
      this.filename, this.line := filename, line;
      buffer, dispatched := [], false;
      new;
      level := Err;
    }

    /** `<<` of a text value: appends it and returns the same record, so
        that insertions chain. */
    method Append(text: string) returns (self: LogRecord)
      requires !dispatched
      modifies this`buffer
      ensures self == this && buffer == old(buffer) + text
    {
      buffer := buffer + text;
      self := this;
    }

    /** `<<` of an int: appends its decimal form. */
    method AppendInt(n: int) returns (self: LogRecord)
      requires !dispatched
      modifies this`buffer
      ensures self == this && buffer == old(buffer) + Decimal(n)
    {
      buffer := buffer + Decimal(n);
      self := this;
    }

    /** Whether an interception function is registered and reports the
        record as handled. */
    predicate Handled(callback: Option<Callback>)
      reads this`level, this`buffer
      ensures Handled(callback) ==> callback.Some?
    {
      callback.Some? && callback.value(level, buffer, filename, line)
    }

    /** The timestamp and the level label between the level's colour and
        Reset. */
    method WriteHeader(sink: LogSink, time: TimeText)
      modifies sink
      ensures sink.fileOpen == old(sink.fileOpen) && sink.fileFailed == old(sink.fileFailed)
      ensures !sink.Silenced() ==> sink.Active() == old(sink.Active()) + ("[" + time) + LevelLabel(level)
      ensures sink.Silenced() ==> sink.Active() == old(sink.Active())
      ensures sink.Inactive() == old(sink.Inactive())
      ensures sink.colors == old(sink.colors)
        + DispatchColors(level, |old(sink.Active())|, if sink.Silenced() then 0 else 17)
    {
      ghost var start, colors0 := sink.Active(), sink.colors;
      ghost var header := if sink.Silenced() then 0 else 17;
      sink.SetColor(LevelColor(level));
      sink.Emit("[" + time);
      sink.Emit(LevelLabel(level));
      assert |sink.Active()| == |start| + header;
      sink.SetColor(Reset);
      SeqAppendPair(colors0, ColorEvent(LevelColor(level), |start|), ColorEvent(Reset, |start| + header));
    }

    /** The message, the source location and the newline. */
    method WriteBody(sink: LogSink)
      modifies sink
      ensures sink.fileOpen == old(sink.fileOpen) && sink.fileFailed == old(sink.fileFailed)
      ensures !sink.Silenced() ==> sink.Active() == old(sink.Active()) + buffer + Location(filename, line) + "\n"
      ensures sink.Silenced() ==> sink.Active() == old(sink.Active())
      ensures sink.Inactive() == old(sink.Inactive())
      ensures sink.colors == old(sink.colors)
    {
      sink.Emit(buffer);
      sink.Emit(" (" + filename + ":" + Decimal(line) + ")");
      assert " (" + filename + ":" + Decimal(line) + ")" == Location(filename, line);
      sink.Emit("\n");
    }

    /** The destructor. A handling callback suppresses all output.
        Otherwise the level's colour is set, the formatted line goes to
        the stream get_log_stream selects, with the colour reset right
        after the label, and the other stream is left alone. A silenced
        file stream takes none of the line; the colour changes still
        happen, both at the same place. */
    method Dispatch(sink: LogSink, callback: Option<Callback>, time: TimeText)
      requires !dispatched
      modifies this`dispatched, sink
      ensures dispatched
      ensures Handled(callback) ==> unchanged(sink)
      ensures !Handled(callback) ==> sink.fileOpen == old(sink.fileOpen) && sink.fileFailed == old(sink.fileFailed)
      ensures !Handled(callback) && !sink.Silenced() ==>
        sink.Active() == old(sink.Active()) + FormatLine(time, level, buffer, filename, line)
      ensures !Handled(callback) && sink.Silenced() ==> sink.Active() == old(sink.Active())
      ensures !Handled(callback) ==> sink.Inactive() == old(sink.Inactive())
      ensures !Handled(callback) ==>
        sink.colors == old(sink.colors)
          + DispatchColors(level, |old(sink.Active())|, if sink.Silenced() then 0 else 17)
    {
      dispatched := true;
      if callback.Some? && callback.value(level, buffer, filename, line) {
        return;
      }
      ghost var start := sink.Active();
      WriteHeader(sink, time);
      WriteBody(sink);
      if !sink.Silenced() {
        SeqAppend5(start, "[" + time, LevelLabel(level), buffer, Location(filename, line), "\n");
      }
    }
  }

  /** The LogDebug() call-site macro: a Debug record at the stripped path. */
  method LogDebug(sourcePath: string, line: int) returns (r: LogRecord)
    ensures fresh(r) && r.level == Debug && r.filename == Basename(sourcePath) && r.line == line
    ensures r.buffer == [] && !r.dispatched
  {
    r := new LogRecord.DebugDetailed(Basename(sourcePath), line);
  }

  method LogInfo(sourcePath: string, line: int) returns (r: LogRecord)
    ensures fresh(r) && r.level == Info && r.filename == Basename(sourcePath) && r.line == line
    ensures r.buffer == [] && !r.dispatched
  {
    r := new LogRecord.InfoDetailed(Basename(sourcePath), line);
  }

  method LogWarn(sourcePath: string, line: int) returns (r: LogRecord)
    ensures fresh(r) && r.level == Warn && r.filename == Basename(sourcePath) && r.line == line
    ensures r.buffer == [] && !r.dispatched
  {
    r := new LogRecord.WarnDetailed(Basename(sourcePath), line);
  }

  method LogErr(sourcePath: string, line: int) returns (r: LogRecord)
    ensures fresh(r) && r.level == Err && r.filename == Basename(sourcePath) && r.line == line
    ensures r.buffer == [] && !r.dispatched
  {
    r := new LogRecord.ErrDetailed(Basename(sourcePath), line);
  }

  /** An Info record with message "starting" at line 42 of "src/engine.cpp",
      no callback and the console sink, prints exactly this line. */
  method InfoLineExample(time: TimeText) returns (out: string)
    ensures out == "[" + time + "|Info ] starting (engine.cpp:42)\n"
  {
    var sink := new LogSink();
    var r := LogInfo("src/engine.cpp", 42);
    EngineBasename();
    r := r.Append("starting");
    assert r.level == Info;
    assert r.buffer == "starting";
    assert r.filename == "engine.cpp";
    assert !r.Handled(None);
    r.Dispatch(sink, None, time);
    assert r.level == Info;
    assert r.buffer == "starting";
    assert r.filename == "engine.cpp";
    assert r.line == 42;
    assert !sink.fileOpen;
    assert sink.console == [] + FormatLine(time, Info, "starting", "engine.cpp", 42);
    FormatLineExample(time);
    out := sink.console;
  }

  /** `LogWarn() << message` at `line` of `sourcePath`, with no callback,
      dispatched on `sink`. */
  method LogWarnLine(sink: LogSink, sourcePath: string, line: int, message: string, time: TimeText)
    modifies sink
    ensures sink.fileOpen == old(sink.fileOpen) && sink.fileFailed == old(sink.fileFailed)
    ensures !sink.Silenced() ==> sink.Active() == old(sink.Active()) + FormatLine(time, Warn, message, Basename(sourcePath), line)
    ensures sink.Silenced() ==> sink.Active() == old(sink.Active())
    ensures sink.Inactive() == old(sink.Inactive())
  {
    var r := LogWarn(sourcePath, line);
    r := r.Append(message);
    assert r.level == Warn;
    assert r.buffer == message;
    assert r.filename == Basename(sourcePath);
    assert !r.Handled(None);
    r.Dispatch(sink, None, time);
    assert r.level == Warn;
    assert r.buffer == message;
    assert r.filename == Basename(sourcePath);
  }

  /** A fresh sink after a successful set_log_file and one Warn record. */
  method OpenedFileSink(path: string, sourcePath: string, line: int, message: string, time: TimeText)
    returns (sink: LogSink)
    ensures fresh(sink) && sink.fileOpen && !sink.fileFailed
    ensures sink.console == OpenedNotice(path)
    ensures sink.file == FormatLine(time, Warn, message, Basename(sourcePath), line)
  {
    sink := new LogSink();
    sink.SetLogFile(path, true);
    assert sink.fileOpen && !sink.Silenced() && sink.file == [];
    assert sink.console == OpenedNotice(path);
    LogWarnLine(sink, sourcePath, line, message, time);
    assert sink.file == [] + FormatLine(time, Warn, message, Basename(sourcePath), line);
  }

  /** After a successful set_log_file, a Warn record goes to the file,
      and the console shows only the "Opened" notice. */
  method OpenedFileScenario(path: string, sourcePath: string, line: int, message: string, time: TimeText)
    returns (console: string, file: string)
    ensures console == OpenedNotice(path)
    ensures file == FormatLine(time, Warn, message, Basename(sourcePath), line)
  {
    var sink := OpenedFileSink(path, sourcePath, line, message, time);
    console, file := sink.console, sink.file;
  }

  /** After a failed set_log_file, the sink stays on the console, which
      shows both notices and then the Warn record's line; the file gets
      nothing. */
  method FailedFileScenario(path: string, sourcePath: string, line: int, message: string, time: TimeText)
    returns (console: string, file: string)
    ensures console == FailedNotice(path) + OpenedNotice(path) + FormatLine(time, Warn, message, Basename(sourcePath), line)
    ensures file == []
  {
    var sink := new LogSink();
    sink.SetLogFile(path, false);
    assert !sink.fileOpen && !sink.Silenced() && sink.file == [];
    assert sink.console == FailedNotice(path) + OpenedNotice(path);
    LogWarnLine(sink, sourcePath, line, message, time);
    console, file := sink.console, sink.file;
  }

  /** A second set_log_file, whatever its outcome, prints only the
      "Opened" notice and silences the file: a Warn record logged before it
      reaches the file, one logged after it reaches neither the file nor
      the console. */
  method SecondOpenScenario(first: string, second: string, secondSucceeds: bool,
                            sourcePath: string, line: int, before: string, after: string, time: TimeText)
    returns (console: string, file: string)
    ensures console == OpenedNotice(first) + OpenedNotice(second)
    ensures file == FormatLine(time, Warn, before, Basename(sourcePath), line)
  {
    var sink := OpenedFileSink(first, sourcePath, line, before, time);
    sink.SetLogFile(second, secondSucceeds);
    assert sink.Silenced();
    assert sink.console == OpenedNotice(first) + OpenedNotice(second);
    LogWarnLine(sink, sourcePath, line, after, time);
    console, file := sink.console, sink.file;
  }

  /** A callback that handles every record leaves the console and the
      colour trace empty; one that handles none lets the line through,
      with the Error colour at its start and Reset after its label. */
  method InterceptionScenario(handles: bool, sourcePath: string, line: int, message: string, time: TimeText)
    returns (console: string, colors: seq<ColorEvent>)
    ensures handles ==> console == [] && colors == []
    ensures !handles ==> console == FormatLine(time, Err, message, Basename(sourcePath), line)
    ensures !handles ==> colors == [ColorEvent(Red, 0), ColorEvent(Reset, 17)]
  {
    var sink := new LogSink();
    var r := LogErr(sourcePath, line);
    r := r.Append(message);
    assert r.level == Err;
    assert r.buffer == message;
    assert r.filename == Basename(sourcePath);
    var cb: Callback := (l, m, f, n) => handles;
    assert r.Handled(Some(cb)) == handles;
    r.Dispatch(sink, Some(cb), time);
    assert r.level == Err;
    assert r.buffer == message;
    assert r.filename == Basename(sourcePath);
    if !handles {
      assert !sink.fileOpen;
      assert sink.Active() == [] + FormatLine(time, Err, message, Basename(sourcePath), line);
      assert sink.colors == [] + DispatchColors(Err, 0, 17);
    }
    console, colors := sink.console, sink.colors;
  }
}
