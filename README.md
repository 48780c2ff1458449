# Logging facility of the MAVSDK core, in Dafny

This project models the logging header `src/mavsdk/core/log.h` of MAVSDK and proves properties of it. The model covers:

- **Call-site macros.** `LogDebug()`, `LogInfo()`, `LogWarn()` and `LogErr()` create a log record. The record holds the source file name, with its directories stripped, and the line number.
- **Log record.** `operator<<` adds text to the record's message. The destructor then dispatches the record exactly once:
  - If a registered interception callback reports the record as handled, nothing is written.
  - Otherwise a coloured line `[hh:mm:ss|Level] message (file:line)` is written to the active sink.
- **Process-wide sink.** This is the console by default. After a successful `set_log_file` it is a log file opened for appending.

The project has two modules:

- `LogFormat` (`log_format.dfy`) holds the pure parts:
  - the level-to-colour and level-to-label tables;
  - filename stripping;
  - the decimal form of the line number;
  - the layout of one output line.

  It also holds a reader for that layout, `ParseLine`. The lemma `ParseFormatLine` proves that, given the file name the record was logged from, the reader recovers the time, level, message and line from the record's line. The file name itself cannot be recovered in general: a message ending in " (f" and a file name beginning with "f (" can produce the same line.
- `Logging` (`logging.dfy`) holds the stateful parts. The class `LogSink` has the open flag, the failed flag of the file stream, and one output trace per stream. The class `LogRecord` has the level, file, line and message buffer. Methods append to these fields under `modifies` frames.
  - `set_color` has no visible body, so it is recorded as a `ColorEvent`: the colour plus the length the active stream had at that moment. This places each colour change among the text written.
  - A `ColorEvent` records no stream. Its offset is measured in whichever stream is active, so the model leaves open where `set_color`'s output goes. In particular, it does not say whether colour codes reach the console while the file is selected.
  - The clock, the open's outcome and the callback are parameters:
    - the time is an 8-character `TimeText`;
    - `SetLogFile` takes an `openSucceeds` flag;
    - `Dispatch` takes an optional total function `(Level, string, string, int) -> bool`.

Two points about the code worth noting:

- "Opened log file: <path>" is printed on every call, even after "Failed to open log file: <path>", because line 47 is not conditional.
- The colour is reset right after the level label (line 152), not at the end of the line.

A third point: when a log file is already open, a second `set_log_file` calls `open` on a stream that is already open.
- That `open` fails, and `std::ofstream::open` then sets the stream's failbit. `is_open()` stays true, so no "Failed" notice is printed and `get_log_stream` keeps returning the file.
- The stream is no longer good, so every later `<<` on it is refused. Every record logged after the second call is then lost: it reaches neither the file nor the console.
- A successful open of a closed stream clears the failbit again. This cannot happen once the file is open, because the header never closes it.

The model keeps this state in `LogSink.fileFailed`. `LogSink.Silenced` holds when the selected stream is the failed file. `SecondOpenScenario` shows the lost record.

## Model

| member | source | states |
|---|---|---|
| LogFormat.Basename | src/mavsdk/core/log.h:21-22 | the stripped name is no longer than the path and holds no '/' |
| LogFormat.BasenameSpec | src/mavsdk/core/log.h:21-22 | the stripped name is a suffix of the path, holds no '/', and is either the whole path or directly preceded by '/' |
| LogFormat.BasenameUnique | src/mavsdk/core/log.h:21-22 | any suffix with those three properties equals the stripped name, so the stripping is pinned down by them |
| LogFormat.BasenameOfJoin | src/mavsdk/core/log.h:21-22 | stripping `dir + "/" + name`, where name has no '/', gives exactly name |
| LogFormat.BasenameNoSlash | src/mavsdk/core/log.h:22 | a path without '/' is returned unchanged (the `: __FILE__` branch) |
| LogFormat.BasenameExample | src/mavsdk/core/log.h:21-22 | "/a/b/c.cpp" strips to "c.cpp", and "c.cpp" stays as it is |
| LogFormat.LevelColor | src/mavsdk/core/log.h:113-126 | no level is given Reset or Gray as its colour |
| LogFormat.LevelColorRoundTrip | src/mavsdk/core/log.h:113-126 | the colour names its level back (Debug–Green, Info–Blue, Warn–Yellow, Err–Red), and two levels share a colour only if they are equal |
| LogFormat.LevelLabel | src/mavsdk/core/log.h:137-150 | every label written after the timestamp is 8 characters long |
| LogFormat.LabelShape | src/mavsdk/core/log.h:137-150 | every label is 8 characters: "\|", a five-character name that does not start with a blank, then "] " |
| LogFormat.ParseLabel | src/mavsdk/core/log.h:137-150 | a string that parses as a label is exactly the label of the level it parses to |
| LogFormat.LabelRoundTrip | src/mavsdk/core/log.h:137-150 | each label parses back to its level, and distinct levels have distinct labels |
| LogFormat.DigitValue | src/mavsdk/core/log.h:155 | a digit's value is below 10 |
| LogFormat.DigitChar | src/mavsdk/core/log.h:155 | the character written for a value below 10 is a digit with that value |
| LogFormat.NatDecimal | src/mavsdk/core/log.h:155 | the decimal form of a natural number is non-empty and starts with a digit |
| LogFormat.Decimal | src/mavsdk/core/log.h:155 | the `std::dec` form of an int is non-empty and starts with '-' exactly when the int is negative |
| LogFormat.NatDecimalSpec | src/mavsdk/core/log.h:155 | the `std::dec` form of a natural number is a non-empty run of digits with a leading '0' only for zero |
| LogFormat.DecimalSpec | src/mavsdk/core/log.h:155 | the decimal form of an int is a non-empty run of '-' and digits that starts with '-' exactly when the int is negative |
| LogFormat.NatDecimalRoundTrip | src/mavsdk/core/log.h:155 | reading the digits of a natural number back gives the number |
| LogFormat.DecimalRoundTrip | src/mavsdk/core/log.h:155 | reading the decimal form of any line number back, negative or not, gives the number |
| LogFormat.NegativeDecimalRoundTrip | src/mavsdk/core/log.h:155 | the same round trip for negative line numbers |
| LogFormat.Location | src/mavsdk/core/log.h:155 | the location written after the message starts with " (" and ends with ")" |
| LogFormat.FormatLine | src/mavsdk/core/log.h:135-157 | the output line starts with "[" and ends with the newline, and is 10 characters longer than the time, message and location together (the "[", the 8-character label and "\n") |
| LogFormat.LineHeader | src/mavsdk/core/log.h:135-157 | with an 8-character time, the first 17 characters of the line are "[", the time and the label, which is where Reset is set; the rest is the message, the location and the newline |
| LogFormat.FormatLineExample | src/mavsdk/core/log.h:135-157 | an Info record "starting" from engine.cpp line 42 gives the line "[" + time + "\|Info ] starting (engine.cpp:42)\n" |
| LogFormat.EngineBasename | src/mavsdk/core/log.h:21-22 | "src/engine.cpp" strips to "engine.cpp" |
| LogFormat.Decimal42 | src/mavsdk/core/log.h:155 | 42 is written as "42" |
| LogFormat.InfoTail | src/mavsdk/core/log.h:142-157 | the part of that example line after the time is "\|Info ] starting (engine.cpp:42)\n" |
| LogFormat.NumeralRun | src/mavsdk/core/log.h:155 | the length of the longest all-numeral suffix: everything in it is a numeral, and the character before it is not |
| LogFormat.NumeralRunAfter | src/mavsdk/core/log.h:155 | after a non-numeral character, a run of numerals is exactly the trailing numeral run, so the line number is found where it ends |
| LogFormat.ParseAssembled | src/mavsdk/core/log.h:135-157 | a line built from a well-formed head, the " (file:" tail, a decimal and ")\n" is read back into its time, level, message and number |
| LogFormat.DispatchColors | src/mavsdk/core/log.h:113-126 | one dispatch makes two colour changes: first the level's colour, which is never Reset, at the line's start, then Reset, `header` characters later |
| LogFormat.ParseFormatLine | src/mavsdk/core/log.h:135-157 | given the file name it was logged from and an 8-character time, the reader recovers the time, level, message and line of the formatted line, whatever the message holds |
| Logging.FailedNoticeLayout | src/mavsdk/core/log.h:45 | the failure notice is 26 characters plus the path long, carries the path after the fixed prefix, and ends with a newline |
| Logging.OpenedNoticeLayout | src/mavsdk/core/log.h:47 | the success notice is 18 characters plus the path long, carries the path after the fixed prefix, ends with a newline, and never equals a failure notice |
| Logging.LogSink.constructor | src/mavsdk/core/log.h:38 | before any set_log_file the file is closed and not failed, and both traces and the colour trace are empty |
| Logging.LogSink.Silenced | src/mavsdk/core/log.h:52-53 | the selected stream is the log file in the failed state; this can hold only while the file is open |
| Logging.LogSink.SetLogFile | src/mavsdk/core/log.h:41-48 | the file is open afterwards exactly when it was already open or the open succeeded. The stream is failed afterwards exactly when it was already open or the open failed, so the sink is silenced exactly when the file was already open. The console gets "Failed to open log file: path\n" only when the file is not open, then "Opened log file: path\n" in every case. The file trace and the colours are unchanged |
| Logging.LogSink.GetLogStream | src/mavsdk/core/log.h:50-57 | the stream returned is the file exactly when the file is open, else the console |
| Logging.LogSink.Write | src/mavsdk/core/log.h:135-157 | one `<<` of text extends exactly the chosen stream's trace, except that the file stream takes nothing while it is failed or not open; on the selected stream it extends the active trace unless silenced, and leaves the inactive one alone |
| Logging.LogSink.Emit | src/mavsdk/core/log.h:135-157 | `get_log_stream() << text` appends text to the active trace unless the sink is silenced, and leaves the other trace unchanged |
| Logging.LogSink.SetColor | src/mavsdk/core/log.h:63 | a set_color call appends one colour event stamped with the current length of the active stream |
| Logging.LogRecord.constructor | src/mavsdk/core/log.h:67-72 | a base record starts at level Debug (the default of line 166), with the given file and line, an empty buffer, and not yet dispatched |
| Logging.LogRecord.DebugDetailed | src/mavsdk/core/log.h:176-182 | the Debug record's level is Debug; its file and line are the ones given |
| Logging.LogRecord.InfoDetailed | src/mavsdk/core/log.h:184-190 | the Info record's level is Info; its file and line are the ones given |
| Logging.LogRecord.WarnDetailed | src/mavsdk/core/log.h:192-198 | the Warn record's level is Warn; its file and line are the ones given |
| Logging.LogRecord.ErrDetailed | src/mavsdk/core/log.h:200-206 | the Err record's level is Err; its file and line are the ones given |
| Logging.LogRecord.Append | src/mavsdk/core/log.h:74-78 | `<<` of text appends it to the buffer, returns the same record for chaining, and can change only the buffer |
| Logging.LogRecord.AppendInt | src/mavsdk/core/log.h:74-78 | `<<` of an int appends its decimal form to the buffer and returns the same record |
| Logging.LogRecord.Handled | src/mavsdk/core/log.h:88-89 | only a registered callback can report a record as handled |
| Logging.LogRecord.WriteHeader | src/mavsdk/core/log.h:113-152 | the level's colour is set, "[" + time and the label go to the active stream unless it is silenced, then Reset (17 characters later, or at the same place when silenced); the open and failed flags and the other stream are unchanged |
| Logging.LogRecord.WriteBody | src/mavsdk/core/log.h:154-158 | the message, " (file:line)" and "\n" go to the active stream unless it is silenced, and nothing else changes |
| Logging.LogRecord.Dispatch | src/mavsdk/core/log.h:86-158 | the record is marked dispatched, and a handling callback leaves the sink entirely unchanged. Otherwise the open and failed flags and the other stream are untouched, and the active stream grows by exactly the formatted line, or by nothing when the sink is silenced. The colour trace grows by the level's colour at the line's start and Reset right after the label, both at the line's start when silenced |
| Logging.LogDebug | src/mavsdk/core/log.h:29 | a fresh Debug record carrying the stripped source path and the line, with an empty buffer |
| Logging.LogInfo | src/mavsdk/core/log.h:30 | a fresh Info record carrying the stripped source path and the line, with an empty buffer |
| Logging.LogWarn | src/mavsdk/core/log.h:31 | a fresh Warn record carrying the stripped source path and the line, with an empty buffer |
| Logging.LogErr | src/mavsdk/core/log.h:32 | a fresh Err record carrying the stripped source path and the line, with an empty buffer |
| Logging.InfoLineExample | src/mavsdk/core/log.h:30 | `LogInfo() << "starting"` at line 42 of src/engine.cpp, with no callback and no log file, prints exactly "[" + time + "\|Info ] starting (engine.cpp:42)\n" |
| Logging.OpenedFileScenario | src/mavsdk/core/log.h:41-57 | after a successful set_log_file, the console shows only the "Opened" notice, and a Warn record's line goes to the file |
| Logging.LogWarnLine | src/mavsdk/core/log.h:31 | `LogWarn() << message` at any source path, with no callback, writes exactly the Warn line, carrying the stripped path, to the active stream, or nothing when silenced |
| Logging.OpenedFileSink | src/mavsdk/core/log.h:41-57 | a successful set_log_file followed by one Warn record leaves the file open and not failed, the console with the "Opened" notice and the file with the line |
| Logging.FailedFileScenario | src/mavsdk/core/log.h:41-57 | after a failed set_log_file, the console shows "Failed", then "Opened", then the Warn record's line, and the file stays empty |
| Logging.SecondOpenScenario | src/mavsdk/core/log.h:41-57 | after a second set_log_file, whatever its outcome, the console shows only the two "Opened" notices. The file holds only the line logged before the second call: the record logged after it reaches neither stream |
| Logging.InterceptionScenario | src/mavsdk/core/log.h:88-91 | a callback that handles the record leaves console and colours empty; one that does not lets the Err line through, with Red at offset 0 and Reset at offset 17 |

## Left out

- Locking: `log_mutex_`, the record's `_lock_guard` (lines 68 and 169) and the lock in `get_log_stream` (line 51) are concurrency and are not modelled. The destructor already holds the non-recursive mutex when it calls `get_log_stream`, which locks it again. That self-deadlock cannot be expressed in this sequential model. Here each `get_log_stream` call simply returns.
- Clock: `time`, `localtime` and `strftime("%I:%M:%S")` (lines 130-134) are replaced by an 8-character `TimeText` parameter of `Dispatch`.
- Android branch: `__android_log_print` (lines 93-110) is a platform call and is not modelled.
- Windows: the `FILENAME` variant that keeps the whole path (line 24) is not modelled. Only the `'/'` stripping of lines 21-22 is.
- `call_user_callback` (line 27) expands to a function declared elsewhere, which is not part of this model.
- `operator<<` for `std::byte` (line 59) has no visible body. `Append` and `AppendInt` cover text and `int` values only. Other value types that `_s << x` accepts (floating point, pointers, manipulators) are not modelled.
- `set_color` (line 63) has no visible body. It is modelled only as an event in `LogSink.colors`, and terminal escape codes are not modelled. The Gray colour exists in `Color` but no level uses it.
- Callback storage: `log::get_callback` lives in `log_callback.h`, which is not part of this model. It is an optional total function passed to `Dispatch`.
- File behaviour: opening is reduced to the `openSucceeds` flag. The flush (line 158) and `std::endl`'s flush are modelled as nothing. The file trace starts empty rather than with the file's earlier contents.
- The `static` globals in a header give each translation unit its own copy. That is a build and linkage matter; the model has one shared `LogSink`.
- Destruction: the C++ destructor runs automatically at the end of the record's scope. In the model it is the explicit `Dispatch` method, and `!dispatched` as a precondition of `Append` and `Dispatch` stands for "the record is still alive".
