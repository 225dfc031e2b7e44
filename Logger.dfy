/**
 * The process-wide logger: three pieces of static state (an availability
 * flag, a 128-character process-name buffer and a pid), an idempotent
 * initialiser, a close that leaves the state alone, and `log_message`, which
 * renders into a 1024-character buffer and appends one formatted entry to the
 * fallback file (or reports on stderr when the file cannot be opened).
 *
 * The outside world enters as parameters: the identifier and `getpid()` for
 * `Init`; the already rendered message, the `"%Y %b %d"` date and whether
 * `fopen` succeeds for `LogMessage`. The fallback file and stderr are ghost
 * sequences of the writes made to them, one entry per call.
 */
module Logger {
  import opened Wrappers
  import opened CStrings
  import opened Decimal
  import opened Levels

  /** `char process_name[128]` */
  const NameCapacity: nat := 128
  /** `char buffer[1024]` in `log_message` */
  const MessageCapacity: nat := 1024
  /** The name used when `log_init` is given NULL. */
  const DefaultName: string := "UnknownProc"

  // ---------------------------------------------------------------------------
  // level_to_string

  /** The label written in a fallback line for an integer level. */
  function LevelToString(level: int): (r: string)
    ensures r == "UNKNOWN" <==> FromValue(level).None?
    ensures FromValue(level).Some? ==> r == EnumeratorName(FromValue(level).value)[|"LOGLVL_"|..]
  {
    if level == Value(Emerg) then "EMERG"
    else if level == Value(Alert) then "ALERT"
    else if level == Value(Crit) then "CRIT"
    else if level == Value(Err) then "ERR"
    else if level == Value(Warning) then "WARNING"
    else if level == Value(Notice) then "NOTICE"
    else if level == Value(Info) then "INFO"
    else if level == Value(Debug) then "DEBUG"
    else "UNKNOWN"
  }

  /** Reads a label back to the level that prints it. */
  function LabelToLevel(text: string): Option<int>
  {
    if text == "EMERG" then Some(Value(Emerg))
    else if text == "ALERT" then Some(Value(Alert))
    else if text == "CRIT" then Some(Value(Crit))
    else if text == "ERR" then Some(Value(Err))
    else if text == "WARNING" then Some(Value(Warning))
    else if text == "NOTICE" then Some(Value(Notice))
    else if text == "INFO" then Some(Value(Info))
    else if text == "DEBUG" then Some(Value(Debug))
    else None
  }

  /** The eight labels are distinct: each identifies its level; "UNKNOWN" identifies none. */
  lemma LabelRoundTrip(level: int)
    ensures LabelToLevel(LevelToString(level)) == if FromValue(level).Some? then Some(level) else None
  {
  }

  /** A label holds neither the ':' that ends it in a line nor a line break. */
  lemma LabelAlphabet(level: int)
    ensures ':' !in LevelToString(level) && '\n' !in LevelToString(level)
  {
  }

  /** `MYLOG_X` logs with the label `X`, never "UNKNOWN". */
  lemma MacroLabel(m: Macro)
    ensures "MYLOG_" + LevelToString(MacroLevel(m)) == MacroName(m)
    ensures LevelToString(MacroLevel(m)) != "UNKNOWN"
  {
  }

  // ---------------------------------------------------------------------------
  // The values log_init stores and log_message prints

  /**
   * The name `log_init` leaves in `process_name` on its first call:
   * `strncpy(process_name, src, 127)` with `src` the identifier, or
   * "UnknownProc" for NULL, read back as a C string.
   */
  function InitialName(ident: Option<string>): (r: string)
    ensures |r| <= NameCapacity - 1 && NUL !in r
    ensures ident.None? ==> r == DefaultName
    ensures ident.Some? ==> r == ident.value[..Min(CLen(ident.value), NameCapacity - 1)]
    ensures ident.Some? && NUL !in ident.value ==> |r| == Min(|ident.value|, NameCapacity - 1)
  {
    match ident
    case None =>
      assert NUL !in DefaultName;
      CopiedString(DefaultName, NameCapacity - 1)
    case Some(s) => CopiedString(s, NameCapacity - 1)
  }

  /** The text `%s` prints from `log_message`'s buffer after `vsnprintf` rendered `rendered`. */
  function Message(rendered: string): (r: string)
    ensures |r| <= MessageCapacity - 1 && NUL !in r
    ensures r == rendered[..Min(CLen(rendered), MessageCapacity - 1)]
  {
    CString(Truncated(rendered, MessageCapacity))
  }

  /**
   * The entry `fallback_log_to_file` writes: "<date> <name>[<pid>] <LABEL>: <msg>\n".
   * Under a known date and name it gives back the pid, the label and the
   * message it was written with, whatever the message holds.
   */
  function FormatLine(date: string, name: string, pid: int, level: int, msg: string): (r: string)
    ensures ParseLine(r, date, name) == Some(Record(pid, LevelToString(level), msg))
  {
    var d := IntToDecimal(pid);
    assert ']' !in d;
    DecimalRoundTrip(pid);
    LabelAlphabet(level);
    ParseAssembled(date, name, d, pid, LevelToString(level), msg);
    date + " " + name + "[" + d + "] " + LevelToString(level) + ": " + msg + "\n"
  }

  const FailurePrefix: string := "Fallback log failed: "

  /** What `fallback_log_to_file` prints on stderr when the file does not open. */
  function FailureNotice(msg: string): (r: string)
    ensures |r| == |FailurePrefix| + |msg| + 1 && r[|r| - 1] == '\n'
    ensures r[..|FailurePrefix|] == FailurePrefix
    ensures r[|FailurePrefix|..|r| - 1] == msg
  {
    FailurePrefix + msg + "\n"
  }

  /** The fields a fallback line carries besides the date and name. */
  datatype Record = Record(pid: int, levelLabel: string, msg: string)

  /** Reads "<LABEL>: <msg>\n", the end of a fallback line. */
  function ParseLabelAndMessage(tail: string): Option<(string, string)>
  {
    var j := IndexOf(tail, ':');
    if j + 3 > |tail| || tail[j + 1] != ' ' || tail[|tail| - 1] != '\n' then None
    else Some((tail[..j], tail[j + 2..|tail| - 1]))
  }

  /** Reads "<pid>] <LABEL>: <msg>\n", what follows the name and '['. */
  function ParseAfterName(rest: string): Option<Record>
  {
    var i := IndexOf(rest, ']');
    if i + 1 >= |rest| || rest[i + 1] != ' ' then None
    else
      match ParseDecimal(rest[..i])
      case None => None
      case Some(p) =>
        match ParseLabelAndMessage(rest[i + 2..])
        case None => None
        case Some(lm) => Some(Record(p, lm.0, lm.1))
  }

  /** Reads a fallback line written under a known date and process name. */
  function ParseLine(line: string, date: string, name: string): Option<Record>
  {
    var head := date + " " + name + "[";
    if |line| < |head| || line[..|head|] != head then None
    else ParseAfterName(line[|head|..])
  }

  lemma IndexOfConcat(a: string, b: string, c: char)
    requires c !in a && |b| > 0 && b[0] == c
    ensures IndexOf(a + b, c) == |a|
  {
    var s := a + b;
    assert s[|a|] == c;
    assert forall i :: 0 <= i < |a| ==> s[i] == a[i];
  }

  lemma ParseLabelAndMessageAssembled(lab: string, msg: string)
    requires ':' !in lab
    ensures ParseLabelAndMessage(lab + ": " + msg + "\n") == Some((lab, msg))
  {
    var tail := lab + ": " + msg + "\n";
    assert tail == lab + (": " + msg + "\n");
    IndexOfConcat(lab, ": " + msg + "\n", ':');
    assert tail[..|lab|] == lab;
    assert tail[|lab| + 2..|tail| - 1] == msg;
  }

  lemma ParseAfterNameAssembled(d: string, pid: int, tail: string, lab: string, msg: string)
    requires ']' !in d && ParseDecimal(d) == Some(pid)
    requires ParseLabelAndMessage(tail) == Some((lab, msg))
    ensures ParseAfterName(d + "] " + tail) == Some(Record(pid, lab, msg))
  {
    var rest := d + "] " + tail;
    assert rest == d + ("] " + tail);
    IndexOfConcat(d, "] " + tail, ']');
    assert rest[..|d|] == d;
    assert rest[|d| + 2..] == tail;
  }

  /** `ParseLine` on a line assembled from an already printed pid and label. */
  lemma ParseAssembled(date: string, name: string, d: string, pid: int, lab: string, msg: string)
    requires ']' !in d && ParseDecimal(d) == Some(pid) && ':' !in lab
    ensures ParseLine(date + " " + name + "[" + d + "] " + lab + ": " + msg + "\n", date, name)
            == Some(Record(pid, lab, msg))
  {
    var head := date + " " + name + "[";
    var tail := lab + ": " + msg + "\n";
    var rest := d + "] " + tail;
    var line := date + " " + name + "[" + d + "] " + lab + ": " + msg + "\n";
    assert line == head + rest;
    assert line[..|head|] == head;
    assert line[|head|..] == rest;
    ParseLabelAndMessageAssembled(lab, msg);
    ParseAfterNameAssembled(d, pid, tail, lab, msg);
  }

  /** With no line break in any piece, the assembled line is exactly one line. */
  lemma AssembledIsOneLine(date: string, name: string, d: string, lab: string, msg: string)
    requires '\n' !in date && '\n' !in name && '\n' !in d && '\n' !in lab && '\n' !in msg
    ensures var line := date + " " + name + "[" + d + "] " + lab + ": " + msg + "\n";
            |line| > 0 && line[|line| - 1] == '\n' && '\n' !in line[..|line| - 1]
  {
  }

  /** With no line break in date, name or message, one fallback write is exactly one line. */
  lemma FormatLineIsOneLine(date: string, name: string, pid: int, level: int, msg: string)
    requires '\n' !in date && '\n' !in name && '\n' !in msg
    ensures var line := FormatLine(date, name, pid, level, msg);
            |line| > 0 && line[|line| - 1] == '\n' && '\n' !in line[..|line| - 1]
  {
    var d := IntToDecimal(pid);
    assert '\n' !in d;
    LabelAlphabet(level);
    AssembledIsOneLine(date, name, d, LevelToString(level), msg);
  }

  // ---------------------------------------------------------------------------
  // The static state and the operations on it

  class Logger {
    /** `syslog_available`: set by the first `log_init`, never cleared in reachable code. */
    var available: bool
    /** `process_name`, a 128-character buffer read as a C string. */
    var processName: array<char>
    /** `process_pid` */
    var pid: int
    /** The writes to the fallback file `/tmp/testlogs`, one entry per call, in order. */
    ghost var file: seq<string>
    /** What has been written to stderr, in order. */
    ghost var stderr: seq<string>

    /**
     * The buffer keeps its size and its last character stays NUL (strncpy is
     * only ever given 127), and until the first `log_init` name and pid keep
     * their zero initialisation.
     */
    ghost predicate Valid()
      reads this, processName
    {
      processName.Length == NameCapacity && processName[NameCapacity - 1] == NUL &&
      (!available ==> pid == 0 && forall i :: 0 <= i < NameCapacity ==> processName[i] == NUL)
    }

    /** The process name as `%s` prints it. */
    function Name(): (r: string)
      reads this, processName
      requires Valid()
      ensures |r| <= NameCapacity - 1 && NUL !in r
    {
      CString(processName[..])
    }

    /** The static initialisation: flag false, name all NUL, pid 0. */
    constructor ()
      ensures Valid() && fresh(processName)
      ensures !available && pid == 0 && Name() == ""
      ensures file == [] && stderr == []
    {
      available := false;
      processName := new char[NameCapacity](_ => NUL);
      pid := 0;
      file := [];
      stderr := [];
    }

    /** Before the first `log_init`, entries carry an empty name and pid 0. */
    lemma BlankBeforeInit()
      requires Valid() && !available
      ensures Name() == "" && pid == 0
    {
    }

    /**
     * `log_init(ident)`, with `osPid` the value `getpid()` returns. A second
     * call changes nothing; the first stores the bounded name and the pid and
     * sets the flag. It reports success either way.
     */
    method Init(ident: Option<string>, osPid: int) returns (ok: bool)
      requires Valid()
      modifies this`available, this`pid, processName
      ensures Valid() && ok && available
      ensures old(available) ==> pid == old(pid) && processName[..] == old(processName[..])
      ensures !old(available) ==> pid == osPid && Name() == InitialName(ident)
    {
      if available {
        return true;
      }
      var src := if ident.Some? then ident.value else DefaultName;
      ghost var before := processName[..];
      StrNCpy(processName, src, NameCapacity - 1);
      assert processName[..][NameCapacity - 1] == before[NameCapacity - 1] == NUL;
      StrNCpyReadsBack(before, src, NameCapacity - 1);
      assert CString(processName[..]) == CopiedString(src, NameCapacity - 1);
      pid := osPid;
      available := true;
      ok := true;
    }

    /** `log_close()`: only releases the syslog connection, so no state changes. */
    method Close() returns (ok: bool)
      ensures ok
    {
      ok := true;
    }

    /**
     * `fallback_log_to_file(level, msg)`: with the file open, exactly one
     * formatted entry is appended (a single line when date, name and message
     * hold no line break, `FormatLineIsOneLine`); otherwise nothing is
     * appended and the notice goes to stderr.
     */
    method FallbackLogToFile(level: int, msg: string, date: string, fileOpens: bool)
      requires Valid()
      modifies this`file, this`stderr
      ensures Valid()
      ensures file == old(file) + if fileOpens then [FormatLine(date, Name(), pid, level, msg)] else []
      ensures stderr == old(stderr) + if fileOpens then [] else [FailureNotice(msg)]
    {
      if !fileOpens {
        stderr := stderr + [FailureNotice(msg)];
        return;
      }
      var name := CString(processName[..]);
      file := file + [FormatLine(date, name, pid, level, msg)];
    }

    /**
     * `log_message(level, ...)` for the text the format renders to. The text
     * is cut to 1023 characters, and the call always takes the fallback path:
     * flag, name and pid are untouched.
     */
    method LogMessage(level: int, rendered: string, date: string, fileOpens: bool)
      requires Valid()
      modifies this`file, this`stderr
      ensures Valid()
      ensures file == old(file) + if fileOpens then [FormatLine(date, Name(), pid, level, Message(rendered))] else []
      ensures stderr == old(stderr) + if fileOpens then [] else [FailureNotice(Message(rendered))]
    {
      var buffer := new char[MessageCapacity];
      TruncateInto(buffer, rendered);
      ghost var t := Truncated(rendered, MessageCapacity);
      CStringStopsAtNul(buffer[..], t);
      var msg := CString(buffer[..]);
      FallbackLogToFile(level, msg, date, fileOpens);
    }

    /** A `MYLOG_*` macro: `log_message` with the macro's fixed level. */
    method Log(m: Macro, rendered: string, date: string, fileOpens: bool)
      requires Valid()
      modifies this`file, this`stderr
      ensures Valid()
      ensures file == old(file) + if fileOpens then [FormatLine(date, Name(), pid, MacroLevel(m), Message(rendered))] else []
      ensures stderr == old(stderr) + if fileOpens then [] else [FailureNotice(Message(rendered))]
    {
      LogMessage(MacroLevel(m), rendered, date, fileOpens);
    }
  }

  // ---------------------------------------------------------------------------
  // Call sequences

  /** A second `log_init` with another identifier keeps the first name and pid. */
  method InitTwice(l: Logger, first: Option<string>, second: Option<string>, pid1: int, pid2: int)
    requires l.Valid() && !l.available
    modifies l`available, l`pid, l.processName
    ensures l.Valid() && l.available
    ensures l.Name() == InitialName(first) && l.pid == pid1
  {
    var ok1 := l.Init(first, pid1);
    var ok2 := l.Init(second, pid2);
  }

  /** `log_close` does not reset the flag, so a later `log_init` is still a no-op. */
  method CloseThenInit(l: Logger, ident: Option<string>, osPid: int)
    requires l.Valid() && l.available
    modifies l`available, l`pid, l.processName
    ensures l.Valid() && l.available
    ensures l.pid == old(l.pid) && l.Name() == old(l.Name())
  {
    var closed := l.Close();
    var ok := l.Init(ident, osPid);
  }

  /** Logging before `log_init` writes an entry with an empty name and pid 0. */
  method LogBeforeInit(l: Logger, level: int, rendered: string, date: string)
    requires l.Valid() && !l.available
    modifies l`file, l`stderr
    ensures l.file == old(l.file) + [FormatLine(date, "", 0, level, Message(rendered))]
  {
    l.BlankBeforeInit();
    l.LogMessage(level, rendered, date, true);
  }
}
