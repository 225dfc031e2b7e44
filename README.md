# libmylogger, modelled in Dafny

This project models the process-wide logger of `libmylogger`: the public header
(`enum logLvl` and the `MYLOG_*` macros) and the implementation in `mylogger.c`.

- The logger's static state has three parts: the `syslog_available` flag, the
  128-character `process_name` buffer and `process_pid`. It is modelled as the
  class `Logger.Logger`. The buffer is an `array<char>` and is read back as a C
  string. The fallback file `/tmp/testlogs` and stderr are ghost sequences of
  the writes made to them, one entry per call.
- `log_init` is `Init`. It is idempotent. On its first call it copies the
  identifier, or `"UnknownProc"` when it is NULL, with `strncpy(.., 127)`. It
  records the pid and sets the flag.
- `log_close` is `Close`. It always succeeds and changes no state.
- `log_message` is `LogMessage`. It truncates the rendered text into a
  1024-character buffer, then always takes the fallback path. The
  `MYLOG_*` macros are `Log` together with `Levels.MacroLevel`.
- `fallback_log_to_file` is `FallbackLogToFile`. When the file opens, it
  appends one formatted entry `<date> <name>[<pid>] <LABEL>: <msg>\n`.
  The entry is a single line when date, name and message hold no line break
  (`FormatLineIsOneLine`). Name and message are printed unfiltered, so a
  message such as `"a\nb"` adds two lines to the file. When the file does not
  open, it writes `Fallback log failed: <msg>\n` to stderr instead.
- `level_to_string` is `LevelToString`. Its partner `LabelToLevel` reads a
  label back. The line format's partner `ParseLine` recovers the pid, label
  and message from an entry.

The libc behaviour the logger relies on is modelled in two helper modules.
`CStrings` covers C strings ending at the first NUL, `strncpy` and the
truncation done by `vsnprintf`. `Decimal` covers `%d`.

Inputs from the environment are parameters:
- the identifier and the value `getpid()` returns (`Init`);
- the text the format string renders to, the `"%Y %b %d"` date string and
  whether `fopen` succeeds (`LogMessage`, `FallbackLogToFile`).

Where the doc comments in `mylogger.c` and the code differ, the model follows the code:
- The syslog branch of `log_message` is guarded by a literal `false`. No call
  ever reaches syslog, and no call ever clears the availability flag. The
  comment on `log_message` says it logs to syslog and switches to the file
  when syslog fails. That does not happen: every call takes the fallback path.
- `log_close` does not reset the logger. The flag stays set, so a later
  `log_init` is still a no-op.

## Model

| member | source | states |
|---|---|---|
| `Levels.Value` | source/Libraries/libmylogger/include/mylogger.h:17-26 | an enumerator's value is its position in the declaration (first is 0, each next one is the previous plus one) |
| `Levels.FromValue` | source/Libraries/libmylogger/include/mylogger.h:17-26 | an integer names an enumerator exactly when it lies in 0..7, and then that enumerator has that value |
| `Levels.Consecutive` | source/Libraries/libmylogger/include/mylogger.h:17-26 | `LOGLVL_EMERG` is 0 and each enumerator's value is its predecessor's plus one |
| `Levels.Ordered` | source/Libraries/libmylogger/include/mylogger.h:18-25 | EMERG < ALERT < CRIT < ERR < WARNING < NOTICE < INFO < DEBUG numerically |
| `Levels.MacroLevel` | source/Libraries/libmylogger/include/mylogger.h:33-40 | `MYLOG_X` passes a valid level, and that level is the one named `LOGLVL_X` |
| `Levels.MacroLevelInjective` | source/Libraries/libmylogger/include/mylogger.h:33-40 | no two macros pass the same level |
| `Levels.EveryLevelHasMacro` | source/Libraries/libmylogger/include/mylogger.h:33-40 | every enumerator is passed by some macro |
| `Logger.LevelToString` | source/Libraries/libmylogger/src/mylogger.c:27-48 | the label is "UNKNOWN" exactly for integers outside 0..7; for a level it is the enumerator's name without `LOGLVL_` |
| `Logger.LabelRoundTrip` | source/Libraries/libmylogger/src/mylogger.c:27-48 | the eight labels are distinct: `LabelToLevel` recovers each level from its label, and nothing from "UNKNOWN" |
| `Logger.LabelAlphabet` | source/Libraries/libmylogger/src/mylogger.c:29-46 | no label contains ':' or a line break |
| `Logger.MacroLabel` | source/Libraries/libmylogger/include/mylogger.h:33-40 | `MYLOG_X` logs with label `X`, never "UNKNOWN" |
| `Logger.InitialName` | source/Libraries/libmylogger/src/mylogger.c:65-69 | the stored name is "UnknownProc" for NULL. Otherwise it is the identifier up to its first NUL, cut to 127 characters. It never holds a NUL or exceeds 127 characters |
| `Logger.Message` | source/Libraries/libmylogger/src/mylogger.c:138-141 | the printed message has at most 1023 characters and no NUL: it is the rendered text up to its first NUL, cut to 1023 characters |
| `Logger.FormatLine` | source/Libraries/libmylogger/src/mylogger.c:114-115 | the `"%s %s[%d] %s: %s\n"` entry: under a known date and name, `ParseLine` gives back its pid, its label and its message exactly, whatever the message holds |
| `Logger.FailureNotice` | source/Libraries/libmylogger/src/mylogger.c:105 | the stderr notice is exactly "Fallback log failed: ", then the whole message, then '\n' |
| `Logger.FormatLineIsOneLine` | source/Libraries/libmylogger/src/mylogger.c:114-115 | when date, name and message have no line break, a fallback entry is exactly one line ending in '\n' |
| `Logger.Logger.Name` | source/Libraries/libmylogger/src/mylogger.c:17 | the name `%s` prints from `process_name` has at most 127 characters and no NUL |
| `Logger.Logger.constructor` | source/Libraries/libmylogger/src/mylogger.c:16-18 | static initialisation: flag false, empty name, pid 0, nothing written |
| `Logger.Logger.BlankBeforeInit` | source/Libraries/libmylogger/src/mylogger.c:16-18 | before the first `log_init` the name is empty and the pid is 0 |
| `Logger.Logger.Init` | source/Libraries/libmylogger/src/mylogger.c:61-74 | always returns true and leaves the flag set. If already initialised, name and pid are unchanged. Otherwise pid is `getpid()` and the name is `InitialName(ident)`. The invariant holds: last byte NUL, zero state before init |
| `Logger.Logger.Close` | source/Libraries/libmylogger/src/mylogger.c:85-88 | returns true; it modifies nothing |
| `Logger.Logger.FallbackLogToFile` | source/Libraries/libmylogger/src/mylogger.c:102-118 | file opens: exactly one formatted entry (`FormatLine`) is appended and stderr is unchanged. Otherwise: the file is unchanged and the failure notice goes to stderr. Flag, name and pid are never touched |
| `Logger.Logger.LogMessage` | source/Libraries/libmylogger/src/mylogger.c:137-154 | always the fallback path, with the message cut to 1023 characters; flag, name and pid unchanged, the invariant kept |
| `Logger.Logger.Log` | source/Libraries/libmylogger/include/mylogger.h:33-40 | a macro call is `log_message` with the macro's level |
| `Logger.InitTwice` | source/Libraries/libmylogger/src/mylogger.c:62-64 | a second `log_init` with another identifier and pid keeps the first name and pid |
| `Logger.CloseThenInit` | source/Libraries/libmylogger/src/mylogger.c:85-88 | `log_init` after `log_close` changes neither name nor pid |
| `Logger.LogBeforeInit` | source/Libraries/libmylogger/src/mylogger.c:16-18 | logging before `log_init` appends an entry with an empty name and pid 0 |
| `CStrings.StrNCpy` | source/Libraries/libmylogger/src/mylogger.c:66-68 | the buffer after `strncpy(dst, src, n)`: the bounded copy, NUL padding up to `n`, the rest untouched |
| `CStrings.StrNCpyReadsBack` | source/Libraries/libmylogger/src/mylogger.c:17 | with the 128th byte NUL, the name read back after `strncpy(.., 127)` is the identifier's C string cut to 127 |
| `CStrings.CopiedString` | source/Libraries/libmylogger/src/mylogger.c:66-68 | the copied name is the source up to its first NUL, cut to `n` characters; with no NUL inside, the source's first min(len, `n`) characters |
| `CStrings.TruncateInto` | source/Libraries/libmylogger/src/mylogger.c:138-141 | `vsnprintf` into the 1024-character buffer leaves the first min(len, 1023) characters followed by NUL, and writes nothing past the NUL |
| `CStrings.CStringStopsAtNul` | source/Libraries/libmylogger/src/mylogger.c:114 | `%s` reads nothing past the terminating NUL |
| `Decimal.IntToDecimal` | source/Libraries/libmylogger/src/mylogger.c:114 | `%d` of the pid: a minus sign exactly for negative values, then a non-empty run of digits with no leading zero (and never "-0") |
| `Decimal.DecimalRoundTrip` | source/Libraries/libmylogger/src/mylogger.c:114 | the `%d` rendering of the pid reads back to the same integer |
| `Decimal.ParseIsCanonical` | source/Libraries/libmylogger/src/mylogger.c:114 | the reader accepts only `%d` renderings: whatever it reads as `n` is exactly the rendering of `n`, so each pid has one printed form |

## Left out

- The syslog connection (`openlog`, `syslog`, `closelog`) is not modelled. These are operating-system calls.
- The `errno`-driven failover branch of `log_message` (mylogger.c:144-150) is not modelled. It is dead code behind a literal `false`, so the flag is never cleared.
- Character encoding is not modelled. One Dafny `char` stands for one C `char`, that is one byte, and text is passed in as its encoded bytes. The model never decodes. So "128-character", "127 characters" and "1023 characters" here mean bytes, and non-ASCII text is counted and cut in bytes, possibly inside a multi-byte UTF-8 character, as the C code does.
- `vsnprintf`'s printf-style formatting is not modelled. The model takes the rendered text as input and models only the truncation into the 1024-character buffer.
- `time`, `localtime` and `strftime` are not modelled. The `"%Y %b %d"` date string is an opaque input.
- `getpid` is not modelled. Its result is an input to `Init`.
- `fopen`, `fprintf`, `fclose` and stderr are not modelled as real I/O. Whether the file opens is an input. The file and stderr are ghost sequences of the text each call writes. The file's contents from before the process started are not modelled.
- The 32-bit width of `pid_t` is not modelled. The pid is an unbounded integer that `%d` renders in decimal.
- Concurrency is left out. The globals are unsynchronised, and the library assumes a single thread.
- The JSON helper (`akJsonUtils`) is left out. It only forwards to the nlohmann JSON library, whose header is not part of this model.
- The test binary (`testMain`) is left out. It is a manual smoke test that prints to the console.
