# sylar logging core in Dafny

This project models the logging subsystem of the sylar server framework
(`sylar/sylar/log.h` and `sylar/sylar/log.cpp`) and proves properties of it.

The subsystem has these parts:

- **Levels.** Severity levels `UNKNOW` < `DEBUG` < `INFO` < `WARN` < `ERROR` < `FATAL` and their display names.
- **`LogFormatter`.** It compiles a printf-like pattern (`%d{...}%T%p%T%m%n`) once, into a sequence of format items. It then renders every event as the concatenation of the items' texts.
- **`LogEvent`.** Metadata fixed at construction (file, line, elapsed time, thread and fiber ids, time) plus a message buffer that only grows.
- **`LogAppender`.** Standard-output and file appenders, each with its own threshold and formatter.
- **`Logger`.** A name, a threshold, an ordered list of appenders and a default formatter. `log` fans an event out to every appender in list order.
- **`LogEventWrap`.** Submits its event to the event's logger when it goes out of scope.
- **`LoggerManager`.** The registry of named loggers. It falls back to a root logger that writes to standard output.
- **Macros.** `SYLAR_LOG_*` and `SYLAR_LOG_FMT_*` gate on the logger's level at the call site, then build, fill and submit an event.

Modules:

- `levels.dfy` (`Levels`): the enumeration, the threshold test `Passes`, `toString`.
- `numerals.dfy` (`Numerals`): the fixed-width integer types and the decimal text `operator<<` prints for them.
- `pattern.dfy` (`Pattern`): the pattern compiler.
  - It is split into a recursive specification: `Scan` yields the scanner's (text, argument, kind) triples, and `Compile` applies the key table.
  - `ParsePattern`, `ResolveEntries` and `CompilePattern` are imperative methods with the loops of `LogFormatter::init`. Each is proved equal to that specification.
- `pattern_props.dfy` (`PatternProps`): what the compiler guarantees.
  - A round trip through a printer `Unparse` for item sequences: compiling a spelled-out sequence gives it back, keys, arguments and order included.
  - The default logger pattern.
  - The exact behaviour on `%%`, on a trailing `%`, on unknown keys and on an unterminated `{`.
- `render.dfy` (`Render`): the text of every item and of every item sequence, and the record the default pattern prints.
- `logging.dfy` (`Logging`): the classes, with a heap-free description of what one `log` call delivers to each sink (`Route`, `Feed`, `Delivered`) and the macro methods.
- `session.dfy` (`Session`): the configuration of the repository's test program (`sylar/tests/test.cpp`).
  - A logger with a standard-output appender and an ERROR file appender with pattern `%d%T%p%T%m%n`, plus the registry's root logger.
  - What each of them writes for any level.

Inputs that are not computed here are parameters:

- `strftime` over the local time is a function-typed `TimeFormatter`.
- The outcome of `vasprintf` is an `Option<string>`; `None` means it failed.
- `syscall(SYS_gettid)` and `time(0)` at a macro site are arguments.
- Output streams are `Sink` objects whose `records` list what was written to them.

## Model

| member | source | states |
|---|---|---|
| Levels.Level.Value | sylar/sylar/log.h:44-51 | the enumerator values run from 0 to 5, and only UNKNOW is 0 |
| Levels.ValueInjective | sylar/sylar/log.h:44-51 | distinct levels have distinct values |
| Levels.PassesTotalOrder | sylar/sylar/log.h:44-51 | the threshold comparison `level >= threshold` is a total, transitive, antisymmetric order on levels |
| Levels.DebugThresholdAdmits | sylar/sylar/log.h:121 | a DEBUG threshold, the default of appenders and loggers, admits every level except UNKNOW |
| Levels.Passes | sylar/sylar/log.cpp:130 | a call passes a threshold exactly when its level's enumerator value is at least the threshold's: the `level >= m_level` test of the logger, of both appenders and of the macros |
| Levels.ToString | sylar/sylar/log.cpp:265-282 | the name is "UNKNOW" exactly for UNKNOW, and always one of the six names |
| Levels.ToStringInjective | sylar/sylar/log.cpp:265-282 | distinct levels print distinct names |
| Numerals.DigitChar | sylar/sylar/log.cpp:29-31 | a digit below ten becomes the character with that digit value |
| Numerals.Decimal | sylar/sylar/log.cpp:26-56 | an unsigned number prints as a non-empty run of digits with no leading zero |
| Numerals.SignedDecimal | sylar/sylar/log.cpp:90-92 | a signed line number prints as a non-empty text starting with '-' exactly when it is negative |
| Numerals.DecimalRoundTrip | sylar/sylar/log.cpp:29-31 | reading the printed digits back gives the number printed |
| Numerals.DecimalInjective | sylar/sylar/log.cpp:45-55 | different numbers print differently |
| Pattern.IsAlpha | sylar/sylar/log.cpp:366 | `isalpha` in the C locale: the ASCII letters `a`-`z` and `A`-`Z`, nothing else |
| Pattern.KeyEnd | sylar/sylar/log.cpp:364-369 | a directive key is the maximal run of letters and `}`; the character after it is neither |
| Pattern.FindClose | sylar/sylar/log.cpp:379-385 | an argument ends at the first `}`, or nowhere when there is none |
| Pattern.BareDirective | sylar/sylar/log.cpp:364-369 | `%key` not followed by `{` yields that key, an empty argument, and resumes after the key |
| Pattern.ArgDirective | sylar/sylar/log.cpp:371-385 | `%key{arg}` yields the key and the argument up to the first `}` and resumes after it |
| Pattern.OpenDirective | sylar/sylar/log.cpp:371-395 | a `{` never closed leaves the directive unterminated |
| Pattern.ReadDirective | sylar/sylar/log.cpp:358-395 | the directive state machine as a definition: the key is the run of key characters after the `%`; a `{` right after it opens an argument closed by the first `}`, after which scanning resumes, and with no `}` the directive is unterminated; without `{` the argument is empty and scanning resumes right after the key; a closed directive consumes at least the `%` |
| Pattern.Flush | sylar/sylar/log.cpp:397-412 | the pending literal becomes one text entry if non-empty and none if empty |
| Pattern.Scan | sylar/sylar/log.cpp:345-412 | the loop of `init` as a definition: at the end the pending literal is flushed; a non-`%` character joins the pending literal; `%%` adds one `%` and moves on one position; a closed directive flushes the literal, emits its key entry and resumes where the directive ended; an unterminated one emits `<<pattern_error>>` and resumes just after the `%` |
| Pattern.KeyItem | sylar/sylar/log.cpp:414-430 | exactly the eleven keys `m p r c t F d f l n T` are in the table; `d` takes its argument, or the default date format when it is empty |
| Pattern.ToItem | sylar/sylar/log.cpp:432-445 | a text entry becomes a literal item; a key entry becomes its table item, or the literal `<<error_format %key>>` for a key outside the table |
| Pattern.Compile | sylar/sylar/log.cpp:340-446 | the items a formatter holds: the entries of the whole pattern, scanned from an empty pending literal, each turned into one item, in order |
| Pattern.ReadDirectiveAt | sylar/sylar/log.cpp:358-395 | the inner `fmt_status` loop ends with status 0 and the directive's key, argument and end, or with status 1 exactly when the `{` is unterminated |
| Pattern.ScanTextStep | sylar/sylar/log.cpp:346-349 | a character other than `%` is appended to the pending literal |
| Pattern.ScanEscapeStep | sylar/sylar/log.cpp:351-356 | `%%` appends one `%` and advances a single position |
| Pattern.ScanClosedStep | sylar/sylar/log.cpp:397-403 | a closed directive flushes the pending literal, emits its entry, and scanning resumes at the first unconsumed character |
| Pattern.ScanUnterminatedStep | sylar/sylar/log.cpp:404-407 | an unterminated directive emits `<<pattern_error>>`, keeps the pending literal and resumes after the `%` |
| Pattern.ParsePattern | sylar/sylar/log.cpp:340-412 | the index loop of `init` builds exactly the entry list of the scanner specification |
| Pattern.ResolveEntries | sylar/sylar/log.cpp:432-445 | every entry becomes one item, in order: text entries as literals, keys through the table, unknown keys as `<<error_format %key>>` |
| Pattern.CompilePattern | sylar/sylar/log.cpp:340-446 | `init` as a whole computes `Compile(pattern)` |
| PatternProps.LiteralRun | sylar/sylar/log.cpp:346-349 | a run of non-`%` characters goes to the pending literal, in order |
| PatternProps.BareHead | sylar/sylar/log.cpp:358-403 | `%c` with a letter `c` and no key character after it flushes the literal and emits the key `c` |
| PatternProps.DateHead | sylar/sylar/log.cpp:371-385 | `%d{f}` emits a `d` entry carrying `f` |
| PatternProps.ScanUnparse | sylar/sylar/log.cpp:345-412 | scanning a spelled-out item sequence yields its entries left to right, with a pending literal emitted just before the first directive |
| PatternProps.CompileUnparse | sylar/sylar/log.cpp:340-446 | compiling the spelling of any well-formed item sequence gives that sequence back |
| PatternProps.CompileLiteral | sylar/sylar/log.cpp:345-412 | a non-empty `%`-free pattern compiles to one literal equal to it |
| PatternProps.CompileEmpty | sylar/sylar/log.cpp:345-412 | the empty pattern compiles to no items |
| PatternProps.CompileMessageNewLine | sylar/sylar/log.cpp:414-441 | `%m%n` compiles to the message item then the newline item |
| PatternProps.CompileBareDate | sylar/sylar/log.cpp:62-66 | `%d` without an argument is a date item with the default format `%Y-%m-%d %H:%M:%S` |
| PatternProps.CompileDateThen | sylar/sylar/log.cpp:414-441 | `%d` before a spelled-out sequence compiles to the default date item followed by that sequence |
| PatternProps.DefaultItemsSpelled | sylar/sylar/log.cpp:126 | the default logger pattern is the spelling of the twenty default items |
| PatternProps.CompileLoggerDefaultPattern | sylar/sylar/log.cpp:126 | the logger's default pattern compiles to date, tab, thread id, tab, fiber id, tab, `[level]`, tab, `[name]`, tab, `file:line`, tab, message and newline |
| PatternProps.LonePercent | sylar/sylar/log.cpp:358-395 | a `%` at the end of the pattern is an empty key |
| PatternProps.CompileSingleKey | sylar/sylar/log.cpp:432-441 | `%key` alone compiles to the table item, and any key outside the table to `<<error_format %key>>`; compiling never fails |
| PatternProps.CompileTrailingPercent | sylar/sylar/log.cpp:388-438 | a trailing `%` gives the pending text then `<<error_format %>>` |
| PatternProps.DoublePercentRescans | sylar/sylar/log.cpp:351-356 | after `%%` the scanner goes on at the second `%` with one `%` added to the pending literal |
| PatternProps.CompileDoublePercent | sylar/sylar/log.cpp:351-438 | `%%` alone compiles to the literal `%` then `<<error_format %>>` |
| PatternProps.CompileDoublePercentKey | sylar/sylar/log.cpp:351-356 | `%%m` compiles to the literal `%` then the message item |
| PatternProps.UnterminatedRescans | sylar/sylar/log.cpp:404-407 | an unterminated `{` emits `<<pattern_error>>` ahead of the pending literal, which is kept, and scanning resumes just after the `%` |
| PatternProps.CompileUnterminated | sylar/sylar/log.cpp:404-407 | `%key{text` compiles to `<<pattern_error>>` then `key{text` as a literal; the `%` contributes nothing |
| Render.ItemText | sylar/sylar/log.cpp:10-121 | each format item's text: the message, the level name, the elapsed time, thread id and fiber id in decimal, the logger name, the clock applied to the date format and time, the file name, the signed line number, a newline, a tab, or the literal text |
| Render.RenderItems | sylar/sylar/log.cpp:332-338 | the texts of the items concatenated in item order, empty for no items |
| Render.RenderSnoc | sylar/sylar/log.cpp:332-338 | one more item adds its text at the end |
| Render.RenderConcat | sylar/sylar/log.cpp:332-338 | rendering distributes over concatenation of item sequences |
| Render.RenderSingle | sylar/sylar/log.cpp:10-121 | a single item renders as its own text |
| Render.RenderLiteralsOnly | sylar/sylar/log.cpp:111-121 | literals render the same text whatever the logger, level, event and clock |
| Render.RenderLiteralPattern | sylar/sylar/log.cpp:111-121 | a `%`-free pattern renders as itself |
| Render.RenderMessageNewLine | sylar/sylar/log.cpp:13-100 | `%m%n` renders the content followed by a newline |
| Render.RenderDateThen | sylar/sylar/log.cpp:69-76 | `%d` in front of a spelled-out sequence renders the time in the default format, then the rest |
| Render.RenderDefaultItems | sylar/sylar/log.cpp:10-121 | the default items render the tab-separated time, thread, fiber, `[level]`, `[name]`, `file:line` and message fields plus a newline |
| Render.RenderDefaultPattern | sylar/sylar/log.cpp:124-127 | a logger's default formatter renders exactly that record |
| Logging.Sink.Write | sylar/sylar/log.cpp:301-316 | writing a record appends it to the stream |
| Logging.LogFormatter.constructor | sylar/sylar/log.cpp:327-330 | a formatter keeps its pattern and holds the items the pattern compiles to |
| Logging.LogFormatter.Format | sylar/sylar/log.cpp:332-338 | the loop returns the items' texts concatenated in item order |
| Logging.LogEvent.constructor | sylar/sylar/log.cpp:187-189 | the event keeps every metadata argument and starts with an empty message |
| Logging.LogEvent.Append | sylar/sylar/log.cpp:227-229 | streaming appends to the message buffer |
| Logging.LogEvent.Format | sylar/sylar/log.cpp:238-245 | a successful `vasprintf` appends its text; a failed one leaves the buffer unchanged |
| Logging.LogAppender.constructor | sylar/sylar/log.h:121-122 | a fresh appender has threshold DEBUG and no formatter |
| Logging.LogAppender.SetFormatter | sylar/sylar/log.cpp:285-287 | sets the formatter and nothing else |
| Logging.LogAppender.SetLevel | sylar/sylar/log.cpp:293-295 | sets the threshold and nothing else |
| Logging.LogAppender.Log | sylar/sylar/log.cpp:301-316 | the appender writes one record to its stream iff the level reaches its threshold; it needs a formatter only in that case |
| Logging.RouteOutput | sylar/sylar/log.cpp:301-316 | an appender emits at most one record, and one iff the level reaches its own threshold |
| Logging.FeedAppends | sylar/sylar/log.cpp:132-134 | what the appenders deliver is appended after what the stream already held |
| Logging.FeedPrefix | sylar/sylar/log.cpp:132-134 | the first `n` appenders' output depends only on those appenders |
| Logging.FeedConcat | sylar/sylar/log.cpp:132-134 | handing a call to a list of appenders is handing it to its first part, then to the rest |
| Logging.DeliveredConcat | sylar/sylar/log.cpp:132-134 | a stream receives the records of its appenders in list order |
| Logging.DeliveredPair | sylar/sylar/log.cpp:132-134 | with two appenders, a stream gets the first one's record and then the second one's |
| Logging.FeedLength | sylar/sylar/log.cpp:132-134 | a stream receives at most one record per appender |
| Logging.FeedSound | sylar/sylar/log.cpp:129-136 | every record a stream receives was formatted by one of its appenders whose threshold the level reaches |
| Logging.FeedComplete | sylar/sylar/log.cpp:129-136 | every appender of a stream whose threshold the level reaches contributes its record |
| Logging.DeliveredRecords | sylar/sylar/log.cpp:129-136 | both directions for a whole appender list: at most one record per appender, each from an admitting appender, and each admitting appender heard |
| Logging.FeedUnrouted | sylar/sylar/log.cpp:132-134 | a stream with no appender writing to it receives nothing |
| Logging.Logger.constructor | sylar/sylar/log.cpp:124-127 | a logger starts with its name ("root" by default), threshold DEBUG, no appenders and a fresh formatter for the default pattern |
| Logging.Logger.Routes | sylar/sylar/log.h:140 | one route per appender, in list order, each with that appender's stream, threshold and items |
| Logging.Logger.CanLog | sylar/sylar/log.cpp:129-136 | what `log` at a level relies on: once the call passes the logger's threshold, every appender whose threshold it passes has a formatter to dereference |
| Logging.Logger.Outcome | sylar/sylar/log.cpp:129-136 | what one `log` call writes to a stream: nothing below the logger's threshold, otherwise the output of each appender that writes to that stream, in list order |
| Logging.Logger.OutcomeElsewhere | sylar/sylar/log.cpp:129-136 | a stream none of the appenders writes to receives nothing |
| Logging.Logger.Log | sylar/sylar/log.cpp:129-136 | below the logger's threshold no stream changes; otherwise every appender handles the call once, in insertion order, and each stream gains exactly what its appenders emit |
| Logging.Logger.Dispatch | sylar/sylar/log.cpp:131-134 | the appender loop leaves every stream extended by what the appenders deliver to it |
| Logging.Logger.Debug | sylar/sylar/log.cpp:138-140 | `debug` is `log` at DEBUG |
| Logging.Logger.Info | sylar/sylar/log.cpp:142-144 | `info` is `log` at INFO |
| Logging.Logger.Warn | sylar/sylar/log.cpp:146-148 | `warn` is `log` at WARN |
| Logging.Logger.Error | sylar/sylar/log.cpp:150-152 | `error` is `log` at ERROR |
| Logging.Logger.Fatal | sylar/sylar/log.cpp:154-156 | `fatal` is `log` at FATAL |
| Logging.Logger.AddAppender | sylar/sylar/log.cpp:158-163 | the appender goes at the end; it receives the logger's formatter only when it has none, and the logger stays ready to log |
| Logging.Without | sylar/sylar/log.cpp:165-172 | removing an absent element changes nothing; otherwise the result is one shorter and holds no new element |
| Logging.FirstIndex | sylar/sylar/log.cpp:166-167 | the position of the first occurrence: it holds the element, and none before it does |
| Logging.WithoutFirst | sylar/sylar/log.cpp:165-172 | removal takes out the first identical entry only and keeps the rest in order |
| Logging.WithoutMultiset | sylar/sylar/log.cpp:165-172 | removal takes out exactly one occurrence |
| Logging.Logger.DelAppender | sylar/sylar/log.cpp:165-172 | the loop removes the first identical entry, keeps the others in order, is a no-op when the appender is absent, and leaves the threshold alone |
| Logging.Logger.SetLevel | sylar/sylar/log.cpp:178-180 | sets the threshold and nothing else |
| Logging.LogEventWrap.constructor | sylar/sylar/log.cpp:248-250 | the wrapper holds its event |
| Logging.LogEventWrap.Append | sylar/sylar/log.cpp:260-262 | streaming into the wrapper appends to its event's buffer |
| Logging.LogEventWrap.Destroy | sylar/sylar/log.cpp:252-254 | the destructor submits the event to its own logger at its own level |
| Logging.LoggerManager.constructor | sylar/sylar/log.cpp:449-452 | the registry starts empty, with a root logger named "root" at DEBUG whose single appender writes to standard output at DEBUG with the root's formatter |
| Logging.LoggerManager.GetLogger | sylar/sylar/log.cpp:454-457 | a registered name gives its logger and any other name the root logger |
| Logging.LogStream | sylar/sylar/log.h:16-18 | below the logger's threshold the call site writes nothing; otherwise the streamed text is logged at the macro's level with fiber id and elapsed time 0 |
| Logging.LogFormatted | sylar/sylar/log.h:26-28 | the same gate, with the `vasprintf` text as the message |
| Logging.LogDebug | sylar/sylar/log.h:20 | `SYLAR_LOG_DEBUG` logs at DEBUG |
| Logging.LogInfo | sylar/sylar/log.h:21 | `SYLAR_LOG_INFO` logs at INFO |
| Logging.LogWarn | sylar/sylar/log.h:22 | `SYLAR_LOG_WARN` logs at WARN |
| Logging.LogError | sylar/sylar/log.h:23 | `SYLAR_LOG_ERROR` logs at ERROR |
| Logging.LogFatal | sylar/sylar/log.h:24 | `SYLAR_LOG_FATAL` logs at FATAL |
| Logging.LogFormattedDebug | sylar/sylar/log.h:30 | `SYLAR_LOG_FMT_DEBUG` logs at DEBUG |
| Logging.LogFormattedInfo | sylar/sylar/log.h:31 | `SYLAR_LOG_FMT_INFO` logs at INFO |
| Logging.LogFormattedWarn | sylar/sylar/log.h:32 | `SYLAR_LOG_FMT_WARN` logs at WARN |
| Logging.LogFormattedError | sylar/sylar/log.h:33 | `SYLAR_LOG_FMT_ERROR` logs at ERROR |
| Logging.LogFormattedFatal | sylar/sylar/log.h:34 | `SYLAR_LOG_FMT_FATAL` logs at FATAL |
| Session.CompileFilePattern | sylar/tests/test.cpp:17 | the file appender's pattern `%d%T%p%T%m%n` compiles to the default date, tab, level, tab, message and newline |
| Session.RenderFilePattern | sylar/tests/test.cpp:17 | that pattern renders the time, the level name and the message separated by tabs, then a newline |
| Session.Setup | sylar/tests/test.cpp:12-20 | the test program's logger is "root" at DEBUG, ready, writing to the console and the file, with the console appender at DEBUG with the default items and the file appender at ERROR with the items of its formatter's pattern, which is a parameter here; `Session.CompileFilePattern` and `Session.FileOutcome` fix it to the program's `%d%T%p%T%m%n` |
| Session.PairOutcome | sylar/tests/test.cpp:12-29 | with that logger, the console gets one default-layout record for every level but UNKNOW, and the file one record only for ERROR and FATAL |
| Session.FileOutcome | sylar/tests/test.cpp:16-29 | the file gets the ERROR line, in the date/level/message layout, and nothing for the INFO line |
| Session.RootOutcome | sylar/tests/test.cpp:31-32 | the registry's root logger writes every level but UNKNOW to standard output in the default layout |

## Left out

- `strftime` and `localtime_r` in the date item, with its 64-byte buffer and time zone: the `TimeFormatter` parameter stands for them.
- `vasprintf` itself: its outcome is a parameter of `LogEvent.Format` and the formatted macros.
- Real output through `std::cout` and `std::ofstream`, the flush that `std::endl` performs, `FileLogAppender::reopen` and a file that fails to open. Sinks are record lists, and the file appender always writes to its sink.
- The diagnostic print to standard output for an unterminated `{`: only the `<<pattern_error>>` item it accompanies is modelled.
- Concurrency: the code takes no locks, and the model is sequential.
- The `Singleton` accessor: the registry is an ordinary object.
- `shared_ptr` and `enable_shared_from_this` ownership: loggers, appenders, events and formatters are plain object references.
- `LoggerManager::init`: it is declared but never defined.
- `LoggerManager::getRoot` and the getters of `Logger`, `LogEvent` and `LogAppender`: they are direct reads of the modelled fields.
- Enumerator values outside the six named levels: `Level` has only the six, so `toString`'s `default` branch is reached by UNKNOW alone.
- Several `<<` pieces streamed into one event appear as their concatenation, a single `text` argument of the stream macros.
- A call that passes an appender's threshold while that appender has no formatter dereferences a null pointer in the code. `Logging.LogAppender.Log` requires a formatter in exactly that case. `Logging.Logger.CanLog` states the same for `log`, its level wrappers, the event wrapper and the macros. `setFormatter(nullptr)` on an attached appender is allowed, and those requirements catch it.
- The registry never registers a logger: no operation in the code adds to `m_loggers`, so `GetLogger` is stated for any map.
- Session: the test program's three macro calls are not modelled as one straight-line method. What each call writes follows from `Session.PairOutcome`, `Session.FileOutcome` and `Session.RootOutcome` together with the macro methods' contracts.

In three places the code does something a reader of the pattern syntax might not expect; the model follows the code:

- `%%` adds a `%` to the pending literal but advances only one position, so the second `%` is scanned again from the top of the loop.
- A key that is not in the table becomes the literal `<<error_format %key>>`.
- `}` counts as a key character.
