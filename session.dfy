/** The test program's session: a logger with a standard-output appender and
    a file appender, and the registry's root logger. */
module Session {
  import opened Wrappers
  import opened Levels
  import opened Numerals
  import opened Pattern
  import opened Render
  import opened Logging
  import PatternProps

  /** The file appender's pattern in the test program. */
  const FilePattern: string := "%d%T%p%T%m%n"

  /** What the file pattern compiles to after its date. */
  const FileTail: seq<Item> := [TabItem, LevelItem, TabItem, MessageItem, NewLineItem]

  lemma FileTailSpelled()
    ensures PatternProps.Unparse(FileTail) == "%T%p%T%m%n"
  {
    var items := FileTail;
    PatternProps.UnparseStep(items, 4);
    PatternProps.UnparseStep(items, 3);
    PatternProps.UnparseStep(items, 2);
    PatternProps.UnparseStep(items, 1);
    PatternProps.UnparseStep(items, 0);
  }

  lemma FileTailWellFormed()
    ensures PatternProps.WellFormed(FileTail)
  {
    var items := FileTail;
    assert PatternProps.WellFormed(items[4..]);
    assert PatternProps.WellFormed(items[3..]);
    assert PatternProps.WellFormed(items[2..]);
    assert PatternProps.WellFormed(items[1..]);
  }

  /** `%d%T%p%T%m%n` compiles to a default-format date, a tab, the level, a
      tab, the message and a newline. */
  lemma CompileFilePattern()
    ensures Compile(FilePattern) == [DateTimeItem(DefaultDateFormat)] + FileTail
  {
    assert FilePattern == "%d" + PatternProps.Unparse(FileTail) by {
      FileTailSpelled();
      assert "%d" + "%T%p%T%m%n" == FilePattern;
    }
    FileTailWellFormed();
    PatternProps.CompileDateThen(FileTail);
  }

  lemma RenderFileTail(name: string, level: Level, e: EventData, clock: TimeFormatter)
    ensures RenderItems(FileTail, name, level, e, clock) == "\t" + ToString(level) + "\t" + e.content + "\n"
  {
    var c := FileTail;
    RenderSingle(c[0], name, level, e, clock);
    assert c[..1] == [c[0]];
    assert c[..2][..1] == c[..1];
    assert RenderItems(c[..2], name, level, e, clock) == "\t" + ToString(level);
    assert c[..3][..2] == c[..2];
    assert RenderItems(c[..3], name, level, e, clock) == "\t" + ToString(level) + "\t";
    assert c[..4][..3] == c[..3];
    assert RenderItems(c[..4], name, level, e, clock) == "\t" + ToString(level) + "\t" + e.content;
    assert c[..5][..4] == c[..4];
    assert c[..5] == c;
  }

  lemma RenderFileItems(name: string, level: Level, e: EventData, clock: TimeFormatter)
    ensures RenderItems([DateTimeItem(DefaultDateFormat)] + FileTail, name, level, e, clock) ==
            clock(DefaultDateFormat, e.time) + ("\t" + ToString(level) + "\t" + e.content + "\n")
  {
    RenderConcat([DateTimeItem(DefaultDateFormat)], FileTail, name, level, e, clock);
    RenderSingle(DateTimeItem(DefaultDateFormat), name, level, e, clock);
    RenderFileTail(name, level, e, clock);
  }

  /** The file appender's record: the time in the default format, a tab, the
      level name, a tab, the message and a newline. */
  lemma RenderFilePattern(name: string, level: Level, e: EventData, clock: TimeFormatter)
    ensures RenderItems(Compile(FilePattern), name, level, e, clock) ==
            clock(DefaultDateFormat, e.time) + ("\t" + ToString(level) + "\t" + e.content + "\n")
  {
    CompileFilePattern();
    RenderFileItems(name, level, e, clock);
  }

  /** The route of an appender that writes to standard output with the
      default logger pattern and threshold. */
  function ConsoleRoute(console: Sink): Route {
    Route(console, DEBUG, PatternProps.LoggerDefaultItems)
  }

  /** The test program's logger: named "root", threshold DEBUG, a
      standard-output appender that took the logger's formatter, then a file
      appender at ERROR with its own formatter. */
  method Setup(console: Sink, logFile: Sink, pattern: string) returns (logger: Logger, fmt: LogFormatter)
    requires console != logFile
    ensures fresh(logger) && logger.name == "root" && logger.level == DEBUG
    ensures fmt.items == Compile(pattern)
    ensures logger.Ready() && logger.Sinks() == {console, logFile}
    ensures logger.Routes() == [ConsoleRoute(console), Route(logFile, ERROR, fmt.items)]
  {
    logger := new Logger();
    var out := new LogAppender(Stdout, console);
    logger.AddAppender(out);
    var fileAppender := new LogAppender(File("log.txt"), logFile);
    fmt := new LogFormatter(pattern);
    fileAppender.SetFormatter(fmt);
    fileAppender.SetLevel(ERROR);
    logger.AddAppender(fileAppender);
    assert logger.appenders == [out, fileAppender];
  }

  /** With that logger, standard output gets every level but UNKNOW in the
      default layout, and the file gets only ERROR and FATAL. */
  lemma PairOutcome(logger: Logger, console: Sink, logFile: Sink, items: seq<Item>, level: Level, data: EventData,
                    clock: TimeFormatter)
    requires console != logFile && logger.level == DEBUG
    requires logger.Routes() == [ConsoleRoute(console), Route(logFile, ERROR, items)]
    ensures logger.Outcome(console, level, data, clock) ==
            (if level != UNKNOW then [DefaultLine(logger.name, level, data, clock)] else [])
    ensures logger.Outcome(logFile, level, data, clock) ==
            (if Passes(level, ERROR) then [RenderItems(items, logger.name, level, data, clock)] else [])
  {
    var r0 := ConsoleRoute(console);
    var r1 := Route(logFile, ERROR, items);
    DeliveredPair(r0, r1, console, logger.name, level, data, clock);
    DeliveredPair(r0, r1, logFile, logger.name, level, data, clock);
    DebugThresholdAdmits(level);
    RenderDefaultItems(logger.name, level, data, clock);
  }

  /** The registry's root logger writes every level but UNKNOW to standard
      output in the default layout. */
  lemma RootOutcome(root: Logger, console: Sink, level: Level, data: EventData, clock: TimeFormatter)
    requires root.level == DEBUG && root.Routes() == [ConsoleRoute(console)]
    ensures root.Outcome(console, level, data, clock) ==
            (if level != UNKNOW then [DefaultLine(root.name, level, data, clock)] else [])
  {
    var r := ConsoleRoute(console);
    assert Feed([], [r], 0, console, root.name, level, data, clock) == [];
    assert Delivered([r], console, root.name, level, data, clock) == [] + RouteOutput(r, root.name, level, data, clock);
    DebugThresholdAdmits(level);
    RenderDefaultItems(root.name, level, data, clock);
  }

  /** The test program's file gets the ERROR and FATAL records, each as the
      date, the level name and the message separated by tabs; INFO records
      and the other lower levels leave it untouched. */
  lemma FileOutcome(logger: Logger, console: Sink, logFile: Sink, level: Level, data: EventData, clock: TimeFormatter)
    requires console != logFile && logger.level == DEBUG
    requires logger.Routes() == [ConsoleRoute(console), Route(logFile, ERROR, Compile(FilePattern))]
    ensures logger.Outcome(logFile, level, data, clock) ==
            (if Passes(level, ERROR)
             then [clock(DefaultDateFormat, data.time) + ("\t" + ToString(level) + "\t" + data.content + "\n")]
             else [])
  {
    PairOutcome(logger, console, logFile, Compile(FilePattern), level, data, clock);
    RenderFilePattern(logger.name, level, data, clock);
  }
}
