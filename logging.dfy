/** The logging objects: output sinks, formatters, events, appenders,
    loggers, the wrapper that submits an event when it goes out of scope, the
    logger registry, and the call-site macros. */
module Logging {
  import opened Wrappers
  import opened Levels
  import opened Numerals
  import opened Pattern
  import opened Render
  import PatternProps

  /** An output stream, standard output or a file, as the records written to it. */
  class Sink {
    var records: seq<string>

    constructor ()
      ensures records == []
    {
      records := [];
    }

    /** `os << s` for one formatted record. */
    method Write(s: string)
      modifies this
      ensures records == old(records) + [s]
    {
      records := records + [s];
    }
  }

  /** A pattern compiled once, at construction, into its items. */
  class LogFormatter {
    const pattern: string
    const items: seq<Item>

    constructor (pattern: string)
      ensures this.pattern == pattern
      ensures items == Compile(pattern)
    {
      this.pattern := pattern;
      var compiled := CompilePattern(pattern);
      items := compiled;
    }

    /** Every item's text for this logger, level and event, appended in item order. */
    method Format(logger: Logger, level: Level, event: LogEvent, clock: TimeFormatter) returns (s: string)
      ensures s == RenderItems(items, logger.name, level, event.Data(), clock)
    {
      var data := event.Data();
      s := "";
      for k := 0 to |items|
        invariant s == RenderItems(items[..k], logger.name, level, data, clock)
      {
        assert items[..k + 1][..k] == items[..k];
        s := s + ItemText(items[k], logger.name, level, data, clock);
      }
      assert items[..|items|] == items;
    }
  }

  /** One log call: metadata fixed at construction, and the message buffer. */
  class LogEvent {
    const logger: Logger
    const level: Level
    const file: string
    const line: Int32
    const elapse: UInt32
    const threadId: UInt32
    const fiberId: UInt32
    const time: UInt64
    var content: string

    constructor (logger: Logger, level: Level, file: string, line: Int32, elapse: UInt32,
                 threadId: UInt32, fiberId: UInt32, time: UInt64)
      ensures this.logger == logger && this.level == level
      ensures this.file == file && this.line == line && this.elapse == elapse
      ensures this.threadId == threadId && this.fiberId == fiberId && this.time == time
      ensures content == ""
    {
      this.logger := logger;
      this.level := level;
      this.file := file;
      this.line := line;
      this.elapse := elapse;
      this.threadId := threadId;
      this.fiberId := fiberId;
      this.time := time;
      content := "";
    }

    /** What the getters return. */
    function Data(): EventData
      reads this
    {
      EventData(file, line, elapse, threadId, fiberId, time, content)
    }

    /** `getSS() << text`. */
    method Append(text: string)
      modifies this
      ensures content == old(content) + text
    {
      content := content + text;
    }

    /** `format(fmt, ...)`: `printed` is what `vasprintf` produced, or `None`
        when it reported failure, in which case the buffer is left alone. */
    method Format(printed: Option<string>)
      modifies this
      ensures content == old(content) + Printed(printed)
    {
      if printed.Some? {
        content := content + printed.value;
      }
    }
  }

  /** The text a `vasprintf` outcome contributes to the message buffer. */
  function Printed(printed: Option<string>): string {
    if printed.Some? then printed.value else ""
  }

  /** Where an appender writes. */
  datatype AppenderKind = Stdout | File(filename: string)

  /** A destination with its own threshold and formatter. */
  class LogAppender {
    const kind: AppenderKind
    const sink: Sink
    var level: Level
    var formatter: LogFormatter?

    constructor (kind: AppenderKind, sink: Sink)
      ensures this.kind == kind && this.sink == sink
      ensures level == DEBUG && formatter == null
    {
      this.kind := kind;
      this.sink := sink;
      level := DEBUG;
      formatter := null;
    }

    method SetFormatter(f: LogFormatter?)
      modifies this
      ensures formatter == f && level == old(level)
    {
      formatter := f;
    }

    method SetLevel(l: Level)
      modifies this
      ensures level == l && formatter == old(formatter)
    {
      level := l;
    }

    /** The values that decide what this appender writes. An appender
        without a formatter is given no items: it is never asked to format. */
    function AsRoute(): Route
      reads this
    {
      Route(sink, level, if formatter != null then formatter.items else [])
    }

    /** The appender's `log`, the same for standard output and files. */
    method Log(logger: Logger, level: Level, event: LogEvent, clock: TimeFormatter)
      requires Passes(level, this.level) ==> formatter != null
      modifies sink
      ensures sink.records == old(sink.records) + RouteOutput(AsRoute(), logger.name, level, event.Data(), clock)
    {
      if Passes(level, this.level) {
        var s := formatter.Format(logger, level, event, clock);
        sink.Write(s);
      }
    }
  }

  /** An appender as the values that decide what it writes: its sink, its
      threshold and its formatter's items. */
  datatype Route = Route(sink: Sink, threshold: Level, items: seq<Item>)

  /** The records an appender writes for one call: one formatted record when
      `level` reaches its threshold, none otherwise. */
  function RouteOutput(r: Route, name: string, level: Level, data: EventData, clock: TimeFormatter): (out: seq<string>)
    ensures |out| <= 1
    ensures out != [] <==> Passes(level, r.threshold)
  {
    if Passes(level, r.threshold) then [RenderItems(r.items, name, level, data, clock)] else []
  }

  /** The records of sink `s`, from `acc` on, once the first `n` routes have
      handled one call in turn: the output of those that write to `s` is
      appended in route order. */
  function Feed(acc: seq<string>, routes: seq<Route>, n: nat, s: Sink, name: string, level: Level, data: EventData,
                clock: TimeFormatter): seq<string>
    requires n <= |routes|
  {
    if n == 0 then acc
    else
      var before := Feed(acc, routes, n - 1, s, name, level, data, clock);
      if routes[n - 1].sink == s then before + RouteOutput(routes[n - 1], name, level, data, clock) else before
  }

  /** The records sink `s` receives when all the routes handle one call. */
  function Delivered(routes: seq<Route>, s: Sink, name: string, level: Level, data: EventData, clock: TimeFormatter): seq<string> {
    Feed([], routes, |routes|, s, name, level, data, clock)
  }

  /** Starting from existing records only puts them in front. */
  lemma {:induction false} FeedAppends(acc: seq<string>, routes: seq<Route>, n: nat, s: Sink, name: string, level: Level,
                                       data: EventData, clock: TimeFormatter)
    requires n <= |routes|
    ensures Feed(acc, routes, n, s, name, level, data, clock) == acc + Feed([], routes, n, s, name, level, data, clock)
  {
    if n > 0 {
      FeedAppends(acc, routes, n - 1, s, name, level, data, clock);
    }
  }

  /** `Feed` only looks at the first `n` routes. */
  lemma {:induction false} FeedPrefix(acc: seq<string>, routes: seq<Route>, routes': seq<Route>, n: nat, s: Sink,
                                      name: string, level: Level, data: EventData, clock: TimeFormatter)
    requires n <= |routes| && n <= |routes'| && routes[..n] == routes'[..n]
    ensures Feed(acc, routes, n, s, name, level, data, clock) == Feed(acc, routes', n, s, name, level, data, clock)
  {
    if n > 0 {
      assert routes[..n - 1] == routes[..n][..n - 1];
      assert routes'[..n - 1] == routes'[..n][..n - 1];
      assert routes[n - 1] == routes[..n][n - 1];
      assert routes'[n - 1] == routes'[..n][n - 1];
      FeedPrefix(acc, routes, routes', n - 1, s, name, level, data, clock);
    }
  }

  /** Handing a call to `a + b` is handing it to `a`, then to `b`. */
  lemma {:induction false} FeedConcat(acc: seq<string>, a: seq<Route>, b: seq<Route>, n: nat, s: Sink,
                                      name: string, level: Level, data: EventData, clock: TimeFormatter)
    requires n <= |b|
    ensures Feed(acc, a + b, |a| + n, s, name, level, data, clock) ==
            Feed(Feed(acc, a, |a|, s, name, level, data, clock), b, n, s, name, level, data, clock)
  {
    if n == 0 {
      assert (a + b)[..|a|] == a[..|a|];
      FeedPrefix(acc, a + b, a, |a|, s, name, level, data, clock);
    } else {
      assert (a + b)[|a| + n - 1] == b[n - 1];
      FeedConcat(acc, a, b, n - 1, s, name, level, data, clock);
    }
  }

  /** The appenders' outputs come in list order: a sink receives what the
      first part of the list sends it, then what the rest sends it. */
  lemma DeliveredConcat(a: seq<Route>, b: seq<Route>, s: Sink, name: string, level: Level, data: EventData, clock: TimeFormatter)
    ensures Delivered(a + b, s, name, level, data, clock) ==
            Delivered(a, s, name, level, data, clock) + Delivered(b, s, name, level, data, clock)
  {
    FeedConcat([], a, b, |b|, s, name, level, data, clock);
    FeedAppends(Delivered(a, s, name, level, data, clock), b, |b|, s, name, level, data, clock);
  }

  /** Every record in `d` was formatted by one of the first `n` routes, one
      that writes to `s` and whose threshold `level` reaches. */
  ghost predicate FromRoutes(d: seq<string>, routes: seq<Route>, n: nat, s: Sink, name: string, level: Level,
                             data: EventData, clock: TimeFormatter)
    requires n <= |routes|
  {
    forall i :: 0 <= i < |d| ==> SentBy(d[i], routes, n, s, name, level, data, clock)
  }

  /** `x` is the record one of the first `n` routes sends to `s`. */
  ghost predicate SentBy(x: string, routes: seq<Route>, n: nat, s: Sink, name: string, level: Level,
                         data: EventData, clock: TimeFormatter)
    requires n <= |routes|
  {
    exists k :: 0 <= k < n && routes[k].sink == s && Passes(level, routes[k].threshold) &&
                x == RenderItems(routes[k].items, name, level, data, clock)
  }

  /** Every one of the first `n` routes that writes to `s` and whose threshold
      `level` reaches has its record in `d`. */
  ghost predicate CoversRoutes(d: seq<string>, routes: seq<Route>, n: nat, s: Sink, name: string, level: Level,
                               data: EventData, clock: TimeFormatter)
    requires n <= |routes|
  {
    forall k :: 0 <= k < n && routes[k].sink == s && Passes(level, routes[k].threshold) ==>
      RenderItems(routes[k].items, name, level, data, clock) in d
  }

  /** A sink receives at most one record per route. */
  lemma {:induction false} FeedLength(routes: seq<Route>, n: nat, s: Sink, name: string, level: Level, data: EventData,
                                      clock: TimeFormatter)
    requires n <= |routes|
    ensures |Feed([], routes, n, s, name, level, data, clock)| <= n
  {
    if n > 0 {
      FeedLength(routes, n - 1, s, name, level, data, clock);
    }
  }

  /** Every record a sink receives comes from a route to it that the level passes. */
  lemma {:induction false} FeedSound(routes: seq<Route>, n: nat, s: Sink, name: string, level: Level, data: EventData,
                                     clock: TimeFormatter)
    requires n <= |routes|
    ensures FromRoutes(Feed([], routes, n, s, name, level, data, clock), routes, n, s, name, level, data, clock)
  {
    if n > 0 {
      FeedSound(routes, n - 1, s, name, level, data, clock);
      var prev := Feed([], routes, n - 1, s, name, level, data, clock);
      var d := Feed([], routes, n, s, name, level, data, clock);
      forall i | 0 <= i < |prev|
        ensures SentBy(prev[i], routes, n, s, name, level, data, clock)
      {
        assert SentBy(prev[i], routes, n - 1, s, name, level, data, clock);
        var k :| 0 <= k < n - 1 && routes[k].sink == s && Passes(level, routes[k].threshold) &&
                 prev[i] == RenderItems(routes[k].items, name, level, data, clock);
      }
      if routes[n - 1].sink == s && Passes(level, routes[n - 1].threshold) {
        var r := RenderItems(routes[n - 1].items, name, level, data, clock);
        assert d == prev + [r];
        assert SentBy(r, routes, n, s, name, level, data, clock) by {
          assert routes[n - 1].sink == s && r == RenderItems(routes[n - 1].items, name, level, data, clock);
        }
        forall i | 0 <= i < |d|
          ensures SentBy(d[i], routes, n, s, name, level, data, clock)
        {
          if i < |prev| {
            assert d[i] == prev[i];
          }
        }
      } else {
        assert d == prev;
      }
      assert FromRoutes(d, routes, n, s, name, level, data, clock);
    }
  }

  /** Every route to a sink that the level passes contributes its record. */
  lemma {:induction false} FeedComplete(routes: seq<Route>, n: nat, s: Sink, name: string, level: Level, data: EventData,
                                        clock: TimeFormatter)
    requires n <= |routes|
    ensures CoversRoutes(Feed([], routes, n, s, name, level, data, clock), routes, n, s, name, level, data, clock)
  {
    if n > 0 {
      FeedComplete(routes, n - 1, s, name, level, data, clock);
      var prev := Feed([], routes, n - 1, s, name, level, data, clock);
      var d := Feed([], routes, n, s, name, level, data, clock);
      if routes[n - 1].sink == s && Passes(level, routes[n - 1].threshold) {
        var r := RenderItems(routes[n - 1].items, name, level, data, clock);
        assert d == prev + [r];
        forall k | 0 <= k < n && routes[k].sink == s && Passes(level, routes[k].threshold)
          ensures RenderItems(routes[k].items, name, level, data, clock) in d
        {
          if k < n - 1 {
            assert RenderItems(routes[k].items, name, level, data, clock) in prev;
          } else {
            assert d[|prev|] == r;
          }
        }
      } else {
        assert d == prev;
      }
    }
  }

  /** The records a sink receives are exactly those of the routes to it
      that the level passes: at most one per route, none from elsewhere, none
      missing. */
  lemma DeliveredRecords(routes: seq<Route>, s: Sink, name: string, level: Level, data: EventData, clock: TimeFormatter)
    ensures |Delivered(routes, s, name, level, data, clock)| <= |routes|
    ensures FromRoutes(Delivered(routes, s, name, level, data, clock), routes, |routes|, s, name, level, data, clock)
    ensures CoversRoutes(Delivered(routes, s, name, level, data, clock), routes, |routes|, s, name, level, data, clock)
  {
    FeedLength(routes, |routes|, s, name, level, data, clock);
    FeedSound(routes, |routes|, s, name, level, data, clock);
    FeedComplete(routes, |routes|, s, name, level, data, clock);
  }

  /** A sink that no route writes to receives nothing. */
  lemma {:induction false} FeedUnrouted(acc: seq<string>, routes: seq<Route>, n: nat, s: Sink, name: string, level: Level,
                                        data: EventData, clock: TimeFormatter)
    requires n <= |routes|
    requires forall k :: 0 <= k < n ==> routes[k].sink != s
    ensures Feed(acc, routes, n, s, name, level, data, clock) == acc
  {
    if n > 0 {
      FeedUnrouted(acc, routes, n - 1, s, name, level, data, clock);
    }
  }

  /** The routes of a list of appenders, in list order. */
  ghost function RoutesOf(list: seq<LogAppender>): (r: seq<Route>)
    reads list
    ensures |r| == |list|
    ensures forall k :: 0 <= k < |r| ==> r[k] == list[k].AsRoute()
    decreases |list|
  {
    if list == [] then [] else RoutesOf(list[..|list| - 1]) + [list[|list| - 1].AsRoute()]
  }

  /** Position of the first occurrence of `x` in `xs`. */
  function FirstIndex<T(==)>(xs: seq<T>, x: T): (i: nat)
    requires x in xs
    ensures i < |xs| && xs[i] == x && x !in xs[..i]
  {
    if xs[0] == x then 0
    else
      var j := FirstIndex(xs[1..], x);
      assert xs[..j + 1] == [xs[0]] + xs[1..][..j];
      j + 1
  }

  /** `xs` with its first `x` erased; `xs` itself when there is none. */
  function Without<T(==)>(xs: seq<T>, x: T): (r: seq<T>)
    ensures x !in xs ==> r == xs
    ensures x in xs ==> |r| == |xs| - 1
    ensures forall y :: y in r ==> y in xs
  {
    if x in xs then xs[..FirstIndex(xs, x)] + xs[FirstIndex(xs, x) + 1..] else xs
  }

  /** `Without` erases exactly the first `x`: what stood before it and what
      stood after it are kept, in order, and no `x` stood before it. */
  lemma WithoutFirst<T>(xs: seq<T>, x: T)
    requires x in xs
    ensures var i := FirstIndex(xs, x);
      Without(xs, x)[..i] == xs[..i] && Without(xs, x)[i..] == xs[i + 1..] && x !in Without(xs, x)[..i]
  {
    var i := FirstIndex(xs, x);
    var r := Without(xs, x);
    assert r == xs[..i] + xs[i + 1..];
    assert r[..i] == xs[..i];
    assert r[i..] == xs[i + 1..];
  }

  /** `Without` takes exactly one `x` out of the multiset of elements. */
  lemma WithoutMultiset<T>(xs: seq<T>, x: T)
    requires x in xs
    ensures multiset(Without(xs, x)) == multiset(xs) - multiset{x}
  {
    var i := FirstIndex(xs, x);
    assert xs == xs[..i] + [x] + xs[i + 1..];
    assert Without(xs, x) == xs[..i] + xs[i + 1..];
  }

  lemma FirstIndexIs<T>(xs: seq<T>, x: T, i: nat)
    requires i < |xs| && xs[i] == x && x !in xs[..i]
    ensures FirstIndex(xs, x) == i
  {
  }

  /** A named logger with a threshold, an ordered list of appenders and the
      formatter it hands to appenders that have none. */
  class Logger {
    const name: string
    var level: Level
    var appenders: seq<LogAppender>
    const formatter: LogFormatter

    constructor (name: string := "root")
      ensures this.name == name && level == DEBUG && appenders == []
      ensures formatter.pattern == LoggerDefaultPattern
      ensures formatter.items == PatternProps.LoggerDefaultItems
      ensures fresh(formatter)
    {
      this.name := name;
      level := DEBUG;
      appenders := [];
      formatter := new LogFormatter(LoggerDefaultPattern);
      PatternProps.CompileLoggerDefaultPattern();
    }

    /** Every appender has a formatter, so that logging through it is
        defined at every level. */
    ghost predicate Ready()
      reads this, appenders
    {
      forall a :: a in appenders ==> a.formatter != null
    }

    /** What `log` at `level` relies on: once the call passes the logger's
        threshold, every appender whose own threshold it passes has a
        formatter. */
    ghost predicate CanLog(level: Level)
      reads this, appenders
    {
      Passes(level, this.level) ==> forall a :: a in appenders && Passes(level, a.level) ==> a.formatter != null
    }

    /** The sinks the appenders write to. */
    ghost function Sinks(): set<Sink>
      reads this
    {
      set a | a in appenders :: a.sink
    }

    /** The appenders as routes, in list order. */
    ghost function Routes(): (r: seq<Route>)
      reads this, appenders
      ensures |r| == |appenders|
      ensures forall k :: 0 <= k < |r| ==> r[k] == appenders[k].AsRoute()
    {
      RoutesOf(appenders)
    }

    /** What one `log` call at `level` writes to `s`: nothing below the
        logger's threshold, otherwise every appender's output, in order. */
    ghost function Outcome(s: Sink, level: Level, data: EventData, clock: TimeFormatter): seq<string>
      reads this, appenders
    {
      if Passes(level, this.level) then Delivered(Routes(), s, name, level, data, clock) else []
    }

    /** A sink that none of the appenders writes to receives nothing. */
    lemma OutcomeElsewhere(s: Sink, level: Level, data: EventData, clock: TimeFormatter)
      requires s !in Sinks()
      ensures Outcome(s, level, data, clock) == []
    {
      var routes := Routes();
      forall k | 0 <= k < |routes|
        ensures routes[k].sink != s
      {
        assert appenders[k] in appenders;
      }
      FeedUnrouted([], routes, |routes|, s, name, level, data, clock);
    }

    method Log(level: Level, event: LogEvent, clock: TimeFormatter)
      requires CanLog(level)
      modifies Sinks()
      ensures forall s :: s in old(Sinks()) ==> s.records == old(s.records) + Outcome(s, level, event.Data(), clock)
    {
      if Passes(level, this.level) {
        ghost var routes := Routes();
        ghost var data := event.Data();
        Dispatch(level, event, clock, Sinks(), routes, data);
        forall s | s in old(Sinks())
          ensures s.records == old(s.records) + Delivered(routes, s, name, level, data, clock)
        {
          FeedAppends(old(s.records), routes, |routes|, s, name, level, data, clock);
        }
        assert Routes() == routes;
        assert event.Data() == data;
      }
    }

    /** The loop of `log`: every appender, in list order, handles the call. */
    method Dispatch(level: Level, event: LogEvent, clock: TimeFormatter,
                    ghost sinks: set<Sink>, ghost routes: seq<Route>, ghost data: EventData)
      requires Passes(level, this.level) && CanLog(level)
      requires routes == Routes() && data == event.Data()
      requires forall j :: 0 <= j < |appenders| ==> appenders[j].sink in sinks
      modifies sinks
      ensures forall s :: s in sinks ==> s.records == Feed(old(s.records), routes, |routes|, s, name, level, data, clock)
    {
      for k := 0 to |appenders|
        invariant forall s {:trigger Feed(old(s.records), routes, k, s, name, level, data, clock)} :: s in sinks ==> s.records == Feed(old(s.records), routes, k, s, name, level, data, clock)
      {
        appenders[k].Log(this, level, event, clock);
      }
    }

    method Debug(event: LogEvent, clock: TimeFormatter)
      requires CanLog(DEBUG)
      modifies Sinks()
      ensures forall s :: s in old(Sinks()) ==> s.records == old(s.records) + Outcome(s, DEBUG, event.Data(), clock)
    {
      Log(DEBUG, event, clock);
    }

    method Info(event: LogEvent, clock: TimeFormatter)
      requires CanLog(INFO)
      modifies Sinks()
      ensures forall s :: s in old(Sinks()) ==> s.records == old(s.records) + Outcome(s, INFO, event.Data(), clock)
    {
      Log(INFO, event, clock);
    }

    method Warn(event: LogEvent, clock: TimeFormatter)
      requires CanLog(WARN)
      modifies Sinks()
      ensures forall s :: s in old(Sinks()) ==> s.records == old(s.records) + Outcome(s, WARN, event.Data(), clock)
    {
      Log(WARN, event, clock);
    }

    method Error(event: LogEvent, clock: TimeFormatter)
      requires CanLog(ERROR)
      modifies Sinks()
      ensures forall s :: s in old(Sinks()) ==> s.records == old(s.records) + Outcome(s, ERROR, event.Data(), clock)
    {
      Log(ERROR, event, clock);
    }

    method Fatal(event: LogEvent, clock: TimeFormatter)
      requires CanLog(FATAL)
      modifies Sinks()
      ensures forall s :: s in old(Sinks()) ==> s.records == old(s.records) + Outcome(s, FATAL, event.Data(), clock)
    {
      Log(FATAL, event, clock);
    }

    /** Appends `a`, first giving it the logger's formatter if it has none. */
    method AddAppender(a: LogAppender)
      modifies this, a
      ensures appenders == old(appenders) + [a]
      ensures a.formatter == (if old(a.formatter) == null then formatter else old(a.formatter))
      ensures a.level == old(a.level) && level == old(level)
      ensures old(Ready()) ==> Ready()
    {
      if a.formatter == null {
        a.SetFormatter(formatter);
      }
      appenders := appenders + [a];
    }

    /** Erases the first entry identical to `a`, if any. */
    method DelAppender(a: LogAppender)
      modifies this
      ensures appenders == Without(old(appenders), a)
      ensures level == old(level)
      ensures old(Ready()) ==> Ready()
    {
      var i := 0;
      while i < |appenders|
        invariant 0 <= i <= |appenders|
        invariant appenders == old(appenders)
        invariant a !in appenders[..i]
      {
        if appenders[i] == a {
          FirstIndexIs(appenders, a, i);
          appenders := appenders[..i] + appenders[i + 1..];
          return;
        }
        assert appenders[..i + 1] == appenders[..i] + [appenders[i]];
        i := i + 1;
      }
      assert appenders[..i] == appenders;
    }

    method SetLevel(l: Level)
      modifies this
      ensures level == l && appenders == old(appenders)
    {
      level := l;
    }
  }

  /** Holds an event and submits it, on destruction, to the event's own
      logger at the event's own level. */
  class LogEventWrap {
    const event: LogEvent

    constructor (e: LogEvent)
      ensures event == e
    {
      event := e;
    }

    /** `getSS() << text`. */
    method Append(text: string)
      modifies event
      ensures event.content == old(event.content) + text
    {
      event.Append(text);
    }

    /** The destructor. */
    method Destroy(clock: TimeFormatter)
      requires event.logger.CanLog(event.level)
      modifies event.logger.Sinks()
      ensures forall s :: s in old(event.logger.Sinks()) ==>
        s.records == old(s.records) + event.logger.Outcome(s, event.level, event.Data(), clock)
    {
      event.logger.Log(event.level, event, clock);
    }
  }

  /** The registry: named loggers and the root logger. */
  class LoggerManager {
    var loggers: map<string, Logger>
    const root: Logger

    /** The root logger is named "root" and writes to standard output
        through a single appender; no logger is registered. */
    constructor (console: Sink)
      ensures loggers == map[]
      ensures root.name == "root" && root.level == DEBUG && |root.appenders| == 1
      ensures root.appenders[0].kind == Stdout && root.appenders[0].sink == console
      ensures root.appenders[0].level == DEBUG && root.appenders[0].formatter == root.formatter
      ensures root.formatter.items == PatternProps.LoggerDefaultItems
      ensures root.Ready() && root.Routes() == [Route(console, DEBUG, PatternProps.LoggerDefaultItems)]
      ensures fresh(root) && fresh(root.appenders[0])
    {
      var r := new Logger();
      var out := new LogAppender(Stdout, console);
      r.AddAppender(out);
      root := r;
      loggers := map[];
    }

    /** The logger registered under `name`, or the root logger. */
    function GetLogger(name: string): (l: Logger)
      reads this
      ensures name in loggers ==> l == loggers[name]
      ensures name !in loggers ==> l == root
    {
      if name in loggers then loggers[name] else root
    }
  }

  /** `SYLAR_LOG_LEVEL(logger, level) << text`: the call-site gate, then an
      event streamed into and submitted when its wrapper goes out of scope.
      Thread id and time are inputs; elapsed time and fiber id are 0. */
  method LogStream(logger: Logger, level: Level, file: string, line: Int32, threadId: UInt32, time: UInt64,
                   text: string, clock: TimeFormatter)
    requires logger.CanLog(level)
    modifies logger.Sinks()
    ensures forall s :: s in old(logger.Sinks()) ==>
      s.records == old(s.records) + logger.Outcome(s, level, EventData(file, line, 0, threadId, 0, time, text), clock)
  {
    if Passes(level, logger.level) {
      var e := new LogEvent(logger, level, file, line, 0, threadId, 0, time);
      var w := new LogEventWrap(e);
      w.Append(text);
      assert e.Data() == EventData(file, line, 0, threadId, 0, time, text);
      w.Destroy(clock);
    }
  }

  /** `SYLAR_LOG_FMT_LEVEL(logger, level, fmt, ...)`: the same gate, with the
      message produced by `vasprintf`. */
  method LogFormatted(logger: Logger, level: Level, file: string, line: Int32, threadId: UInt32, time: UInt64,
                      printed: Option<string>, clock: TimeFormatter)
    requires logger.CanLog(level)
    modifies logger.Sinks()
    ensures forall s :: s in old(logger.Sinks()) ==>
      s.records == old(s.records) + logger.Outcome(s, level, EventData(file, line, 0, threadId, 0, time, Printed(printed)), clock)
  {
    if Passes(level, logger.level) {
      var e := new LogEvent(logger, level, file, line, 0, threadId, 0, time);
      var w := new LogEventWrap(e);
      w.event.Format(printed);
      assert e.Data() == EventData(file, line, 0, threadId, 0, time, Printed(printed));
      w.Destroy(clock);
    }
  }

  /** A sink receives, from two routes in turn, what the first sends it and
      then what the second sends it. */
  lemma DeliveredPair(r0: Route, r1: Route, s: Sink, name: string, level: Level, data: EventData, clock: TimeFormatter)
    ensures Delivered([r0, r1], s, name, level, data, clock) ==
            (if r0.sink == s then RouteOutput(r0, name, level, data, clock) else []) +
            (if r1.sink == s then RouteOutput(r1, name, level, data, clock) else [])
  {
    DeliveredConcat([r0], [r1], s, name, level, data, clock);
    assert [r0] + [r1] == [r0, r1];
    assert Feed([], [r0], 0, s, name, level, data, clock) == [];
    assert Feed([], [r1], 0, s, name, level, data, clock) == [];
  }

  /** `SYLAR_LOG_DEBUG(logger) << text`. */
  method LogDebug(logger: Logger, file: string, line: Int32, threadId: UInt32, time: UInt64, text: string, clock: TimeFormatter)
    requires logger.CanLog(DEBUG)
    modifies logger.Sinks()
    ensures forall s :: s in old(logger.Sinks()) ==>
      s.records == old(s.records) + logger.Outcome(s, DEBUG, EventData(file, line, 0, threadId, 0, time, text), clock)
  {
    LogStream(logger, DEBUG, file, line, threadId, time, text, clock);
  }

  /** `SYLAR_LOG_INFO(logger) << text`. */
  method LogInfo(logger: Logger, file: string, line: Int32, threadId: UInt32, time: UInt64, text: string, clock: TimeFormatter)
    requires logger.CanLog(INFO)
    modifies logger.Sinks()
    ensures forall s :: s in old(logger.Sinks()) ==>
      s.records == old(s.records) + logger.Outcome(s, INFO, EventData(file, line, 0, threadId, 0, time, text), clock)
  {
    LogStream(logger, INFO, file, line, threadId, time, text, clock);
  }

  /** `SYLAR_LOG_WARN(logger) << text`. */
  method LogWarn(logger: Logger, file: string, line: Int32, threadId: UInt32, time: UInt64, text: string, clock: TimeFormatter)
    requires logger.CanLog(WARN)
    modifies logger.Sinks()
    ensures forall s :: s in old(logger.Sinks()) ==>
      s.records == old(s.records) + logger.Outcome(s, WARN, EventData(file, line, 0, threadId, 0, time, text), clock)
  {
    LogStream(logger, WARN, file, line, threadId, time, text, clock);
  }

  /** `SYLAR_LOG_ERROR(logger) << text`. */
  method LogError(logger: Logger, file: string, line: Int32, threadId: UInt32, time: UInt64, text: string, clock: TimeFormatter)
    requires logger.CanLog(ERROR)
    modifies logger.Sinks()
    ensures forall s :: s in old(logger.Sinks()) ==>
      s.records == old(s.records) + logger.Outcome(s, ERROR, EventData(file, line, 0, threadId, 0, time, text), clock)
  {
    LogStream(logger, ERROR, file, line, threadId, time, text, clock);
  }

  /** `SYLAR_LOG_FATAL(logger) << text`. */
  method LogFatal(logger: Logger, file: string, line: Int32, threadId: UInt32, time: UInt64, text: string, clock: TimeFormatter)
    requires logger.CanLog(FATAL)
    modifies logger.Sinks()
    ensures forall s :: s in old(logger.Sinks()) ==>
      s.records == old(s.records) + logger.Outcome(s, FATAL, EventData(file, line, 0, threadId, 0, time, text), clock)
  {
    LogStream(logger, FATAL, file, line, threadId, time, text, clock);
  }

  /** `SYLAR_LOG_FMT_DEBUG(logger, fmt, ...)`. */
  method LogFormattedDebug(logger: Logger, file: string, line: Int32, threadId: UInt32, time: UInt64, printed: Option<string>,
                         clock: TimeFormatter)
    requires logger.CanLog(DEBUG)
    modifies logger.Sinks()
    ensures forall s :: s in old(logger.Sinks()) ==>
      s.records == old(s.records) + logger.Outcome(s, DEBUG, EventData(file, line, 0, threadId, 0, time, Printed(printed)), clock)
  {
    LogFormatted(logger, DEBUG, file, line, threadId, time, printed, clock);
  }

  /** `SYLAR_LOG_FMT_INFO(logger, fmt, ...)`. */
  method LogFormattedInfo(logger: Logger, file: string, line: Int32, threadId: UInt32, time: UInt64, printed: Option<string>,
                         clock: TimeFormatter)
    requires logger.CanLog(INFO)
    modifies logger.Sinks()
    ensures forall s :: s in old(logger.Sinks()) ==>
      s.records == old(s.records) + logger.Outcome(s, INFO, EventData(file, line, 0, threadId, 0, time, Printed(printed)), clock)
  {
    LogFormatted(logger, INFO, file, line, threadId, time, printed, clock);
  }

  /** `SYLAR_LOG_FMT_WARN(logger, fmt, ...)`. */
  method LogFormattedWarn(logger: Logger, file: string, line: Int32, threadId: UInt32, time: UInt64, printed: Option<string>,
                         clock: TimeFormatter)
    requires logger.CanLog(WARN)
    modifies logger.Sinks()
    ensures forall s :: s in old(logger.Sinks()) ==>
      s.records == old(s.records) + logger.Outcome(s, WARN, EventData(file, line, 0, threadId, 0, time, Printed(printed)), clock)
  {
    LogFormatted(logger, WARN, file, line, threadId, time, printed, clock);
  }

  /** `SYLAR_LOG_FMT_ERROR(logger, fmt, ...)`. */
  method LogFormattedError(logger: Logger, file: string, line: Int32, threadId: UInt32, time: UInt64, printed: Option<string>,
                         clock: TimeFormatter)
    requires logger.CanLog(ERROR)
    modifies logger.Sinks()
    ensures forall s :: s in old(logger.Sinks()) ==>
      s.records == old(s.records) + logger.Outcome(s, ERROR, EventData(file, line, 0, threadId, 0, time, Printed(printed)), clock)
  {
    LogFormatted(logger, ERROR, file, line, threadId, time, printed, clock);
  }

  /** `SYLAR_LOG_FMT_FATAL(logger, fmt, ...)`. */
  method LogFormattedFatal(logger: Logger, file: string, line: Int32, threadId: UInt32, time: UInt64, printed: Option<string>,
                         clock: TimeFormatter)
    requires logger.CanLog(FATAL)
    modifies logger.Sinks()
    ensures forall s :: s in old(logger.Sinks()) ==>
      s.records == old(s.records) + logger.Outcome(s, FATAL, EventData(file, line, 0, threadId, 0, time, Printed(printed)), clock)
  {
    LogFormatted(logger, FATAL, file, line, threadId, time, printed, clock);
  }
}
