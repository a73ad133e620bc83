/** What a compiled formatter prints for one event: each item's text, in item
    order. */
module Render {
  import opened Levels
  import opened Numerals
  import opened Pattern
  import PatternProps

  /** `strftime` of a format over the local time of a timestamp. The C library
      call, the time zone and the 64-byte buffer stay behind this function. */
  type TimeFormatter = (string, UInt64) -> string

  /** The values an event's getters return, with `content` the text streamed
      into its message buffer so far. */
  datatype EventData = EventData(
    file: string, line: Int32, elapse: UInt32, threadId: UInt32, fiberId: UInt32,
    time: UInt64, content: string)

  /** The text one item writes for a logger named `name`, a level and an event. */
  function ItemText(item: Item, name: string, level: Level, e: EventData, clock: TimeFormatter): string {
    match item
    case MessageItem => e.content
    case LevelItem => ToString(level)
    case ElapseItem => Decimal(e.elapse)
    case NameItem => name
    case ThreadIdItem => Decimal(e.threadId)
    case FiberIdItem => Decimal(e.fiberId)
    case DateTimeItem(f) => clock(f, e.time)
    case FilenameItem => e.file
    case LineItem => SignedDecimal(e.line)
    case NewLineItem => "\n"
    case TabItem => "\t"
    case StringItem(t) => t
  }

  /** The texts of all items, in order. */
  function RenderItems(items: seq<Item>, name: string, level: Level, e: EventData, clock: TimeFormatter): string
    decreases |items|
  {
    if items == [] then ""
    else RenderItems(items[..|items| - 1], name, level, e, clock) + ItemText(items[|items| - 1], name, level, e, clock)
  }

  /** An item added at the end adds its text at the end. */
  lemma RenderSnoc(items: seq<Item>, item: Item, name: string, level: Level, e: EventData, clock: TimeFormatter)
    ensures RenderItems(items + [item], name, level, e, clock) ==
            RenderItems(items, name, level, e, clock) + ItemText(item, name, level, e, clock)
  {
    assert (items + [item])[..|items|] == items;
  }

  /** Rendering distributes over concatenation of item sequences. */
  lemma {:induction false} RenderConcat(a: seq<Item>, b: seq<Item>, name: string, level: Level, e: EventData, clock: TimeFormatter)
    ensures RenderItems(a + b, name, level, e, clock) ==
            RenderItems(a, name, level, e, clock) + RenderItems(b, name, level, e, clock)
    decreases |b|
  {
    if b == [] {
      assert a + b == a;
    } else {
      var b' := b[..|b| - 1];
      var x := b[|b| - 1];
      var ra := RenderItems(a, name, level, e, clock);
      var rb' := RenderItems(b', name, level, e, clock);
      var t := ItemText(x, name, level, e, clock);
      assert RenderItems(a + b, name, level, e, clock) == RenderItems(a + b', name, level, e, clock) + t by {
        assert (a + b') + [x] == a + b;
        RenderSnoc(a + b', x, name, level, e, clock);
      }
      assert RenderItems(b, name, level, e, clock) == rb' + t by {
        assert b' + [x] == b;
        RenderSnoc(b', x, name, level, e, clock);
      }
      RenderConcat(a, b', name, level, e, clock);
      assert (ra + rb') + t == ra + (rb' + t);
    }
  }

  /** One item renders as its own text. */
  lemma RenderSingle(item: Item, name: string, level: Level, e: EventData, clock: TimeFormatter)
    ensures RenderItems([item], name, level, e, clock) == ItemText(item, name, level, e, clock)
  {
    assert [item][..0] == [];
  }

  /** A sequence of literals prints the same whatever the logger, level, event
      and clock. */
  lemma {:induction false} RenderLiteralsOnly(items: seq<Item>, name: string, level: Level, e: EventData, clock: TimeFormatter,
                                             name': string, level': Level, e': EventData, clock': TimeFormatter)
    requires forall k :: 0 <= k < |items| ==> items[k].StringItem?
    ensures RenderItems(items, name, level, e, clock) == RenderItems(items, name', level', e', clock')
    decreases |items|
  {
    if items != [] {
      RenderLiteralsOnly(items[..|items| - 1], name, level, e, clock, name', level', e', clock');
      assert items[|items| - 1].StringItem?;
    }
  }

  /** A `%`-free pattern prints itself. */
  lemma RenderLiteralPattern(p: string, name: string, level: Level, e: EventData, clock: TimeFormatter)
    requires p != ""
    requires forall k :: 0 <= k < |p| ==> p[k] != '%'
    ensures RenderItems(Compile(p), name, level, e, clock) == p
  {
    PatternProps.CompileLiteral(p);
    RenderSingle(StringItem(p), name, level, e, clock);
  }

  /** `%m%n` prints the message followed by a newline. */
  lemma RenderMessageNewLine(name: string, level: Level, e: EventData, clock: TimeFormatter)
    ensures RenderItems(Compile("%m%n"), name, level, e, clock) == e.content + "\n"
  {
    PatternProps.CompileMessageNewLine();
    var items := [MessageItem, NewLineItem];
    assert items[..1] == [MessageItem];
    RenderSingle(MessageItem, name, level, e, clock);
  }

  /** `%d` with no argument in front of a spelled-out sequence prints the
      event time in the default format, then the rest. */
  lemma RenderDateThen(items: seq<Item>, name: string, level: Level, e: EventData, clock: TimeFormatter)
    requires PatternProps.WellFormed(items)
    requires items != [] && items[0].StringItem? ==> !IsKeyChar(items[0].text[0]) && items[0].text[0] != '{'
    ensures RenderItems(Compile("%d" + PatternProps.Unparse(items)), name, level, e, clock) ==
            clock(DefaultDateFormat, e.time) + RenderItems(items, name, level, e, clock)
  {
    PatternProps.CompileDateThen(items);
    RenderConcat([DateTimeItem(DefaultDateFormat)], items, name, level, e, clock);
    RenderSingle(DateTimeItem(DefaultDateFormat), name, level, e, clock);
  }

  /** The record the default logger pattern prints: the time in the default
      format with the thread and fiber ids, `[level]`, `[name]` and
      `file:line`, separated by tabs, then the message and a newline. */
  function DefaultLine(name: string, level: Level, e: EventData, clock: TimeFormatter): string {
    var stamp := clock(DefaultDateFormat, e.time) + "\t" + Decimal(e.threadId) + "\t" + Decimal(e.fiberId);
    var levelField := "\t" + "[" + ToString(level) + "]";
    var nameField := "\t" + "[" + name + "]";
    var location := "\t" + e.file + ":" + SignedDecimal(e.line);
    var message := "\t" + e.content + "\n";
    stamp + levelField + nameField + location + message
  }

  lemma RenderDefaultChunk0(name: string, level: Level, e: EventData, clock: TimeFormatter)
    ensures RenderItems(PatternProps.DefaultChunks[0], name, level, e, clock) == clock(DefaultDateFormat, e.time) + "\t" + Decimal(e.threadId) + "\t" + Decimal(e.fiberId)
  {
    var c := PatternProps.DefaultChunks[0];
    assert c == [DateTimeItem(DefaultDateFormat), TabItem, ThreadIdItem, TabItem, FiberIdItem];
    RenderSingle(c[0], name, level, e, clock);
    assert c[..1] == [c[0]];
    assert c[..2][..1] == c[..1];
    assert RenderItems(c[..2], name, level, e, clock) == clock(DefaultDateFormat, e.time) + "\t";
    assert c[..3][..2] == c[..2];
    assert RenderItems(c[..3], name, level, e, clock) == clock(DefaultDateFormat, e.time) + "\t" + Decimal(e.threadId);
    assert c[..4][..3] == c[..3];
    assert RenderItems(c[..4], name, level, e, clock) == clock(DefaultDateFormat, e.time) + "\t" + Decimal(e.threadId) + "\t";
    assert c[..5][..4] == c[..4];
    assert RenderItems(c[..5], name, level, e, clock) == clock(DefaultDateFormat, e.time) + "\t" + Decimal(e.threadId) + "\t" + Decimal(e.fiberId);
    assert c[..5] == c;
  }

  lemma RenderDefaultChunk1(name: string, level: Level, e: EventData, clock: TimeFormatter)
    ensures RenderItems(PatternProps.DefaultChunks[1], name, level, e, clock) == "\t" + "[" + ToString(level) + "]"
  {
    var c := PatternProps.DefaultChunks[1];
    assert c == [TabItem, StringItem("["), LevelItem, StringItem("]")];
    RenderSingle(c[0], name, level, e, clock);
    assert c[..1] == [c[0]];
    assert c[..2][..1] == c[..1];
    assert RenderItems(c[..2], name, level, e, clock) == "\t" + "[";
    assert c[..3][..2] == c[..2];
    assert RenderItems(c[..3], name, level, e, clock) == "\t" + "[" + ToString(level);
    assert c[..4][..3] == c[..3];
    assert RenderItems(c[..4], name, level, e, clock) == "\t" + "[" + ToString(level) + "]";
    assert c[..4] == c;
  }

  lemma RenderDefaultChunk2(name: string, level: Level, e: EventData, clock: TimeFormatter)
    ensures RenderItems(PatternProps.DefaultChunks[2], name, level, e, clock) == "\t" + "[" + name + "]"
  {
    var c := PatternProps.DefaultChunks[2];
    assert c == [TabItem, StringItem("["), NameItem, StringItem("]")];
    RenderSingle(c[0], name, level, e, clock);
    assert c[..1] == [c[0]];
    assert c[..2][..1] == c[..1];
    assert RenderItems(c[..2], name, level, e, clock) == "\t" + "[";
    assert c[..3][..2] == c[..2];
    assert RenderItems(c[..3], name, level, e, clock) == "\t" + "[" + name;
    assert c[..4][..3] == c[..3];
    assert RenderItems(c[..4], name, level, e, clock) == "\t" + "[" + name + "]";
    assert c[..4] == c;
  }

  lemma RenderDefaultChunk3(name: string, level: Level, e: EventData, clock: TimeFormatter)
    ensures RenderItems(PatternProps.DefaultChunks[3], name, level, e, clock) == "\t" + e.file + ":" + SignedDecimal(e.line)
  {
    var c := PatternProps.DefaultChunks[3];
    assert c == [TabItem, FilenameItem, StringItem(":"), LineItem];
    RenderSingle(c[0], name, level, e, clock);
    assert c[..1] == [c[0]];
    assert c[..2][..1] == c[..1];
    assert RenderItems(c[..2], name, level, e, clock) == "\t" + e.file;
    assert c[..3][..2] == c[..2];
    assert RenderItems(c[..3], name, level, e, clock) == "\t" + e.file + ":";
    assert c[..4][..3] == c[..3];
    assert RenderItems(c[..4], name, level, e, clock) == "\t" + e.file + ":" + SignedDecimal(e.line);
    assert c[..4] == c;
  }

  lemma RenderDefaultChunk4(name: string, level: Level, e: EventData, clock: TimeFormatter)
    ensures RenderItems(PatternProps.DefaultChunks[4], name, level, e, clock) == "\t" + e.content + "\n"
  {
    var c := PatternProps.DefaultChunks[4];
    assert c == [TabItem, MessageItem, NewLineItem];
    RenderSingle(c[0], name, level, e, clock);
    assert c[..1] == [c[0]];
    assert c[..2][..1] == c[..1];
    assert RenderItems(c[..2], name, level, e, clock) == "\t" + e.content;
    assert c[..3][..2] == c[..2];
    assert RenderItems(c[..3], name, level, e, clock) == "\t" + e.content + "\n";
    assert c[..3] == c;
  }

  /** The default items print `DefaultLine`, field by field. */
  lemma RenderDefaultItems(name: string, level: Level, e: EventData, clock: TimeFormatter)
    ensures RenderItems(PatternProps.LoggerDefaultItems, name, level, e, clock) == DefaultLine(name, level, e, clock)
  {
    PatternProps.DefaultItemsSplit();
    var c := PatternProps.DefaultChunks;
    RenderDefaultChunk0(name, level, e, clock);
    RenderDefaultChunk1(name, level, e, clock);
    RenderDefaultChunk2(name, level, e, clock);
    RenderDefaultChunk3(name, level, e, clock);
    RenderDefaultChunk4(name, level, e, clock);
    RenderConcat(c[0], c[1], name, level, e, clock);
    RenderConcat(c[0] + c[1], c[2], name, level, e, clock);
    RenderConcat(c[0] + c[1] + c[2], c[3], name, level, e, clock);
    RenderConcat(c[0] + c[1] + c[2] + c[3], c[4], name, level, e, clock);
  }

  /** The default logger pattern prints `DefaultLine`. */
  lemma RenderDefaultPattern(name: string, level: Level, e: EventData, clock: TimeFormatter)
    ensures RenderItems(Compile(LoggerDefaultPattern), name, level, e, clock) == DefaultLine(name, level, e, clock)
  {
    PatternProps.CompileLoggerDefaultPattern();
    RenderDefaultItems(name, level, e, clock);
  }
}
