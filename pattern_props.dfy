/** What the pattern compiler guarantees: pending-literal handling, directive
    extraction in left-to-right order (stated as a round trip through a
    printer for item sequences), key resolution, and the exact behaviour on
    `%%`, on a trailing `%` and on an unterminated `{`. */
module PatternProps {
  import opened Pattern

  /** The pattern text that stands for one item. */
  function Fragment(item: Item): string {
    match item
    case MessageItem => "%m"
    case LevelItem => "%p"
    case ElapseItem => "%r"
    case NameItem => "%c"
    case ThreadIdItem => "%t"
    case FiberIdItem => "%F"
    case DateTimeItem(f) => "%d{" + f + "}"
    case FilenameItem => "%f"
    case LineItem => "%l"
    case NewLineItem => "%n"
    case TabItem => "%T"
    case StringItem(t) => t
  }

  /** A pattern spelling out an item sequence. */
  function Unparse(items: seq<Item>): string {
    if items == [] then "" else Fragment(items[0]) + Unparse(items[1..])
  }

  /** A directive item written without an argument. */
  predicate Bare(item: Item) {
    !item.StringItem? && !item.DateTimeItem?
  }

  /** The single letter of a directive item's key. */
  function KeyLetter(item: Item): char
    requires !item.StringItem?
  {
    match item
    case MessageItem => 'm'
    case LevelItem => 'p'
    case ElapseItem => 'r'
    case NameItem => 'c'
    case ThreadIdItem => 't'
    case FiberIdItem => 'F'
    case DateTimeItem(_) => 'd'
    case FilenameItem => 'f'
    case LineItem => 'l'
    case NewLineItem => 'n'
    case TabItem => 'T'
  }

  /** Literal text is non-empty and `%`-free; a date format is non-empty and `}`-free. */
  predicate ItemOk(item: Item) {
    match item
    case StringItem(t) => t != "" && forall k :: 0 <= k < |t| ==> t[k] != '%'
    case DateTimeItem(f) => f != "" && forall k :: 0 <= k < |f| ==> f[k] != '}'
    case _ => true
  }

  /** Two literals never touch, and text right after an argument-less
      directive cannot be read as more of its key or as its argument. */
  predicate Adjacent(a: Item, b: Item) {
    !(a.StringItem? && b.StringItem?) &&
    (Bare(a) && b.StringItem? && b.text != "" ==> !IsKeyChar(b.text[0]) && b.text[0] != '{')
  }

  /** The item sequences that a pattern can spell exactly. */
  predicate WellFormed(items: seq<Item>) {
    items == [] ||
    (ItemOk(items[0]) && (|items| > 1 ==> Adjacent(items[0], items[1])) && WellFormed(items[1..]))
  }

  /** The scanner entry an item comes from. */
  function EntryOf(item: Item): Entry {
    if item.StringItem? then Entry(item.text, "", TextEntry)
    else if item.DateTimeItem? then Entry("d", item.format, KeyEntry)
    else Entry([KeyLetter(item)], "", KeyEntry)
  }

  function EntriesOf(items: seq<Item>): seq<Entry> {
    seq(|items|, k requires 0 <= k < |items| => EntryOf(items[k]))
  }

  /** Every non-`%` character goes to the pending literal, in order. */
  lemma {:induction false} LiteralRun(t: string, rest: string, nstr: string)
    requires forall k :: 0 <= k < |t| ==> t[k] != '%'
    ensures Scan(t + rest, nstr) == Scan(rest, nstr + t)
    decreases |t|
  {
    if t == [] {
      assert t + rest == rest;
      assert nstr + t == nstr;
    } else {
      var s := t + rest;
      assert s[0] == t[0] && s[1..] == t[1..] + rest;
      LiteralRun(t[1..], rest, nstr + [t[0]]);
      assert nstr + [t[0]] + t[1..] == nstr + t;
    }
  }

  /** `%` and a letter, not followed by a key character or `{`: the pending
      literal is flushed and a one-letter key entry follows. */
  lemma BareHead(c: char, rest: string, nstr: string)
    requires IsAlpha(c)
    requires rest != [] ==> !IsKeyChar(rest[0]) && rest[0] != '{'
    ensures Scan(['%', c] + rest, nstr) == Flush(nstr) + [Entry([c], "", KeyEntry)] + Scan(rest, "")
  {
    var s := ['%', c] + rest;
    KeyEndIs(s, 1, 2);
    assert s[1..2] == [c];
    assert s[2..] == rest;
  }

  /** `%d{f}` with `f` free of `}`: a `d` entry carrying `f`. */
  lemma DateHead(f: string, rest: string, nstr: string)
    requires forall k :: 0 <= k < |f| ==> f[k] != '}'
    ensures Scan("%d{" + f + "}" + rest, nstr) == Flush(nstr) + [Entry("d", f, KeyEntry)] + Scan(rest, "")
  {
    var s := "%d{" + f + "}" + rest;
    KeyEndIs(s, 1, 2);
    FindCloseIs(s, 3, 3 + |f|);
    assert s[1..2] == "d";
    assert s[3..3 + |f|] == f;
    assert s[4 + |f|..] == rest;
  }

  lemma DirectiveHead(item: Item, rest: string, nstr: string)
    requires !item.StringItem? && ItemOk(item)
    requires Bare(item) && rest != [] ==> !IsKeyChar(rest[0]) && rest[0] != '{'
    ensures Scan(Fragment(item) + rest, nstr) == Flush(nstr) + [EntryOf(item)] + Scan(rest, "")
  {
    if item.DateTimeItem? {
      DateHead(item.format, rest, nstr);
    } else {
      assert Fragment(item) == ['%', KeyLetter(item)];
      BareHead(KeyLetter(item), rest, nstr);
    }
  }

  /** The first character of a spelled-out non-empty sequence whose head is
      not an empty literal. */
  lemma UnparseFirst(items: seq<Item>)
    requires items != [] && ItemOk(items[0])
    ensures Unparse(items) != []
    ensures Unparse(items)[0] == (if items[0].StringItem? then items[0].text[0] else '%')
  {
  }

  /** Text right after an argument-less directive does not extend it. */
  lemma BareFollower(head: Item, rest: seq<Item>)
    requires WellFormed([head] + rest) && Bare(head)
    ensures Unparse(rest) != [] ==> !IsKeyChar(Unparse(rest)[0]) && Unparse(rest)[0] != '{'
  {
    if rest != [] {
      assert ([head] + rest)[1..] == rest;
      UnparseFirst(rest);
    }
  }

  lemma EntriesOfCons(items: seq<Item>)
    requires items != []
    ensures EntriesOf(items) == [EntryOf(items[0])] + EntriesOf(items[1..])
  {
  }

  /** A literal head joins the pending literal, which must be empty since two
      literals never touch. */
  lemma LiteralStep(items: seq<Item>, nstr: string)
    requires items != [] && items[0].StringItem? && ItemOk(items[0]) && nstr == ""
    requires Scan(Unparse(items[1..]), items[0].text) == Flush(items[0].text) + EntriesOf(items[1..])
    ensures Scan(Unparse(items), nstr) == Flush(nstr) + EntriesOf(items)
  {
    var t := items[0].text;
    LiteralRun(t, Unparse(items[1..]), nstr);
    assert nstr + t == t;
    EntriesOfCons(items);
  }

  /** A directive head flushes the pending literal and emits its entry. */
  lemma DirectiveStep(items: seq<Item>, nstr: string)
    requires items != [] && !items[0].StringItem? && WellFormed(items)
    requires Scan(Unparse(items[1..]), "") == EntriesOf(items[1..])
    ensures Scan(Unparse(items), nstr) == Flush(nstr) + EntriesOf(items)
  {
    var head, rest := items[0], items[1..];
    if Bare(head) {
      assert items == [head] + rest;
      BareFollower(head, rest);
    }
    DirectiveHead(head, Unparse(rest), nstr);
    EntriesOfCons(items);
  }

  /** Scanning a spelled-out sequence yields its entries, in order; a pending
      literal is emitted just before the first directive. */
  lemma {:induction false} ScanUnparse(items: seq<Item>, nstr: string)
    requires WellFormed(items)
    requires nstr != "" ==> items == [] || !items[0].StringItem?
    ensures Scan(Unparse(items), nstr) == Flush(nstr) + EntriesOf(items)
    decreases |items|
  {
    if items == [] {
      assert EntriesOf(items) == [];
    } else if items[0].StringItem? {
      ScanUnparse(items[1..], items[0].text);
      LiteralStep(items, nstr);
    } else {
      ScanUnparse(items[1..], "");
      DirectiveStep(items, nstr);
    }
  }

  lemma ToItemEntryOf(item: Item)
    requires ItemOk(item)
    ensures ToItem(EntryOf(item)) == item
  {
  }

  lemma {:induction false} WellFormedAt(items: seq<Item>, k: nat)
    requires WellFormed(items) && k < |items|
    ensures ItemOk(items[k])
    decreases k
  {
    if k > 0 {
      WellFormedAt(items[1..], k - 1);
    }
  }

  /** Compiling the spelled-out form of a well-formed item sequence gives
      that sequence back: keys and arguments are extracted exactly and the
      items keep their left-to-right order. */
  lemma CompileUnparse(items: seq<Item>)
    requires WellFormed(items)
    ensures Compile(Unparse(items)) == items
  {
    ScanUnparse(items, "");
    var es := Entries(Unparse(items));
    assert es == EntriesOf(items);
    forall k | 0 <= k < |items|
      ensures ToItem(es[k]) == items[k]
    {
      WellFormedAt(items, k);
      ToItemEntryOf(items[k]);
    }
  }

  /** A pattern without `%` compiles to one literal equal to the pattern. */
  lemma CompileLiteral(p: string)
    requires p != ""
    requires forall k :: 0 <= k < |p| ==> p[k] != '%'
    ensures Compile(p) == [StringItem(p)]
  {
    assert Unparse([StringItem(p)]) == p + "";
    assert p + "" == p;
    CompileUnparse([StringItem(p)]);
  }

  /** The empty pattern compiles to no items. */
  lemma CompileEmpty()
    ensures Compile("") == []
  {
  }

  /** `%m%n` is the message followed by a newline. */
  lemma CompileMessageNewLine()
    ensures Compile("%m%n") == [MessageItem, NewLineItem]
  {
    var items := [MessageItem, NewLineItem];
    UnparseStep(items, 1);
    UnparseStep(items, 0);
    assert Unparse(items) == "%m%n";
    CompileUnparse(items);
  }

  /** `%d` without an argument is a date item with the default format,
      followed by whatever the rest compiles to. */
  lemma CompileBareDate(rest: string)
    requires rest != [] ==> !IsKeyChar(rest[0]) && rest[0] != '{'
    ensures Compile("%d" + rest) == [DateTimeItem(DefaultDateFormat)] + Compile(rest)
  {
    var s := "%d" + rest;
    assert s[0] == '%' && s[1] == 'd';
    assert |s| > 2 ==> s[2] == rest[0];
    BareHeadAt(s, "");
    assert s[1..2] == "d" && s[2..] == rest;
    assert Flush("") == [];
    var es, tail := Entries(s), Entries(rest);
    assert es == [Entry("d", "", KeyEntry)] + tail;
    assert ToItem(es[0]) == DateTimeItem(DefaultDateFormat);
    forall k | 1 <= k < |es|
      ensures ToItem(es[k]) == ToItem(tail[k - 1])
    {
    }
  }

  /** `%d` without an argument in front of a spelled-out sequence, as in the
      file appender pattern `%d%T%p%T%m%n`: the date item with the default
      format, then the sequence. */
  lemma CompileDateThen(items: seq<Item>)
    requires WellFormed(items)
    requires items != [] && items[0].StringItem? ==> !IsKeyChar(items[0].text[0]) && items[0].text[0] != '{'
    ensures Compile("%d" + Unparse(items)) == [DateTimeItem(DefaultDateFormat)] + items
  {
    if items != [] {
      UnparseFirst(items);
    }
    CompileBareDate(Unparse(items));
    CompileUnparse(items);
  }

  lemma UnparseStep(items: seq<Item>, k: nat)
    requires k < |items|
    ensures Unparse(items[k..]) == Fragment(items[k]) + Unparse(items[k + 1..])
  {
    assert items[k..][1..] == items[k + 1..];
  }

  lemma WellFormedStep(items: seq<Item>, k: nat)
    requires k < |items|
    requires ItemOk(items[k])
    requires k + 1 < |items| ==> Adjacent(items[k], items[k + 1])
    requires WellFormed(items[k + 1..])
    ensures WellFormed(items[k..])
  {
    assert items[k..][1..] == items[k + 1..];
  }

  lemma {:induction false} UnparseAppend(a: seq<Item>, b: seq<Item>)
    ensures Unparse(a + b) == Unparse(a) + Unparse(b)
    decreases |a|
  {
    if a == [] {
      assert a + b == b;
    } else {
      assert (a + b)[1..] == a[1..] + b;
      UnparseAppend(a[1..], b);
    }
  }

  lemma {:induction false} WellFormedAppend(a: seq<Item>, b: seq<Item>)
    requires WellFormed(a) && WellFormed(b)
    requires a != [] && b != [] ==> Adjacent(a[|a| - 1], b[0])
    ensures WellFormed(a + b)
    decreases |a|
  {
    if a == [] {
      assert a + b == b;
    } else {
      assert (a + b)[1..] == a[1..] + b;
      WellFormedAppend(a[1..], b);
    }
  }

  /** The default pattern field by field: time stamp with thread and fiber
      ids, `[level]`, `[name]`, `file:line`, message; and the items of each. */
  const DefaultPieces: seq<string> := ["%d{%Y-%m-%d %H:%M:%S}%T%t%T%F", "%T[%p]", "%T[%c]", "%T%f:%l", "%T%m%n"]

  const DefaultChunks: seq<seq<Item>> := [
    [DateTimeItem(DefaultDateFormat), TabItem, ThreadIdItem, TabItem, FiberIdItem],
    [TabItem, StringItem("["), LevelItem, StringItem("]")],
    [TabItem, StringItem("["), NameItem, StringItem("]")],
    [TabItem, FilenameItem, StringItem(":"), LineItem],
    [TabItem, MessageItem, NewLineItem]]

  lemma DefaultDateFormatOk()
    ensures ItemOk(DateTimeItem(DefaultDateFormat))
  {
    var f := DefaultDateFormat;
    forall k | 0 <= k < |f|
      ensures f[k] != '}'
    {
    }
  }

  lemma ThreadFiberFields()
    ensures Unparse([TabItem, ThreadIdItem, TabItem, FiberIdItem]) == "%T%t%T%F"
  {
    var c := [TabItem, ThreadIdItem, TabItem, FiberIdItem];
    assert c[3..] == [FiberIdItem];
    assert Unparse(c[3..]) == "%F";
    assert c[2..] == [TabItem, FiberIdItem];
    assert Unparse(c[2..]) == "%T%F";
    assert c[1..] == [ThreadIdItem, TabItem, FiberIdItem];
    assert Unparse(c[1..]) == "%t%T%F";
  }

  lemma DateField()
    ensures Fragment(DateTimeItem(DefaultDateFormat)) == "%d{%Y-%m-%d %H:%M:%S}"
  {
  }

  lemma DefaultChunk0Unparse()
    ensures Unparse(DefaultChunks[0]) == DefaultPieces[0]
  {
    var c := DefaultChunks[0];
    assert c[1..] == [TabItem, ThreadIdItem, TabItem, FiberIdItem];
    ThreadFiberFields();
    DateField();
    UnparseStep(c, 0);
    assert c[0..] == c;
  }

  lemma DefaultChunk0WellFormed()
    ensures WellFormed(DefaultChunks[0])
  {
    var c := DefaultChunks[0];
    assert c[4..] == [FiberIdItem];
    assert WellFormed(c[4..]);
    assert c[3..] == [TabItem, FiberIdItem];
    assert WellFormed(c[3..]);
    assert c[2..] == [ThreadIdItem, TabItem, FiberIdItem];
    assert WellFormed(c[2..]);
    assert c[1..] == [TabItem, ThreadIdItem, TabItem, FiberIdItem];
    assert WellFormed(c[1..]);
    DefaultDateFormatOk();
  }

  lemma DefaultChunk1Unparse()
    ensures Unparse(DefaultChunks[1]) == DefaultPieces[1]
  {
    var c := DefaultChunks[1];
    assert c[3..] == [StringItem("]")];
    assert Unparse(c[3..]) == "]";
    assert c[2..] == [LevelItem, StringItem("]")];
    assert Unparse(c[2..]) == "%p]";
    assert c[1..] == [StringItem("["), LevelItem, StringItem("]")];
    assert Unparse(c[1..]) == "[%p]";
  }

  lemma DefaultChunk1WellFormed()
    ensures WellFormed(DefaultChunks[1])
  {
    var c := DefaultChunks[1];
    assert c[3..] == [StringItem("]")];
    assert WellFormed(c[3..]);
    assert c[2..] == [LevelItem, StringItem("]")];
    assert WellFormed(c[2..]);
    assert c[1..] == [StringItem("["), LevelItem, StringItem("]")];
    assert WellFormed(c[1..]);
  }

  lemma DefaultChunk2Unparse()
    ensures Unparse(DefaultChunks[2]) == DefaultPieces[2]
  {
    var c := DefaultChunks[2];
    assert c[3..] == [StringItem("]")];
    assert Unparse(c[3..]) == "]";
    assert c[2..] == [NameItem, StringItem("]")];
    assert Unparse(c[2..]) == "%c]";
    assert c[1..] == [StringItem("["), NameItem, StringItem("]")];
    assert Unparse(c[1..]) == "[%c]";
  }

  lemma DefaultChunk2WellFormed()
    ensures WellFormed(DefaultChunks[2])
  {
    var c := DefaultChunks[2];
    assert c[3..] == [StringItem("]")];
    assert WellFormed(c[3..]);
    assert c[2..] == [NameItem, StringItem("]")];
    assert WellFormed(c[2..]);
    assert c[1..] == [StringItem("["), NameItem, StringItem("]")];
    assert WellFormed(c[1..]);
  }

  lemma DefaultChunk3Unparse()
    ensures Unparse(DefaultChunks[3]) == DefaultPieces[3]
  {
    var c := DefaultChunks[3];
    assert c[3..] == [LineItem];
    assert Unparse(c[3..]) == "%l";
    assert c[2..] == [StringItem(":"), LineItem];
    assert Unparse(c[2..]) == ":%l";
    assert c[1..] == [FilenameItem, StringItem(":"), LineItem];
    assert Unparse(c[1..]) == "%f:%l";
  }

  lemma DefaultChunk3WellFormed()
    ensures WellFormed(DefaultChunks[3])
  {
    var c := DefaultChunks[3];
    assert c[3..] == [LineItem];
    assert WellFormed(c[3..]);
    assert c[2..] == [StringItem(":"), LineItem];
    assert WellFormed(c[2..]);
    assert c[1..] == [FilenameItem, StringItem(":"), LineItem];
    assert WellFormed(c[1..]);
  }

  lemma DefaultChunk4Unparse()
    ensures Unparse(DefaultChunks[4]) == DefaultPieces[4]
  {
    var c := DefaultChunks[4];
    assert c[2..] == [NewLineItem];
    assert Unparse(c[2..]) == "%n";
    assert c[1..] == [MessageItem, NewLineItem];
    assert Unparse(c[1..]) == "%m%n";
  }

  lemma DefaultChunk4WellFormed()
    ensures WellFormed(DefaultChunks[4])
  {
    var c := DefaultChunks[4];
    assert c[2..] == [NewLineItem];
    assert WellFormed(c[2..]);
    assert c[1..] == [MessageItem, NewLineItem];
    assert WellFormed(c[1..]);
  }

  /** The items of the default logger pattern. */
  const LoggerDefaultItems: seq<Item> := [
    DateTimeItem(DefaultDateFormat), TabItem, ThreadIdItem, TabItem, FiberIdItem, TabItem,
    StringItem("["), LevelItem, StringItem("]"), TabItem, StringItem("["), NameItem, StringItem("]"),
    TabItem, FilenameItem, StringItem(":"), LineItem, TabItem, MessageItem, NewLineItem]

  lemma DefaultItemsSplit()
    ensures LoggerDefaultItems == DefaultChunks[0] + DefaultChunks[1] + DefaultChunks[2] + DefaultChunks[3] + DefaultChunks[4]
  {
  }

  lemma DefaultPatternSplit()
    ensures LoggerDefaultPattern == DefaultPieces[0] + DefaultPieces[1] + DefaultPieces[2] + DefaultPieces[3] + DefaultPieces[4]
  {
  }

  lemma DefaultItemsSpelled()
    ensures WellFormed(LoggerDefaultItems)
    ensures Unparse(LoggerDefaultItems) == LoggerDefaultPattern
  {
    var c := DefaultChunks;
    DefaultChunk0Unparse();
    DefaultChunk0WellFormed();
    DefaultChunk1Unparse();
    DefaultChunk1WellFormed();
    DefaultChunk2Unparse();
    DefaultChunk2WellFormed();
    DefaultChunk3Unparse();
    DefaultChunk3WellFormed();
    DefaultChunk4Unparse();
    DefaultChunk4WellFormed();
    UnparseAppend(c[0], c[1]);
    WellFormedAppend(c[0], c[1]);
    UnparseAppend(c[0] + c[1], c[2]);
    WellFormedAppend(c[0] + c[1], c[2]);
    UnparseAppend(c[0] + c[1] + c[2], c[3]);
    WellFormedAppend(c[0] + c[1] + c[2], c[3]);
    UnparseAppend(c[0] + c[1] + c[2] + c[3], c[4]);
    WellFormedAppend(c[0] + c[1] + c[2] + c[3], c[4]);
    DefaultItemsSplit();
    DefaultPatternSplit();
  }

  /** The logger's default pattern compiles to the tab-separated date, thread,
      fiber, `[level]`, `[name]`, `file:line` and message fields plus a newline. */
  lemma CompileLoggerDefaultPattern()
    ensures Compile(LoggerDefaultPattern) == LoggerDefaultItems
  {
    DefaultItemsSpelled();
    CompileUnparse(LoggerDefaultItems);
  }

  /** A lone `%` is the empty key. */
  lemma LonePercent(nstr: string)
    ensures Scan("%", nstr) == Flush(nstr) + [Entry("", "", KeyEntry)]
  {
    KeyEndIs("%", 1, 1);
    assert "%"[1..1] == "" && "%"[1..] == "";
    assert ReadDirective("%") == Closed("", "", 1);
  }

  /** `%` and a letter, not followed by a key character or `{`. */
  lemma BareHeadAt(s: string, nstr: string)
    requires |s| >= 2 && s[0] == '%' && IsAlpha(s[1])
    requires |s| > 2 ==> !IsKeyChar(s[2]) && s[2] != '{'
    ensures Scan(s, nstr) == Flush(nstr) + [Entry(s[1..2], "", KeyEntry)] + Scan(s[2..], "")
  {
    KeyEndIs(s, 1, 2);
  }

  /** A run of key characters after `%` (possibly empty) with nothing after it
      is one directive entry: a table item, or the error literal. */
  lemma CompileSingleKey(key: string)
    requires forall k :: 0 <= k < |key| ==> IsKeyChar(key[k])
    ensures Compile("%" + key) == [ToItem(Entry(key, "", KeyEntry))]
    ensures key !in {"m", "p", "r", "c", "t", "F", "d", "f", "l", "n", "T"} ==>
      Compile("%" + key) == [StringItem(ErrorFormat(key))]
  {
    var s := "%" + key;
    KeyEndIs(s, 1, |s|);
    assert s[0] == '%';
    assert s[1..] == key;
    assert |s| > 1 ==> s[1] == key[0] && s[1] != '%';
    assert ReadDirective(s) == Closed(key, "", |s|);
    assert s[|s|..] == [];
    assert Scan(s, "") == [Entry(key, "", KeyEntry)];
  }

  lemma EntriesTrailingPercent(t: string)
    requires t != ""
    requires forall k :: 0 <= k < |t| ==> t[k] != '%'
    ensures Entries(t + "%") == [Entry(t, "", TextEntry), Entry("", "", KeyEntry)]
  {
    LiteralRun(t, "%", "");
    assert "" + t == t;
    LonePercent(t);
  }

  /** A trailing `%` is an empty key, hence `<<error_format %>>`, after the pending text. */
  lemma CompileTrailingPercent(t: string)
    requires t != ""
    requires forall k :: 0 <= k < |t| ==> t[k] != '%'
    ensures Compile(t + "%") == [StringItem(t), StringItem(ErrorFormat(""))]
  {
    EntriesTrailingPercent(t);
  }

  /** `%%` adds one `%` to the pending literal and advances by one position
      only, so the second `%` starts a directive of its own. */
  lemma DoublePercentRescans(rest: string, nstr: string)
    ensures Scan("%%" + rest, nstr) == Scan("%" + rest, nstr + "%")
  {
    assert ("%%" + rest)[1..] == "%" + rest;
  }

  /** Hence `%%` alone compiles to `%` followed by the empty-key error ... */
  lemma CompileDoublePercent()
    ensures Compile("%%") == [StringItem("%"), StringItem(ErrorFormat(""))]
  {
    assert "%%"[1..] == "%" && "" + "%" == "%";
    assert Scan("%%", "") == Scan("%", "%");
    LonePercent("%");
    assert Entries("%%") == [Entry("%", "", TextEntry), Entry("", "", KeyEntry)];
  }

  /** ... and `%%m` to `%` followed by the message item. */
  lemma CompileDoublePercentKey()
    ensures Compile("%%m") == [StringItem("%"), MessageItem]
  {
    assert "%%m"[1..] == "%m" && "" + "%" == "%";
    assert Scan("%%m", "") == Scan("%m", "%");
    BareHeadAt("%m", "%");
    assert "%m"[1..2] == "m" && "%m"[2..] == "";
    assert Entries("%%m") == [Entry("%", "", TextEntry), Entry("m", "", KeyEntry)];
  }

  /** An unterminated `{` pushes `<<pattern_error>>` ahead of the pending
      literal, which is kept, and scanning resumes just after the `%`. */
  lemma UnterminatedRescans(key: string, arg: string, nstr: string)
    requires forall k :: 0 <= k < |key| ==> IsKeyChar(key[k])
    requires forall k :: 0 <= k < |arg| ==> arg[k] != '}'
    ensures Scan("%" + key + "{" + arg, nstr) ==
            [Entry(PatternError, "", TextEntry)] + Scan(key + "{" + arg, nstr)
  {
    var s := "%" + key + "{" + arg;
    KeyEndIs(s, 1, 1 + |key|);
    FindCloseIs(s, 2 + |key|, |s|);
    assert s[1..] == key + "{" + arg;
  }

  /** An unterminated `%key{text` with `%`-free text: the error marker, then
      everything after the `%` as one literal; the `%` itself is dropped. */
  lemma CompileUnterminated(key: string, t: string)
    requires forall k :: 0 <= k < |key| ==> IsKeyChar(key[k])
    requires forall k :: 0 <= k < |t| ==> t[k] != '}' && t[k] != '%'
    ensures Compile("%" + key + "{" + t) == [StringItem(PatternError), StringItem(key + "{" + t)]
  {
    var rest := key + "{" + t;
    UnterminatedRescans(key, t, "");
    assert forall k :: 0 <= k < |rest| ==> rest[k] != '%' by {
      forall k | 0 <= k < |rest|
        ensures rest[k] != '%'
      {
        if k < |key| {
          assert rest[k] == key[k];
        } else if k > |key| {
          assert rest[k] == t[k - |key| - 1];
        }
      }
    }
    assert rest + "" == rest;
    LiteralRun(rest, "", "");
    assert "" + rest == rest;
    assert Entries("%" + key + "{" + t) ==
      [Entry(PatternError, "", TextEntry), Entry(rest, "", TextEntry)];
  }
}
