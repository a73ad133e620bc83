/** The pattern compiler of `LogFormatter`: a single left-to-right scan that
    turns a pattern string into (text, argument, kind) entries, then a table
    lookup that turns every entry into a format item. Compilation never fails:
    malformed directives become in-band error text. */
module Pattern {
  import opened Wrappers

  /** The strftime format a `%d` directive uses when its argument is empty. */
  const DefaultDateFormat: string := "%Y-%m-%d %H:%M:%S"

  /** The pattern every `Logger` gives its own formatter. */
  const LoggerDefaultPattern: string := "%d{%Y-%m-%d %H:%M:%S}%T%t%T%F%T[%p]%T[%c]%T%f:%l%T%m%n"

  /** The literal pushed for a `{` that is never closed. */
  const PatternError: string := "<<pattern_error>>"

  /** One compiled format item; one constructor per `*FormatItem` class. */
  datatype Item =
    | MessageItem
    | LevelItem
    | ElapseItem
    | NameItem
    | ThreadIdItem
    | FiberIdItem
    | DateTimeItem(format: string)
    | FilenameItem
    | LineItem
    | NewLineItem
    | TabItem
    | StringItem(text: string)

  /** The scanner's third tuple component: 0 for literal text, 1 for a directive. */
  datatype EntryKind = TextEntry | KeyEntry

  /** The scanner's intermediate (str, fmt, type) triple. */
  datatype Entry = Entry(str: string, fmt: string, kind: EntryKind)

  /** `isalpha` in the C locale. */
  predicate IsAlpha(c: char) {
    'a' <= c <= 'z' || 'A' <= c <= 'Z'
  }

  /** Characters that extend a directive key: letters, and also `}`, which the
      scanner's terminator test does not exclude. */
  predicate IsKeyChar(c: char) {
    IsAlpha(c) || c == '}'
  }

  /** End of the maximal run of key characters of `s` starting at `j`. */
  function KeyEnd(s: string, j: nat): (k: nat)
    requires j <= |s|
    ensures j <= k <= |s|
    ensures forall t :: j <= t < k ==> IsKeyChar(s[t])
    ensures k < |s| ==> !IsKeyChar(s[k])
    decreases |s| - j
  {
    if j == |s| || !IsKeyChar(s[j]) then j else KeyEnd(s, j + 1)
  }

  /** Position of the first `}` in `s` at or after `j`, or `|s|` if there is none. */
  function FindClose(s: string, j: nat): (k: nat)
    requires j <= |s|
    ensures j <= k <= |s|
    ensures forall t :: j <= t < k ==> s[t] != '}'
    ensures k < |s| ==> s[k] == '}'
    decreases |s| - j
  {
    if j == |s| || s[j] == '}' then j else FindClose(s, j + 1)
  }

  /** The outcome of the directive state machine started on a `%`: a key, an
      argument and the offset where scanning resumes, or a `{` left open. */
  datatype DirectiveScan = Closed(key: string, arg: string, next: nat) | Unterminated

  /** The directive at the head of `s` (which starts with `%`): the key is the
      run of key characters after the `%`; a `{` right after it opens an
      argument that runs to the first `}`. */
  function ReadDirective(s: string): (d: DirectiveScan)
    requires |s| >= 1 && s[0] == '%'
    ensures d.Closed? ==> 1 <= d.next <= |s|
  {
    var k := KeyEnd(s, 1);
    if k < |s| && s[k] == '{' then
      var j := FindClose(s, k + 1);
      if j < |s| then Closed(s[1..k], s[k + 1..j], j + 1) else Unterminated
    else
      Closed(s[1..k], "", k)
  }

  /** The pending literal as an entry list: nothing if empty. */
  function Flush(nstr: string): (r: seq<Entry>)
    ensures |r| <= 1
    ensures r == [] <==> nstr == ""
  {
    if nstr == "" then [] else [Entry(nstr, "", TextEntry)]
  }

  /** The entries produced by scanning the rest `s` of the pattern while
      `nstr` is the pending literal. */
  function Scan(s: string, nstr: string): seq<Entry>
    decreases |s|
  {
    if s == [] then Flush(nstr)
    else if s[0] != '%' then Scan(s[1..], nstr + [s[0]])
    else if |s| > 1 && s[1] == '%' then Scan(s[1..], nstr + "%")
    else
      match ReadDirective(s)
      case Closed(key, arg, next) => Flush(nstr) + [Entry(key, arg, KeyEntry)] + Scan(s[next..], "")
      case Unterminated => [Entry(PatternError, "", TextEntry)] + Scan(s[1..], nstr)
  }

  /** The entry list of a whole pattern. */
  function Entries(pattern: string): seq<Entry> {
    Scan(pattern, "")
  }

  /** The static key table; `d` takes its argument, defaulting when empty. */
  function KeyItem(key: string, fmt: string): (r: Option<Item>)
    ensures r.Some? <==> key in {"m", "p", "r", "c", "t", "F", "d", "f", "l", "n", "T"}
    ensures r.Some? ==> !r.value.StringItem?
    ensures key == "d" ==> r == Some(DateTimeItem(if fmt == "" then DefaultDateFormat else fmt))
  {
    if key == "m" then Some(MessageItem)
    else if key == "p" then Some(LevelItem)
    else if key == "r" then Some(ElapseItem)
    else if key == "c" then Some(NameItem)
    else if key == "t" then Some(ThreadIdItem)
    else if key == "F" then Some(FiberIdItem)
    else if key == "d" then Some(DateTimeItem(if fmt == "" then DefaultDateFormat else fmt))
    else if key == "f" then Some(FilenameItem)
    else if key == "l" then Some(LineItem)
    else if key == "n" then Some(NewLineItem)
    else if key == "T" then Some(TabItem)
    else None
  }

  /** The error text for a key missing from the table. */
  function ErrorFormat(key: string): string {
    "<<error_format %" + key + ">>"
  }

  /** The item an entry becomes. */
  function ToItem(e: Entry): Item {
    if e.kind == TextEntry then StringItem(e.str)
    else
      match KeyItem(e.str, e.fmt)
      case Some(item) => item
      case None => StringItem(ErrorFormat(e.str))
  }

  /** The item sequence a formatter built from `pattern` holds. */
  function Compile(pattern: string): seq<Item> {
    var es := Entries(pattern);
    seq(|es|, k requires 0 <= k < |es| => ToItem(es[k]))
  }

  lemma {:induction false} KeyEndIs(s: string, j: nat, k: nat)
    requires j <= k <= |s|
    requires forall t :: j <= t < k ==> IsKeyChar(s[t])
    requires k < |s| ==> !IsKeyChar(s[k])
    ensures KeyEnd(s, j) == k
    decreases k - j
  {
    if j < k {
      KeyEndIs(s, j + 1, k);
    }
  }

  lemma {:induction false} FindCloseIs(s: string, j: nat, k: nat)
    requires j <= k <= |s|
    requires forall t :: j <= t < k ==> s[t] != '}'
    requires k < |s| ==> s[k] == '}'
    ensures FindClose(s, j) == k
    decreases k - j
  {
    if j < k {
      FindCloseIs(s, j + 1, k);
    }
  }

  lemma SliceOfSlice(p: string, i: nat, a: nat, b: nat)
    requires i <= |p| && a <= b <= |p| - i
    ensures p[i..][a..b] == p[i + a..i + b]
  {
    forall t | 0 <= t < b - a
      ensures p[i..][a..b][t] == p[i + a..i + b][t]
    {
    }
  }

  /** A directive whose key, the run of key characters in `(i, n)`, is not
      followed by `{`. */
  lemma BareDirective(p: string, i: nat, n: nat)
    requires i < n <= |p| && p[i] == '%'
    requires forall t :: i < t < n ==> IsKeyChar(p[t])
    requires n < |p| ==> !IsKeyChar(p[n]) && p[n] != '{'
    ensures ReadDirective(p[i..]) == Closed(p[i + 1..n], "", n - i)
  {
    var s := p[i..];
    KeyEndIs(s, 1, n - i);
    SliceOfSlice(p, i, 1, n - i);
  }

  /** A directive whose key in `(i, b)` is followed by `{` at `b` and whose
      argument is closed by the first `}`, at `n`. */
  lemma ArgDirective(p: string, i: nat, b: nat, n: nat)
    requires i < b < n < |p| && p[i] == '%'
    requires forall t :: i < t < b ==> IsKeyChar(p[t])
    requires p[b] == '{' && p[n] == '}'
    requires forall t :: b < t < n ==> p[t] != '}'
    ensures ReadDirective(p[i..]) == Closed(p[i + 1..b], p[b + 1..n], n + 1 - i)
  {
    var s := p[i..];
    KeyEndIs(s, 1, b - i);
    FindCloseIs(s, b - i + 1, n - i);
    SliceOfSlice(p, i, 1, b - i);
    SliceOfSlice(p, i, b - i + 1, n - i);
  }

  /** A directive whose `{` at `b` is never closed. */
  lemma OpenDirective(p: string, i: nat, b: nat)
    requires i < b < |p| && p[i] == '%'
    requires forall t :: i < t < b ==> IsKeyChar(p[t])
    requires p[b] == '{'
    requires forall t :: b < t < |p| ==> p[t] != '}'
    ensures ReadDirective(p[i..]) == Unterminated
  {
    var s := p[i..];
    KeyEndIs(s, 1, b - i);
    FindCloseIs(s, b - i + 1, |s|);
  }

  /** The inner loop of `LogFormatter::init`, started on the `%` at `i`:
      the `fmt_status` state machine collecting the key `str` and the
      argument `fmt`; `n` is the first position it did not consume. */
  method ReadDirectiveAt(pattern: string, i: nat) returns (status: int, str: string, fmt: string, n: nat)
    requires i < |pattern| && pattern[i] == '%'
    ensures status == 0 || status == 1
    ensures status == 0 ==> i < n <= |pattern| && ReadDirective(pattern[i..]) == Closed(str, fmt, n - i)
    ensures status == 1 ==> ReadDirective(pattern[i..]) == Unterminated && fmt == ""
  {
    n := i + 1;
    status := 0;
    var fmtBegin := 0;
    str := "";
    fmt := "";
    ghost var exited := false;
    while n < |pattern|
      invariant i + 1 <= n <= |pattern|
      invariant !exited
      invariant status == 0 || status == 1
      invariant fmt == ""
      invariant status == 0 ==> forall t :: i < t < n ==> IsKeyChar(pattern[t])
      invariant status == 0 && n < |pattern| ==> str == ""
      invariant status == 0 && n == |pattern| ==> str == pattern[i + 1..]
      invariant status == 1 ==> i < fmtBegin < n && pattern[fmtBegin] == '{'
      invariant status == 1 ==> forall t :: i < t < fmtBegin ==> IsKeyChar(pattern[t])
      invariant status == 1 ==> forall t :: fmtBegin < t < n ==> pattern[t] != '}'
      invariant status == 1 && n < |pattern| ==> str == pattern[i + 1..fmtBegin]
    {
      var ch := pattern[n];
      if status == 0 && !IsAlpha(ch) && ch != '{' && ch != '}' {
        str := pattern[i + 1..n];
        BareDirective(pattern, i, n);
        exited := true;
        break;
      }
      if status == 0 {
        if ch == '{' {
          str := pattern[i + 1..n];
          status := 1;
          fmtBegin := n;
          n := n + 1;
          continue;
        }
      } else if status == 1 {
        if ch == '}' {
          ArgDirective(pattern, i, fmtBegin, n);
          fmt := pattern[fmtBegin + 1..n];
          status := 0;
          n := n + 1;
          exited := true;
          break;
        }
      }
      n := n + 1;
      if n == |pattern| {
        if str == "" {
          str := pattern[i + 1..];
        }
      }
    }
    if !exited {
      if status == 0 {
        BareDirective(pattern, i, n);
      } else {
        OpenDirective(pattern, i, fmtBegin);
      }
    }
  }

  /** The scanner's step on a character other than `%`. */
  lemma ScanTextStep(pattern: string, i: nat, nstr: string)
    requires i < |pattern| && pattern[i] != '%'
    ensures Scan(pattern[i..], nstr) == Scan(pattern[i + 1..], nstr + [pattern[i]])
  {
    assert pattern[i..][1..] == pattern[i + 1..];
  }

  /** The scanner's step on `%%`: one `%` for the pending literal, one position on. */
  lemma ScanEscapeStep(pattern: string, i: nat, nstr: string)
    requires i + 1 < |pattern| && pattern[i] == '%' && pattern[i + 1] == '%'
    ensures Scan(pattern[i..], nstr) == Scan(pattern[i + 1..], nstr + "%")
  {
    assert pattern[i..][1..] == pattern[i + 1..];
  }

  /** The scanner's step on a `%` that starts a directive: what the loop has
      emitted, the flushed literal, the directive and the rest still add up
      to the whole entry list `all`. */
  lemma ScanClosedStep(pattern: string, i: nat, nstr: string, key: string, arg: string, next: nat,
                       vec: seq<Entry>, all: seq<Entry>)
    requires i < |pattern| && pattern[i] == '%'
    requires !(i + 1 < |pattern| && pattern[i + 1] == '%')
    requires ReadDirective(pattern[i..]) == Closed(key, arg, next)
    requires vec + Scan(pattern[i..], nstr) == all
    ensures i + next <= |pattern|
    ensures (vec + Flush(nstr) + [Entry(key, arg, KeyEntry)]) + Scan(pattern[i + next..], "") == all
  {
    assert pattern[i..][next..] == pattern[i + next..];
  }

  /** The scanner's step on a `%` whose `{` is never closed. */
  lemma ScanUnterminatedStep(pattern: string, i: nat, nstr: string, vec: seq<Entry>, all: seq<Entry>)
    requires i < |pattern| && pattern[i] == '%'
    requires !(i + 1 < |pattern| && pattern[i + 1] == '%')
    requires ReadDirective(pattern[i..]) == Unterminated
    requires vec + Scan(pattern[i..], nstr) == all
    ensures (vec + [Entry(PatternError, "", TextEntry)]) + Scan(pattern[i + 1..], nstr) == all
  {
    assert pattern[i..][1..] == pattern[i + 1..];
  }

  /** The first phase of `LogFormatter::init`: the index loop over the
      pattern with the pending literal `nstr`. */
  method ParsePattern(pattern: string) returns (vec: seq<Entry>)
    ensures vec == Entries(pattern)
  {
    ghost var all := Entries(pattern);
    vec := [];
    var nstr := "";
    var i := 0;
    while i < |pattern|
      invariant 0 <= i <= |pattern|
      invariant vec + Scan(pattern[i..], nstr) == all
    {
      if pattern[i] != '%' {
        ScanTextStep(pattern, i, nstr);
        nstr := nstr + [pattern[i]];
        i := i + 1;
        continue;
      }
      if i + 1 < |pattern| && pattern[i + 1] == '%' {
        ScanEscapeStep(pattern, i, nstr);
        nstr := nstr + "%";
        i := i + 1;
        continue;
      }
      var status, str, fmt, n := ReadDirectiveAt(pattern, i);
      if status == 0 {
        ScanClosedStep(pattern, i, nstr, str, fmt, n - i, vec, all);
        ghost var emitted := vec + Flush(nstr) + [Entry(str, fmt, KeyEntry)];
        if nstr != "" {
          vec := vec + [Entry(nstr, "", TextEntry)];
          nstr := "";
        }
        vec := vec + [Entry(str, fmt, KeyEntry)];
        assert vec == emitted;
        i := n - 1;
      } else if status == 1 {
        ScanUnterminatedStep(pattern, i, nstr, vec, all);
        vec := vec + [Entry(PatternError, fmt, TextEntry)];
      }
      i := i + 1;
    }
    if nstr != "" {
      vec := vec + [Entry(nstr, "", TextEntry)];
    }
  }

  /** The second phase of `LogFormatter::init`: every entry through the key table. */
  method ResolveEntries(vec: seq<Entry>) returns (items: seq<Item>)
    ensures |items| == |vec|
    ensures forall k :: 0 <= k < |vec| ==> items[k] == ToItem(vec[k])
  {
    items := [];
    for k := 0 to |vec|
      invariant |items| == k
      invariant forall j :: 0 <= j < k ==> items[j] == ToItem(vec[j])
    {
      var v := vec[k];
      if v.kind == TextEntry {
        items := items + [StringItem(v.str)];
      } else {
        var found := KeyItem(v.str, v.fmt);
        if found.None? {
          items := items + [StringItem("<<error_format %" + v.str + ">>")];
        } else {
          items := items + [found.value];
        }
      }
    }
  }

  /** `LogFormatter::init` as a whole. */
  method CompilePattern(pattern: string) returns (items: seq<Item>)
    ensures items == Compile(pattern)
  {
    var vec := ParsePattern(pattern);
    items := ResolveEntries(vec);
  }
}
