/** The character scanners for Valve's KeyValues text: comments, quoted strings, braces, top-level sections. */
module Scanners {
  import opened Prelude

  /** Where a scanner stands: outside strings, inside one, or behind a backslash in one. */
  datatype Mode = Outside | Inside | Escaped

  function Next(mode: Mode, c: char): Mode {
    match mode
    case Outside => if c == '"' then Inside else Outside
    case Inside => if c == '\\' then Escaped else if c == '"' then Outside else Inside
    case Escaped => Inside
  }

  // ----- Line scanners -----

  /** The text up to the first `//` outside strings. */
  function Strip(s: string, mode: Mode): string {
    if s == "" || (mode == Outside && "//" <= s) then "" else [s[0]] + Strip(s[1..], Next(mode, s[0]))
  }

  /** The strings that end in `s`; `current` is what the open one holds so far. */
  function Quoted(s: string, mode: Mode, current: string): seq<string>
    decreases s
  {
    if s == "" then []
    else
      var next := Next(mode, s[0]);
      match mode
      case Outside => Quoted(s[1..], next, if s[0] == '"' then "" else current)
      case Escaped => Quoted(s[1..], next, current + [if s[0] == 'n' then '\n' else s[0]])
      case Inside =>
        if s[0] == '\\' then Quoted(s[1..], next, current)
        else if s[0] == '"' then [current] + Quoted(s[1..], next, "")
        else Quoted(s[1..], next, current + [s[0]])
  }

  /** The number of opening less the number of closing braces outside strings. */
  function Delta(s: string, mode: Mode): int {
    if s == "" then 0 else BraceStep(mode, s[0]) + Delta(s[1..], Next(mode, s[0]))
  }

  function BraceStep(mode: Mode, c: char): int {
    if mode != Outside then 0 else if c == '{' then 1 else if c == '}' then -1 else 0
  }

  /** A comment starts here. */
  predicate CommentAt(line: string, i: nat, mode: Mode) {
    mode == Outside && i + 1 < |line| && line[i] == '/' && line[i + 1] == '/'
  }

  /** What one character does to what is kept. */
  lemma {:induction false} StripStep(line: string, i: nat, mode: Mode)
    requires i < |line|
    ensures line[..i] + Strip(line[i..], mode)
         == if CommentAt(line, i, mode) then line[..i] else line[..i + 1] + Strip(line[i + 1..], Next(mode, line[i]))
  {
    var s := line[i..];
    assert s[0] == line[i] && s[1..] == line[i + 1..];
    if CommentAt(line, i, mode) {
      assert s[..2] == "//";
    } else {
      assert line[..i + 1] == line[..i] + [line[i]];
      ConcatAssociative(line[..i], [line[i]], Strip(line[i + 1..], Next(mode, line[i])));
    }
  }

  method StripLineComments(line: string) returns (kept: string)
    ensures kept == Strip(line, Outside)
  {
    var mode := Outside;
    for i := 0 to |line|
      invariant line[..i] + Strip(line[i..], mode) == Strip(line, Outside)
    {
      var c := line[i];
      StripStep(line, i, mode);
      if mode == Outside && c == '/' && i + 1 < |line| && line[i + 1] == '/' {
        return line[..i];
      }
      mode := Next(mode, c);
    }
    kept := line;
  }

  method CountBraceDelta(line: string) returns (delta: int)
    ensures delta == Delta(line, Outside)
  {
    var mode := Outside;
    delta := 0;
    for i := 0 to |line|
      invariant delta + Delta(line[i..], mode) == Delta(line, Outside)
    {
      assert line[i..][1..] == line[i + 1..];
      delta := delta + BraceStep(mode, line[i]);
      mode := Next(mode, line[i]);
    }
  }

  method ExtractQuotedStrings(line: string) returns (strings: seq<string>)
    ensures strings == Quoted(line, Outside, "")
  {
    strings := [];
    var current, mode := "", Outside;
    for i := 0 to |line|
      invariant strings + Quoted(line[i..], mode, current) == Quoted(line, Outside, "")
    {
      var c := line[i];
      assert line[i..][1..] == line[i + 1..];
      ghost var rest := Quoted(line[i..], mode, current);
      match mode {
        case Outside =>
          if c == '"' {
            current := "";
          }
        case Escaped =>
          current := current + [if c == 'n' then '\n' else c];
        case Inside =>
          if c == '"' {
            assert strings + ([current] + Quoted(line[i + 1..], Outside, "")) == strings + [current] + Quoted(line[i + 1..], Outside, "");
            strings := strings + [current];
            current := "";
          } else if c != '\\' {
            current := current + [c];
          }
      }
      mode := Next(mode, c);
    }
  }

  // ----- Printing and reading back a line -----

  function EscapeChar(c: char): string {
    if c == '\\' then "\\\\" else if c == '"' then "\\\"" else if c == '\n' then "\\n" else [c]
  }

  /** A string as it is written between quotes. */
  function Escape(s: string): string {
    if s == "" then "" else EscapeChar(s[0]) + Escape(s[1..])
  }

  function Quote(s: string): string {
    "\"" + Escape(s) + "\""
  }

  /** One quoted string, and what stands before it on its line. */
  datatype Item = Item(gap: string, text: string)

  predicate IsGap(s: string) {
    '"' !in s && '/' !in s
  }

  predicate AllGaps(items: seq<Item>) {
    items == [] || (IsGap(items[0].gap) && AllGaps(items[1..]))
  }

  function PrintLine(items: seq<Item>): string {
    if items == [] then "" else items[0].gap + Quote(items[0].text) + PrintLine(items[1..])
  }

  function Texts(items: seq<Item>): seq<string> {
    if items == [] then [] else [items[0].text] + Texts(items[1..])
  }

  /** A quoted string is a quote, what is written between, and another. */
  lemma QuoteThen(s: string, rest: string)
    ensures Quote(s) + rest == ['"'] + (Escape(s) + (['"'] + rest))
  {
    ConcatAssociative(['"'] + Escape(s), ['"'], rest);
    ConcatAssociative(['"'], Escape(s), ['"'] + rest);
  }

  lemma StripHead(c: char, rest: string, mode: Mode)
    requires mode != Outside || c != '/'
    ensures Strip([c] + rest, mode) == [c] + Strip(rest, Next(mode, c))
  {
    var s := [c] + rest;
    assert s[0] == c && s[1..] == rest;
  }

  lemma {:induction false} StripKeepsGap(gap: string, rest: string)
    requires IsGap(gap)
    ensures Strip(gap + rest, Outside) == gap + Strip(rest, Outside)
  {
    if gap == "" {
      assert gap + rest == rest;
    } else {
      var c, more := gap[0], gap[1..];
      assert gap == [c] + more;
      StripKeepsGap(more, rest);
      ConcatAssociative([c], more, rest);
      StripHead(c, more + rest, Outside);
      ConcatAssociative([c], more, Strip(rest, Outside));
    }
  }

  lemma StripKeepsChar(c: char, rest: string)
    ensures Strip(EscapeChar(c) + rest, Inside) == EscapeChar(c) + Strip(rest, Inside)
  {
    var head := EscapeChar(c);
    if |head| == 2 {
      assert head == ['\\'] + [head[1]];
      ConcatAssociative(['\\'], [head[1]], rest);
      StripHead('\\', [head[1]] + rest, Inside);
      StripHead(head[1], rest, Escaped);
      ConcatAssociative(['\\'], [head[1]], Strip(rest, Inside));
    } else {
      StripHead(c, rest, Inside);
    }
  }

  lemma {:induction false} StripKeepsEscaped(s: string, rest: string)
    ensures Strip(Escape(s) + rest, Inside) == Escape(s) + Strip(rest, Inside)
  {
    if s == "" {
      assert Escape(s) + rest == rest;
    } else {
      var head, tail := EscapeChar(s[0]), Escape(s[1..]);
      ConcatAssociative(head, tail, rest);
      StripKeepsChar(s[0], tail + rest);
      StripKeepsEscaped(s[1..], rest);
      ConcatAssociative(head, tail, Strip(rest, Inside));
    }
  }

  lemma StripKeepsQuote(s: string, rest: string)
    ensures Strip(Quote(s) + rest, Outside) == Quote(s) + Strip(rest, Outside)
  {
    var inner := ['"'] + rest;
    QuoteThen(s, rest);
    StripHead('"', Escape(s) + inner, Outside);
    StripKeepsEscaped(s, inner);
    StripHead('"', rest, Inside);
    QuoteThen(s, Strip(rest, Outside));
  }

  lemma {:induction false} QuotedSkipsGap(gap: string, rest: string, current: string)
    requires IsGap(gap)
    ensures Quoted(gap + rest, Outside, current) == Quoted(rest, Outside, current)
  {
    if gap == "" {
      assert gap + rest == rest;
    } else {
      QuotedSkipsGap(gap[1..], rest, current);
      assert (gap + rest)[1..] == gap[1..] + rest;
    }
  }

  lemma QuotedReadsChar(c: char, rest: string, current: string)
    ensures Quoted(EscapeChar(c) + rest, Inside, current) == Quoted(rest, Inside, current + [c])
  {
    var head := EscapeChar(c);
    if |head| == 2 {
      var tail := [head[1]] + rest;
      assert (head + rest)[1..] == tail && tail[1..] == rest;
    } else {
      assert (head + rest)[1..] == rest;
    }
  }

  lemma {:induction false} QuotedReadsEscaped(s: string, rest: string, current: string)
    ensures Quoted(Escape(s) + rest, Inside, current) == Quoted(rest, Inside, current + s)
    decreases s
  {
    if s == "" {
      assert Escape(s) + rest == rest && current + s == current;
    } else {
      ConcatAssociative(EscapeChar(s[0]), Escape(s[1..]), rest);
      QuotedReadsChar(s[0], Escape(s[1..]) + rest, current);
      QuotedReadsEscaped(s[1..], rest, current + [s[0]]);
      ConcatAssociative(current, [s[0]], s[1..]);
      assert [s[0]] + s[1..] == s;
    }
  }

  lemma QuotedReadsQuote(s: string, rest: string, current: string)
    ensures Quoted(Quote(s) + rest, Outside, current) == [s] + Quoted(rest, Outside, "")
  {
    var text := Quote(s) + rest;
    var inner := "\"" + rest;
    assert text[1..] == Escape(s) + inner;
    QuotedReadsEscaped(s, inner, "");
    assert "" + s == s;
    assert inner[1..] == rest;
  }

  lemma StripKeepsItem(item: Item, rest: string)
    requires IsGap(item.gap)
    ensures Strip(item.gap + Quote(item.text) + rest, Outside) == item.gap + Quote(item.text) + Strip(rest, Outside)
  {
    var quote := Quote(item.text);
    ConcatAssociative(item.gap, quote, rest);
    StripKeepsGap(item.gap, quote + rest);
    StripKeepsQuote(item.text, rest);
    ConcatAssociative(item.gap, quote, Strip(rest, Outside));
  }

  /** Any comment behind a printed line is stripped, and nothing else. */
  lemma {:induction false} StripPrinted(items: seq<Item>, comment: string)
    requires AllGaps(items)
    requires comment == "" || "//" <= comment
    ensures Strip(PrintLine(items) + comment, Outside) == PrintLine(items)
  {
    if items == [] {
      assert PrintLine(items) + comment == comment;
    } else {
      var first, rest := items[0].gap + Quote(items[0].text), PrintLine(items[1..]);
      StripPrinted(items[1..], comment);
      StripKeepsItem(items[0], rest + comment);
      ConcatAssociative(first, rest, comment);
    }
  }

  lemma {:induction false} QuotedPrinted(items: seq<Item>, current: string)
    requires AllGaps(items)
    ensures Quoted(PrintLine(items), Outside, current) == Texts(items)
    decreases items
  {
    if items != [] {
      var rest := PrintLine(items[1..]);
      assert PrintLine(items) == items[0].gap + (Quote(items[0].text) + rest);
      QuotedSkipsGap(items[0].gap, Quote(items[0].text) + rest, current);
      QuotedReadsQuote(items[0].text, rest, current);
      QuotedPrinted(items[1..], "");
    }
  }

  /** Whatever strings a line holds, and whatever comment follows: they are read back as they were written. */
  lemma LineRoundTrip(items: seq<Item>, comment: string)
    requires AllGaps(items)
    requires comment == "" || "//" <= comment
    ensures Quoted(Strip(PrintLine(items) + comment, Outside), Outside, "") == Texts(items)
  {
    StripPrinted(items, comment);
    QuotedPrinted(items, "");
  }

  // ----- Top-level sections -----

  predicate MatchesAt(text: string, i: nat, pattern: string) {
    i + |pattern| <= |text| && text[i..i + |pattern|] == pattern
  }

  /** `text.indexOf(pattern, from)`. */
  function IndexOf(text: string, pattern: string, from: nat): (i: int)
    ensures i == -1 || (from <= i && MatchesAt(text, i, pattern))
    decreases |text| - from
  {
    if from + |pattern| > |text| then -1
    else if MatchesAt(text, from, pattern) then from
    else IndexOf(text, pattern, from + 1)
  }

  /** How far to the brace that closes the `depth` open ones, itself included; -1 if none does. */
  function MatchEnd(s: string, mode: Mode, depth: int): (e: int)
    ensures e == -1 || 1 <= e <= |s|
    decreases s
  {
    if s == "" then -1
    else if mode == Outside && s[0] == '}' && depth == 1 then 1
    else Shift(MatchEnd(s[1..], Next(mode, s[0]), depth + BraceStep(mode, s[0])), 1)
  }

  function Shift(e: int, n: nat): int { if e < 0 then -1 else e + n }

  /** How a section of this name begins: a tab before its name, a brace on the next line. */
  function Marker(name: string): string {
    "\n\t\"" + name + "\"\n\t{"
  }

  /** The sections of this name in `s`, from the tab before the name to the closing brace. */
  function Blocks(s: string, name: string): seq<string>
    decreases |s|
  {
    if s == "" then []
    else if Marker(name) <= s then
      var brace := IndexOf(s, "{", 1);
      var end := if brace < 0 then -1 else Shift(MatchEnd(s[brace..], Outside, 0), brace);
      if end < 0 then [] else [s[1..end]] + Blocks(s[end..], name)
    else Blocks(s[1..], name)
  }

  lemma PrefixOfSuffix(text: string, from: nat, pattern: string)
    requires from <= |text|
    ensures pattern <= text[from..] <==> MatchesAt(text, from, pattern)
  {
    if from + |pattern| <= |text| {
      assert text[from..][..|pattern|] == text[from..from + |pattern|];
    }
  }

  lemma {:induction false} BlocksStartAtMarker(text: string, name: string, from: nat)
    requires from <= |text|
    ensures var m := IndexOf(text, Marker(name), from);
            if m < 0 then Blocks(text[from..], name) == []
            else Marker(name) <= text[m..] && Blocks(text[from..], name) == Blocks(text[m..], name)
    decreases |text| - from
  {
    PrefixOfSuffix(text, from, Marker(name));
    if !MatchesAt(text, from, Marker(name)) && from < |text| {
      SuffixOfSuffix(text, from, from + 1);
      BlocksStartAtMarker(text, name, from + 1);
    }
  }

  /** The characters of `tail` are those of `text` from `m` on. */
  ghost predicate TailAt(tail: string, text: string, m: nat) {
    |tail| + m == |text| && forall j :: 0 <= j < |tail| ==> tail[j] == text[m + j]
  }

  lemma {:induction false} MatchesShifted(tail: string, text: string, m: nat, i: nat, pattern: string)
    requires TailAt(tail, text, m)
    ensures MatchesAt(tail, i, pattern) <==> MatchesAt(text, m + i, pattern)
  {
    if i + |pattern| <= |tail| {
      var a, b := tail[i..i + |pattern|], text[m + i..m + i + |pattern|];
      assert forall j :: 0 <= j < |pattern| ==> a[j] == tail[i + j] == text[m + i + j] == b[j];
      assert a == b;
    }
  }

  lemma {:induction false} IndexOfShifted(tail: string, text: string, pattern: string, m: nat, k: nat)
    requires TailAt(tail, text, m)
    ensures IndexOf(tail, pattern, k) == (var i := IndexOf(text, pattern, m + k); if i < 0 then -1 else i - m)
    decreases |text| - k
  {
    if k + |pattern| <= |tail| {
      MatchesShifted(tail, text, m, k, pattern);
      if !MatchesAt(tail, k, pattern) {
        IndexOfShifted(tail, text, pattern, m, k + 1);
      }
    }
  }

  lemma {:induction false} IndexOfInSuffix(text: string, pattern: string, m: nat, from: nat)
    requires m <= from && m <= |text|
    ensures IndexOf(text[m..], pattern, from - m) == (var i := IndexOf(text, pattern, from); if i < 0 then -1 else i - m)
  {
    IndexOfShifted(text[m..], text, pattern, m, from - m);
  }

  /** The character loop: counts braces outside strings from `braceStart` on. */
  method FindClosing(text: string, braceStart: nat) returns (endIndex: int)
    requires braceStart <= |text|
    ensures endIndex == Shift(MatchEnd(text[braceStart..], Outside, 0), braceStart)
  {
    var depth, mode := 0, Outside;
    for index := braceStart to |text|
      invariant Shift(MatchEnd(text[braceStart..], Outside, 0), braceStart) == Shift(MatchEnd(text[index..], mode, depth), index)
    {
      var c := text[index];
      assert text[index..][1..] == text[index + 1..];
      if mode == Outside && c == '}' && depth == 1 {
        return index + 1;
      }
      depth := depth + BraceStep(mode, c);
      mode := Next(mode, c);
    }
    endIndex := -1;
  }

  lemma BlocksUnfold(s: string, name: string, brace: int, end: int)
    requires Marker(name) <= s && brace == IndexOf(s, "{", 1)
    requires end == if brace < 0 then -1 else Shift(MatchEnd(s[brace..], Outside, 0), brace)
    ensures if end < 0 then Blocks(s, name) == []
            else 1 <= end <= |s| && Blocks(s, name) == [s[1..end]] + Blocks(s[end..], name)
  {
  }

  /** One round of the search, in terms of positions in the whole text. */
  lemma BlocksStep(text: string, name: string, m: nat, brace: int, end: int)
    requires m < |text| && Marker(name) <= text[m..]
    requires brace == IndexOf(text, "{", m + 1)
    requires end == if brace < 0 then -1 else Shift(MatchEnd(text[brace..], Outside, 0), brace)
    ensures if end < 0 then Blocks(text[m..], name) == []
            else m + 1 <= end <= |text| && Blocks(text[m..], name) == [text[m + 1..end]] + Blocks(text[end..], name)
  {
    var s := text[m..];
    IndexOfInSuffix(text, "{", m, m + 1);
    var brace' := if brace < 0 then -1 else brace - m;
    var end' := if end < 0 then -1 else end - m;
    if brace >= 0 {
      SuffixOfSuffix(text, m, brace);
    }
    BlocksUnfold(s, name, brace', end');
    if end >= 0 {
      SuffixOfSuffix(text, m, end);
      SliceOfSuffix(text, m, m + 1, end);
    }
  }

  lemma SuffixOfSuffix(text: string, m: nat, i: nat)
    requires m <= i <= |text|
    ensures text[m..][i - m..] == text[i..]
  {
  }

  lemma SliceOfSuffix(text: string, m: nat, i: nat, j: nat)
    requires m <= i <= j <= |text|
    ensures text[m..][i - m..j - m] == text[i..j]
  {
  }

  /** The next section at or behind `startFrom`; a negative end when there is none or it is never closed. */
  method NextSection(text: string, name: string, startFrom: nat) returns (keyStart: int, endIndex: int)
    requires startFrom <= |text|
    ensures if endIndex < 0 then Blocks(text[startFrom..], name) == []
            else && startFrom < keyStart <= endIndex <= |text|
                 && Blocks(text[startFrom..], name) == [text[keyStart..endIndex]] + Blocks(text[endIndex..], name)
  {
    BlocksStartAtMarker(text, name, startFrom);
    var markerIndex := IndexOf(text, Marker(name), startFrom);
    if markerIndex < 0 {
      return -1, -1;
    }
    keyStart := markerIndex + 1;
    var braceStart := IndexOf(text, "{", keyStart);
    endIndex := -1;
    if braceStart >= 0 {
      endIndex := FindClosing(text, braceStart);
    }
    BlocksStep(text, name, markerIndex, braceStart, endIndex);
  }

  method ExtractTopLevelSectionBlocks(text: string, name: string) returns (blocks: seq<string>)
    ensures blocks == Blocks(text, name)
  {
    var startFrom: nat := 0;
    blocks := [];
    assert text[0..] == text;
    while true
      invariant startFrom <= |text| && blocks + Blocks(text[startFrom..], name) == Blocks(text, name)
      decreases |text| - startFrom
    {
      var keyStart, endIndex := NextSection(text, name, startFrom);
      if endIndex < 0 {
        break;
      }
      ghost var rest := Blocks(text[endIndex..], name);
      assert blocks + ([text[keyStart..endIndex]] + rest) == blocks + [text[keyStart..endIndex]] + rest;
      blocks := blocks + [text[keyStart..endIndex]];
      startFrom := endIndex;
    }
  }

  // ----- Printed documents -----

  datatype KV = Leaf(key: string, value: string) | Node(key: string, children: seq<KV>)

  function Tabs(n: nat): string { seq(n, _ => '\t') }

  /** A line break and the indentation of the next line. */
  function Break(depth: nat): string { "\n" + Tabs(depth) }

  function PrintKV(kv: KV, depth: nat): string
    decreases kv, 1
  {
    Break(depth) + Quote(kv.key) + PrintValue(kv, depth)
  }

  /** What follows the key: a quoted value on the same line, or a braced block on the lines below. */
  function PrintValue(kv: KV, depth: nat): string
    decreases kv, 0
  {
    match kv
    case Leaf(_, value) => "\t\t" + Quote(value)
    case Node(_, children) => Break(depth) + "{" + PrintAll(children, depth + 1) + Break(depth) + "}"
  }

  function PrintAll(kvs: seq<KV>, depth: nat): string
    decreases kvs, 2
  {
    if kvs == [] then "" else PrintKV(kvs[0], depth) + PrintAll(kvs[1..], depth)
  }

  /** A whole file: one root section around the entries. */
  function PrintDocument(root: string, entries: seq<KV>): string {
    Quote(root) + "\n{" + PrintAll(entries, 1) + "\n}\n"
  }

  /** The printed text of the sections of this name, without the line break before each. */
  function Sections(entries: seq<KV>, name: string): seq<string> {
    if entries == [] then []
    else (if entries[0].Node? && entries[0].key == name then [PrintKV(entries[0], 1)[1..]] else []) + Sections(entries[1..], name)
  }

  /** A name that is written as it is, and does not itself hold the brace searched for. */
  predicate Plain(name: string) {
    '"' !in name && '\\' !in name && '\n' !in name && '{' !in name
  }

  /** No line in `s` begins the way a top-level entry does. */
  ghost predicate Quiet(s: string) {
    forall p :: 0 <= p < |s| && s[p] == '\n' ==> QuietAt(s, p)
  }

  ghost predicate QuietAt(s: string, p: nat) {
    p + 1 < |s| && (s[p + 1] != '\t' || (p + 2 < |s| && s[p + 2] != '"'))
  }

  lemma QuietConcat(a: string, b: string)
    requires Quiet(a) && Quiet(b)
    ensures Quiet(a + b)
  {
    var s := a + b;
    forall p | 0 <= p < |s| && s[p] == '\n'
      ensures QuietAt(s, p)
    {
      if p < |a| {
        assert a[p] == '\n' && QuietAt(a, p);
        assert s[p + 1] == a[p + 1] && (p + 2 < |a| ==> s[p + 2] == a[p + 2]);
      } else {
        var q := p - |a|;
        assert b[q] == '\n' && QuietAt(b, q);
        assert s[p + 1] == b[q + 1] && (q + 2 < |b| ==> s[p + 2] == b[q + 2]);
      }
    }
  }

  lemma {:induction false} EscapeHasNoBreak(s: string)
    ensures '\n' !in Escape(s)
  {
    if s != "" {
      EscapeHasNoBreak(s[1..]);
    }
  }

  lemma QuoteIsQuiet(s: string)
    ensures Quiet(Quote(s))
  {
    EscapeHasNoBreak(s);
    assert forall p :: 0 <= p < |Quote(s)| ==> Quote(s)[p] != '\n';
  }

  lemma QuietTail(q: string)
    requires Quiet(q) && q != ""
    ensures Quiet(q[1..])
  {
    var t := q[1..];
    forall p | 0 <= p < |t| && t[p] == '\n'
      ensures QuietAt(t, p)
    {
      assert q[p + 1] == '\n' && QuietAt(q, p + 1);
    }
  }

  lemma QuietIsNoMarker(q: string, rest: string, name: string)
    requires Quiet(q) && q != ""
    ensures !(Marker(name) <= q + rest)
  {
    var s, marker := q + rest, Marker(name);
    if |marker| <= |s| {
      assert s[..|marker|][0] == q[0] && s[..|marker|][1] == s[1] && s[..|marker|][2] == s[2];
      if q[0] == '\n' {
        assert QuietAt(q, 0) && s[1] == q[1];
        assert q[1] == '\t' ==> s[2] == q[2];
      }
    }
  }

  lemma {:induction false} QuietHasNoBlocks(q: string, rest: string, name: string)
    requires Quiet(q)
    ensures Blocks(q + rest, name) == Blocks(rest, name)
  {
    if q == "" {
      assert q + rest == rest;
    } else {
      assert (q + rest)[1..] == q[1..] + rest;
      QuietTail(q);
      QuietIsNoMarker(q, rest, name);
      QuietHasNoBlocks(q[1..], rest, name);
    }
  }

  lemma {:induction false} ShortHasNoBlocks(s: string, name: string)
    requires |s| < |Marker(name)|
    ensures Blocks(s, name) == []
  {
    if s != "" {
      ShortHasNoBlocks(s[1..], name);
    }
  }

  // ----- Brace matching passes over whatever is printed -----

  lemma {:induction false} MatchSkipsPlain(g: string, rest: string, depth: int)
    requires '"' !in g && '{' !in g && '}' !in g
    ensures MatchEnd(g + rest, Outside, depth) == Shift(MatchEnd(rest, Outside, depth), |g|)
  {
    if g == "" {
      assert g + rest == rest;
    } else {
      MatchSkipsPlain(g[1..], rest, depth);
      assert (g + rest)[1..] == g[1..] + rest && (g + rest)[0] == g[0];
    }
  }

  lemma MatchHead(c: char, rest: string, mode: Mode, depth: int)
    requires mode != Outside || c != '}' || depth != 1
    ensures MatchEnd([c] + rest, mode, depth) == Shift(MatchEnd(rest, Next(mode, c), depth + BraceStep(mode, c)), 1)
  {
    var s := [c] + rest;
    assert s[0] == c && s[1..] == rest;
  }

  lemma MatchSkipsChar(c: char, rest: string, depth: int)
    ensures MatchEnd(EscapeChar(c) + rest, Inside, depth) == Shift(MatchEnd(rest, Inside, depth), |EscapeChar(c)|)
  {
    var head := EscapeChar(c);
    if |head| == 2 {
      assert head == ['\\'] + [head[1]];
      ConcatAssociative(['\\'], [head[1]], rest);
      MatchHead('\\', [head[1]] + rest, Inside, depth);
      MatchHead(head[1], rest, Escaped, depth);
    } else {
      MatchHead(c, rest, Inside, depth);
    }
  }

  lemma {:induction false} MatchSkipsEscaped(s: string, rest: string, depth: int)
    ensures MatchEnd(Escape(s) + rest, Inside, depth) == Shift(MatchEnd(rest, Inside, depth), |Escape(s)|)
  {
    if s == "" {
      assert Escape(s) + rest == rest;
    } else {
      ConcatAssociative(EscapeChar(s[0]), Escape(s[1..]), rest);
      MatchSkipsChar(s[0], Escape(s[1..]) + rest, depth);
      MatchSkipsEscaped(s[1..], rest, depth);
    }
  }

  lemma MatchSkipsQuote(s: string, rest: string, depth: int)
    ensures MatchEnd(Quote(s) + rest, Outside, depth) == Shift(MatchEnd(rest, Outside, depth), |Quote(s)|)
  {
    var inner := ['"'] + rest;
    QuoteThen(s, rest);
    MatchHead('"', Escape(s) + inner, Outside, depth);
    MatchSkipsEscaped(s, inner, depth);
    MatchHead('"', rest, Inside, depth);
  }

  /** An opening brace, what stands between, and the closing brace are passed as one. */
  lemma MatchSkipsBraces(inside: string, rest: string, depth: int)
    requires 1 <= depth
    requires forall r :: MatchEnd(inside + r, Outside, depth + 1) == Shift(MatchEnd(r, Outside, depth + 1), |inside|)
    ensures MatchEnd("{" + inside + "}" + rest, Outside, depth) == Shift(MatchEnd(rest, Outside, depth), |inside| + 2)
  {
    var close := "}" + rest;
    var open := "{" + inside + "}" + rest;
    assert open[1..] == inside + close && close[1..] == rest;
  }

  /** `chunk` opens and closes strings and braces in pairs: from outside strings it is passed over as a whole. */
  ghost predicate Neutral(chunk: string) {
    forall rest, depth :: 1 <= depth ==> MatchEnd(chunk + rest, Outside, depth) == Shift(MatchEnd(rest, Outside, depth), |chunk|)
  }

  lemma NeutralConcat(a: string, b: string)
    requires Neutral(a) && Neutral(b)
    ensures Neutral(a + b)
  {
    forall rest, depth | 1 <= depth
      ensures MatchEnd(a + b + rest, Outside, depth) == Shift(MatchEnd(rest, Outside, depth), |a + b|)
    {
      assert a + b + rest == a + (b + rest);
      assert MatchEnd(b + rest, Outside, depth) == Shift(MatchEnd(rest, Outside, depth), |b|);
    }
  }

  lemma NeutralPlain(g: string)
    requires '"' !in g && '{' !in g && '}' !in g
    ensures Neutral(g)
  {
    forall rest, depth | 1 <= depth ensures MatchEnd(g + rest, Outside, depth) == Shift(MatchEnd(rest, Outside, depth), |g|) {
      MatchSkipsPlain(g, rest, depth);
    }
  }

  lemma NeutralQuote(s: string)
    ensures Neutral(Quote(s))
  {
    forall rest, depth | 1 <= depth
      ensures MatchEnd(Quote(s) + rest, Outside, depth) == Shift(MatchEnd(rest, Outside, depth), |Quote(s)|)
    {
      MatchSkipsQuote(s, rest, depth);
    }
  }

  lemma NeutralBraces(inside: string)
    requires Neutral(inside)
    ensures Neutral("{" + inside + "}")
  {
    forall rest, depth | 1 <= depth
      ensures MatchEnd("{" + inside + "}" + rest, Outside, depth) == Shift(MatchEnd(rest, Outside, depth), |"{" + inside + "}"|)
    {
      MatchSkipsBraces(inside, rest, depth);
    }
  }

  lemma NeutralBreak(depth: nat)
    ensures Neutral(Break(depth))
  {
    NeutralPlain(Break(depth));
  }

  lemma {:induction false} NeutralKV(kv: KV, depth: nat)
    ensures Neutral(PrintKV(kv, depth))
    decreases kv, 1
  {
    NeutralBreak(depth);
    NeutralQuote(kv.key);
    NeutralConcat(Break(depth), Quote(kv.key));
    match kv {
      case Leaf(_, value) =>
        NeutralPlain("\t\t");
        NeutralQuote(value);
        NeutralConcat("\t\t", Quote(value));
      case Node(_, children) =>
        NeutralAll(children, depth + 1);
        var inside := PrintAll(children, depth + 1) + Break(depth);
        NeutralConcat(PrintAll(children, depth + 1), Break(depth));
        NeutralBraces(inside);
        NeutralConcat(Break(depth), "{" + inside + "}");
        assert PrintValue(kv, depth) == Break(depth) + ("{" + inside + "}");
    }
    NeutralConcat(Break(depth) + Quote(kv.key), PrintValue(kv, depth));
  }

  lemma {:induction false} NeutralAll(kvs: seq<KV>, depth: nat)
    ensures Neutral(PrintAll(kvs, depth))
    decreases kvs, 2
  {
    if kvs == [] {
      NeutralPlain("");
    } else {
      NeutralKV(kvs[0], depth);
      NeutralAll(kvs[1..], depth);
      NeutralConcat(PrintKV(kvs[0], depth), PrintAll(kvs[1..], depth));
    }
  }

  // ----- Nested lines do not look like top-level entries -----

  lemma QuietBreak(depth: nat, next: string)
    requires Quiet(next) && next != "" && next[0] != '\n' && next[0] != '\t'
    requires next[0] != '"' || depth != 1
    ensures Quiet(Break(depth) + next)
  {
    var s := Break(depth) + next;
    forall p | 0 <= p < |s| && s[p] == '\n' ensures QuietAt(s, p) {
      if p == 0 {
        if depth >= 2 {
          assert s[1] == Tabs(depth)[0] && s[2] == Tabs(depth)[1];
        } else if depth == 1 {
          assert s[2] == next[0];
        } else {
          assert s[1] == next[0];
        }
      } else if p > depth {
        var q := p - |Break(depth)|;
        assert next[q] == s[p] && QuietAt(next, q);
        assert s[p + 1] == next[q + 1] && (q + 2 < |next| ==> s[p + 2] == next[q + 2]);
      }
    }
  }

  lemma {:induction false} QuietValue(kv: KV, depth: nat)
    requires 1 <= depth
    ensures Quiet(PrintValue(kv, depth))
    decreases kv, 0
  {
    match kv {
      case Leaf(_, value) =>
        QuoteIsQuiet(value);
        QuietConcat("\t\t", Quote(value));
      case Node(_, children) =>
        QuietAll(children, depth + 1);
        QuietBreak(depth, "}");
        var inside := PrintAll(children, depth + 1);
        QuietConcat(inside, Break(depth) + "}");
        QuietConcat("{", inside + (Break(depth) + "}"));
        QuietBreak(depth, "{" + (inside + (Break(depth) + "}")));
        assert PrintValue(kv, depth) == Break(depth) + ("{" + (inside + (Break(depth) + "}")));
    }
  }

  lemma {:induction false} QuietAll(kvs: seq<KV>, depth: nat)
    requires 2 <= depth
    ensures Quiet(PrintAll(kvs, depth))
    decreases kvs, 2
  {
    if kvs != [] {
      var kv := kvs[0];
      QuietValue(kv, depth);
      QuoteIsQuiet(kv.key);
      QuietConcat(Quote(kv.key), PrintValue(kv, depth));
      QuietBreak(depth, Quote(kv.key) + PrintValue(kv, depth));
      assert PrintKV(kv, depth) == Break(depth) + (Quote(kv.key) + PrintValue(kv, depth));
      QuietAll(kvs[1..], depth);
      QuietConcat(PrintKV(kv, depth), PrintAll(kvs[1..], depth));
    }
  }

  // ----- Top-level entries -----

  lemma {:induction false} PlainEscapesToItself(name: string)
    requires Plain(name)
    ensures Escape(name) == name
  {
    if name != "" {
      PlainEscapesToItself(name[1..]);
    }
  }

  lemma MarkerIsPrinted(name: string)
    requires Plain(name)
    ensures Marker(name) == Break(1) + (Quote(name) + "\n\t{")
  {
    PlainEscapesToItself(name);
    assert Tabs(1) == "\t";
  }

  lemma EntryPrinted(kv: KV, rest: string)
    ensures PrintKV(kv, 1) + rest == Break(1) + (Quote(kv.key) + (PrintValue(kv, 1) + rest))
  {
  }

  /** Two texts that begin with a quoted string and agree begin with the same one. */
  lemma QuoteIsReadUniquely(a: string, x: string, b: string, y: string)
    requires Quote(a) + x == Quote(b) + y
    ensures a == b && x == y
  {
    QuotedReadsQuote(a, x, "");
    QuotedReadsQuote(b, y, "");
    assert ([a] + Quoted(x, Outside, ""))[0] == ([b] + Quoted(y, Outside, ""))[0];
    assert x == (Quote(a) + x)[|Quote(a)|..];
    assert y == (Quote(b) + y)[|Quote(b)|..];
  }

  lemma PrefixOfConcat(a: string, b: string, s: string)
    ensures a + b <= a + s <==> b <= s
  {
    if b <= s {
      assert (a + s)[..|a + b|] == a + s[..|b|];
    }
    if a + b <= a + s {
      assert (a + s)[|a|..|a + b|] == s[..|b|];
      assert (a + b)[|a|..] == b;
      assert (a + s)[..|a + b|][|a|..] == (a + s)[|a|..|a + b|];
    }
  }

  lemma PrefixSplits(p: string, s: string) returns (rest: string)
    requires p <= s
    ensures s == p + rest
  {
    rest := s[|p|..];
  }

  lemma MarkerMeansSection(kv: KV, rest: string, name: string)
    requires Quote(name) + "\n\t{" <= Quote(kv.key) + (PrintValue(kv, 1) + rest)
    ensures kv.Node? && kv.key == name
  {
    var value := PrintValue(kv, 1) + rest;
    var y := PrefixSplits(Quote(name) + "\n\t{", Quote(kv.key) + value);
    ConcatAssociative(Quote(name), "\n\t{", y);
    QuoteIsReadUniquely(kv.key, value, name, "\n\t{" + y);
    assert value[0] == '\n';
  }

  lemma SectionHasMarker(kv: KV, rest: string)
    requires kv.Node?
    ensures Quote(kv.key) + "\n\t{" <= Quote(kv.key) + (PrintValue(kv, 1) + rest)
  {
    PrefixOfConcat(Quote(kv.key), "\n\t{", PrintValue(kv, 1) + rest);
    assert Tabs(1) == "\t";
    assert PrintValue(kv, 1)[..3] == "\n\t{";
  }

  /** The marker stands at the front of a printed entry exactly when that is a section of this name. */
  lemma MarkerAtSection(kv: KV, rest: string, name: string)
    requires Plain(name)
    ensures Marker(name) <= PrintKV(kv, 1) + rest <==> kv.Node? && kv.key == name
  {
    MarkerIsPrinted(name);
    EntryPrinted(kv, rest);
    PrefixOfConcat(Break(1), Quote(name) + "\n\t{", Quote(kv.key) + (PrintValue(kv, 1) + rest));
    if Marker(name) <= PrintKV(kv, 1) + rest {
      MarkerMeansSection(kv, rest, name);
    }
    if kv.Node? && kv.key == name {
      SectionHasMarker(kv, rest);
    }
  }

  lemma {:induction false} IndexOfFirstBrace(s: string, from: nat, brace: nat)
    requires from <= brace < |s| && s[brace] == '{'
    requires forall i :: from <= i < brace ==> s[i] != '{'
    ensures IndexOf(s, "{", from) == brace
    decreases brace - from
  {
    assert s[from..from + 1] == [s[from]];
    if from < brace {
      IndexOfFirstBrace(s, from + 1, brace);
    }
  }

  lemma QuietLineHasNoBlocks(quiet: string, rest: string, name: string)
    requires Quiet(quiet) && !(Marker(name) <= "\n" + quiet + rest)
    ensures Blocks("\n" + quiet + rest, name) == Blocks(rest, name)
  {
    var s := "\n" + quiet + rest;
    assert s[1..] == quiet + rest;
    QuietHasNoBlocks(quiet, rest, name);
  }

  lemma EntryIsQuiet(kv: KV)
    ensures Quiet("\t" + (Quote(kv.key) + PrintValue(kv, 1)))
    ensures PrintKV(kv, 1) == "\n" + ("\t" + (Quote(kv.key) + PrintValue(kv, 1)))
  {
    QuoteIsQuiet(kv.key);
    QuietValue(kv, 1);
    QuietConcat(Quote(kv.key), PrintValue(kv, 1));
    QuietConcat("\t", Quote(kv.key) + PrintValue(kv, 1));
    assert Tabs(1) == "\t";
  }

  /** What a printed entry contributes to the blocks: its own text, or nothing. */
  lemma EntryBlocks(kv: KV, rest: string, name: string)
    requires Plain(name)
    ensures Blocks(PrintKV(kv, 1) + rest, name)
         == (if kv.Node? && kv.key == name then [PrintKV(kv, 1)[1..]] else []) + Blocks(rest, name)
  {
    var entry := PrintKV(kv, 1);
    var s := entry + rest;
    MarkerAtSection(kv, rest, name);
    if kv.Node? && kv.key == name {
      SectionMatched(kv.children, rest, name);
      BlocksUnfold(s, name, |Marker(name)| - 1, |entry|);
      assert s[1..|entry|] == entry[1..] && s[|entry|..] == rest;
    } else {
      EntryIsQuiet(kv);
      QuietLineHasNoBlocks("\t" + (Quote(kv.key) + PrintValue(kv, 1)), rest, name);
    }
  }

  lemma BracesMatched(inside: string, rest: string)
    requires Neutral(inside)
    ensures MatchEnd("{" + inside + "}" + rest, Outside, 0) == |inside| + 2
  {
    var close := "}" + rest;
    assert ("{" + inside + "}" + rest)[1..] == inside + close;
    assert MatchEnd(inside + close, Outside, 1) == Shift(MatchEnd(close, Outside, 1), |inside|);
  }

  lemma HeadOfSection(name: string)
    requires Plain(name)
    ensures var head := "\n\t" + Quote(name) + "\n\t"; |head| == |Marker(name)| - 1 && '{' !in head
  {
    PlainEscapesToItself(name);
  }

  lemma SectionPrinted(children: seq<KV>, name: string)
    ensures PrintKV(Node(name, children), 1) == "\n\t" + Quote(name) + "\n\t" + ("{" + (PrintAll(children, 2) + Break(1)) + "}")
  {
    assert Break(1) == "\n\t" by {
      assert Tabs(1) == "\t";
    }
    SectionRegrouped(Break(1), Quote(name), Break(1), "{", PrintAll(children, 2), Break(1), "}");
  }

  lemma SectionRegrouped(a: string, b: string, c: string, open: string, x: string, y: string, close: string)
    ensures a + b + (c + open + x + y + close) == a + b + c + (open + (x + y) + close)
  {
  }

  lemma SectionMatched(children: seq<KV>, rest: string, name: string)
    requires Plain(name)
    ensures var entry := PrintKV(Node(name, children), 1);
            var s := entry + rest;
            var brace := |Marker(name)| - 1;
            && brace < |s| && IndexOf(s, "{", 1) == brace
            && Shift(MatchEnd(s[brace..], Outside, 0), brace) == |entry|
  {
    var entry, brace := PrintKV(Node(name, children), 1), |Marker(name)| - 1;
    var s, head := entry + rest, "\n\t" + Quote(name) + "\n\t";
    var inside := PrintAll(children, 2) + Break(1);
    var block := "{" + inside + "}";
    HeadOfSection(name);
    SectionPrinted(children, name);
    assert s == head + (block + rest);
    assert s[brace..] == block + rest;
    IndexOfFirstBrace(s, 1, brace);
    NeutralAll(children, 2);
    NeutralBreak(1);
    NeutralConcat(PrintAll(children, 2), Break(1));
    BracesMatched(inside, rest);
  }

  lemma {:induction false} EntriesBlocks(entries: seq<KV>, rest: string, name: string)
    requires Plain(name)
    ensures Blocks(PrintAll(entries, 1) + rest, name) == Sections(entries, name) + Blocks(rest, name)
  {
    if entries == [] {
      assert PrintAll(entries, 1) + rest == rest;
    } else {
      var first, others, more := PrintKV(entries[0], 1), PrintAll(entries[1..], 1), Sections(entries[1..], name);
      ConcatAssociative(first, others, rest);
      EntryBlocks(entries[0], others + rest, name);
      EntriesBlocks(entries[1..], rest, name);
      ConcatAssociative(if entries[0].Node? && entries[0].key == name then [first[1..]] else [], more, Blocks(rest, name));
    }
  }

  /** From any printed document exactly the sections of the given name are cut out, each as printed, in order. */
  lemma DocumentRoundTrip(root: string, entries: seq<KV>, name: string)
    requires Plain(name)
    ensures Blocks(PrintDocument(root, entries), name) == Sections(entries, name)
  {
    var tail := "\n}\n";
    QuoteIsQuiet(root);
    assert Quiet("\n{");
    QuietConcat(Quote(root), "\n{");
    assert PrintDocument(root, entries) == Quote(root) + "\n{" + (PrintAll(entries, 1) + tail);
    QuietHasNoBlocks(Quote(root) + "\n{", PrintAll(entries, 1) + tail, name);
    EntriesBlocks(entries, tail, name);
    ShortHasNoBlocks(tail, name);
  }

  // ----- Arbitrary texts -----

  lemma {:induction false} MatchEndBalances(s: string, mode: Mode, depth: int)
    requires MatchEnd(s, mode, depth) >= 0
    ensures Delta(s[..MatchEnd(s, mode, depth)], mode) == -depth
  {
    var e := MatchEnd(s, mode, depth);
    if mode == Outside && s[0] == '}' && depth == 1 {
      assert s[..1][1..] == "";
    } else {
      MatchEndBalances(s[1..], Next(mode, s[0]), depth + BraceStep(mode, s[0]));
      assert s[..e][1..] == s[1..][..e - 1];
    }
  }

  /** Where the scanner stands at the end. */
  function ModeAfter(s: string, mode: Mode): Mode {
    if s == "" then mode else ModeAfter(s[1..], Next(mode, s[0]))
  }

  lemma {:induction false} DeltaConcat(a: string, b: string, mode: Mode)
    ensures Delta(a + b, mode) == Delta(a, mode) + Delta(b, ModeAfter(a, mode))
  {
    if a == "" {
      assert a + b == b;
    } else {
      DeltaConcat(a[1..], b, Next(mode, a[0]));
      assert (a + b)[1..] == a[1..] + b && (a + b)[0] == a[0];
    }
  }

  lemma {:induction false} MatchEndsOutside(s: string, mode: Mode, depth: int)
    requires MatchEnd(s, mode, depth) >= 0
    ensures ModeAfter(s[..MatchEnd(s, mode, depth) - 1], mode) == Outside
  {
    var e := MatchEnd(s, mode, depth);
    if !(mode == Outside && s[0] == '}' && depth == 1) {
      MatchEndsOutside(s[1..], Next(mode, s[0]), depth + BraceStep(mode, s[0]));
      assert s[..e - 1][1..] == s[1..][..e - 2];
    }
  }

  /** What is passed over as a whole has as many closing braces as opening ones. */
  lemma {:induction false} NeutralIsBalanced(chunk: string)
    requires Neutral(chunk)
    ensures Delta(chunk, Outside) == 0
  {
    var s := chunk + "}";
    assert MatchEnd("}", Outside, 1) == 1;
    assert MatchEnd(s, Outside, 1) == |chunk| + 1;
    MatchEndBalances(s, Outside, 1);
    MatchEndsOutside(s, Outside, 1);
    assert s[..|chunk| + 1] == s && s[..|chunk|] == chunk;
    DeltaConcat(chunk, "}", Outside);
    assert "}"[1..] == "";
    assert Delta("}", Outside) == -1;
  }

  /** Printed values, braces and quotes in their texts included, open as many braces as they close. */
  lemma {:induction false} PrintedIsBalanced(kvs: seq<KV>, depth: nat)
    ensures Delta(PrintAll(kvs, depth), Outside) == 0
  {
    NeutralAll(kvs, depth);
    NeutralIsBalanced(PrintAll(kvs, depth));
  }

  lemma DeltaHead(c: char, rest: string, mode: Mode)
    ensures Delta([c] + rest, mode) == BraceStep(mode, c) + Delta(rest, Next(mode, c))
  {
    var s := [c] + rest;
    assert s[0] == c && s[1..] == rest;
  }

  lemma {:induction false} DeltaInsideName(name: string, rest: string)
    requires '"' !in name && '\\' !in name
    ensures Delta(name + rest, Inside) == Delta(rest, Inside)
  {
    if name == "" {
      assert name + rest == rest;
    } else {
      DeltaInsideName(name[1..], rest);
      assert name == [name[0]] + name[1..];
      ConcatAssociative([name[0]], name[1..], rest);
      DeltaHead(name[0], name[1..] + rest, Inside);
    }
  }

  /** What stands before the brace of a section: a tab, the name in quotes, a line break and a tab. */
  function SectionHead(name: string): string {
    "\t\"" + name + "\"\n\t"
  }

  lemma SectionHeadThen(name: string, rest: string)
    ensures SectionHead(name) + rest == ['\t'] + (['"'] + (name + (['"'] + (['\n'] + (['\t'] + rest)))))
  {
    ConcatAssociative("\t\"" + name, "\"\n\t", rest);
    ConcatAssociative("\t\"", name, "\"\n\t" + rest);
    assert "\"\n\t" + rest == ['"'] + (['\n'] + (['\t'] + rest));
  }

  lemma DeltaOfBlock(name: string, braces: string)
    requires Plain(name)
    ensures Delta(SectionHead(name) + braces, Outside) == Delta(braces, Outside)
  {
    var t2 := ['\t'] + braces;
    var t1 := ['\n'] + t2;
    var tail := ['"'] + t1;
    SectionHeadThen(name, braces);
    DeltaHead('\t', ['"'] + (name + tail), Outside);
    DeltaHead('"', name + tail, Outside);
    DeltaInsideName(name, tail);
    DeltaHead('"', t1, Inside);
    DeltaHead('\n', t2, Outside);
    DeltaHead('\t', braces, Outside);
  }

  /** The blocks lie one behind the other in the text. */
  ghost predicate InOrder(text: string, blocks: seq<string>)
    decreases |text|
  {
    || blocks == []
    || (blocks[0] != "" && blocks[0] <= text && InOrder(text[|blocks[0]|..], blocks[1..]))
    || (text != "" && InOrder(text[1..], blocks))
  }

  lemma {:induction false} IndexOfBraceBehind(s: string, from: nat, head: string)
    requires '{' !in head && from + |head| < |s| && s[from..from + |head|] == head && s[from + |head|] == '{'
    ensures IndexOf(s, "{", from) == from + |head|
  {
    forall i | from <= i < from + |head| ensures s[i] != '{' {
      assert s[i] == s[from..from + |head|][i - from];
    }
    IndexOfFirstBrace(s, from, from + |head|);
  }

  lemma MarkerParts(s: string, name: string)
    requires Marker(name) <= s
    ensures var brace := 1 + |SectionHead(name)|;
            brace < |s| && s[1..brace] == SectionHead(name) && s[brace] == '{'
  {
    var marker, brace := Marker(name), 1 + |SectionHead(name)|;
    assert marker == ['\n'] + (SectionHead(name) + ['{']);
    assert marker[1..brace] == SectionHead(name);
    assert s[..|marker|] == marker;
    assert s[1..brace] == s[..|marker|][1..brace];
  }

  /** The brace of a section that begins here is the first one, right behind its head. */
  lemma BehindMarker(s: string, name: string)
    requires Plain(name) && Marker(name) <= s
    ensures var brace := 1 + |SectionHead(name)|;
            brace < |s| && s[1..brace] == SectionHead(name) && IndexOf(s, "{", 1) == brace
  {
    MarkerParts(s, name);
    IndexOfBraceBehind(s, 1, SectionHead(name));
  }

  lemma BlockIsBalanced(s: string, name: string, end: int)
    requires Plain(name) && Marker(name) <= s
    requires var brace := IndexOf(s, "{", 1);
             end == (if brace < 0 then -1 else Shift(MatchEnd(s[brace..], Outside, 0), brace)) && end >= 0
    ensures Delta(s[1..end], Outside) == 0
  {
    BehindMarker(s, name);
    var brace := 1 + |SectionHead(name)|;
    var braces := s[brace..][..end - brace];
    MatchEndBalances(s[brace..], Outside, 0);
    DeltaOfBlock(name, braces);
    assert s[1..end] == s[1..brace] + braces;
  }

  /** In any text whatever the blocks are disjoint, in order, and balanced in their braces outside strings. */
  lemma {:induction false} BlocksAreBalanced(s: string, name: string)
    requires Plain(name)
    ensures InOrder(s, Blocks(s, name))
    ensures forall b :: b in Blocks(s, name) ==> Delta(b, Outside) == 0
    decreases |s|
  {
    if s == "" {
    } else if Marker(name) <= s {
      var brace := IndexOf(s, "{", 1);
      var end := if brace < 0 then -1 else Shift(MatchEnd(s[brace..], Outside, 0), brace);
      BlocksUnfold(s, name, brace, end);
      if end >= 0 {
        BlockIsBalanced(s, name, end);
        BlocksAreBalanced(s[end..], name);
        var t, b := s[1..], s[1..end];
        assert t[..|b|] == b && t[|b|..] == s[end..];
        assert InOrder(t, Blocks(s, name));
      }
    } else {
      BlocksAreBalanced(s[1..], name);
    }
  }
}
