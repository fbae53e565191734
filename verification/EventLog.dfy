/**
 One read of an append-only log whose last line may be half written: which
 lines it gives, and at which offset the next read starts.
 */
module EventLogs {
  import opened Records
  import opened OrderedMaps
  import opened Bytes

  type Line = seq<byte>

  const NEWLINE: byte := 0x0a

  /** `lastIndexOf(0x0a)`. */
  function LastNewline(s: seq<byte>): (i: int)
    ensures -1 <= i < |s|
    ensures 0 <= i ==> s[i] == NEWLINE
    ensures forall k :: i < k < |s| ==> s[k] != NEWLINE
  {
    if s == [] then -1
    else if s[|s| - 1] == NEWLINE then |s| - 1
    else LastNewline(s[..|s| - 1])
  }

  /** `split('\n')`. */
  function Split(s: seq<byte>): (parts: seq<Line>)
    ensures parts != []
  {
    if s == [] then [[]]
    else
      var parts, last := Split(s[..|s| - 1]), s[|s| - 1];
      if last == NEWLINE then parts + [[]]
      else parts[..|parts| - 1] + [parts[|parts| - 1] + [last]]
  }

  function NonEmpty(parts: seq<Line>): seq<Line> {
    Filter(parts, (line: Line) => line != [])
  }

  /** What an open and read of the log gave: no file, or its content, and how many bytes the read took, if it worked. */
  datatype Sight = Sight(file: Option<seq<byte>>, took: Option<nat>)

  function Min(a: nat, b: nat): nat {
    if a <= b then a else b
  }

  /** The bytes from `from` up to `to`. */
  function Span(s: seq<byte>, from: nat, to: nat): seq<byte>
    requires from <= to <= |s|
  {
    s[from..to]
  }

  datatype Read = Read(lines: seq<Line>, next: nat)

  /** `readCompleteLines`. */
  function ReadCompleteLines(sight: Sight, offset: nat): Read {
    if sight.file.None? then Read([], 0)
    else
      var file := sight.file.value;
      var from := if |file| < offset then 0 else offset;
      if |file| == from then Read([], from)
      else if sight.took.None? then Read([], offset)
      else
        var buffer := Span(file, from, from + Min(sight.took.value, |file| - from));
        var end := LastNewline(buffer);
        if end < 0 then Read([], from) else Read(NonEmpty(Split(Span(buffer, 0, end + 1))), from + end + 1)
  }

  // What the lines of a log are.

  function FirstNewline(s: seq<byte>): (i: nat)
    ensures i <= |s|
    ensures i < |s| ==> s[i] == NEWLINE
    ensures forall k :: 0 <= k < i ==> s[k] != NEWLINE
  {
    if s == [] || s[0] == NEWLINE then 0 else 1 + FirstNewline(s[1..])
  }

  /** The non-empty complete lines of `s`, in order: each ends just before a newline. */
  function Lines(s: seq<byte>): seq<Line>
    decreases |s|
  {
    var i := FirstNewline(s);
    if i == |s| then []
    else (if i == 0 then [] else [s[..i]]) + Lines(s[i + 1..])
  }

  /** No complete line. */
  ghost predicate Unbroken(s: seq<byte>) {
    forall k :: 0 <= k < |s| ==> s[k] != NEWLINE
  }

  /** Just past a newline, or at the start. */
  predicate AtLineStart(s: seq<byte>, offset: nat) {
    offset <= |s| && (offset == 0 || s[offset - 1] == NEWLINE)
  }

  lemma FirstIs(s: seq<byte>, i: nat)
    requires i < |s| && s[i] == NEWLINE && forall k :: 0 <= k < i ==> s[k] != NEWLINE
    ensures FirstNewline(s) == i
  {}

  lemma FirstLine(line: Line, rest: seq<byte>)
    requires Unbroken(line)
    ensures Lines(line + [NEWLINE] + rest) == (if line == [] then [] else [line]) + Lines(rest)
  {
    var s := line + [NEWLINE] + rest;
    FirstIs(s, |line|);
    hide FirstNewline;
    assert s[..|line|] == line && s[|line| + 1..] == rest;
  }

  lemma {:induction false} LinesConcat(a: seq<byte>, b: seq<byte>)
    requires AtLineStart(a, |a|)
    ensures Lines(a + b) == Lines(a) + Lines(b)
    decreases |a|
  {
    if a == [] {
      assert a + b == b;
    } else {
      var i := FirstNewline(a);
      assert i < |a| && a[i] == NEWLINE by {
        assert a[|a| - 1] == NEWLINE;
      }
      var line, rest := a[..i], a[i + 1..];
      assert Unbroken(line) && a == line + [NEWLINE] + rest && AtLineStart(rest, |rest|);
      hide *;
      LinesConcat(rest, b);
      FirstLine(line, rest);
      FirstLine(line, rest + b);
      Assoc(line + [NEWLINE], rest, b);
      Assoc(if line == [] then [] else [line], Lines(rest), Lines(b));
    }
  }

  lemma NoLines(s: seq<byte>)
    requires Unbroken(s)
    ensures Lines(s) == []
  {
    assert FirstNewline(s) == |s|;
  }

  lemma OneLine(s: seq<byte>)
    requires Unbroken(s)
    ensures Lines(s + [NEWLINE]) == if s == [] then [] else [s]
  {
    FirstLine(s, []);
    assert s + [NEWLINE] + [] == s + [NEWLINE];
  }

  lemma SplitMore(s: seq<byte>, b: byte)
    ensures var parts := Split(s);
            Split(s + [b]) == if b == NEWLINE then parts + [[]] else parts[..|parts| - 1] + [parts[|parts| - 1] + [b]]
    ensures LastNewline(s + [b]) == if b == NEWLINE then |s| else LastNewline(s)
  {
    assert (s + [b])[..|s|] == s;
  }

  lemma UnbrokenMore(s: seq<byte>, b: byte)
    requires Unbroken(s) && b != NEWLINE
    ensures Unbroken(s + [b])
  {}

  lemma LinesMore(head: seq<byte>, tail: seq<byte>, b: byte)
    requires AtLineStart(head, |head|) && Unbroken(tail)
    ensures Lines(head + tail + [b]) == Lines(head + tail) + if b == NEWLINE && tail != [] then [tail] else []
  {
    hide *;
    Assoc(head, tail, [b]);
    LinesConcat(head, tail);
    LinesConcat(head, tail + [b]);
    NoLines(tail);
    if b == NEWLINE {
      OneLine(tail);
    } else {
      assert Unbroken(tail + [b]) by { UnbrokenMore(tail, b); }
      NoLines(tail + [b]);
    }
  }

  lemma NonEmptyMore(parts: seq<Line>, line: Line)
    ensures NonEmpty(parts + [line]) == NonEmpty(parts) + if line != [] then [line] else []
  {
    assert (parts + [line])[..|parts|] == parts;
  }

  /** Splitting `head + tail` gives the lines of `head`, and, last, the line `tail` begins. */
  ghost predicate Splits(head: seq<byte>, tail: seq<byte>) {
    var parts := Split(head + tail);
    NonEmpty(parts[..|parts| - 1]) == Lines(head + tail) && parts[|parts| - 1] == tail
  }

  lemma SplitsLonger(head: seq<byte>, tail: seq<byte>, b: byte)
    requires AtLineStart(head, |head|) && Unbroken(tail) && b != NEWLINE && Splits(head, tail)
    ensures Splits(head, tail + [b])
  {
    SplitMore(head + tail, b);
    LinesMore(head, tail, b);
    Assoc(head, tail, [b]);
    hide Split, Lines, NonEmpty;
    var parts := Split(head + tail);
    var more := parts[..|parts| - 1] + [tail + [b]];
    assert more[..|more| - 1] == parts[..|parts| - 1];
  }

  lemma SplitsAtNewline(head: seq<byte>, tail: seq<byte>)
    requires AtLineStart(head, |head|) && Unbroken(tail) && Splits(head, tail)
    ensures Splits(head + tail + [NEWLINE], [])
  {
    SplitMore(head + tail, NEWLINE);
    LinesMore(head, tail, NEWLINE);
    hide Split, Lines, NonEmpty;
    var parts := Split(head + tail);
    NonEmptyMore(parts[..|parts| - 1], tail);
    assert parts == parts[..|parts| - 1] + [tail];
    assert (parts + [[]])[..|parts|] == parts;
    assert head + tail + [NEWLINE] + [] == head + tail + [NEWLINE];
  }

  lemma {:induction false} SplitGivesLines(head: seq<byte>, tail: seq<byte>)
    requires AtLineStart(head, |head|) && Unbroken(tail)
    ensures Splits(head, tail)
    decreases |head| + |tail|
  {
    hide Splits, Split, Lines;
    if tail != [] {
      var init, b := tail[..|tail| - 1], tail[|tail| - 1];
      assert tail == init + [b];
      SplitGivesLines(head, init);
      SplitsLonger(head, init, b);
    } else if head != [] {
      var before := head[..|head| - 1];
      var cut := LastNewline(before) + 1;
      var h, t := before[..cut], before[cut..];
      assert head == before + [NEWLINE] && before == h + t;
      SplitGivesLines(h, t);
      SplitsAtNewline(h, t);
    } else {
      assert Splits([], []) by { EmptySplits(); }
    }
  }

  lemma EmptySplits()
    ensures Splits([], [])
  {}

  // What one read of an append-only log gives.

  lemma WholeLines(s: seq<byte>)
    requires AtLineStart(s, |s|)
    ensures NonEmpty(Split(s)) == Lines(s)
  {
    SplitGivesLines(s, []);
    assert s + [] == s;
    var parts := Split(s);
    hide Split, Lines;
    assert parts == parts[..|parts| - 1] + [[]];
    NonEmptyMore(parts[..|parts| - 1], []);
  }

  lemma SpanOfSpan(s: seq<byte>, from: nat, to: nat, n: nat)
    requires from <= to <= |s| && n <= to - from
    ensures |Span(s, from, to)| == to - from
    ensures Span(Span(s, from, to), 0, n) == Span(s, from, from + n)
    ensures Span(Span(s, from, to), n, to - from) == Span(s, from + n, to)
  {}

  lemma PastNewline(s: seq<byte>, i: nat)
    requires i < |s| && s[i] == NEWLINE
    ensures AtLineStart(s, i + 1)
  {}

  lemma UnbrokenSpan(s: seq<byte>, from: nat, to: nat)
    requires from <= to <= |s| && forall k :: from <= k < to ==> s[k] != NEWLINE
    ensures Unbroken(Span(s, from, to))
  {
    var part := Span(s, from, to);
    forall k | 0 <= k < |part| ensures part[k] != NEWLINE {
      assert part[k] == s[from + k];
    }
  }

  lemma StartOfSpan(s: seq<byte>, from: nat, to: nat, n: nat)
    requires from <= to <= |s| && AtLineStart(Span(s, from, to), n) && 0 < n
    ensures AtLineStart(s, from + n) && AtLineStart(Span(s, from, from + n), n) && |Span(s, from, from + n)| == n
  {}

  /** A buffer read from a line's start holds the file's lines up to its last newline. */
  lemma BufferGivesLines(file: seq<byte>, from: nat, to: nat)
    requires from <= to <= |file|
    ensures var buffer := Span(file, from, to);
            var end := LastNewline(buffer);
            && (0 <= end ==> AtLineStart(file, from + end + 1)
                             && NonEmpty(Split(Span(buffer, 0, end + 1))) == Lines(Span(file, from, from + end + 1)))
            && Unbroken(Span(file, from + end + 1, to))
  {
    hide *;
    var buffer := Span(file, from, to);
    var end := LastNewline(buffer);
    UnbrokenSpan(buffer, end + 1, |buffer|);
    SpanOfSpan(file, from, to, 0);
    SpanOfSpan(file, from, to, end + 1);
    if 0 <= end {
      PastNewline(buffer, end);
      StartOfSpan(file, from, to, end + 1);
      WholeLines(Span(file, from, from + end + 1));
    }
  }

  lemma NoBytes(s: seq<byte>, at: nat)
    requires at <= |s|
    ensures Lines(Span(s, at, at)) == [] && Unbroken(Span(s, at, at))
  {}

  /** From a line's start, a read gives the lines up to the next offset, which is a line's start again. */
  lemma ReadGivesLines(file: seq<byte>, took: Option<nat>, offset: nat)
    requires AtLineStart(file, offset)
    ensures var r := ReadCompleteLines(Sight(Some(file), took), offset);
            offset <= r.next && AtLineStart(file, r.next) && r.lines == Lines(Span(file, offset, r.next))
  {
    hide Lines, NonEmpty, Split, LastNewline, Span;
    NoBytes(file, offset);
    if offset < |file| && took.Some? {
      BufferGivesLines(file, offset, offset + Min(took.value, |file| - offset));
    }
  }

  /** Of what a read took, it leaves no complete line unread. */
  lemma ReadLeavesNoLine(file: seq<byte>, took: nat, offset: nat)
    requires offset <= |file|
    ensures var next, end := ReadCompleteLines(Sight(Some(file), Some(took)), offset).next,
              offset + Min(took, |file| - offset);
            offset <= next <= end && Unbroken(Span(file, next, end))
  {
    hide Lines, NonEmpty, Split, LastNewline, Span, Unbroken;
    if offset < |file| {
      var n := Min(took, |file| - offset);
      SpanOfSpan(file, offset, offset + n, n);
      BufferGivesLines(file, offset, offset + n);
    } else {
      NoBytes(file, offset);
    }
  }

  /** A read that takes all there is leaves no complete line unread. */
  lemma ReadTakesAll(file: seq<byte>, took: nat, offset: nat)
    requires offset <= |file| && |file| - offset <= took
    ensures Unbroken(Span(file, ReadCompleteLines(Sight(Some(file), Some(took)), offset).next, |file|))
  {
    hide Unbroken, Span, ReadCompleteLines;
    ReadLeavesNoLine(file, took, offset);
  }

  /** A log that is shorter than it was is read from its start; one that cannot be read is left where it was. */
  lemma OtherReads(file: seq<byte>, took: Option<nat>, offset: nat)
    ensures |file| < offset && (took.Some? || file == []) ==>
              ReadCompleteLines(Sight(Some(file), took), offset) == ReadCompleteLines(Sight(Some(file), took), 0)
    ensures took.None? && 0 < |file| ==> ReadCompleteLines(Sight(Some(file), took), offset) == Read([], offset)
  {
    hide Split, LastNewline, Span;
  }

  lemma LinesOnward(file: seq<byte>, a: nat, b: nat, c: nat)
    requires a <= b <= c <= |file| && AtLineStart(file, a) && AtLineStart(file, b)
    ensures Lines(Span(file, a, c)) == Lines(Span(file, a, b)) + Lines(Span(file, b, c))
  {
    assert file[a..b] + file[b..c] == file[a..c];
    assert AtLineStart(file[a..b], |file[a..b]|);
    LinesConcat(file[a..b], file[b..c]);
  }

  /** The complete lines of a file from a line's start on are those up to any later offset with no newline after it. */
  lemma LinesUpTo(file: seq<byte>, a: nat, b: nat)
    requires a <= b <= |file| && AtLineStart(file, a) && AtLineStart(file, b) && Unbroken(Span(file, b, |file|))
    ensures Lines(Span(file, a, |file|)) == Lines(Span(file, a, b))
  {
    LinesOnward(file, a, b, |file|);
    NoLines(Span(file, b, |file|));
  }

  /** A log whose open failed is read from its start again: every line it holds is given once more. */
  lemma FailedOpenRereads(file: seq<byte>, offset: nat)
    ensures ReadCompleteLines(Sight(None, None), offset) == Read([], 0)
    ensures ReadCompleteLines(Sight(Some(file), Some(|file|)), 0).lines == Lines(file)
  {
    hide Lines, Split, LastNewline;
    ReadGivesLines(file, Some(|file|), 0);
    ReadTakesAll(file, |file|, 0);
    LinesUpTo(file, 0, ReadCompleteLines(Sight(Some(file), Some(|file|)), 0).next);
    assert Span(file, 0, |file|) == file;
    hide Span;
  }
}
