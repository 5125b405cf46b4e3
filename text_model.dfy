/** The text-library types the mock view works over: snapshots made of lines,
    offsets, spans, virtual points, position affinity, and the buffer whose
    current snapshot changes under edits. The buffer itself belongs to the host
    editor; this module states only what the view, caret and selection rely on. */
module TextModel {

  datatype Option<+T> = None | Some(value: T)

  /** The exceptions the modelled members can raise. */
  datatype Error =
    | NotSupported        // NotImplementedException
    | ArgumentError       // ArgumentException
    | ArgumentOutOfRange  // ArgumentOutOfRangeException of SnapshotPoint / SnapshotSpan

  datatype Result<+T> = Success(value: T) | Failure(error: Error)

  /** Outcome of an operation that returns nothing on success. */
  datatype Outcome = Pass | Fail(error: Error)

  /** Which side of an offset a caret binds to. */
  datatype Affinity = Predecessor | Successor

  /** A half-open range of offsets [start, start + length). */
  datatype Span = Span(start: nat, length: nat) {
    function End(): nat { start + length }

    /** Span.Contains(int): the end offset itself is outside. */
    predicate Contains(position: int) { start <= position < End() }

    /** Span.IntersectsWith(Span): touching at an end point counts. */
    predicate IntersectsWith(other: Span) { other.start <= End() && other.End() >= start }
  }

  /** A snapshot is identified by its version number within its buffer. */
  datatype SnapshotPoint = SnapshotPoint(version: nat, position: nat)

  datatype VirtualPoint = VirtualPoint(point: SnapshotPoint, virtualSpaces: nat)

  datatype SnapshotSpan = SnapshotSpan(version: nat, span: Span)

  /** A VirtualSnapshotSpan built from a SnapshotSpan: both ends without virtual space. */
  datatype VirtualSnapshotSpan = VirtualSnapshotSpan(start: VirtualPoint, end: VirtualPoint)

  /** The text of one buffer line, as a length and the length of its line break. */
  datatype LineText = LineText(length: nat, lineBreakLength: nat)

  /** Offset at which line `i` starts: the lines before it, breaks included. */
  function LineStart(lines: seq<LineText>, i: nat): nat
    requires i <= |lines|
  {
    if i == 0 then 0
    else LineStart(lines, i - 1) + lines[i - 1].length + lines[i - 1].lineBreakLength
  }

  /** ITextSnapshotLine: where line `lineNumber` sits in its snapshot. */
  datatype SnapshotLine = SnapshotLine(lineNumber: nat, start: nat, length: nat, lineBreakLength: nat) {
    function End(): nat { start + length }
    function EndIncludingLineBreak(): nat { start + length + lineBreakLength }
    function LengthIncludingLineBreak(): nat { length + lineBreakLength }
  }

  datatype Snapshot = Snapshot(version: nat, lines: seq<LineText>) {
    function LineCount(): nat { |lines| }

    function Length(): nat { LineStart(lines, |lines|) }

    function GetLineFromLineNumber(i: nat): (r: SnapshotLine)
      requires i < |lines|
      ensures r.lineNumber == i && r.length == lines[i].length
      ensures r.start == LineStart(lines, i)
      ensures r.EndIncludingLineBreak() == LineStart(lines, i + 1)
    {
      SnapshotLine(i, LineStart(lines, i), lines[i].length, lines[i].lineBreakLength)
    }
  }

  /** VirtualSnapshotPoint.TranslateTo, as the host's change tracking provides it:
      the translated point lies on the target version, and a point already on
      that version is returned as it is. */
  ghost predicate TranslationWellBehaved(translateTo: (VirtualPoint, nat) -> VirtualPoint)
  {
    forall p: VirtualPoint, version: nat :: translateTo(p, version).point.version == version &&
      (p.point.version == version ==> translateTo(p, version) == p)
  }

  /** ITextBuffer: its current snapshot is replaced by edits made elsewhere. */
  class TextBuffer {
    var currentSnapshot: Snapshot
    const translateTo: (VirtualPoint, nat) -> VirtualPoint

    ghost predicate Valid() { TranslationWellBehaved(translateTo) }

    constructor (initial: Snapshot, translateTo: (VirtualPoint, nat) -> VirtualPoint)
      requires TranslationWellBehaved(translateTo)
      ensures Valid() && currentSnapshot == initial && this.translateTo == translateTo
    {
      currentSnapshot := initial;
      this.translateTo := translateTo;
    }
  }

  /** Line starts never decrease along the buffer. */
  lemma {:induction false} LineStartMonotone(lines: seq<LineText>, i: nat, j: nat)
    requires i <= j <= |lines|
    ensures LineStart(lines, i) <= LineStart(lines, j)
  {
    if i < j {
      LineStartMonotone(lines, i, j - 1);
    }
  }

  /** Every offset before the start of line `n` falls inside exactly one of the
      lines before it, line break included. */
  lemma {:induction false} LineOfOffset(lines: seq<LineText>, n: nat, offset: nat) returns (k: nat)
    requires n <= |lines|
    requires offset < LineStart(lines, n)
    ensures k < n
    ensures LineStart(lines, k) <= offset < LineStart(lines, k + 1)
  {
    if offset >= LineStart(lines, n - 1) {
      k := n - 1;
    } else {
      k := LineOfOffset(lines, n - 1, offset);
    }
  }
}
