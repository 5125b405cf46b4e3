/** TestTextView: a view that lays out the first lines of its buffer on a fixed
    grid where every character is a 20 by 20 square, inside a fixed 20000 by
    20000 viewport. */
module TextViews {
  import opened TextModel
  import opened ViewLines
  import opened LineCollection

  /** Side of the square every character is drawn as. */
  const CharSize: int := 20

  /** Width and height of the viewport. */
  const ViewportSize: int := 20000

  /** Index of the last buffer line that is laid out. */
  const LastLaidOutLine: int := 20

  /** Number of boxes laid out for a snapshot: its lines, up to line 20. */
  function LaidOutLineCount(s: Snapshot): (r: nat)
    ensures r <= s.LineCount() && r <= LastLaidOutLine + 1
    ensures r == s.LineCount() || r == LastLaidOutLine + 1
  {
    if s.LineCount() - 1 < LastLaidOutLine then s.LineCount() else LastLaidOutLine + 1
  }

  /** The box of buffer line `i`: row `i` of the grid, one square per character. */
  function LineBox(s: Snapshot, i: nat): TextViewLine
    requires i < s.LineCount()
  {
    var top := CharSize * i;
    var line := s.GetLineFromLineNumber(i);
    TextViewLine(line, 0, top, line.length * CharSize, top + CharSize)
  }

  /** The boxes CreateLines lays out for a snapshot, in line order. */
  function Layout(s: Snapshot): (r: seq<TextViewLine>)
    ensures |r| == LaidOutLineCount(s)
    ensures forall i :: 0 <= i < |r| ==> r[i].bufferLine == s.GetLineFromLineNumber(i)
    ensures forall i :: 0 <= i < |r| ==> r[i].top == CharSize * i && r[i].Height() == CharSize
    ensures forall i :: 0 <= i < |r| ==> r[i].left == 0 && r[i].Width() == r[i].Length() * CharSize
  {
    seq(LaidOutLineCount(s), i requires 0 <= i < LaidOutLineCount(s) => LineBox(s, i))
  }

  /** The boxes stack without gaps from the top of the view, and their extents
      follow one another through the buffer from offset 0. */
  lemma LayoutContiguous(s: Snapshot)
    ensures |Layout(s)| > 0 ==> Layout(s)[0].top == 0 && Layout(s)[0].Start() == 0
    ensures forall i :: 0 <= i < |Layout(s)| - 1 ==> Layout(s)[i].bottom == Layout(s)[i + 1].top
    ensures forall i :: 0 <= i < |Layout(s)| - 1 ==>
              Layout(s)[i].EndIncludingLineBreak() == Layout(s)[i + 1].Start()
  {
  }

  /** In a buffer of at most 21 lines, every offset from 0 to the end of the
      buffer resolves to the box of the line that holds it; the end of the
      buffer resolves to the last line. */
  lemma LookupResolvesEveryOffset(s: Snapshot, offset: nat) returns (k: nat)
    requires 1 <= s.LineCount() <= LastLaidOutLine + 1
    requires offset <= s.Length()
    ensures k < s.LineCount()
    ensures ContainingLine(Layout(s), offset) == Some(Layout(s)[k])
    ensures LineStart(s.lines, k) <= offset < LineStart(s.lines, k + 1) ||
            (offset == s.Length() && k == s.LineCount() - 1)
  {
    var boxes := Layout(s);
    var n := s.LineCount();
    if offset < s.Length() {
      k := LineOfOffset(s.lines, n, offset);
      LayoutTiles(s);
      ContainingLineUnique(boxes, offset, k);
    } else {
      k := n - 1;
      forall j | 0 <= j < n
        ensures !boxes[j].ContainsBufferPosition(offset)
      {
        LineStartMonotone(s.lines, j + 1, n);
      }
    }
  }

  /** The extents of the laid-out boxes do not overlap and come in buffer order. */
  lemma LayoutTiles(s: Snapshot)
    ensures forall j :: 0 <= j < |Layout(s)| - 1 ==> Layout(s)[j].EndIncludingLineBreak() <= Layout(s)[j + 1].Start()
  {
  }

  /** In a buffer of more than 21 lines, the first offset of line 21 (just past
      the last box) resolves to the last box through the end-of-buffer rule, and
      every later offset resolves to no box. */
  lemma LookupPastLayout(s: Snapshot, offset: nat)
    requires s.LineCount() > LastLaidOutLine + 1
    requires LineStart(s.lines, LastLaidOutLine + 1) <= offset
    ensures offset == LineStart(s.lines, LastLaidOutLine + 1) ==>
              ContainingLine(Layout(s), offset) == Some(Layout(s)[LastLaidOutLine])
    ensures offset > LineStart(s.lines, LastLaidOutLine + 1) ==> ContainingLine(Layout(s), offset) == None
  {
    var boxes := Layout(s);
    forall j | 0 <= j < |boxes|
      ensures !boxes[j].ContainsBufferPosition(offset)
    {
      LineStartMonotone(s.lines, j + 1, LastLaidOutLine + 1);
    }
  }

  class TextView {
    const textBuffer: TextBuffer
    var textViewLines: TextViewLineCollection?
    var isClosed: bool
    /** Number of times the Closed event has been raised. */
    var closedRaised: nat

    ghost predicate Valid()
      reads this
    {
      textViewLines != null
    }

    /** Builds the view and lays out its buffer's current snapshot. The
        creation listeners, the data and view models and the selection broker
        the constructor also sets up are not part of this model. */
    constructor (textBuffer: TextBuffer)
      ensures this.textBuffer == textBuffer && Valid() && fresh(textViewLines)
      ensures textViewLines.lines == Layout(textBuffer.currentSnapshot)
      ensures !isClosed && closedRaised == 0
    {
      this.textBuffer := textBuffer;
      isClosed := false;
      closedRaised := 0;
      new;
      CreateLines();
    }

    /** Lays out line 0 up to line min(LineCount - 1, 20) of the current
        snapshot and replaces the view's line collection with the result. */
    method CreateLines()
      modifies this`textViewLines
      ensures Valid() && fresh(textViewLines)
      ensures textViewLines.lines == Layout(textBuffer.currentSnapshot)
    {
      var snapshot := textBuffer.currentSnapshot;
      var topLine := 0;
      var bottomLine := if snapshot.LineCount() - 1 < LastLaidOutLine then snapshot.LineCount() - 1 else LastLaidOutLine;
      var lines := new TextViewLineCollection();
      var i := topLine;
      while i <= bottomLine
        invariant 0 <= i <= bottomLine + 1
        invariant i <= LaidOutLineCount(snapshot)
        invariant lines.lines == Layout(snapshot)[..i]
        invariant bottomLine + 1 == LaidOutLineCount(snapshot)
      {
        var l := snapshot.GetLineFromLineNumber(i);
        var top := CharSize * i;
        var line := TextViewLine(l, 0, top, l.length * CharSize, top + LineHeight());
        lines.Add(line);
        i := i + 1;
      }
      textViewLines := lines;
    }

    /** The buffer's current snapshot, read afresh on every call. */
    function TextSnapshot(): (r: Snapshot)
      reads textBuffer
      ensures r == textBuffer.currentSnapshot
    {
      textBuffer.currentSnapshot
    }

    /** The buffer's current snapshot, read afresh on every call. */
    function VisualSnapshot(): (r: Snapshot)
      reads textBuffer
      ensures r == textBuffer.currentSnapshot
    {
      textBuffer.currentSnapshot
    }

    function LineHeight(): int { CharSize }
    function ViewportTop(): int { 0 }
    function ViewportLeft(): int { 0 }
    function ViewportHeight(): int { ViewportSize }
    function ViewportWidth(): int { ViewportSize }
    function ViewportBottom(): int { ViewportTop() + ViewportHeight() }
    function ViewportRight(): int { ViewportLeft() + ViewportWidth() }

    /** Marks the view closed and raises Closed. */
    method Close()
      modifies this`isClosed, this`closedRaised
      ensures isClosed && closedRaised == old(closedRaised) + 1
    {
      isClosed := true;
      closedRaised := closedRaised + 1;
    }

    /** Raises Closed without marking the view closed. */
    method FireClosed()
      modifies this`closedRaised
      ensures closedRaised == old(closedRaised) + 1
    {
      closedRaised := closedRaised + 1;
    }

    method GetTextViewLineContainingBufferPosition(position: nat) returns (r: Option<TextViewLine>)
      requires Valid()
      ensures r == ContainingLine(textViewLines.lines, position)
    {
      r := textViewLines.GetTextViewLineContainingBufferPosition(position);
    }

    method GetTextElementSpan(position: nat) returns (r: Result<Span>)
      requires Valid()
      ensures r.Failure? <==> ContainingLine(textViewLines.lines, position).None?
      ensures r.Failure? ==> r.error == ArgumentError
      ensures r.Success? ==> r.value == ContainingLine(textViewLines.lines, position).value.Extent()
    {
      r := textViewLines.GetTextElementSpan(position);
    }
  }

  /** The viewport is fixed: it starts at the origin, is 20000 wide and high,
      and its far edges are its near edges plus its size; lines are one
      character square high. */
  lemma ViewportIsFixed(v: TextView)
    ensures v.ViewportTop() == 0 && v.ViewportLeft() == 0
    ensures v.ViewportHeight() == ViewportSize && v.ViewportWidth() == ViewportSize
    ensures v.ViewportBottom() == v.ViewportTop() + v.ViewportHeight()
    ensures v.ViewportRight() == v.ViewportLeft() + v.ViewportWidth()
    ensures v.LineHeight() == CharSize == 20
  {
  }

  /** Any snapshot of the text "ab\ncd": offsets 0 and 2 resolve to line 0 (2 is its line
      break), offset 5, the end of the buffer, to line 1, and the 'c' at
      offset 3 is drawn at the left edge of line 1. */
  lemma TwoLineExample(s: Snapshot)
    requires s.lines == [LineText(2, 1), LineText(2, 0)]
    ensures var boxes := Layout(s);
            |boxes| == 2 &&
            ContainingLine(boxes, 0) == Some(boxes[0]) &&
            ContainingLine(boxes, 2) == Some(boxes[0]) &&
            ContainingLine(boxes, 5) == Some(boxes[1]) &&
            boxes[1].GetCharacterBoundsOfPoint(SnapshotPoint(s.version, 3)).left == boxes[1].left
  {
    var boxes := Layout(s);
    assert LineStart(s.lines, 1) == 3 && LineStart(s.lines, 2) == 5;
    var k0 := LookupResolvesEveryOffset(s, 0);
    var k2 := LookupResolvesEveryOffset(s, 2);
    var k5 := LookupResolvesEveryOffset(s, 5);
    assert k0 == 0 && k2 == 0 && k5 == 1;
    CharacterColumns(boxes[1], SnapshotPoint(s.version, 3), SnapshotPoint(s.version, 3));
  }
}
