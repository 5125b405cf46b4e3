/** TestTextViewLine: the box that lays out one buffer line. Its fields are set
    once, when the box is built, and every member is an expression over them. */
module ViewLines {
  import opened TextModel

  /** TextBounds as the box reports it for a character. */
  datatype TextBounds = TextBounds(left: int, top: int, width: int, height: int, textTop: int, textHeight: int) {
    function Right(): int { left + width }
    function Bottom(): int { top + height }
  }

  datatype TextViewLine = TextViewLine(bufferLine: SnapshotLine, left: int, top: int, right: int, bottom: int) {

    function Start(): nat { bufferLine.start }
    function End(): nat { bufferLine.End() }
    function EndIncludingLineBreak(): nat { bufferLine.EndIncludingLineBreak() }
    function Length(): nat { bufferLine.length }
    function LengthIncludingLineBreak(): nat { bufferLine.LengthIncludingLineBreak() }
    function LineBreakLength(): nat { bufferLine.lineBreakLength }

    /** The box runs from `top` down to `bottom`. */
    function Height(): (r: int)
      ensures top + r == bottom
    {
      bottom - top
    }

    /** The box runs from `left` across to `right`. */
    function Width(): (r: int)
      ensures left + r == right
    {
      right - left
    }

    /** The line's text, without its line break. */
    function Extent(): (r: Span)
      ensures r.start == Start() && r.End() == End()
    {
      Span(Start(), Length())
    }

    /** The line's text followed by its line break. */
    function ExtentIncludingLineBreak(): (r: Span)
      ensures r.start == Start() && r.End() == EndIncludingLineBreak()
    {
      Span(Start(), LengthIncludingLineBreak())
    }

    /** A box owns the offsets of its text and of its line break, but not the
        offset just past the break. */
    predicate ContainsBufferPosition(position: nat)
      ensures ContainsBufferPosition(position) <==> Start() <= position < EndIncludingLineBreak()
    {
      ExtentIncludingLineBreak().Contains(position)
    }

    /** Every character is a square as tall as the box, placed by its column. */
    function GetCharacterBounds(position: VirtualPoint): (r: TextBounds)
      ensures r.top == top && r.Bottom() == bottom
      ensures r.width == r.height == Height()
      ensures position.point.position == Start() ==> r.left == left
      ensures r.textTop == top && r.textHeight == Height()
    {
      var column := position.point.position - Start();
      TextBounds(left + column * Height(), top, Height(), Height(), top, Height())
    }

    /** The SnapshotPoint overload goes through a point without virtual space. */
    function GetCharacterBoundsOfPoint(position: SnapshotPoint): TextBounds
    {
      GetCharacterBounds(VirtualPoint(position, 0))
    }

    function GetExtendedCharacterBounds(position: VirtualPoint): TextBounds
    {
      GetCharacterBounds(position)
    }

    function GetExtendedCharacterBoundsOfPoint(position: SnapshotPoint): TextBounds
    {
      GetCharacterBoundsOfPoint(position)
    }

    /** Lines are not split into text elements: any offset yields the whole line. */
    function GetTextElementSpan(position: nat): (r: Span)
      ensures r.start == Start() && r.End() == End()
    {
      Extent()
    }

    /** The line's text meets the span, touching at an end point included. */
    predicate IntersectsBufferSpan(span: Span)
      ensures IntersectsBufferSpan(span) <==> span.start <= End() && Start() <= span.End()
    {
      Extent().IntersectsWith(span)
    }

    predicate IsFirstTextViewLineForSnapshotLine() { true }
    predicate IsLastTextViewLineForSnapshotLine() { true }
    predicate IsValid() { true }
    function EndOfLineWidth(): int { 0 }
    function VirtualSpaceWidth(): int { 0 }
  }

  /** The next character's square starts where this one's ends. */
  lemma CharacterSquaresAdjacent(line: TextViewLine, position: SnapshotPoint)
    ensures var here := line.GetCharacterBoundsOfPoint(position);
            var next := line.GetCharacterBoundsOfPoint(SnapshotPoint(position.version, position.position + 1));
            next.left == here.Right() && next.top == here.top
  {
    var column := position.position - line.Start();
    assert (column + 1) * line.Height() == column * line.Height() + line.Height();
  }

  /** When a box is as wide as its text at one square per character, the square
      of every character of the text lies inside the box. */
  lemma CharacterInsideBox(line: TextViewLine, position: VirtualPoint)
    requires line.Height() >= 0
    requires line.right == line.left + line.Length() * line.Height()
    requires line.Start() <= position.point.position < line.End()
    ensures var b := line.GetCharacterBounds(position);
            line.left <= b.left && b.Right() <= line.right && b.top == line.top && b.Bottom() == line.bottom
  {
    var column := position.point.position - line.Start();
    var h := line.Height();
    assert 0 <= column * h by {
      MulNonNegative(column, h);
    }
    assert column * h + h <= line.Length() * h by {
      MulMonotone(column + 1, line.Length(), h);
      assert (column + 1) * h == column * h + h;
    }
  }

  /** The square of a character sits `Height` to the right per column: the
      square of offset `p` starts `(p - Start) * Height` right of the box's left
      edge, so any two squares are their offset distance times `Height` apart. */
  lemma CharacterColumns(line: TextViewLine, p: SnapshotPoint, q: SnapshotPoint)
    ensures line.GetCharacterBoundsOfPoint(p).left == line.left + (p.position - line.Start()) * line.Height()
    ensures line.GetCharacterBoundsOfPoint(q).left - line.GetCharacterBoundsOfPoint(p).left
            == (q.position - p.position) * line.Height()
  {
    var h := line.Height();
    assert (q.position - line.Start()) * h - (p.position - line.Start()) * h == (q.position - p.position) * h;
  }

  lemma MulNonNegative(a: int, b: int)
    requires 0 <= a && 0 <= b
    ensures 0 <= a * b
  {
  }

  lemma MulMonotone(a: int, b: int, c: int)
    requires a <= b && 0 <= c
    ensures a * c <= b * c
  {
    assert b * c - a * c == (b - a) * c;
  }

  /** Character bounds only look at the buffer offset: virtual space is ignored,
      and the extended bounds are the plain bounds. */
  lemma CharacterBoundsIgnoreVirtualSpace(line: TextViewLine, point: SnapshotPoint, spacesA: nat, spacesB: nat)
    ensures line.GetCharacterBounds(VirtualPoint(point, spacesA)) == line.GetCharacterBounds(VirtualPoint(point, spacesB))
    ensures line.GetCharacterBounds(VirtualPoint(point, spacesA)) == line.GetCharacterBoundsOfPoint(point)
    ensures line.GetExtendedCharacterBounds(VirtualPoint(point, spacesA)) == line.GetCharacterBounds(VirtualPoint(point, spacesA))
    ensures line.GetExtendedCharacterBoundsOfPoint(point) == line.GetCharacterBoundsOfPoint(point)
  {
  }

  /** The text-element span does not depend on the offset asked about. */
  lemma TextElementSpanIsWholeLine(line: TextViewLine, p: nat, q: nat)
    ensures line.GetTextElementSpan(p) == line.GetTextElementSpan(q)
    ensures line.GetTextElementSpan(p).start == line.Start() && line.GetTextElementSpan(p).End() == line.End()
  {
  }

  /** A box is the first and the last view line of its buffer line. */
  lemma BoxIsOnlyViewLineOfItsLine(line: TextViewLine)
    ensures line.IsFirstTextViewLineForSnapshotLine() && line.IsLastTextViewLineForSnapshotLine()
  {
  }

  /** A box is always valid and has no end-of-line or virtual-space width. */
  lemma BoxHasNoExtraWidth(line: TextViewLine)
    ensures line.IsValid() && line.EndOfLineWidth() == 0 && line.VirtualSpaceWidth() == 0
  {
  }
}
