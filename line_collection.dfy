/** TestTextViewLineCollection: the list of line boxes of a view, filled in
    place by Add, with a linear scan from a buffer offset to its box. */
module LineCollection {
  import opened TextModel
  import opened ViewLines

  /** Index of the first box, in list order, that contains `position`. */
  function FirstContaining(boxes: seq<TextViewLine>, position: nat): (r: Option<nat>)
    ensures r.Some? ==> r.value < |boxes| && boxes[r.value].ContainsBufferPosition(position)
    ensures r.Some? ==> forall j :: 0 <= j < r.value ==> !boxes[j].ContainsBufferPosition(position)
    ensures r.None? <==> forall j :: 0 <= j < |boxes| ==> !boxes[j].ContainsBufferPosition(position)
  {
    if |boxes| == 0 then None
    else if boxes[0].ContainsBufferPosition(position) then Some(0)
    else
      match FirstContaining(boxes[1..], position)
      case Some(k) => Some(k + 1)
      case None => None
  }

  /** The box a buffer offset belongs to: the first box that contains it;
      failing that, the last box when the offset is that box's end (the end of
      the buffer); otherwise none. */
  function ContainingLine(boxes: seq<TextViewLine>, position: nat): (r: Option<TextViewLine>)
    ensures forall k :: 0 <= k < |boxes| && boxes[k].ContainsBufferPosition(position) &&
              (forall j :: 0 <= j < k ==> !boxes[j].ContainsBufferPosition(position))
              ==> r == Some(boxes[k])
    ensures (forall j :: 0 <= j < |boxes| ==> !boxes[j].ContainsBufferPosition(position)) ==>
              r == (if |boxes| > 0 && position == boxes[|boxes| - 1].EndIncludingLineBreak()
                    then Some(boxes[|boxes| - 1]) else None)
    ensures r.Some? ==> r.value in boxes
  {
    match FirstContaining(boxes, position)
    case Some(k) => Some(boxes[k])
    case None =>
      if |boxes| > 0 && position == boxes[|boxes| - 1].EndIncludingLineBreak()
      then Some(boxes[|boxes| - 1])
      else None
  }

  /** When the boxes' extents follow one another without overlap, the box
      found is the only one that contains the offset. */
  lemma {:induction false} ContainingLineUnique(boxes: seq<TextViewLine>, position: nat, i: nat)
    requires forall j :: 0 <= j < |boxes| - 1 ==> boxes[j].EndIncludingLineBreak() <= boxes[j + 1].Start()
    requires i < |boxes| && boxes[i].ContainsBufferPosition(position)
    ensures ContainingLine(boxes, position) == Some(boxes[i])
    ensures forall j :: 0 <= j < |boxes| && boxes[j].ContainsBufferPosition(position) ==> j == i
  {
    forall j | 0 <= j < |boxes| && boxes[j].ContainsBufferPosition(position)
      ensures j == i
    {
      if j < i {
        EndsBeforeStart(boxes, j, i);
      } else if i < j {
        EndsBeforeStart(boxes, i, j);
      }
    }
  }

  lemma {:induction false} EndsBeforeStart(boxes: seq<TextViewLine>, i: nat, j: nat)
    requires forall k :: 0 <= k < |boxes| - 1 ==> boxes[k].EndIncludingLineBreak() <= boxes[k + 1].Start()
    requires i < j < |boxes|
    ensures boxes[i].EndIncludingLineBreak() <= boxes[j].Start()
  {
    if i + 1 < j {
      EndsBeforeStart(boxes, i, j - 1);
    }
  }

  class TextViewLineCollection {
    var lines: seq<TextViewLine>

    constructor ()
      ensures lines == []
    {
      lines := [];
    }

    method Add(line: TextViewLine)
      modifies this
      ensures lines == old(lines) + [line]
    {
      lines := lines + [line];
    }

    function FirstVisibleLine(): (r: Option<TextViewLine>)
      reads this
      ensures r.None? <==> |lines| == 0
      ensures r.Some? ==> r.value == lines[0]
    {
      if |lines| == 0 then None else Some(lines[0])
    }

    function LastVisibleLine(): (r: Option<TextViewLine>)
      reads this
      ensures r.None? <==> |lines| == 0
      ensures r.Some? ==> r.value == lines[|lines| - 1]
    {
      if |lines| == 0 then None else Some(lines[|lines| - 1])
    }

    predicate IsValid() { true }

    /** The collection-level queries answer a fixed value whatever they are asked. */
    predicate ContainsBufferPosition(position: nat) { false }

    function GetIndexOfTextLine(line: TextViewLine): int { -1 }

    function GetTextViewLineContainingYCoordinate(y: int): Option<TextViewLine> { None }

    function GetTextViewLinesIntersectingSpan(span: Span): Option<seq<TextViewLine>> { None }

    predicate IntersectsBufferSpan(span: Span) { false }

    /** A linear scan for the first box holding the offset, then the
        end-of-buffer rule for the last box. */
    method GetTextViewLineContainingBufferPosition(position: nat) returns (r: Option<TextViewLine>)
      ensures r == ContainingLine(lines, position)
    {
      var i := 0;
      while i < |lines|
        invariant 0 <= i <= |lines|
        invariant forall j :: 0 <= j < i ==> !lines[j].ContainsBufferPosition(position)
      {
        if lines[i].ContainsBufferPosition(position) {
          return Some(lines[i]);
        }
        i := i + 1;
      }
      var last := LastVisibleLine();
      if last.Some? && position == last.value.EndIncludingLineBreak() {
        return last;
      }
      return None;
    }

    /** The element span of the box holding the offset; ArgumentException when
        no box holds it. */
    method GetTextElementSpan(position: nat) returns (r: Result<Span>)
      ensures r.Failure? <==> ContainingLine(lines, position).None?
      ensures r.Failure? ==> r.error == ArgumentError
      ensures r.Success? ==> r.value == ContainingLine(lines, position).value.Extent()
    {
      var line := GetTextViewLineContainingBufferPosition(position);
      if line.None? {
        return Failure(ArgumentError);
      }
      return Success(line.value.GetTextElementSpan(position));
    }
  }

  /** The constant answers of the collection, for every argument. */
  lemma ConstantQueries(c: TextViewLineCollection, position: nat, line: TextViewLine, y: int, span: Span)
    ensures !c.ContainsBufferPosition(position) && c.GetIndexOfTextLine(line) == -1
    ensures c.GetTextViewLineContainingYCoordinate(y).None? && c.GetTextViewLinesIntersectingSpan(span).None?
    ensures !c.IntersectsBufferSpan(span) && c.IsValid()
  {
  }
}
