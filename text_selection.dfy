/** MockTextSelection: a stand-alone selection holding one span and a reversed
    flag. Its points are taken on the buffer's current snapshot whenever they
    are asked for. */
module Selections {
  import opened TextModel
  import opened TextViews

  /** SnapshotPoint(snapshot, position): out of range past the snapshot's end. */
  function PointOn(s: Snapshot, position: nat): (r: Result<VirtualPoint>)
    ensures r.Success? <==> position <= s.Length()
    ensures r.Failure? ==> r.error == ArgumentOutOfRange
    ensures r.Success? ==> r.value == VirtualPoint(SnapshotPoint(s.version, position), 0)
  {
    if position <= s.Length() then Success(VirtualPoint(SnapshotPoint(s.version, position), 0))
    else Failure(ArgumentOutOfRange)
  }

  /** SnapshotSpan(snapshot, span): out of range when the span ends past the snapshot's end. */
  function SpanOn(s: Snapshot, span: Span): (r: Result<SnapshotSpan>)
    ensures r.Success? <==> span.End() <= s.Length()
    ensures r.Failure? ==> r.error == ArgumentOutOfRange
    ensures r.Success? ==> r.value == SnapshotSpan(s.version, span)
  {
    if span.End() <= s.Length() then Success(SnapshotSpan(s.version, span)) else Failure(ArgumentOutOfRange)
  }

  class TextSelection {
    const textView: TextView
    var selectedSpan: Span
    var isReversed: bool
    var isActive: bool
    var activationTracksFocus: bool
    /** Number of times SelectionChanged has been raised. */
    var selectionChangedRaised: nat

    /** An empty span at offset 0, not reversed. */
    constructor (textView: TextView)
      ensures this.textView == textView
      ensures selectedSpan == Span(0, 0) && !isReversed
      ensures !isActive && !activationTracksFocus && selectionChangedRaised == 0
    {
      this.textView := textView;
      selectedSpan := Span(0, 0);
      isReversed := false;
      isActive := false;
      activationTracksFocus := false;
      selectionChangedRaised := 0;
    }

    function CurrentSnapshot(): Snapshot
      reads textView.textBuffer
    {
      textView.textBuffer.currentSnapshot
    }

    predicate IsEmpty()
      reads this
      ensures IsEmpty() <==> selectedSpan.start == selectedSpan.End()
    {
      selectedSpan.length == 0
    }

    /** The stored span's start on the current snapshot, without virtual space;
        out of range past the snapshot's end. */
    function Start(): (r: Result<VirtualPoint>)
      reads this, textView.textBuffer
      ensures r.Success? <==> selectedSpan.start <= CurrentSnapshot().Length()
      ensures r.Failure? ==> r.error == ArgumentOutOfRange
      ensures r.Success? ==> r.value.point == SnapshotPoint(CurrentSnapshot().version, selectedSpan.start)
      ensures r.Success? ==> r.value.virtualSpaces == 0
    {
      PointOn(CurrentSnapshot(), selectedSpan.start)
    }

    /** The stored span's end on the current snapshot, without virtual space;
        out of range past the snapshot's end. */
    function End(): (r: Result<VirtualPoint>)
      reads this, textView.textBuffer
      ensures r.Success? <==> selectedSpan.End() <= CurrentSnapshot().Length()
      ensures r.Failure? ==> r.error == ArgumentOutOfRange
      ensures r.Success? ==> r.value.point == SnapshotPoint(CurrentSnapshot().version, selectedSpan.End())
      ensures r.Success? ==> r.value.virtualSpaces == 0
    {
      PointOn(CurrentSnapshot(), selectedSpan.End())
    }

    /** The active point is the start, whichever way the selection runs. */
    function ActivePoint(): (r: Result<VirtualPoint>)
      reads this, textView.textBuffer
      ensures r == Start() && r == AnchorPoint()
    {
      Start()
    }

    /** The anchor point is the start too. */
    function AnchorPoint(): (r: Result<VirtualPoint>)
      reads this, textView.textBuffer
    {
      Start()
    }

    /** The stored span, on the current snapshot, as the only selected span. */
    function SelectedSpans(): (r: Result<seq<SnapshotSpan>>)
      reads this, textView.textBuffer
      ensures r.Success? <==> selectedSpan.End() <= CurrentSnapshot().Length()
      ensures r.Failure? ==> r.error == ArgumentOutOfRange
      ensures r.Success? ==> r.value == [SnapshotSpan(CurrentSnapshot().version, selectedSpan)]
    {
      match SpanOn(CurrentSnapshot(), selectedSpan)
      case Success(span) => Success([span])
      case Failure(e) => Failure(e)
    }

    /** The stored span, on the current snapshot, without virtual space. */
    function StreamSelectionSpan(): (r: Result<VirtualSnapshotSpan>)
      reads this, textView.textBuffer
      ensures r.Success? <==> selectedSpan.End() <= CurrentSnapshot().Length()
      ensures r.Failure? ==> r.error == ArgumentOutOfRange
      ensures r.Success? ==> Start().Success? && End().Success? &&
                             r.value == VirtualSnapshotSpan(Start().value, End().value)
    {
      match SpanOn(CurrentSnapshot(), selectedSpan)
      case Success(span) =>
        Success(VirtualSnapshotSpan(VirtualPoint(SnapshotPoint(span.version, span.span.start), 0),
                                    VirtualPoint(SnapshotPoint(span.version, span.span.End()), 0)))
      case Failure(e) => Failure(e)
    }

    function VirtualSelectedSpans(): (r: Result<seq<VirtualSnapshotSpan>>)
      reads this, textView.textBuffer
      ensures r.Success? <==> StreamSelectionSpan().Success?
      ensures r.Failure? ==> r.error == ArgumentOutOfRange
      ensures r.Success? ==> r.value == [StreamSelectionSpan().value]
    {
      match StreamSelectionSpan()
      case Success(span) => Success([span])
      case Failure(e) => Failure(e)
    }

    /** Stores the span (its snapshot is dropped) and the flag, and raises SelectionChanged. */
    method Select(selectionSpan: SnapshotSpan, reversed: bool)
      modifies this`selectedSpan, this`isReversed, this`selectionChangedRaised
      ensures selectedSpan == selectionSpan.span && isReversed == reversed
      ensures selectionChangedRaised == old(selectionChangedRaised) + 1
    {
      isReversed := reversed;
      selectedSpan := selectionSpan.span;
      selectionChangedRaised := selectionChangedRaised + 1;
    }

    /** Selects the empty span at offset 0 of the current snapshot, not reversed. */
    method Clear()
      modifies this`selectedSpan, this`isReversed, this`selectionChangedRaised
      ensures selectedSpan == Span(0, 0) && !isReversed && IsEmpty()
      ensures selectionChangedRaised == old(selectionChangedRaised) + 1
    {
      Select(SnapshotSpan(CurrentSnapshot().version, Span(0, 0)), false);
    }

    /** Selecting by anchor and active point is not implemented. */
    method SelectPoints(anchorPoint: VirtualPoint, activePoint: VirtualPoint) returns (r: Outcome)
      ensures r == Fail(NotSupported)
    {
      r := Fail(NotSupported);
    }
  }

  /** Start never lies after End, whatever the reversed flag: when End can be
      taken on the current snapshot, so can Start, at an offset no greater. */
  lemma StartNotAfterEnd(selection: TextSelection)
    ensures selection.End().Success? ==>
              selection.Start().Success? &&
              selection.Start().value.point.position <= selection.End().value.point.position
    ensures selection.Start().Success? && selection.End().Success? ==>
              (selection.Start() == selection.End() <==> selection.IsEmpty())
  {
  }

  /** After Clear the selection is empty at offset 0, which is on every snapshot. */
  lemma ClearedSelectionAtOrigin(selection: TextSelection)
    requires selection.selectedSpan == Span(0, 0) && !selection.isReversed
    ensures selection.IsEmpty()
    ensures selection.Start() == selection.End() ==
              Success(VirtualPoint(SnapshotPoint(selection.CurrentSnapshot().version, 0), 0))
    ensures selection.ActivePoint() == selection.AnchorPoint() == selection.Start()
  {
    var origin := Success(VirtualPoint(SnapshotPoint(selection.CurrentSnapshot().version, 0), 0));
    assert selection.Start() == PointOn(selection.CurrentSnapshot(), 0) == origin;
    assert selection.End() == PointOn(selection.CurrentSnapshot(), 0) == origin;
  }
}
