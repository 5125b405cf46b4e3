/** TestTextCaret: a caret that keeps a cached position and takes its truth from
    the selection broker's primary insertion point. Moving the caret moves the
    broker's selection; the broker's session-changed notification makes the
    caret re-read it. */
module Carets {
  import opened TextModel
  import opened ViewLines
  import opened LineCollection
  import opened TextViews

  /** CaretPosition: a virtual buffer position and its affinity. The mapping
      point of the host's buffer graph is not part of this model. */
  datatype CaretPosition = CaretPosition(virtualBufferPosition: VirtualPoint, affinity: Affinity) {
    function BufferPosition(): SnapshotPoint { virtualBufferPosition.point }
  }

  /** The arguments of one PositionChanged event. */
  datatype PositionChange = PositionChange(oldPosition: CaretPosition, newPosition: CaretPosition)

  /** What an Update computes: the new cached position and the events raised. */
  datatype Resynced = Resynced(position: CaretPosition, raised: seq<PositionChange>)

  /** Update's decision. The cache is replaced when the snapshot, the translated
      position or the affinity differs from the broker's; PositionChanged is
      raised only when the translated position differs. */
  function Resync(current: CaretPosition, version: nat, brokerPoint: VirtualPoint, brokerAffinity: Affinity,
                  translateTo: (VirtualPoint, nat) -> VirtualPoint): (r: Resynced)
    requires TranslationWellBehaved(translateTo)
    ensures r.position.virtualBufferPosition == translateTo(brokerPoint, version)
    ensures r.position.affinity == brokerAffinity
    ensures r.position.BufferPosition().version == version
    ensures |r.raised| <= 1
    ensures r.raised != [] <==> translateTo(current.virtualBufferPosition, version) != translateTo(brokerPoint, version)
    ensures r.raised != [] ==> r.raised[0] == PositionChange(current, r.position)
  {
    var target := translateTo(brokerPoint, version);
    var snapshotChanged := version != current.BufferPosition().version;
    var positionChanged := translateTo(current.virtualBufferPosition, version) != target;
    var affinityChanged := brokerAffinity != current.affinity;
    var next := if snapshotChanged || positionChanged || affinityChanged
                then CaretPosition(target, brokerAffinity)
                else current;
    Resynced(next, if positionChanged then [PositionChange(current, next)] else [])
  }

  /** A second Update against the same broker and buffer changes nothing and
      raises nothing. */
  lemma ResyncIdempotent(current: CaretPosition, version: nat, brokerPoint: VirtualPoint, brokerAffinity: Affinity,
                         translateTo: (VirtualPoint, nat) -> VirtualPoint)
    requires TranslationWellBehaved(translateTo)
    ensures var once := Resync(current, version, brokerPoint, brokerAffinity, translateTo);
            var twice := Resync(once.position, version, brokerPoint, brokerAffinity, translateTo);
            twice.position == once.position && twice.raised == []
  {
  }

  /** When only the snapshot or the affinity differ, the cache is replaced
      without an event. */
  lemma ResyncSilentWhenPositionKept(current: CaretPosition, version: nat, brokerPoint: VirtualPoint,
                                     brokerAffinity: Affinity, translateTo: (VirtualPoint, nat) -> VirtualPoint)
    requires TranslationWellBehaved(translateTo)
    requires translateTo(current.virtualBufferPosition, version) == translateTo(brokerPoint, version)
    ensures var r := Resync(current, version, brokerPoint, brokerAffinity, translateTo);
            r.raised == [] &&
            r.position == (if version != current.BufferPosition().version || brokerAffinity != current.affinity
                           then CaretPosition(translateTo(brokerPoint, version), brokerAffinity)
                           else current)
  {
  }

  /** Moving to a point of the current snapshot lands the caret exactly there. */
  lemma MoveRoundTrip(current: CaretPosition, target: VirtualPoint, affinity: Affinity,
                      translateTo: (VirtualPoint, nat) -> VirtualPoint)
    requires TranslationWellBehaved(translateTo)
    ensures Resync(current, target.point.version, target, affinity, translateTo).position == CaretPosition(target, affinity)
  {
  }

  /** IMultiSelectionBroker, reduced to its primary selection's insertion point
      and affinity. */
  class MultiSelectionBroker {
    var insertionPoint: VirtualPoint
    var insertionPointAffinity: Affinity

    constructor (insertionPoint: VirtualPoint, insertionPointAffinity: Affinity)
      ensures this.insertionPoint == insertionPoint && this.insertionPointAffinity == insertionPointAffinity
    {
      this.insertionPoint := insertionPoint;
      this.insertionPointAffinity := insertionPointAffinity;
    }

    /** SetSelection(new Selection(point, affinity)): an empty primary selection at `point`. */
    method SetSelection(point: VirtualPoint, affinity: Affinity)
      modifies this
      ensures insertionPoint == point && insertionPointAffinity == affinity
    {
      insertionPoint := point;
      insertionPointAffinity := affinity;
    }
  }

  class TextCaret {
    const textView: TextView
    const broker: MultiSelectionBroker
    var position: CaretPosition
    var overwriteMode: bool
    /** Every PositionChanged event raised so far, in order. */
    var positionChangedLog: seq<PositionChange>

    ghost predicate Valid()
    {
      textView.textBuffer.Valid()
    }

    function CurrentVersion(): nat
      reads textView.textBuffer
    {
      textView.textBuffer.currentSnapshot.version
    }

    /** The caret agrees with the broker's primary insertion point on the current snapshot. */
    ghost predicate InSyncWithBroker()
      reads this, broker, textView.textBuffer
    {
      position == CaretPosition(textView.textBuffer.translateTo(broker.insertionPoint, CurrentVersion()),
                                broker.insertionPointAffinity)
    }

    /** Starts at offset 0 of the current snapshot, without virtual space, with
        affinity Successor, and listens to the broker. */
    constructor (textView: TextView, broker: MultiSelectionBroker)
      requires textView.textBuffer.Valid()
      ensures this.textView == textView && this.broker == broker && Valid()
      ensures position == CaretPosition(VirtualPoint(SnapshotPoint(textView.textBuffer.currentSnapshot.version, 0), 0), Successor)
      ensures positionChangedLog == [] && !overwriteMode
    {
      this.textView := textView;
      this.broker := broker;
      var point := SnapshotPoint(textView.textBuffer.currentSnapshot.version, 0);
      position := CaretPosition(VirtualPoint(point, 0), Successor);
      overwriteMode := false;
      positionChangedLog := [];
    }

    predicate InVirtualSpace()
      ensures !InVirtualSpace()
    {
      false
    }

    /** Re-syncs the cached position from the broker's primary insertion point,
        translated onto the buffer's current snapshot. */
    method Update()
      requires Valid()
      modifies this`position, this`positionChangedLog
      ensures InSyncWithBroker()
      ensures var r := Resync(old(position), CurrentVersion(), broker.insertionPoint,
                              broker.insertionPointAffinity, textView.textBuffer.translateTo);
              position == r.position && positionChangedLog == old(positionChangedLog) + r.raised
    {
      var oldPosition := position;
      var snapshot := textView.textBuffer.currentSnapshot;
      var translateTo := textView.textBuffer.translateTo;
      var snapshotChanged := snapshot.version != oldPosition.BufferPosition().version;
      var translatedBrokerPos := translateTo(broker.insertionPoint, snapshot.version);
      var posChanged := translateTo(oldPosition.virtualBufferPosition, snapshot.version) != translatedBrokerPos;
      var affinityChanged := broker.insertionPointAffinity != oldPosition.affinity;
      if snapshotChanged || posChanged || affinityChanged {
        position := CaretPosition(translatedBrokerPos, broker.insertionPointAffinity);
      }
      if posChanged {
        positionChangedLog := positionChangedLog + [PositionChange(oldPosition, position)];
      }
    }

    /** The handler the caret registers for the broker's session-changed event. */
    method MultiSelectionSessionChanged()
      requires Valid()
      modifies this`position, this`positionChangedLog
      ensures InSyncWithBroker()
      ensures var r := Resync(old(position), CurrentVersion(), broker.insertionPoint,
                              broker.insertionPointAffinity, textView.textBuffer.translateTo);
              position == r.position && positionChangedLog == old(positionChangedLog) + r.raised
    {
      Update();
    }

    /** What a move to `target` with `affinity` leaves behind: the broker holds
        an empty selection at `target`, the caret has re-synced from it, and the
        returned position is the caret's. */
    twostate predicate MovedTo(target: VirtualPoint, affinity: Affinity, r: CaretPosition)
      requires Valid()
      reads this, broker, textView.textBuffer
    {
      var resynced := Resync(old(position), CurrentVersion(), target, affinity, textView.textBuffer.translateTo);
      broker.insertionPoint == target && broker.insertionPointAffinity == affinity &&
      position == resynced.position && positionChangedLog == old(positionChangedLog) + resynced.raised &&
      r == position && InSyncWithBroker()
    }

    /** Sets the broker's selection to an empty one at `target`; the caret's
        position is then whatever the broker's notification made it. The
        capture flag has no effect. */
    method MoveTo(target: VirtualPoint, affinity: Affinity, captureHorizontalPosition: bool) returns (r: CaretPosition)
      requires Valid()
      modifies broker, this`position, this`positionChangedLog
      ensures MovedTo(target, affinity, r)
      ensures target.point.version == CurrentVersion() ==> r == CaretPosition(target, affinity)
    {
      broker.SetSelection(target, affinity);
      // The broker raises MultiSelectionSessionChanged; the caret's handler runs.
      MultiSelectionSessionChanged();
      r := position;
    }

    method MoveToVirtualPoint(target: VirtualPoint) returns (r: CaretPosition)
      requires Valid()
      modifies broker, this`position, this`positionChangedLog
      ensures MovedTo(target, Successor, r)
    {
      r := MoveTo(target, Successor, true);
    }

    method MoveToVirtualPointWithAffinity(target: VirtualPoint, affinity: Affinity) returns (r: CaretPosition)
      requires Valid()
      modifies broker, this`position, this`positionChangedLog
      ensures MovedTo(target, affinity, r)
    {
      r := MoveTo(target, affinity, true);
    }

    /** A buffer position moves the caret to that position without virtual space. */
    method MoveToPointCapturing(target: SnapshotPoint, affinity: Affinity, captureHorizontalPosition: bool)
      returns (r: CaretPosition)
      requires Valid()
      modifies broker, this`position, this`positionChangedLog
      ensures MovedTo(VirtualPoint(target, 0), affinity, r)
    {
      r := MoveTo(VirtualPoint(target, 0), affinity, captureHorizontalPosition);
    }

    method MoveToPointWithAffinity(target: SnapshotPoint, affinity: Affinity) returns (r: CaretPosition)
      requires Valid()
      modifies broker, this`position, this`positionChangedLog
      ensures MovedTo(VirtualPoint(target, 0), affinity, r)
    {
      r := MoveToPointCapturing(target, affinity, true);
    }

    method MoveToPoint(target: SnapshotPoint) returns (r: CaretPosition)
      requires Valid()
      modifies broker, this`position, this`positionChangedLog
      ensures MovedTo(VirtualPoint(target, 0), Successor, r)
    {
      r := MoveToPointWithAffinity(target, Successor);
    }

    /** Moving to a view line needs the line's x-coordinate hit-testing, which
        the line boxes do not implement: the move fails before the broker is
        touched. */
    method MoveToLine(line: TextViewLine, xCoordinate: int, captureHorizontalPosition: bool) returns (r: Result<CaretPosition>)
      ensures r == Failure(NotSupported)
    {
      r := Failure(NotSupported);
    }

    /** The view line holding the caret's buffer position. */
    method ContainingTextViewLine() returns (r: Option<TextViewLine>)
      requires textView.Valid()
      ensures r == ContainingLine(textView.textViewLines.lines, position.BufferPosition().position)
    {
      r := textView.GetTextViewLineContainingBufferPosition(position.BufferPosition().position);
    }
  }
}
