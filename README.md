# MiniEditor mock text view, caret and selection

A Dafny model of the small piece of real logic in MiniEditor's mock editor host
(`Microsoft.VisualStudio.MiniEditor/BaseViewImpl`): the fixed-grid layout of a
text view, the lookup from a buffer offset to its line box, the caret that
re-syncs itself from the selection broker, and the stand-alone mock selection.

- `text_model.dfy` (module `TextModel`): the text-library values the view works
  over — snapshots as lists of lines (length and line-break length), spans,
  snapshot points and virtual points, position affinity, and the buffer whose
  current snapshot changes under edits. A snapshot is identified by its version
  number; translating a point to another snapshot is a function the buffer
  supplies, required to land on the target version and to leave a point alone
  when it is already there.
- `view_lines.dfy` (module `ViewLines`, `TestTextViewLine.cs`): a line box as a
  value — its buffer line and its left/top/right/bottom — with its extents,
  containment test, character bounds and text-element span.
- `line_collection.dfy` (module `LineCollection`, `TestTextViewLineCollection.cs`):
  the list of boxes as a class filled by `Add`, the linear-scan lookup as a
  loop proved against the specification function `ContainingLine`, and the
  collection's constant answers.
- `text_view.dfy` (module `TextViews`, `TestTextView.cs`): `CreateLines` as a
  loop proved to build `Layout(snapshot)`, the lemmas about that layout, the
  fixed viewport, `Close`, and the lookup delegations.
- `text_caret.dfy` (module `Carets`, `TestTextCaret.cs`): the caret as a class
  with its cached `CaretPosition`; `Update` is proved against the function
  `Resync`, and every point and virtual-point `MoveTo` overload is proved to go
  through the broker; the view-line overloads fail before reaching it.
  The broker is a small class holding the primary insertion point and its
  affinity.
- `text_selection.dfy` (module `Selections`, `MockTextSelection.cs`): the
  selection as a class holding one span and the reversed flag.

Events are modelled as counters (`Closed`, `SelectionChanged`) or as a log of
their arguments (`PositionChanged`); the broker's session-changed notification
is modelled as the caret's handler being run right after `SetSelection`.

What the proofs establish, beyond each member's own contract:

- Layout: exactly `min(LineCount, 21)` boxes, box `i` for buffer line `i`, rows
  20 high stacked from 0 without gaps, boxes as wide as 20 per character, and
  extents that follow one another through the buffer from offset 0.
- Lookup: the first box in list order that contains the offset, else the last
  box when the offset is its end, else none; with non-overlapping extents the
  box found is the only one containing the offset; for a buffer of 1 to 21
  lines every offset from 0 to the buffer's end resolves to the line holding it,
  the end itself to the last line. For a buffer of more than 21 lines, the
  first offset of line 21 (not laid out) resolves to box 20 through the
  end-of-buffer rule, and every later offset to none.
- Caret: after every `Update` the caret equals the broker's insertion point
  translated to the current snapshot, with the broker's affinity;
  `PositionChanged` is raised exactly when the translated position differs,
  once, with the old and new positions; a second `Update` changes nothing;
  moving to a point of the current snapshot lands the caret exactly there.
- Selection: `Start` is never after `End`, active and anchor points are both
  `Start`, `Clear` leaves an empty span at offset 0.

Some behaviour of the code worth knowing: lines are laid out once, in the
view's constructor, and only the first 21; a lookup can return nothing for
offsets past the laid-out lines; `PositionChanged` is raised only when the
position differs, never when only the snapshot or affinity does; `Clear` moves
the selection to offset 0; the mock selection's anchor and active points are
both its start whatever the reversed flag; selecting by anchor and active
point is not implemented.

## Model

| member | source | states |
|---|---|---|
| `ViewLines.TextViewLine.Extent` | Microsoft.VisualStudio.MiniEditor/BaseViewImpl/TestTextViewLine.cs:33 | the extent runs from the line's start to its end, line break excluded |
| `ViewLines.TextViewLine.ExtentIncludingLineBreak` | Microsoft.VisualStudio.MiniEditor/BaseViewImpl/TestTextViewLine.cs:39 | the extent runs from the line's start to the end of its line break |
| `ViewLines.TextViewLine.Height` | Microsoft.VisualStudio.MiniEditor/BaseViewImpl/TestTextViewLine.cs:61 | the box's height is the distance from its top down to its bottom |
| `ViewLines.TextViewLine.Width` | Microsoft.VisualStudio.MiniEditor/BaseViewImpl/TestTextViewLine.cs:77 | the box's width is the distance from its left across to its right |
| `ViewLines.TextViewLine.GetTextElementSpan` | Microsoft.VisualStudio.MiniEditor/BaseViewImpl/TestTextViewLine.cs:143 | the text-element span of any offset runs from the line's start to its end, line break excluded |
| `ViewLines.TextViewLine.ContainsBufferPosition` | Microsoft.VisualStudio.MiniEditor/BaseViewImpl/TestTextViewLine.cs:99 | a box contains an offset iff `Start <= p < EndIncludingLineBreak` |
| `ViewLines.TextViewLine.GetCharacterBounds` | Microsoft.VisualStudio.MiniEditor/BaseViewImpl/TestTextViewLine.cs:118-124 | a character's bounds share the box's top and bottom, are a square of side `Height`, start at the box's left edge for the line's first offset, and carry the box's top and height as text top and height |
| `ViewLines.TextViewLine.IntersectsBufferSpan` | Microsoft.VisualStudio.MiniEditor/BaseViewImpl/TestTextViewLine.cs:150 | the line meets a span iff the span starts no later than the line's end and ends no earlier than its start |
| `ViewLines.CharacterSquaresAdjacent` | Microsoft.VisualStudio.MiniEditor/BaseViewImpl/TestTextViewLine.cs:118-124 | the square of offset `p + 1` starts where the square of `p` ends, on the same row |
| `ViewLines.CharacterColumns` | Microsoft.VisualStudio.MiniEditor/BaseViewImpl/TestTextViewLine.cs:118-124 | the square of offset `p` starts `(p - Start) * Height` right of the box's left edge, so two squares lie their offset distance times `Height` apart |
| `ViewLines.CharacterInsideBox` | Microsoft.VisualStudio.MiniEditor/BaseViewImpl/TestTextViewLine.cs:118-124 | in a box one square wide per character, the square of every character of the line's text lies inside the box |
| `ViewLines.CharacterBoundsIgnoreVirtualSpace` | Microsoft.VisualStudio.MiniEditor/BaseViewImpl/TestTextViewLine.cs:115-130 | two virtual points at the same buffer position get the same bounds, the point overload equals the virtual one, and extended bounds equal plain bounds |
| `ViewLines.TextElementSpanIsWholeLine` | Microsoft.VisualStudio.MiniEditor/BaseViewImpl/TestTextViewLine.cs:143 | the text-element span is the line's whole extent, whatever offset is asked about |
| `ViewLines.BoxIsOnlyViewLineOfItsLine` | Microsoft.VisualStudio.MiniEditor/BaseViewImpl/TestTextViewLine.cs:27-29 | every box is both the first and the last view line of its buffer line |
| `ViewLines.BoxHasNoExtraWidth` | Microsoft.VisualStudio.MiniEditor/BaseViewImpl/TestTextViewLine.cs:83-87 | every box is valid and has zero end-of-line and virtual-space width |
| `LineCollection.FirstContaining` | Microsoft.VisualStudio.MiniEditor/BaseViewImpl/TestTextViewLineCollection.cs:55-59 | the index found is the first box in list order containing the offset; none is found iff no box contains it |
| `LineCollection.ContainingLine` | Microsoft.VisualStudio.MiniEditor/BaseViewImpl/TestTextViewLineCollection.cs:52-70 | the first containing box is returned; when no box contains the offset, the last box is returned iff the offset is its `EndIncludingLineBreak`, otherwise nothing (always nothing for an empty list); a result is always one of the boxes |
| `LineCollection.ContainingLineUnique` | Microsoft.VisualStudio.MiniEditor/BaseViewImpl/TestTextViewLineCollection.cs:55-59 | when the boxes' extents come in order without overlap, the box returned is the only box containing the offset |
| `LineCollection.ConstantQueries` | Microsoft.VisualStudio.MiniEditor/BaseViewImpl/TestTextViewLineCollection.cs:24-79 | the collection's `ContainsBufferPosition` and `IntersectsBufferSpan` are false, `GetIndexOfTextLine` is -1, the y-coordinate and span-intersection queries give nothing, and `IsValid` holds, for every argument |
| `LineCollection.TextViewLineCollection.constructor` | Microsoft.VisualStudio.MiniEditor/BaseViewImpl/TestTextViewLineCollection.cs:13-16 | a new collection is empty |
| `LineCollection.TextViewLineCollection.Add` | Microsoft.VisualStudio.MiniEditor/BaseViewImpl/TestTextViewLineCollection.cs:9 | `Add` (inherited from the list) appends one box at the end |
| `LineCollection.TextViewLineCollection.FirstVisibleLine` | Microsoft.VisualStudio.MiniEditor/BaseViewImpl/TestTextViewLineCollection.cs:18 | the first box, or nothing iff the collection is empty |
| `LineCollection.TextViewLineCollection.LastVisibleLine` | Microsoft.VisualStudio.MiniEditor/BaseViewImpl/TestTextViewLineCollection.cs:20 | the last box, or nothing iff the collection is empty |
| `LineCollection.TextViewLineCollection.GetTextViewLineContainingBufferPosition` | Microsoft.VisualStudio.MiniEditor/BaseViewImpl/TestTextViewLineCollection.cs:52-70 | the early-return scan followed by the last-box check returns exactly `ContainingLine` of the collection's boxes |
| `LineCollection.TextViewLineCollection.GetTextElementSpan` | Microsoft.VisualStudio.MiniEditor/BaseViewImpl/TestTextViewLineCollection.cs:42-50 | fails with ArgumentException iff the lookup finds no box; otherwise returns the found box's extent |
| `TextViews.LaidOutLineCount` | Microsoft.VisualStudio.MiniEditor/BaseViewImpl/TestTextView.cs:52-56 | the number of boxes is the line count when it is at most 21, and 21 otherwise |
| `TextViews.Layout` | Microsoft.VisualStudio.MiniEditor/BaseViewImpl/TestTextView.cs:49-63 | `min(LineCount, 21)` boxes; box `i` lays out buffer line `i`, has top `20 * i`, height `LineHeight`, left 0 and width 20 per character |
| `TextViews.LayoutContiguous` | Microsoft.VisualStudio.MiniEditor/BaseViewImpl/TestTextView.cs:56-61 | the first box has top 0 and starts at offset 0; each box's bottom is the next box's top and each box's `EndIncludingLineBreak` is the next box's start |
| `TextViews.LayoutTiles` | Microsoft.VisualStudio.MiniEditor/BaseViewImpl/TestTextView.cs:56-61 | the laid-out extents come in buffer order and do not overlap |
| `TextViews.LookupResolvesEveryOffset` | Microsoft.VisualStudio.MiniEditor/BaseViewImpl/TestTextViewLineCollection.cs:52-70 | for a buffer of 1 to 21 lines, every offset from 0 to the buffer's length resolves to the box of the line holding it, and the buffer's end to the last line |
| `TextViews.LookupPastLayout` | Microsoft.VisualStudio.MiniEditor/BaseViewImpl/TestTextView.cs:53 | for a buffer of more than 21 lines, the start of line 21 resolves to box 20 through the end-of-buffer rule and every later offset to nothing |
| `TextViews.ViewportIsFixed` | Microsoft.VisualStudio.MiniEditor/BaseViewImpl/TestTextView.cs:136-151 | viewport top and left are 0, height and width 20000, bottom is top plus height, right is left plus width, and the line height is 20 |
| `TextViews.TwoLineExample` | Microsoft.VisualStudio.MiniEditor/BaseViewImpl/TestTextViewLineCollection.cs:52-70 | in any snapshot of the text "ab\ncd", offsets 0 and 2 resolve to line 0, offset 5 (the end) to line 1, and the 'c' at offset 3 sits at line 1's left edge |
| `TextViews.TextView.constructor` | Microsoft.VisualStudio.MiniEditor/BaseViewImpl/TestTextView.cs:27-46 | a new view is open, has raised no Closed event, and its lines are the layout of the buffer's current snapshot |
| `TextViews.TextView.CreateLines` | Microsoft.VisualStudio.MiniEditor/BaseViewImpl/TestTextView.cs:49-64 | the loop from line 0 to `min(LineCount - 1, 20)` replaces the view's lines with a fresh collection equal to `Layout` of the current snapshot |
| `TextViews.TextView.TextSnapshot` | Microsoft.VisualStudio.MiniEditor/BaseViewImpl/TestTextView.cs:124 | the view's text snapshot is its buffer's current snapshot at the time of the call |
| `TextViews.TextView.VisualSnapshot` | Microsoft.VisualStudio.MiniEditor/BaseViewImpl/TestTextView.cs:126 | the view's visual snapshot is its buffer's current snapshot at the time of the call |
| `TextViews.TextView.Close` | Microsoft.VisualStudio.MiniEditor/BaseViewImpl/TestTextView.cs:158-162 | the view is closed and Closed is raised once more |
| `TextViews.TextView.FireClosed` | Microsoft.VisualStudio.MiniEditor/BaseViewImpl/TestTextView.cs:210 | Closed is raised once more; nothing else changes |
| `TextViews.TextView.GetTextViewLineContainingBufferPosition` | Microsoft.VisualStudio.MiniEditor/BaseViewImpl/TestTextView.cs:189-190 | the view's lookup returns exactly what its line collection's lookup returns |
| `TextViews.TextView.GetTextElementSpan` | Microsoft.VisualStudio.MiniEditor/BaseViewImpl/TestTextView.cs:85 | the view's element span is its line collection's: ArgumentException iff no box is found, else the found box's extent |
| `Carets.Resync` | Microsoft.VisualStudio.MiniEditor/BaseViewImpl/TestTextCaret.cs:110-131 | after the re-sync the position is the broker's insertion point translated to the current snapshot with the broker's affinity; PositionChanged is raised at most once, exactly when the translated old position differs from the translated broker point, with the old and new positions |
| `Carets.ResyncIdempotent` | Microsoft.VisualStudio.MiniEditor/BaseViewImpl/TestTextCaret.cs:115-130 | with broker and buffer unchanged, a second re-sync keeps the position and raises nothing |
| `Carets.ResyncSilentWhenPositionKept` | Microsoft.VisualStudio.MiniEditor/BaseViewImpl/TestTextCaret.cs:117-130 | when only the snapshot or the affinity differ, the cache is replaced and no event is raised; when nothing differs it is kept |
| `Carets.MoveRoundTrip` | Microsoft.VisualStudio.MiniEditor/BaseViewImpl/TestTextCaret.cs:79-83 | re-syncing after a move to a point of the current snapshot gives exactly that point with the requested affinity |
| `Carets.TextCaret.constructor` | Microsoft.VisualStudio.MiniEditor/BaseViewImpl/TestTextCaret.cs:13-26 | the caret starts at offset 0 of the current snapshot, with no virtual space and affinity Successor, with no event raised |
| `Carets.TextCaret.InVirtualSpace` | Microsoft.VisualStudio.MiniEditor/BaseViewImpl/TestTextCaret.cs:97-101 | the caret is never in virtual space |
| `Carets.TextCaret.Update` | Microsoft.VisualStudio.MiniEditor/BaseViewImpl/TestTextCaret.cs:110-131 | the new position and the events raised are those of `Resync`, so the caret ends in sync with the broker |
| `Carets.TextCaret.MultiSelectionSessionChanged` | Microsoft.VisualStudio.MiniEditor/BaseViewImpl/TestTextCaret.cs:105-108 | every session-changed notification runs `Update` |
| `Carets.TextCaret.MoveTo` | Microsoft.VisualStudio.MiniEditor/BaseViewImpl/TestTextCaret.cs:79-83 | the broker holds an empty selection at the target with the given affinity, the caret has re-synced from it, and the caret's position is returned; for a target on the current snapshot that is exactly the target |
| `Carets.TextCaret.MoveToVirtualPoint` | Microsoft.VisualStudio.MiniEditor/BaseViewImpl/TestTextCaret.cs:73-74 | a move without affinity uses Successor |
| `Carets.TextCaret.MoveToVirtualPointWithAffinity` | Microsoft.VisualStudio.MiniEditor/BaseViewImpl/TestTextCaret.cs:76-77 | a move without capture flag is the full move with the given affinity |
| `Carets.TextCaret.MoveToPointCapturing` | Microsoft.VisualStudio.MiniEditor/BaseViewImpl/TestTextCaret.cs:57-58 | a buffer position moves to that position with no virtual space |
| `Carets.TextCaret.MoveToPointWithAffinity` | Microsoft.VisualStudio.MiniEditor/BaseViewImpl/TestTextCaret.cs:54-55 | a buffer position with an affinity moves there with that affinity |
| `Carets.TextCaret.MoveToPoint` | Microsoft.VisualStudio.MiniEditor/BaseViewImpl/TestTextCaret.cs:51-52 | a bare buffer position moves there with affinity Successor |
| `Carets.TextCaret.MoveToLine` | Microsoft.VisualStudio.MiniEditor/BaseViewImpl/TestTextCaret.cs:66-71 | moving to a view line always fails as not supported, because the line's x-coordinate hit-test is not implemented |
| `Carets.TextCaret.ContainingTextViewLine` | Microsoft.VisualStudio.MiniEditor/BaseViewImpl/TestTextCaret.cs:39-40 | the caret's line is the view's lookup of the caret's buffer position |
| `Selections.PointOn` | Microsoft.VisualStudio.MiniEditor/BaseViewImpl/MockTextSelection.cs:46-50 | a point on the current snapshot exists iff its offset is within the snapshot, and has no virtual space |
| `Selections.SpanOn` | Microsoft.VisualStudio.MiniEditor/BaseViewImpl/MockTextSelection.cs:24-31 | a span on the current snapshot exists iff it ends within the snapshot |
| `Selections.TextSelection.constructor` | Microsoft.VisualStudio.MiniEditor/BaseViewImpl/MockTextSelection.cs:13-18 | a new selection is the empty span at offset 0, not reversed, with no event raised |
| `Selections.TextSelection.IsEmpty` | Microsoft.VisualStudio.MiniEditor/BaseViewImpl/MockTextSelection.cs:37 | the selection is empty iff the stored span starts where it ends |
| `Selections.TextSelection.Start` | Microsoft.VisualStudio.MiniEditor/BaseViewImpl/MockTextSelection.cs:46-47 | the stored span's start on the current snapshot with no virtual space; out of range iff the start lies past the snapshot's end |
| `Selections.TextSelection.End` | Microsoft.VisualStudio.MiniEditor/BaseViewImpl/MockTextSelection.cs:49-50 | the stored span's end on the current snapshot with no virtual space; out of range iff the end lies past the snapshot's end |
| `Selections.TextSelection.ActivePoint` | Microsoft.VisualStudio.MiniEditor/BaseViewImpl/MockTextSelection.cs:42-44 | the active point and the anchor point are both the start, whatever the reversed flag |
| `Selections.TextSelection.SelectedSpans` | Microsoft.VisualStudio.MiniEditor/BaseViewImpl/MockTextSelection.cs:24-25 | the single stored span on the current snapshot; out of range iff the span ends past the snapshot |
| `Selections.TextSelection.StreamSelectionSpan` | Microsoft.VisualStudio.MiniEditor/BaseViewImpl/MockTextSelection.cs:30-31 | the stored span on the current snapshot, from `Start` to `End`; out of range iff the span ends past the snapshot |
| `Selections.TextSelection.VirtualSelectedSpans` | Microsoft.VisualStudio.MiniEditor/BaseViewImpl/MockTextSelection.cs:27-28 | the stream selection span as the only virtual span |
| `Selections.TextSelection.Select` | Microsoft.VisualStudio.MiniEditor/BaseViewImpl/MockTextSelection.cs:61-66 | exactly the given span and flag are stored and SelectionChanged is raised once; nothing else changes |
| `Selections.TextSelection.Clear` | Microsoft.VisualStudio.MiniEditor/BaseViewImpl/MockTextSelection.cs:54 | the selection becomes the empty span at offset 0, not reversed, and SelectionChanged is raised once |
| `Selections.TextSelection.SelectPoints` | Microsoft.VisualStudio.MiniEditor/BaseViewImpl/MockTextSelection.cs:68-71 | selecting by anchor and active point always fails as not supported and changes nothing |
| `Selections.StartNotAfterEnd` | Microsoft.VisualStudio.MiniEditor/BaseViewImpl/MockTextSelection.cs:46-50 | whenever `End` exists so does `Start`, at an offset no greater, whatever the reversed flag; they coincide iff the selection is empty |
| `Selections.ClearedSelectionAtOrigin` | Microsoft.VisualStudio.MiniEditor/BaseViewImpl/MockTextSelection.cs:54 | a cleared selection is empty, with start, end, active and anchor point all at offset 0 of the current snapshot |

## Left out

- Coordinates are integers, not floating point: every coordinate the model computes is a multiple of 20, which the source's doubles hold exactly for any realistic buffer.
- The padding-based members of a line box (`TextTop`, `TextBottom`, `TextLeft`, `TextRight`, `TextWidth`, `TextHeight`, with padding 0.2) are floating point and are not modelled.
- Every member that throws `NotImplementedException` is left out (scrolling, zoom, tab size, options, focus, adornment layers, `Baseline`, `DeltaY`, `Change`, x-coordinate hit-testing, `GetNormalizedTextBounds`, `FormattedSpan`, the collection's `GetCharacterBounds`, `MoveToNextCaretPosition`, `MoveToPreviousCaretPosition`, `MoveToPreferredCoordinates`, the caret's geometry, the selection's `Mode` and `GetSelectionOnTextViewLine`); `MoveToLine` and `SelectPoints` stand for them as "not supported".
- `MoveToLine` does not model the host's `MapXCoordinate` extension, which runs before the failing hit-test; it is assumed to have no effect.
- `ExtentAsMappingSpan`, `ExtentIncludingLineBreakAsMappingSpan`, the view's `BufferGraph` and the mapping point inside `CaretPosition` come from the host's buffer graph, which is not part of this model.
- `IdentityTag`, `Snapshot`, `LineTransform`, `DefaultLineTransform` and `VisibilityState` of a line box, and the view's `Roles`, `Properties`, `TextDataModel` and `TextViewModel`, are fixed host objects with nothing to state.
- Line boxes and the offsets given to them are plain offsets on the snapshot the layout was built from; the text library's exception for comparing a point of another snapshot is not modelled.
- `Carets.TextCaret.ContainingTextViewLine` (and the view's lookup it calls) answers from the boxes laid out in the constructor even after an edit and an `Update` have moved the caret to a newer snapshot; the source throws ArgumentException there, from `SnapshotSpan.Contains` comparing points of different snapshots.
- Edits to the buffer are made by the host: the model lets the current snapshot change but does not model edits; snapshot translation is a function the buffer supplies.
- The selection broker is external: it is reduced to its primary insertion point and affinity, `SetSelection` of an empty selection sets both, and its session-changed notification is taken to run right after every `SetSelection`.
- Event handlers are not modelled: events are counted (`Closed`, `SelectionChanged`) or logged with their arguments (`PositionChanged`).
- `EnsureVisible` is a no-op and `OverwriteMode`, `IsActive` and `ActivationTracksFocus` are plain stored flags, kept as fields without operations.
- The view constructor's creation listeners, broker creation and the construction of its selection and caret are not modelled: the constructor and factory arguments shown do not match one another (a two-argument `MockTextSelection` constructor, a buffer-graph factory passed where a view factory is expected).
- `MockTextCaret.cs`, `TestTextSelection.cs`, `EditorEnvironment.cs`, `ViewOptionsCompat.cs`, the fixed-answer and no-op services, the command handlers, the error handlers and the clipboard shim are not part of this model: they forward to host components whose behaviour is not shown, or hold no logic.
