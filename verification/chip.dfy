/** One chip (`IgxChipComponent`): the state its handlers touch and the events
    they emit. Every handler is a pure function from the chip to the chip
    afterwards plus the events it emitted, in emission order. */
module ChipComponent {

  /** The identity of a chip object, which the source compares with `===`.
      This is object identity, not the chip's user-supplied `id` input, which
      no handler reads. */
  type ChipId = nat

  /** The drag details a drag-enter carries. The chips area reads only the
      pointer's start abscissa, the only detail field modelled; the chip passes
      the detail on to the area unchanged. */
  datatype DragDetail = DragDetail(startX: int)

  /** The fields of a chip that its handlers and the chips area read or write.
      `id` is the chip's object identity; `moved` is the private `bMoved`. */
  datatype Chip = Chip(
    id: ChipId,
    removable: bool,
    top: int,
    left: int,
    areaMovingPerforming: bool,
    moved: bool)

  /** The chip's output emitters, one constructor per emitted value. */
  datatype ChipEvent =
    | InteractionStart
    | MoveStart
    | InteractionEnd(owner: ChipId, moved: bool)
    | MoveEnd
    | Remove(owner: ChipId)
    | DragOver(targetChip: ChipId, detail: DragDetail)

  /** The chip after a handler ran, and what the handler emitted. */
  datatype ChipStep = ChipStep(chip: Chip, emitted: seq<ChipEvent>)

  /** The user gestures that reach the chip's handlers. */
  datatype ChipInput =
    | DragStartInput
    | DragEndInput
    | RemoveInput
    | DragEnterInput(detail: DragDetail)
    | DropInput

  /** A freshly constructed chip with the field initialisers of the component. */
  function NewChip(id: ChipId): (c: Chip)
    ensures c.id == id && c.removable && c.top == 0 && c.left == 0
    ensures !c.areaMovingPerforming && !c.moved
  {
    Chip(id, removable := true, top := 0, left := 0, areaMovingPerforming := false, moved := false)
  }

  /** The chip that `c` is, as far as its handlers can tell: everything but
      the moving flag. */
  predicate SameButMoving(c: Chip, d: Chip)
  {
    c.(areaMovingPerforming := d.areaMovingPerforming) == d
  }

  /** Drag start: the chip marks itself as moving, then reports the start of
      an interaction and then the start of a move. */
  function DragStart(c: Chip): (r: ChipStep)
    ensures r.chip.areaMovingPerforming && SameButMoving(c, r.chip)
    ensures r.emitted == [InteractionStart, MoveStart]
  {
    ChipStep(c.(areaMovingPerforming := true), [InteractionStart, MoveStart])
  }

  /** Drag end: the chip clears its moving flag, then reports the end of the
      interaction (naming itself and whether it moved) and then the end of the
      move. */
  function DragEnd(c: Chip): (r: ChipStep)
    ensures !r.chip.areaMovingPerforming && SameButMoving(c, r.chip)
    ensures r.emitted == [InteractionEnd(c.id, c.moved), MoveEnd]
  {
    ChipStep(c.(areaMovingPerforming := false), [InteractionEnd(c.id, c.moved), MoveEnd])
  }

  /** Removal request: one `Remove` naming the chip; the chip itself is not
      changed. */
  function ChipRemove(c: Chip): (r: ChipStep)
    ensures r.chip == c
    ensures r.emitted == [Remove(c.id)]
  {
    ChipStep(c, [Remove(c.id)])
  }

  /** Drag enter: the chip reports itself as the drag-over target and passes
      the drag details on unchanged. */
  function DragEnter(c: Chip, detail: DragDetail): (r: ChipStep)
    ensures r.chip == c
    ensures r.emitted == [DragOver(c.id, detail)]
  {
    ChipStep(c, [DragOver(c.id, detail)])
  }

  /** Drop: only logs, so nothing changes and nothing is emitted. */
  function Drop(c: Chip): (r: ChipStep)
    ensures r.chip == c && r.emitted == []
  {
    ChipStep(c, [])
  }

  /** The handler a gesture reaches. */
  function Handle(c: Chip, input: ChipInput): (r: ChipStep)
  {
    match input
    case DragStartInput => DragStart(c)
    case DragEndInput => DragEnd(c)
    case RemoveInput => ChipRemove(c)
    case DragEnterInput(detail) => DragEnter(c, detail)
    case DropInput => Drop(c)
  }

  /** The chip after a series of gestures, and everything it emitted, in order. */
  function Run(c: Chip, inputs: seq<ChipInput>): (r: ChipStep)
    decreases |inputs|
  {
    if |inputs| == 0 then ChipStep(c, [])
    else
      var first := Handle(c, inputs[0]);
      var rest := Run(first.chip, inputs[1..]);
      ChipStep(rest.chip, first.emitted + rest.emitted)
  }

  /** Reference definition of the moving flag after a series of gestures:
      the most recent drag start or drag end decides; without one, the flag
      keeps its value. */
  function LastDragFlag(initial: bool, inputs: seq<ChipInput>): (moving: bool)
    decreases |inputs|
  {
    if |inputs| == 0 then initial
    else
      match inputs[|inputs| - 1]
      case DragStartInput => true
      case DragEndInput => false
      case _ => LastDragFlag(initial, inputs[..|inputs| - 1])
  }

  /** The chip an event names: the owner or drag-over target, where there is one. */
  predicate NamesOnly(e: ChipEvent, id: ChipId)
  {
    match e
    case InteractionEnd(owner, _) => owner == id
    case Remove(owner) => owner == id
    case DragOver(target, _) => target == id
    case _ => true
  }

  /** The handlers never touch any field but the moving flag. */
  lemma {:induction false} RunChangesOnlyMoving(c: Chip, inputs: seq<ChipInput>)
    ensures SameButMoving(c, Run(c, inputs).chip)
    decreases |inputs|
  {
    if |inputs| > 0 {
      RunChangesOnlyMoving(Handle(c, inputs[0]).chip, inputs[1..]);
    }
  }

  /** Running a series of gestures and then some more is running them all. */
  lemma {:induction false} RunAppend(c: Chip, xs: seq<ChipInput>, ys: seq<ChipInput>)
    ensures Run(c, xs + ys).chip == Run(Run(c, xs).chip, ys).chip
    ensures Run(c, xs + ys).emitted == Run(c, xs).emitted + Run(Run(c, xs).chip, ys).emitted
    decreases |xs|
  {
    if |xs| == 0 {
      assert xs + ys == ys;
    } else {
      assert (xs + ys)[1..] == xs[1..] + ys;
      RunAppend(Handle(c, xs[0]).chip, xs[1..], ys);
    }
  }

  /** The moving flag after any series of gestures is the one the most recent
      drag start or drag end set. */
  lemma {:induction false} RunFlagIsLastDrag(c: Chip, inputs: seq<ChipInput>)
    ensures Run(c, inputs).chip.areaMovingPerforming == LastDragFlag(c.areaMovingPerforming, inputs)
    decreases |inputs|
  {
    if |inputs| > 0 {
      var front := inputs[..|inputs| - 1];
      var last := inputs[|inputs| - 1];
      assert inputs == front + [last];
      RunAppend(c, front, [last]);
      RunFlagIsLastDrag(c, front);
    }
  }

  /** Every event a chip emits names that chip, and every interaction-end
      payload reports the chip's `moved` field. */
  lemma {:induction false} RunEventsNameTheChip(c: Chip, inputs: seq<ChipInput>)
    ensures forall e :: e in Run(c, inputs).emitted ==> NamesOnly(e, c.id)
    ensures forall e :: e in Run(c, inputs).emitted && e.InteractionEnd? ==> e.moved == c.moved
    decreases |inputs|
  {
    if |inputs| > 0 {
      var first := Handle(c, inputs[0]);
      RunEventsNameTheChip(first.chip, inputs[1..]);
    }
  }

  /** Nothing ever sets `moved`, so a chip that starts out fresh reports
      `moved = false` in every interaction-end it ever emits. */
  lemma FreshChipNeverReportsMoved(id: ChipId, inputs: seq<ChipInput>)
    ensures forall e :: e in Run(NewChip(id), inputs).emitted && e.InteractionEnd? ==>
      e == InteractionEnd(id, false)
  {
    RunEventsNameTheChip(NewChip(id), inputs);
  }

  /** A drag start followed by a drag end puts a fresh chip back in its
      initial state, having emitted the two starts and then the two ends. */
  lemma DragCycleRestoresFreshChip(id: ChipId)
    ensures Run(NewChip(id), [DragStartInput, DragEndInput]) ==
      ChipStep(NewChip(id), [InteractionStart, MoveStart, InteractionEnd(id, false), MoveEnd])
  {
    var s1 := Handle(NewChip(id), DragStartInput);
    var s2 := Run(s1.chip, [DragEndInput]);
    assert [DragStartInput, DragEndInput][1..] == [DragEndInput];
    assert s2 == ChipStep(NewChip(id), [InteractionEnd(id, false), MoveEnd]);
  }
}
