/** The chips area subscribed to its chips: a chip's drag-over, move-start,
    move-end, interaction-start and interaction-end emitters are connected to
    the matching area handler; the removal emitter is not connected. A gesture
    on one chip runs that chip's handler and then, event by event in emission
    order, the area handler once per subscription the area holds on that chip.

    The area subscribes in two places: once for every chip in the list when
    its view is initialised, and once for every chip its iterable differ
    reports as added. The differ starts from an empty collection, so its first
    comparison reports every chip already present as added, and those chips
    end up subscribed twice. */
module Wiring {
  import opened Sequences
  import opened ChipComponent
  import opened ChipsArea

  /** The area handler one chip event reaches. `rectX` is the left edge of the
      target chip's bounding box, which the drag-over handler reads. */
  function Dispatch(a: Area, e: ChipEvent, rectX: int): (r: AreaStep)
    ensures Ids(r.area.chipsList) == Ids(a.chipsList)
    ensures r.area.chipsList == a.chipsList || e.MoveEnd? || e.InteractionStart?
    ensures r.area.modifiedChipsArray == a.modifiedChipsArray || e.DragOver?
    ensures |r.emitted| <= 1
    ensures e.Remove? ==> r == AreaStep(a, [])
  {
    match e
    case DragOver(target, detail) => ChipDragOver(a, target, detail, rectX)
    case MoveStart => ChipMoveStart(a)
    case MoveEnd => ChipMoveEnd(a)
    case InteractionStart => ChipInteractionStart(a)
    case InteractionEnd(_, _) => ChipInteractionEnd(a)
    case Remove(_) => AreaStep(a, [])
  }

  /** Every area handler, run a second time on its own result, changes
      nothing more and emits the same notifications again. */
  lemma DispatchIdempotent(a: Area, e: ChipEvent, rectX: int)
    ensures var once := Dispatch(a, e, rectX);
      Dispatch(once.area, e, rectX) == once
  {
    match e {
      case DragOver(target, detail) =>
        DragOverIdempotent(a, target, detail, rectX);
      case MoveEnd =>
        var once := ChipMoveEnd(a).area;
        assert SetMoving(once.chipsList, false) == once.chipsList;
      case InteractionStart =>
        var once := ChipInteractionStart(a).area;
        assert SetMoving(once.chipsList, true) == once.chipsList;
      case _ =>
    }
  }

  /** `s` written `n` times in a row. */
  function Repeat<T>(s: seq<T>, n: nat): (r: seq<T>)
    ensures |r| == n * |s|
  {
    if n == 0 then [] else s + Repeat(s, n - 1)
  }

  /** One chip event delivered to each of the area's `listeners`
      subscriptions on the emitting chip, in subscription order. */
  function Notify(a: Area, e: ChipEvent, rectX: int, listeners: nat): (r: AreaStep)
    ensures Ids(r.area.chipsList) == Ids(a.chipsList)
    ensures r.area.modifiedChipsArray == a.modifiedChipsArray || e.DragOver?
    ensures |r.emitted| <= listeners
    decreases listeners
  {
    if listeners == 0 then AreaStep(a, [])
    else
      var first := Dispatch(a, e, rectX);
      var rest := Notify(first.area, e, rectX, listeners - 1);
      AreaStep(rest.area, first.emitted + rest.emitted)
  }

  /** However many subscriptions receive an event, the area ends as one
      handler run leaves it, but emits that run's notifications once per
      subscription. */
  lemma {:induction false} NotifyRepeatsNotifications(a: Area, e: ChipEvent, rectX: int, listeners: nat)
    requires 1 <= listeners
    ensures Notify(a, e, rectX, listeners).area == Dispatch(a, e, rectX).area
    ensures Notify(a, e, rectX, listeners).emitted == Repeat(Dispatch(a, e, rectX).emitted, listeners)
    decreases listeners
  {
    var first := Dispatch(a, e, rectX);
    if listeners > 1 {
      DispatchIdempotent(a, e, rectX);
      NotifyRepeatsNotifications(first.area, e, rectX, listeners - 1);
    }
  }

  /** The area after every event in `events` has reached its subscriptions,
      in order, and everything the area emitted meanwhile. */
  function DispatchAll(a: Area, events: seq<ChipEvent>, rectX: int, listeners: nat): (r: AreaStep)
    ensures Ids(r.area.chipsList) == Ids(a.chipsList)
    ensures (forall i :: 0 <= i < |events| ==> !events[i].DragOver?) ==>
      r.area.modifiedChipsArray == a.modifiedChipsArray
    decreases |events|
  {
    if |events| == 0 then AreaStep(a, [])
    else
      var first := Notify(a, events[0], rectX, listeners);
      var rest := DispatchAll(first.area, events[1..], rectX, listeners);
      AreaStep(rest.area, first.emitted + rest.emitted)
  }

  /** A gesture on the chip at position `j` of the area's list, which the
      area has subscribed to `listeners` times. The chip is an object the area
      also holds, so its own update is visible to the area handlers that
      follow. */
  function Interact(a: Area, j: int, input: ChipInput, rectX: int, listeners: nat): (r: AreaStep)
    requires 0 <= j < |a.chipsList|
    ensures Ids(r.area.chipsList) == Ids(a.chipsList)
    ensures !input.DragEnterInput? ==> r.area.modifiedChipsArray == a.modifiedChipsArray
  {
    var s := Handle(a.chipsList[j], input);
    assert Ids(a.chipsList[j := s.chip]) == Ids(a.chipsList);
    DispatchAll(a.(chipsList := a.chipsList[j := s.chip]), s.emitted, rectX, listeners)
  }

  /** How often the area is subscribed to a chip's emitters as the component
      is written: twice for a chip present when the view is initialised (once
      there, once more when the differ first reports it as added), once for a
      chip added later. */
  function Subscriptions(presentAtViewInit: bool): (n: nat)
    ensures 1 <= n
  {
    if presentAtViewInit then 2 else 1
  }

  /** How often the area is meant to be subscribed to each chip: once. The
      parameter only mirrors `Subscriptions`; the intended count does not
      depend on it. */
  function IntendedSubscriptions(presentAtViewInit: bool): (n: nat)
  {
    1
  }

  /** A drag start on any chip leaves every chip of the area moving, changes no
      other field, and makes the area emit nothing, however many times the
      area is subscribed to the chip. */
  lemma DragStartMarksEveryChip(a: Area, j: int, rectX: int, listeners: nat)
    requires 0 <= j < |a.chipsList|
    requires 1 <= listeners
    ensures var r := Interact(a, j, DragStartInput, rectX, listeners);
      && |r.area.chipsList| == |a.chipsList|
      && (forall i :: 0 <= i < |a.chipsList| ==>
            r.area.chipsList[i].areaMovingPerforming && SameButMoving(a.chipsList[i], r.area.chipsList[i]))
      && r.area.modifiedChipsArray == a.modifiedChipsArray
      && r.emitted == []
  {
    var s := Handle(a.chipsList[j], DragStartInput);
    var a1 := a.(chipsList := a.chipsList[j := s.chip]);
    NotifyRepeatsNotifications(a1, InteractionStart, rectX, listeners);
    var a2 := ChipInteractionStart(a1).area;
    NotifyRepeatsNotifications(a2, MoveStart, rectX, listeners);
    assert s.emitted[1..] == [MoveStart];
    assert DispatchAll(a2, [MoveStart], rectX, listeners) == AreaStep(a2, []);
  }

  /** A drag end on any chip leaves every chip of the area not moving, changes
      no other field, and makes the area emit one interaction-ended
      notification per subscription, then one moves-ended notification per
      subscription. */
  lemma DragEndClearsEveryChip(a: Area, j: int, rectX: int, listeners: nat)
    requires 0 <= j < |a.chipsList|
    requires 1 <= listeners
    ensures var r := Interact(a, j, DragEndInput, rectX, listeners);
      && |r.area.chipsList| == |a.chipsList|
      && (forall i :: 0 <= i < |a.chipsList| ==>
            !r.area.chipsList[i].areaMovingPerforming && SameButMoving(a.chipsList[i], r.area.chipsList[i]))
      && r.area.modifiedChipsArray == a.modifiedChipsArray
      && r.emitted == Repeat([ChipsInteractionEnd], listeners) + Repeat([ChipsMoveEnd], listeners)
  {
    var c := a.chipsList[j];
    var s := Handle(c, DragEndInput);
    var a1 := a.(chipsList := a.chipsList[j := s.chip]);
    NotifyRepeatsNotifications(a1, InteractionEnd(c.id, c.moved), rectX, listeners);
    NotifyRepeatsNotifications(a1, MoveEnd, rectX, listeners);
    assert s.emitted[1..] == [MoveEnd];
    var a3 := ChipMoveEnd(a1).area;
    assert DispatchAll(a1, [MoveEnd], rectX, listeners) ==
      AreaStep(a3, Repeat([ChipsMoveEnd], listeners));
  }

  /** A drag entering the chip at `j` of a list of distinct chips swaps that
      chip with its left neighbour when the pointer started left of its box,
      with its right neighbour otherwise, and the area emits that order once
      per subscription. */
  lemma DragEnterSwapsEnteredChip(a: Area, j: int, detail: DragDetail, rectX: int, listeners: nat)
    requires 0 <= j < |a.chipsList|
    requires Distinct(Ids(a.chipsList))
    requires 1 <= listeners
    ensures var ids := Ids(a.chipsList);
      var r := Interact(a, j, DragEnterInput(detail), rectX, listeners);
      && r.area.chipsList == a.chipsList
      && r.emitted == Repeat([ChipsOrderChange(r.area.modifiedChipsArray)], listeners)
      && (detail.startX < rectX && 1 <= j ==> r.area.modifiedChipsArray == Lift(Swap(ids, j - 1, j)))
      && (rectX <= detail.startX && j < |ids| - 1 ==> r.area.modifiedChipsArray == Lift(Swap(ids, j, j + 1)))
  {
    var c := a.chipsList[j];
    assert a.chipsList[j := c] == a.chipsList;
    var ids := Ids(a.chipsList);
    assert ids[j] == c.id;
    assert FindIndex(ids, c.id) == j;
    DragOverSwapsTargetWithNeighbour(a, j, detail, rectX);
    NotifyRepeatsNotifications(a, DragOver(c.id, detail), rectX, listeners);
    assert DispatchAll(a, [DragOver(c.id, detail)], rectX, listeners) ==
      Notify(a, DragOver(c.id, detail), rectX, listeners);
  }

  /** Removal and drop requests leave the area as it was and make it emit
      nothing: the area does not listen to removals. */
  lemma RemoveAndDropLeaveAreaAlone(a: Area, j: int, rectX: int, listeners: nat)
    requires 0 <= j < |a.chipsList|
    ensures Interact(a, j, RemoveInput, rectX, listeners) == AreaStep(a, [])
    ensures Interact(a, j, DropInput, rectX, listeners) == AreaStep(a, [])
  {
    var c := a.chipsList[j];
    assert a.chipsList[j := c] == a.chipsList;
    if listeners > 0 {
      NotifyRepeatsNotifications(a, Remove(c.id), rectX, listeners);
    }
    assert DispatchAll(a, [Remove(c.id)], rectX, listeners) == AreaStep(a, []);
  }

  /** As written, a drag entering a chip that was present when the view was
      initialised makes the area emit the same order change twice, and a drag
      end makes it emit each closing notification twice. */
  lemma InitialChipNotifiesTwice(a: Area, j: int, detail: DragDetail, rectX: int)
    requires 0 <= j < |a.chipsList|
    requires Distinct(Ids(a.chipsList))
    ensures var r := Interact(a, j, DragEnterInput(detail), rectX, Subscriptions(true));
      r.emitted == [ChipsOrderChange(r.area.modifiedChipsArray), ChipsOrderChange(r.area.modifiedChipsArray)]
    ensures Interact(a, j, DragEndInput, rectX, Subscriptions(true)).emitted ==
      [ChipsInteractionEnd, ChipsInteractionEnd, ChipsMoveEnd, ChipsMoveEnd]
  {
    DragEnterSwapsEnteredChip(a, j, detail, rectX, 2);
    DragEndClearsEveryChip(a, j, rectX, 2);
  }

  /** With one subscription per chip, whether present at view initialisation
      or added later, a drag entering a chip emits its order change once and
      a drag end emits each closing notification once. */
  lemma IntendedChipNotifiesOnce(a: Area, j: int, detail: DragDetail, rectX: int, presentAtViewInit: bool)
    requires 0 <= j < |a.chipsList|
    requires Distinct(Ids(a.chipsList))
    ensures var r := Interact(a, j, DragEnterInput(detail), rectX, IntendedSubscriptions(presentAtViewInit));
      r.emitted == [ChipsOrderChange(r.area.modifiedChipsArray)]
    ensures Interact(a, j, DragEndInput, rectX, IntendedSubscriptions(presentAtViewInit)).emitted ==
      [ChipsInteractionEnd, ChipsMoveEnd]
  {
    DragEnterSwapsEnteredChip(a, j, detail, rectX, 1);
    DragEndClearsEveryChip(a, j, rectX, 1);
  }

  /** One gesture: which chip, what happened, the left edge of that chip's
      bounding box at the time, and how often the area is subscribed to it. */
  datatype Gesture = Gesture(chip: nat, input: ChipInput, rectX: int, listeners: nat)

  /** The area after a series of gestures. A gesture naming no chip of the
      list reaches no handler. */
  function Session(a: Area, gestures: seq<Gesture>): (r: AreaStep)
    decreases |gestures|
  {
    if |gestures| == 0 then AreaStep(a, [])
    else
      var g := gestures[0];
      var first :=
        if g.chip < |a.chipsList| then Interact(a, g.chip, g.input, g.rectX, g.listeners)
        else AreaStep(a, []);
      var rest := Session(first.area, gestures[1..]);
      AreaStep(rest.area, first.emitted + rest.emitted)
  }

  /** Delivering one event to any number of subscriptions keeps the chip
      identities in place and the computed order one slot per chip. */
  lemma {:induction false} NotifyKeepsShape(a: Area, e: ChipEvent, rectX: int, listeners: nat)
    requires WellFormed(a)
    ensures Ids(Notify(a, e, rectX, listeners).area.chipsList) == Ids(a.chipsList)
    ensures WellFormed(Notify(a, e, rectX, listeners).area)
    decreases listeners
  {
    if listeners > 0 {
      var first := Dispatch(a, e, rectX);
      assert Ids(first.area.chipsList) == Ids(a.chipsList);
      NotifyKeepsShape(first.area, e, rectX, listeners - 1);
    }
  }

  /** Dispatching any events keeps the chip identities in place and keeps the
      computed order one slot per chip. */
  lemma {:induction false} DispatchAllKeepsShape(a: Area, events: seq<ChipEvent>, rectX: int, listeners: nat)
    requires WellFormed(a)
    ensures Ids(DispatchAll(a, events, rectX, listeners).area.chipsList) == Ids(a.chipsList)
    ensures WellFormed(DispatchAll(a, events, rectX, listeners).area)
    decreases |events|
  {
    if |events| > 0 {
      NotifyKeepsShape(a, events[0], rectX, listeners);
      var first := Notify(a, events[0], rectX, listeners);
      DispatchAllKeepsShape(first.area, events[1..], rectX, listeners);
    }
  }

  /** However many gestures reach the area, the chip identities stay in
      their order and every computed order has exactly one slot per chip. */
  lemma {:induction false} SessionKeepsShape(a: Area, gestures: seq<Gesture>)
    requires WellFormed(a)
    ensures Ids(Session(a, gestures).area.chipsList) == Ids(a.chipsList)
    ensures WellFormed(Session(a, gestures).area)
    decreases |gestures|
  {
    if |gestures| > 0 {
      var g := gestures[0];
      if g.chip < |a.chipsList| {
        var c := a.chipsList[g.chip];
        var s := Handle(c, g.input);
        var a1 := a.(chipsList := a.chipsList[g.chip := s.chip]);
        assert s.chip.id == c.id;
        assert Ids(a1.chipsList) == Ids(a.chipsList);
        DispatchAllKeepsShape(a1, s.emitted, g.rectX, g.listeners);
      }
      var first :=
        if g.chip < |a.chipsList| then Interact(a, g.chip, g.input, g.rectX, g.listeners)
        else AreaStep(a, []);
      SessionKeepsShape(first.area, gestures[1..]);
    }
  }
}
