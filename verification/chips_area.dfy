/** The chips area (`IgxChipsAreaComponent`): the chip reordering rule and the
    area-wide interaction flags.

    The two shift operations rebuild the order from the area's chip list, one
    slot per index, without checking that the neighbour they read exists. A
    read past either end of the list is JavaScript's `undefined`, modelled as
    `None`, so the emitted order is a `seq<Option<ChipId>>`. */
module ChipsArea {
  import opened Wrappers
  import opened Sequences
  import opened ChipComponent

  /** The area's state: the chip list it was given (`chipsList`) and the last
      order it computed (`modifiedChipsArray`). */
  datatype Area = Area(chipsList: seq<Chip>, modifiedChipsArray: seq<Option<ChipId>>)

  /** The area's output emitters. */
  datatype AreaEvent =
    | ChipsOrderChange(chipsArray: seq<Option<ChipId>>)
    | ChipsMoveEnd
    | ChipsInteractionEnd

  /** The area after a handler ran, and what the handler emitted. */
  datatype AreaStep = AreaStep(area: Area, emitted: seq<AreaEvent>)

  /** The identities of a list of chips, in order. */
  function Ids(chips: seq<Chip>): (r: seq<ChipId>)
    ensures |r| == |chips|
    ensures forall i :: 0 <= i < |chips| ==> r[i] == chips[i].id
  {
    seq(|chips|, i requires 0 <= i < |chips| => chips[i].id)
  }

  /** The area once its view is initialised: the computed order starts as a
      copy of the chip list. */
  function AfterViewInit(chips: seq<Chip>): (r: Area)
    ensures r.chipsList == chips
    ensures WellFormed(r)
    ensures None !in r.modifiedChipsArray
    ensures forall i :: 0 <= i < |chips| ==> r.modifiedChipsArray[i] == Some(chips[i].id)
  {
    Area(chips, Lift(Ids(chips)))
  }

  /** The computed order always has one slot per chip. */
  predicate WellFormed(a: Area)
  {
    |a.modifiedChipsArray| == |a.chipsList|
  }

  /** `Array.prototype.findIndex` with `===`: the first index holding
      `target`, or -1 when there is none. */
  function FindIndex<T(==)>(s: seq<T>, target: T): (k: int)
    ensures -1 <= k < |s|
    ensures k == -1 <==> target !in s
    ensures 0 <= k ==> s[k] == target && target !in s[..k]
    decreases |s|
  {
    if |s| == 0 then -1
    else if s[0] == target then 0
    else
      var k := FindIndex(s[1..], target);
      if k == -1 then -1 else k + 1
  }

  // ---------------------------------------------------------------------
  // The shift rule
  // ---------------------------------------------------------------------

  /** What `shiftChipLeft(k)` pushes for index `i`. The three branches cover
      every index, so exactly one value is pushed per index. */
  function LeftSlot<T>(s: seq<T>, k: int, i: int): (slot: Option<T>)
    requires 0 <= i < |s|
  {
    if i < k - 1 || k < i then Some(s[i])
    else if i == k - 1 then At(s, k)
    else At(s, k - 1)
  }

  /** What `shiftChipRight(k)` pushes for index `i`. */
  function RightSlot<T>(s: seq<T>, k: int, i: int): (slot: Option<T>)
    requires 0 <= i < |s|
  {
    if i < k || k + 1 < i then Some(s[i])
    else if i == k then At(s, k + 1)
    else At(s, k)
  }

  /** The order `shiftChipLeft(k)` computes from the chip list `s`. Slots
      other than `k-1` and `k` keep their chip. */
  function ShiftLeft<T>(s: seq<T>, k: int): (r: seq<Option<T>>)
    ensures |r| == |s|
    ensures forall i :: 0 <= i < |s| && i != k - 1 && i != k ==> r[i] == Some(s[i])
  {
    seq(|s|, i requires 0 <= i < |s| => LeftSlot(s, k, i))
  }

  /** The order `shiftChipRight(k)` computes from the chip list `s`. Slots
      other than `k` and `k+1` keep their chip. */
  function ShiftRight<T>(s: seq<T>, k: int): (r: seq<Option<T>>)
    ensures |r| == |s|
    ensures forall i :: 0 <= i < |s| && i != k && i != k + 1 ==> r[i] == Some(s[i])
  {
    seq(|s|, i requires 0 <= i < |s| => RightSlot(s, k, i))
  }

  /** `shiftChipLeft` as the source writes it: a loop that pushes one value
      per index of the chip list. Inside the list it is an adjacent swap. */
  method ShiftChipLeft<T>(chipsArray: seq<T>, chipIndex: int) returns (result: seq<Option<T>>)
    ensures result == ShiftLeft(chipsArray, chipIndex)
    ensures 1 <= chipIndex < |chipsArray| ==>
      result == Lift(Swap(chipsArray, chipIndex - 1, chipIndex))
  {
    result := [];
    var i := 0;
    while i < |chipsArray|
      invariant 0 <= i <= |chipsArray|
      invariant |result| == i
      invariant forall j :: 0 <= j < i ==> result[j] == LeftSlot(chipsArray, chipIndex, j)
    {
      if i < chipIndex - 1 || chipIndex < i {
        result := result + [Some(chipsArray[i])];
      } else if i == chipIndex - 1 {
        result := result + [At(chipsArray, chipIndex)];
      } else if i == chipIndex {
        result := result + [At(chipsArray, chipIndex - 1)];
      }
      i := i + 1;
    }
    if 1 <= chipIndex < |chipsArray| {
      ShiftLeftSwapsWithLeftNeighbour(chipsArray, chipIndex);
    }
  }

  /** `shiftChipRight` as the source writes it. Inside the list it is an
      adjacent swap. */
  method ShiftChipRight<T>(chipsArray: seq<T>, chipIndex: int) returns (result: seq<Option<T>>)
    ensures result == ShiftRight(chipsArray, chipIndex)
    ensures 0 <= chipIndex < |chipsArray| - 1 ==>
      result == Lift(Swap(chipsArray, chipIndex, chipIndex + 1))
  {
    result := [];
    var i := 0;
    while i < |chipsArray|
      invariant 0 <= i <= |chipsArray|
      invariant |result| == i
      invariant forall j :: 0 <= j < i ==> result[j] == RightSlot(chipsArray, chipIndex, j)
    {
      if i < chipIndex || chipIndex + 1 < i {
        result := result + [Some(chipsArray[i])];
      } else if i == chipIndex {
        result := result + [At(chipsArray, chipIndex + 1)];
      } else if i == chipIndex + 1 {
        result := result + [At(chipsArray, chipIndex)];
      }
      i := i + 1;
    }
    if 0 <= chipIndex < |chipsArray| - 1 {
      ShiftRightSwapsWithRightNeighbour(chipsArray, chipIndex);
    }
  }

  /** Inside the list, the left shift exchanges the chip at `k` with its left
      neighbour. */
  lemma ShiftLeftSwapsWithLeftNeighbour<T>(s: seq<T>, k: int)
    requires 1 <= k < |s|
    ensures ShiftLeft(s, k) == Lift(Swap(s, k - 1, k))
  {
    var r, w := ShiftLeft(s, k), Lift(Swap(s, k - 1, k));
    forall i | 0 <= i < |s|
      ensures r[i] == w[i]
    {
      assert r[i] == LeftSlot(s, k, i);
    }
  }

  /** Inside the list, the right shift exchanges the chip at `k` with its
      right neighbour. */
  lemma ShiftRightSwapsWithRightNeighbour<T>(s: seq<T>, k: int)
    requires 0 <= k < |s| - 1
    ensures ShiftRight(s, k) == Lift(Swap(s, k, k + 1))
  {
    ShiftRightIsShiftLeftOfNext(s, k);
    ShiftLeftSwapsWithLeftNeighbour(s, k + 1);
  }

  /** For every index, including the out-of-range ones, shifting right at `k`
      is shifting left at `k+1`. */
  lemma ShiftRightIsShiftLeftOfNext<T>(s: seq<T>, k: int)
    ensures ShiftRight(s, k) == ShiftLeft(s, k + 1)
  {
    var r, l := ShiftRight(s, k), ShiftLeft(s, k + 1);
    forall i | 0 <= i < |s|
      ensures r[i] == l[i]
    {
      assert r[i] == RightSlot(s, k, i) && l[i] == LeftSlot(s, k + 1, i);
    }
  }

  /** Inside the list, a left shift keeps every chip and adds none. */
  lemma ShiftLeftPermutes<T>(s: seq<T>, k: int)
    requires 1 <= k < |s|
    ensures multiset(ShiftLeft(s, k)) == multiset(Lift(s))
  {
    ShiftLeftSwapsWithLeftNeighbour(s, k);
    LiftSwap(s, k - 1, k);
    SwapPermutes(Lift(s), k - 1, k);
  }

  /** The left shift leaves an `undefined` hole exactly when the target is the
      first chip (no left neighbour) or one past the last (no chip to move). */
  lemma ShiftLeftHole<T>(s: seq<T>, k: int)
    ensures None in ShiftLeft(s, k) <==> 0 < |s| && (k == 0 || k == |s|)
  {
    var r := ShiftLeft(s, k);
    if None in r {
      var i :| 0 <= i < |r| && r[i] == None;
      assert r[i] == LeftSlot(s, k, i);
    }
    if 0 < |s| && k == 0 {
      assert r[0] == LeftSlot(s, k, 0);
    }
    if 0 < |s| && k == |s| {
      assert r[|s| - 1] == LeftSlot(s, k, |s| - 1);
    }
  }

  /** Shifting left from the first chip drops that chip: slot 0 becomes
      `undefined` and the rest is untouched. */
  lemma ShiftLeftAtFirst<T>(s: seq<T>)
    requires 0 < |s|
    ensures ShiftLeft(s, 0) == [None] + Lift(s[1..])
  {
    var r := ShiftLeft(s, 0);
    assert r[0] == LeftSlot(s, 0, 0);
  }

  /** Shifting right from the last chip drops that chip: the last slot becomes
      `undefined`. */
  lemma ShiftRightAtLast<T>(s: seq<T>)
    requires 0 < |s|
    ensures ShiftRight(s, |s| - 1) == Lift(s[..|s| - 1]) + [None]
  {
    var r := ShiftRight(s, |s| - 1);
    assert r[|s| - 1] == RightSlot(s, |s| - 1, |s| - 1);
  }

  /** Shifting right from index -1 (a target `findIndex` did not find) makes
      slot 0 `undefined`. */
  lemma ShiftRightNotFound<T>(s: seq<T>)
    requires 0 < |s|
    ensures ShiftRight(s, -1) == [None] + Lift(s[1..])
  {
    ShiftRightIsShiftLeftOfNext(s, -1);
    ShiftLeftAtFirst(s);
  }

  /** Shifting left from index -1, or from any index outside `0..|s|`, copies
      the list unchanged. */
  lemma ShiftLeftOutsideIsCopy<T>(s: seq<T>, k: int)
    requires k < 0 || |s| < k
    ensures ShiftLeft(s, k) == Lift(s)
  {
  }

  // ---------------------------------------------------------------------
  // The handlers
  // ---------------------------------------------------------------------

  /** A drag-over reported by chip `target`: the target swaps with its left
      neighbour when the pointer started left of the target's box
      (`startX < rectX`), with its right neighbour otherwise. The order is
      always recomputed from the chip list and always emitted, once. */
  function ChipDragOver(a: Area, target: ChipId, detail: DragDetail, rectX: int): (r: AreaStep)
    ensures r.area.chipsList == a.chipsList
    ensures WellFormed(r.area)
    ensures r.emitted == [ChipsOrderChange(r.area.modifiedChipsArray)]
    ensures var k := FindIndex(Ids(a.chipsList), target);
      r.area.modifiedChipsArray ==
        if detail.startX < rectX then ShiftLeft(Ids(a.chipsList), k)
        else ShiftRight(Ids(a.chipsList), k)
  {
    var ids := Ids(a.chipsList);
    var chipIndex := FindIndex(ids, target);
    var order := if detail.startX < rectX then ShiftLeft(ids, chipIndex) else ShiftRight(ids, chipIndex);
    AreaStep(a.(modifiedChipsArray := order), [ChipsOrderChange(order)])
  }

  /** Sets the moving flag of every chip to `b`, touching nothing else. */
  function SetMoving(chips: seq<Chip>, b: bool): (r: seq<Chip>)
    ensures |r| == |chips|
    ensures forall i :: 0 <= i < |chips| ==> r[i] == chips[i].(areaMovingPerforming := b)
  {
    seq(|chips|, i requires 0 <= i < |chips| => chips[i].(areaMovingPerforming := b))
  }

  /** Move start only logs. */
  function ChipMoveStart(a: Area): (r: AreaStep)
    ensures r.area == a && r.emitted == []
  {
    AreaStep(a, [])
  }

  /** Move end clears every chip's moving flag, then emits one moves-ended
      notification. */
  function ChipMoveEnd(a: Area): (r: AreaStep)
    ensures Ids(r.area.chipsList) == Ids(a.chipsList)
    ensures forall i :: 0 <= i < |r.area.chipsList| ==>
      !r.area.chipsList[i].areaMovingPerforming && SameButMoving(a.chipsList[i], r.area.chipsList[i])
    ensures r.area.modifiedChipsArray == a.modifiedChipsArray
    ensures r.emitted == [ChipsMoveEnd]
  {
    AreaStep(a.(chipsList := SetMoving(a.chipsList, false)), [ChipsMoveEnd])
  }

  /** Interaction start sets every chip's moving flag and emits nothing. */
  function ChipInteractionStart(a: Area): (r: AreaStep)
    ensures Ids(r.area.chipsList) == Ids(a.chipsList)
    ensures forall i :: 0 <= i < |r.area.chipsList| ==>
      r.area.chipsList[i].areaMovingPerforming && SameButMoving(a.chipsList[i], r.area.chipsList[i])
    ensures r.area.modifiedChipsArray == a.modifiedChipsArray
    ensures r.emitted == []
  {
    AreaStep(a.(chipsList := SetMoving(a.chipsList, true)), [])
  }

  /** Interaction end changes nothing and emits one interaction-ended
      notification. */
  function ChipInteractionEnd(a: Area): (r: AreaStep)
    ensures r.area == a && r.emitted == [ChipsInteractionEnd]
  {
    AreaStep(a, [ChipsInteractionEnd])
  }

  // ---------------------------------------------------------------------
  // Properties of the drag-over handler
  // ---------------------------------------------------------------------

  /** The result of a drag-over depends on the chip list and the event only,
      never on the order computed before. */
  lemma DragOverIgnoresPreviousOrder(a: Area, b: Area, target: ChipId, detail: DragDetail, rectX: int)
    requires a.chipsList == b.chipsList
    ensures ChipDragOver(a, target, detail, rectX) == ChipDragOver(b, target, detail, rectX)
  {
  }

  /** Repeating a drag-over with the same event gives the same state and the
      same notification. */
  lemma DragOverIdempotent(a: Area, target: ChipId, detail: DragDetail, rectX: int)
    ensures var once := ChipDragOver(a, target, detail, rectX);
      ChipDragOver(once.area, target, detail, rectX) == once
  {
    var once := ChipDragOver(a, target, detail, rectX);
    DragOverIgnoresPreviousOrder(once.area, a, target, detail, rectX);
  }

  /** Entering the chip at `k` (its first occurrence) from the left swaps it
      with its left neighbour; from the right, with its right neighbour. */
  lemma DragOverSwapsTargetWithNeighbour(a: Area, k: int, detail: DragDetail, rectX: int)
    requires 0 <= k < |a.chipsList|
    requires FindIndex(Ids(a.chipsList), a.chipsList[k].id) == k
    ensures var ids := Ids(a.chipsList);
      var r := ChipDragOver(a, a.chipsList[k].id, detail, rectX);
      && (detail.startX < rectX && 1 <= k ==> r.area.modifiedChipsArray == Lift(Swap(ids, k - 1, k)))
      && (rectX <= detail.startX && k < |ids| - 1 ==> r.area.modifiedChipsArray == Lift(Swap(ids, k, k + 1)))
  {
    var ids := Ids(a.chipsList);
    if detail.startX < rectX && 1 <= k {
      ShiftLeftSwapsWithLeftNeighbour(ids, k);
    }
    if rectX <= detail.startX && k < |ids| - 1 {
      ShiftRightSwapsWithRightNeighbour(ids, k);
    }
  }

  /** The emitted order has an `undefined` slot exactly when the target is
      the first chip entered from the left, or the last chip or a chip not in
      the list entered from the right (with the list non-empty). */
  lemma DragOverHole(a: Area, target: ChipId, detail: DragDetail, rectX: int)
    ensures var ids := Ids(a.chipsList);
      var k := FindIndex(ids, target);
      None in ChipDragOver(a, target, detail, rectX).area.modifiedChipsArray <==>
        if detail.startX < rectX then k == 0
        else 0 < |ids| && (k == |ids| - 1 || k == -1)
  {
    var ids := Ids(a.chipsList);
    var k := FindIndex(ids, target);
    if detail.startX < rectX {
      ShiftLeftHole(ids, k);
    } else {
      ShiftRightIsShiftLeftOfNext(ids, k);
      ShiftLeftHole(ids, k + 1);
    }
  }

  /** Four chips A, B, C, D; a drag entering C from the left emits A, C, B, D. */
  lemma ExampleEnterThirdFromLeft()
    ensures var chips := [NewChip(10), NewChip(11), NewChip(12), NewChip(13)];
      ChipDragOver(AfterViewInit(chips), 12, DragDetail(0), 1).emitted ==
        [ChipsOrderChange([Some(10), Some(12), Some(11), Some(13)])]
  {
    var chips := [NewChip(10), NewChip(11), NewChip(12), NewChip(13)];
    var ids := Ids(chips);
    assert ids == [10, 11, 12, 13];
    assert ids[2] == 12;
    assert FindIndex(ids, 12) == 2;
    ShiftLeftSwapsWithLeftNeighbour(ids, 2);
    assert Swap(ids, 1, 2) == [10, 12, 11, 13];
    var r := ChipDragOver(AfterViewInit(chips), 12, DragDetail(0), 1);
    assert r.area.modifiedChipsArray == Lift([10, 12, 11, 13]);
    assert Lift([10, 12, 11, 13]) == [Some(10), Some(12), Some(11), Some(13)];
  }

  /** Two chips A, B; a drag entering A from the left does not leave the order
      alone: it emits `undefined`, B. */
  lemma ExampleEnterFirstFromLeft()
    ensures var chips := [NewChip(10), NewChip(11)];
      ChipDragOver(AfterViewInit(chips), 10, DragDetail(0), 1).emitted ==
        [ChipsOrderChange([None, Some(11)])]
  {
    var chips := [NewChip(10), NewChip(11)];
    var ids := Ids(chips);
    assert ids == [10, 11] && FindIndex(ids, 10) == 0;
    ShiftLeftAtFirst(ids);
    assert [None] + Lift(ids[1..]) == [None, Some(11)];
  }
}
