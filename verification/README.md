# Chip reordering in the chips area

A model of the chip reordering rule of `IgxChipsAreaComponent` and of the
per-chip event handlers of `IgxChipComponent` that drive it, from the Ignite UI
for Angular chips.

- `chip.dfy` (module `ChipComponent`): a chip's fields (`removable`, `top`,
  `left`, `areaMovingPerforming`, the private `bMoved`), its emitted events,
  and its handlers as pure functions returning the new chip and the events it
  emitted, in emission order.
- `chips_area.dfy` (module `ChipsArea`): the area's chip list and computed
  order, `shiftChipLeft` / `shiftChipRight` (as pure functions and as the
  source's loops), the drag-over handler and the area-wide interaction flags.
- `wiring.dfy` (module `Wiring`): the subscriptions by which every chip's
  emitters call the area handlers, and gesture sessions over the whole area.
- `sequences.dfy`, `wrappers.dfy`: JavaScript-style indexing (`At`), `Lift`,
  `Swap`, `Distinct`, and `Option`.

Chips are identified by a `ChipId`; the source compares chip objects with
`===`. An array read outside the array yields JavaScript's `undefined`,
modelled as `None`, so a computed order is a `seq<Option<ChipId>>`. The
pointer's start abscissa (`detail.startX`) and the left edge of the target's
bounding box (`getBoundingClientRect().x`) are plain integer inputs.

What the code does at the edges, as modelled:

- The shifts do not check bounds. Entering the first chip from the left reads
  before the array and writes `undefined` into slot 0, losing that chip
  (`ShiftLeftAtFirst`, `ExampleEnterFirstFromLeft`); entering the last chip
  from the right writes `undefined` into the last slot (`ShiftRightAtLast`).
  A target that `findIndex` does not find (index -1) copies the list when
  entered from the left and writes `undefined` into slot 0 when entered from
  the right (`ShiftLeftOutsideIsCopy`, `ShiftRightNotFound`).
- The shift moves the target chip, the one that reported the drag-enter, and
  never consults which chip is being dragged.
- A chip sets and clears its own moving flag in its drag start and drag end
  handlers (chip.component.ts:110, :115), besides the area setting and
  clearing it on every chip.
- The area never reorders its own chip list: every shift starts again from
  `chipsList`, not from the previously computed order.
- The area subscribes to a chip's emitters once per chip at view
  initialisation and once per chip its iterable differ reports as added. The
  differ starts from an empty collection, so chips present at view
  initialisation are subscribed twice and every area handler runs twice per
  event from them (see Findings). The composed model takes the number of
  subscriptions as a parameter.

## Model

| member | source | states |
|---|---|---|
| ChipsArea.ShiftLeft | projects/igniteui-angular/src/lib/chips/chips-area.component.ts:149-162 | the left shift has one slot per chip, and every slot other than `k-1` and `k` holds the chip the list holds there |
| ChipsArea.ShiftRight | projects/igniteui-angular/src/lib/chips/chips-area.component.ts:164-177 | the right shift has one slot per chip, and every slot other than `k` and `k+1` holds the chip the list holds there |
| ChipsArea.ShiftChipLeft | projects/igniteui-angular/src/lib/chips/chips-area.component.ts:149-162 | the source's push loop computes the left-shift order, for every integer index; for `1 <= k < n` that is the list with slots `k-1` and `k` exchanged |
| ChipsArea.ShiftChipRight | projects/igniteui-angular/src/lib/chips/chips-area.component.ts:164-177 | the source's push loop computes the right-shift order; for `0 <= k < n-1` that is the list with slots `k` and `k+1` exchanged |
| ChipsArea.ShiftLeftSwapsWithLeftNeighbour | projects/igniteui-angular/src/lib/chips/chips-area.component.ts:152-160 | for `1 <= k < n`, the left shift equals the list with positions `k-1` and `k` swapped |
| ChipsArea.ShiftRightSwapsWithRightNeighbour | projects/igniteui-angular/src/lib/chips/chips-area.component.ts:167-175 | for `0 <= k < n-1`, the right shift equals the list with positions `k` and `k+1` swapped |
| ChipsArea.ShiftRightIsShiftLeftOfNext | projects/igniteui-angular/src/lib/chips/chips-area.component.ts:149-177 | for every integer `k`, in range or not, shifting right at `k` gives the same order as shifting left at `k+1` |
| ChipsArea.ShiftLeftPermutes | projects/igniteui-angular/src/lib/chips/chips-area.component.ts:152-160 | inside the list, a shift keeps every chip exactly as often as before (a permutation) |
| ChipsArea.ShiftLeftHole | projects/igniteui-angular/src/lib/chips/chips-area.component.ts:153-158 | the left shift contains `undefined` if and only if the list is non-empty and `k` is 0 or `n` |
| ChipsArea.ShiftLeftAtFirst | projects/igniteui-angular/src/lib/chips/chips-area.component.ts:155-158 | `shiftChipLeft(0)` puts `undefined` in slot 0 and keeps the rest, dropping the first chip |
| ChipsArea.ShiftRightAtLast | projects/igniteui-angular/src/lib/chips/chips-area.component.ts:170-171 | `shiftChipRight(n-1)` puts `undefined` in the last slot and keeps the rest |
| ChipsArea.ShiftRightNotFound | projects/igniteui-angular/src/lib/chips/chips-area.component.ts:114-121 | `shiftChipRight(-1)`, for a target `findIndex` did not find, puts `undefined` in slot 0 |
| ChipsArea.ShiftLeftOutsideIsCopy | projects/igniteui-angular/src/lib/chips/chips-area.component.ts:153-154 | `shiftChipLeft(-1)`, and any index outside `0..n`, returns a plain copy of the list |
| ChipsArea.FindIndex | projects/igniteui-angular/src/lib/chips/chips-area.component.ts:114 | the index is -1 exactly when the target is absent; otherwise it holds the target and no earlier slot does |
| ChipsArea.AfterViewInit | projects/igniteui-angular/src/lib/chips/chips-area.component.ts:67-68 | after view initialisation the computed order is the chip list itself: one slot per chip, slot `i` holding chip `i`, no `undefined` |
| ChipsArea.ChipDragOver | projects/igniteui-angular/src/lib/chips/chips-area.component.ts:112-127 | the left shift is taken iff `startX < rect.x`, the right shift otherwise, at the target's `findIndex` position; the chip list is kept; exactly one order-change carrying the new order is emitted |
| ChipsArea.DragOverIgnoresPreviousOrder | projects/igniteui-angular/src/lib/chips/chips-area.component.ts:149-177 | two areas with the same chip list give the same drag-over result, whatever order each computed before |
| ChipsArea.DragOverIdempotent | projects/igniteui-angular/src/lib/chips/chips-area.component.ts:112-127 | repeating a drag-over event gives the same state and the same notification |
| ChipsArea.DragOverSwapsTargetWithNeighbour | projects/igniteui-angular/src/lib/chips/chips-area.component.ts:114-122 | entering the chip at `k` from the left swaps it with its left neighbour (when `k >= 1`); from the right, with its right neighbour (when `k < n-1`) |
| ChipsArea.DragOverHole | projects/igniteui-angular/src/lib/chips/chips-area.component.ts:113-122 | the emitted order contains `undefined` iff the first chip is entered from the left, or, in a non-empty list, the last chip or an unknown chip is entered from the right |
| ChipsArea.ExampleEnterThirdFromLeft | projects/igniteui-angular/src/lib/chips/chips-area.component.ts:112-127 | chips A, B, C, D with C entered from the left emit A, C, B, D |
| ChipsArea.ExampleEnterFirstFromLeft | projects/igniteui-angular/src/lib/chips/chips-area.component.ts:112-127 | chips A, B with A entered from the left emit `undefined`, B rather than leaving the order alone |
| ChipsArea.ChipMoveStart | projects/igniteui-angular/src/lib/chips/chips-area.component.ts:128-130 | move start changes no state and emits nothing |
| ChipsArea.ChipMoveEnd | projects/igniteui-angular/src/lib/chips/chips-area.component.ts:132-137 | move end clears the moving flag of every chip, changes no other field or identity, and emits one moves-ended notification |
| ChipsArea.ChipInteractionStart | projects/igniteui-angular/src/lib/chips/chips-area.component.ts:139-143 | interaction start sets the moving flag of every chip, changes no other field, and emits nothing |
| ChipsArea.ChipInteractionEnd | projects/igniteui-angular/src/lib/chips/chips-area.component.ts:145-147 | interaction end changes nothing and emits exactly one interaction-ended notification |
| ChipComponent.NewChip | projects/igniteui-angular/src/lib/chips/chip.component.ts:43-97 | a new chip is removable, at top 0 and left 0, not moving and not moved |
| ChipComponent.DragStart | projects/igniteui-angular/src/lib/chips/chip.component.ts:109-113 | drag start sets the chip's moving flag, keeps every other field, and emits interaction-start then move-start |
| ChipComponent.DragEnd | projects/igniteui-angular/src/lib/chips/chip.component.ts:114-121 | drag end clears the moving flag, keeps every other field, and emits interaction-end (owner this chip, moved its `bMoved`) then move-end |
| ChipComponent.ChipRemove | projects/igniteui-angular/src/lib/chips/chip.component.ts:123-128 | a removal request emits exactly one remove event owned by the chip and changes no field |
| ChipComponent.DragEnter | projects/igniteui-angular/src/lib/chips/chip.component.ts:129-136 | drag enter emits one drag-over naming the chip as target with the details passed through unchanged |
| ChipComponent.Drop | projects/igniteui-angular/src/lib/chips/chip.component.ts:137-139 | a drop changes nothing and emits nothing |
| ChipComponent.RunChangesOnlyMoving | projects/igniteui-angular/src/lib/chips/chip.component.ts:109-139 | whatever gestures a chip receives, its handlers change no field but the moving flag |
| ChipComponent.RunFlagIsLastDrag | projects/igniteui-angular/src/lib/chips/chip.component.ts:109-121 | after any gestures the moving flag is the one the latest drag start (true) or drag end (false) set, or its old value without either |
| ChipComponent.RunEventsNameTheChip | projects/igniteui-angular/src/lib/chips/chip.component.ts:114-136 | every owner and drag-over target a chip emits is the chip itself, and every interaction-end reports the chip's `bMoved` |
| ChipComponent.FreshChipNeverReportsMoved | projects/igniteui-angular/src/lib/chips/chip.component.ts:97-119 | since `bMoved` starts false and is never assigned, a fresh chip reports `moved = false` in every interaction-end it emits |
| ChipComponent.DragCycleRestoresFreshChip | projects/igniteui-angular/src/lib/chips/chip.component.ts:42-121 | a fresh chip (removable, top 0, left 0, not moving, not moved) that is dragged and released is back in its initial state, having emitted interaction-start, move-start, interaction-end, move-end in that order |
| Wiring.Dispatch | projects/igniteui-angular/src/lib/chips/chips-area.component.ts:69-85 | each chip event reaches its area handler: chip identities are kept, only move-end and interaction-start touch the chips, only a drag-over changes the computed order, at most one notification results, and a removal reaches nothing because `onRemove` is not subscribed |
| Wiring.Notify | projects/igniteui-angular/src/lib/chips/chips-area.component.ts:69-106 | an event delivered to `n` subscriptions keeps chip identities, changes the computed order only for a drag-over, and yields at most `n` notifications |
| Wiring.DispatchAll | projects/igniteui-angular/src/lib/chips/chips-area.component.ts:69-106 | a chip's events delivered in emission order keep chip identities, and without a drag-over among them leave the computed order alone |
| Wiring.Interact | projects/igniteui-angular/src/lib/chips/chips-area.component.ts:69-85 | a gesture on a chip the area holds updates that shared chip and then runs the area handlers; chip identities are kept and only a drag enter changes the computed order |
| Wiring.DispatchIdempotent | projects/igniteui-angular/src/lib/chips/chips-area.component.ts:112-147 | running any area handler again on its own result changes nothing more and emits the same notifications |
| Wiring.NotifyRepeatsNotifications | projects/igniteui-angular/src/lib/chips/chips-area.component.ts:69-106 | an event delivered to `n >= 1` subscriptions leaves the area as one handler run does, and emits that run's notifications `n` times |
| Wiring.Subscriptions | projects/igniteui-angular/src/lib/chips/chips-area.component.ts:64-106 | every chip in the list is subscribed to at least once |
| Wiring.DragStartMarksEveryChip | projects/igniteui-angular/src/lib/chips/chips-area.component.ts:69-85 | a drag start on any chip of the area leaves every chip moving, changes no other field, and makes the area emit nothing, for any number of subscriptions |
| Wiring.DragEndClearsEveryChip | projects/igniteui-angular/src/lib/chips/chips-area.component.ts:76-83 | a drag end on any chip leaves every chip not moving and makes the area emit one interaction-ended per subscription, then one moves-ended per subscription |
| Wiring.DragEnterSwapsEnteredChip | projects/igniteui-angular/src/lib/chips/chips-area.component.ts:70-72 | with distinct chips, a drag entering chip `j` swaps it with its left neighbour when the pointer starts left of it, otherwise with its right neighbour, and the area emits that order once per subscription |
| Wiring.RemoveAndDropLeaveAreaAlone | projects/igniteui-angular/src/lib/chips/chips-area.component.ts:69-85 | removal and drop gestures leave the area unchanged and silent, since the area does not subscribe to removals |
| Wiring.InitialChipNotifiesTwice | projects/igniteui-angular/src/lib/chips/chips-area.component.ts:64-106 | for a chip present at view initialisation, a drag enter emits the same order change twice and a drag end emits interaction-ended twice, then moves-ended twice |
| Wiring.IntendedChipNotifiesOnce | projects/igniteui-angular/src/lib/chips/chips-area.component.ts:69-106 | with one subscription per chip, a drag enter emits its order change once and a drag end emits interaction-ended then moves-ended once each |
| Wiring.NotifyKeepsShape | projects/igniteui-angular/src/lib/chips/chips-area.component.ts:112-147 | one event delivered to any number of subscriptions keeps the chip identities and the one-slot-per-chip length of the computed order |
| Wiring.DispatchAllKeepsShape | projects/igniteui-angular/src/lib/chips/chips-area.component.ts:112-147 | no sequence of chip events reaching the area handlers changes the chip identities or the one-slot-per-chip length of the computed order |
| Wiring.SessionKeepsShape | projects/igniteui-angular/src/lib/chips/chips-area.component.ts:67-147 | under any number of gestures, reorders included, the chip list keeps its identities in order and the computed order keeps its length |

## Left out

- Angular plumbing: decorators, `@ContentChildren`, the change-detection
  schedule on which `ngAfterViewInit` and `ngDoCheck` run, and
  `ChangeDetectorRef`. The subscriptions they make are modelled only as a
  count per chip (`Wiring.Subscriptions`).
- Wiring: a gesture carries the number of subscriptions the area holds on the
  chip; which chips the differ reports as added on later checks (after
  insertions and removals in the host's list) is not tracked, and
  subscriptions are never removed in the component either.
- DOM reads: `getBoundingClientRect()` becomes the `rectX` input; the `color`
  accessor, `isFirstChip` / `isLastChip` and the `width` / `height` host
  bindings are not modelled.
- `console.log` calls: logging only.
- Chip fields no handler reads or writes (`transitionTime`,
  `defaultTransitionTime`, `bInteracting`, `bInteracted`, mouse offsets,
  `outEventEmmited`).
- Chip insertion and removal in the host's list: the area itself never changes
  its chip list's membership; only the host does.

## Findings

| source | as written | input that shows it | evidently intended | confidence | as-written member | corrected member |
|---|---|---|---|---|---|---|
| projects/igniteui-angular/src/lib/chips/chips-area.component.ts:64-106 | the differ is created with no baseline, so its first comparison reports every chip already in the list as added and subscribes it a second time on top of the view-initialisation subscription | two distinct chips present at view initialisation; a drag enters the second from the left | each chip is subscribed once, so one drag-over emits one order change and one drag end emits one interaction-ended and one moves-ended | not executed; medium | Wiring.InitialChipNotifiesTwice | Wiring.IntendedChipNotifiesOnce |
