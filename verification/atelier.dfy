/**
 * The house-building activity as a state machine: the component's state
 * fields and one method per handler, per run of the completion effect and
 * per timer callback. Rendering, drag-and-drop wiring, animation and
 * timing are outside the model; a method stands for one handler run to
 * completion with its state updates applied.
 */
module Atelier {
  import opened Optional
  import opened Shapes
  import opened HouseRules

  /** A part dropped on a house slot, waiting for its snap animation to end. */
  datatype Pending = Pending(target: Slot, part: PlacedShape)

  /** The droppable areas: the two house slots and the playground. */
  datatype DropTarget = SlotZone(slot: Slot) | PlaygroundZone

  /** The overlay message, by kind (its wording is not modelled). */
  datatype Message = NoMessage | DuplicateWarning | HouseBuilt | AllHousesBuilt

  datatype Rect = Rect(left: int, top: int, width: int, height: int)

  /** What the playground element measures: its bounding box and its inner size. */
  datatype PlaygroundBox = PlaygroundBox(rect: Rect, clientWidth: int, clientHeight: int)

  /** The end of a drag: the dragged item's id and shape, whether it came from
      the palette, the area it was released over (if any), how far it moved,
      and its starting box. */
  datatype DragEnd = DragEnd(
    activeId: string, kind: ShapeType, color: ShapeColor, fromPalette: bool,
    over: Option<DropTarget>, dx: int, dy: int, initial: Option<Rect>)

  /** All state fields as one value, to say what a handler changes. */
  datatype State = State(
    placedShapes: seq<PlacedShape>, activeShape: Option<ShapeConfig>,
    body: Option<PlacedShape>, roof: Option<PlacedShape>,
    history: seq<House>, builtCombos: set<string>, message: Message,
    allDone: bool, showConfetti: bool, pending: Option<Pending>)

  /** The part a house drop creates: the dragged shape under the drag's id, at (0, 0). */
  function DroppedPart(e: DragEnd): (p: PlacedShape)
    ensures p.id == e.activeId && ShapeConfig(p.kind, p.color) == ShapeConfig(e.kind, e.color)
    ensures p.top == 0 && p.left == 0
  {
    PlacedShape(e.activeId, e.kind, e.color, 0, 0)
  }

  /** A house slot takes a drop when the shape is the slot's kind, the slot
      is empty and no other placement is waiting. */
  predicate AcceptsDrop(slot: Slot, kind: ShapeType, filled: Option<PlacedShape>, pending: Option<Pending>): (r: bool)
    ensures r <==> filled.None? && pending.None? && slot == (if kind == Square then HouseBody else HouseRoof)
  {
    kind == SlotShape(slot) && filled.None? && pending.None?
  }

  /** The shape a palette drop adds to the playground: a new id, and the
      drop position relative to the playground, clamped inside it. */
  function PaletteShape(e: DragEnd, box: PlaygroundBox, now: nat): (p: PlacedShape)
    requires e.initial.Some?
    ensures p.id == NewShapeId(now) && p.kind == e.kind && p.color == e.color
    ensures 0 <= p.top && 0 <= p.left
    ensures box.rect.height >= ShapeSize ==> p.top <= box.rect.height - ShapeSize
    ensures box.rect.width >= ShapeSize ==> p.left <= box.rect.width - ShapeSize
    ensures var top := e.initial.value.top - box.rect.top + e.dy;
      0 <= top <= box.rect.height - ShapeSize ==> p.top == top
    ensures var left := e.initial.value.left - box.rect.left + e.dx;
      0 <= left <= box.rect.width - ShapeSize ==> p.left == left
    ensures var top := e.initial.value.top - box.rect.top + e.dy;
      0 <= box.rect.height - ShapeSize < top ==> p.top == box.rect.height - ShapeSize
    ensures var left := e.initial.value.left - box.rect.left + e.dx;
      0 <= box.rect.width - ShapeSize < left ==> p.left == box.rect.width - ShapeSize
    ensures var top := e.initial.value.top - box.rect.top + e.dy;
      top < 0 || box.rect.height < ShapeSize ==> p.top == 0
    ensures var left := e.initial.value.left - box.rect.left + e.dx;
      left < 0 || box.rect.width < ShapeSize ==> p.left == 0
  {
    var start := e.initial.value;
    PlacedShape(NewShapeId(now), e.kind, e.color,
      Clamp(start.top - box.rect.top + e.dy, box.rect.height),
      Clamp(start.left - box.rect.left + e.dx, box.rect.width))
  }

  /** A drop a slot accepts leaves a waiting placement that the slot
      invariant allows: the part has the slot's kind and the slot is empty. */
  lemma AcceptedDropKeepsSlots(slot: Slot, e: DragEnd, body: Option<PlacedShape>, roof: Option<PlacedShape>)
    requires SlotsInvariant(body, roof, None)
    requires AcceptsDrop(slot, e.kind, if slot == HouseBody then body else roof, None)
    ensures SlotsInvariant(body, roof, Some(Pending(slot, DroppedPart(e))))
  {
  }

  /** What must hold of the current house and a waiting placement: each slot
      holds its own kind of shape, and a waiting placement has the kind of
      its slot and targets an empty slot. */
  ghost predicate SlotsInvariant(body: Option<PlacedShape>, roof: Option<PlacedShape>, pending: Option<Pending>) {
    && (body.Some? ==> body.value.kind == Square)
    && (roof.Some? ==> roof.value.kind == Triangle)
    && (pending.Some? ==>
          && pending.value.part.kind == SlotShape(pending.value.target)
          && (if pending.value.target == HouseBody then body else roof).None?)
  }

  /** What must hold of the built houses: each has a square body and a
      triangular roof, their colour combinations are pairwise distinct (so
      there are at most nine), the recorded keys are exactly the history's,
      and the completion flag is only up once all nine are built. */
  ghost predicate HistoryInvariant(history: seq<House>, builtCombos: set<string>, allDone: bool) {
    && (forall i :: 0 <= i < |history| ==> history[i].body.kind == Square && history[i].roof.kind == Triangle)
    && DistinctCombos(history)
    && |history| <= CompleteCount
    && builtCombos == Keys(history)
    && (allDone ==> |history| == CompleteCount)
  }

  /** Appending a house of a new combination, recording its key and raising
      the completion flag at nine keeps the history invariant; and a house
      can only be new while the flag is down. */
  lemma AppendKeepsHistoryInvariant(history: seq<House>, builtCombos: set<string>, allDone: bool, h: House)
    requires HistoryInvariant(history, builtCombos, allDone)
    requires h.body.kind == Square && h.roof.kind == Triangle
    requires !HasCombo(history, h.body.color, h.roof.color)
    ensures !allDone
    ensures HistoryInvariant(history + [h], builtCombos + {Key(h)}, allDone || |history| + 1 >= CompleteCount)
  {
    if allDone {
      FullHistoryHasEveryCombo(history, h.body.color, h.roof.color);
    }
    AppendNewCombo(history, h);
    KeysAppend(history, h);
    HistoryBound(history + [h]);
    var s := history + [h];
    forall i | 0 <= i < |s| ensures s[i].body.kind == Square && s[i].roof.kind == Triangle {
      if i < |history| {
        assert s[i] == history[i];
      }
    }
  }

  class App {
    var placedShapes: seq<PlacedShape>
    var activeShape: Option<ShapeConfig>
    var body: Option<PlacedShape>
    var roof: Option<PlacedShape>
    var history: seq<House>
    var builtCombos: set<string>
    var message: Message
    var allDone: bool
    var showConfetti: bool
    var pending: Option<Pending>

    function Snapshot(): State
      reads this
    {
      State(placedShapes, activeShape, body, roof, history, builtCombos, message, allDone, showConfetti, pending)
    }

    /** What a house slot currently holds. */
    function Filled(slot: Slot): Option<PlacedShape>
      reads this
    {
      match slot
      case HouseBody => body
      case HouseRoof => roof
    }

    /** The game's invariant. */
    ghost predicate Valid()
      reads this
    {
      SlotsInvariant(body, roof, pending) && HistoryInvariant(history, builtCombos, allDone)
    }

    /** The initial state of every field. */
    constructor ()
      ensures Valid()
      ensures Snapshot() == State([], None, None, None, [], {}, NoMessage, false, false, None)
    {
      placedShapes, activeShape := [], None;
      body, roof := None, None;
      history, builtCombos := [], {};
      message, allDone, showConfetti := NoMessage, false, false;
      pending := None;
    }

    /** handleDragStart: remembers what is being dragged, for the overlay. */
    method HandleDragStart(kind: ShapeType, color: ShapeColor)
      requires Valid()
      modifies this
      ensures Valid()
      ensures Snapshot() == old(Snapshot()).(activeShape := Some(ShapeConfig(kind, color)))
    {
      activeShape := Some(ShapeConfig(kind, color));
    }

    /** handleDragEnd. While the confetti shows nothing changes. Otherwise the
        drag indicator is cleared; a drop on a house slot that accepts it
        starts a pending placement (a shape taken from the playground leaves
        it); a drop on the playground adds a palette shape or moves the
        dragged playground shape; nothing else changes. */
    method HandleDragEnd(e: DragEnd, playground: Option<PlaygroundBox>, now: nat)
      requires Valid()
      modifies this
      ensures Valid()
      ensures old(showConfetti) ==> unchanged(this)
      ensures !old(showConfetti) ==>
        Snapshot() == old(Snapshot()).(activeShape := None, placedShapes := placedShapes, pending := pending)
      ensures !old(showConfetti) && e.over.None? ==>
        placedShapes == old(placedShapes) && pending == old(pending)
      ensures !old(showConfetti) && e.over.Some? && e.over.value.SlotZone? ==>
        var slot := e.over.value.slot;
        if AcceptsDrop(slot, e.kind, old(Filled(slot)), old(pending)) then
          && pending == Some(Pending(slot, DroppedPart(e)))
          && placedShapes == (if e.fromPalette then old(placedShapes) else Without(old(placedShapes), e.activeId))
        else
          placedShapes == old(placedShapes) && pending == old(pending)
      ensures !old(showConfetti) && e.over == Some(PlaygroundZone) ==>
        && pending == old(pending)
        && placedShapes ==
             if playground.None? then old(placedShapes)
             else if e.fromPalette then
               if e.initial.None? then old(placedShapes)
               else old(placedShapes) + [PaletteShape(e, playground.value, now)]
             else
               Moved(old(placedShapes), e.activeId, e.dx, e.dy, playground.value.clientWidth, playground.value.clientHeight)
    {
      if showConfetti {
        return;
      }
      activeShape := None;
      if e.over.None? {
        return;
      }
      var target := e.over.value;
      if target.SlotZone? && AcceptsDrop(target.slot, e.kind, Filled(target.slot), pending) {
        pending := Some(Pending(target.slot, DroppedPart(e)));
        if !e.fromPalette {
          placedShapes := Without(placedShapes, e.activeId);
        }
        return;
      }
      if target == PlaygroundZone {
        if playground.None? {
          return;
        }
        var box := playground.value;
        if e.fromPalette {
          if e.initial.None? {
            return;
          }
          placedShapes := placedShapes + [PaletteShape(e, box, now)];
        } else {
          placedShapes := Moved(placedShapes, e.activeId, e.dx, e.dy, box.clientWidth, box.clientHeight);
        }
      }
    }

    /** finalizePlacement: does nothing unless a placement is waiting for
        `target`; then that slot receives the part and nothing waits. */
    method FinalizePlacement(target: Slot)
      requires Valid()
      modifies this
      ensures Valid()
      ensures old(pending).None? || old(pending).value.target != target ==> unchanged(this)
      ensures old(pending).Some? && old(pending).value.target == target ==>
        Snapshot() == old(Snapshot()).(
          body := if target == HouseBody then Some(old(pending).value.part) else old(body),
          roof := if target == HouseRoof then Some(old(pending).value.part) else old(roof),
          pending := None)
    {
      if pending.None? || pending.value.target != target {
        return;
      }
      var part := pending.value.part;
      if target == HouseBody {
        body := Some(part);
      } else {
        roof := Some(part);
      }
      pending := None;
    }

    /** The effect that runs when the body or the roof changes. With both
        parts in place, a house whose colour combination was already built
        only raises a warning; a new one is appended to the history, its
        key recorded, the confetti shown, and reaching nine houses raises
        the completion flag. */
    method HouseEffect()
      requires Valid()
      modifies this
      ensures Valid()
      ensures old(body).None? || old(roof).None? ==> unchanged(this)
      ensures old(body).Some? && old(roof).Some? ==>
        var h := House(old(body).value, old(roof).value);
        if HasCombo(old(history), h.body.color, h.roof.color) then
          Snapshot() == old(Snapshot()).(message := DuplicateWarning, showConfetti := false)
        else
          Snapshot() == old(Snapshot()).(
            history := old(history) + [h],
            builtCombos := old(builtCombos) + {ComboKey(h.body.color, h.roof.color)},
            showConfetti := true,
            allDone := old(allDone) || |old(history)| + 1 >= CompleteCount,
            message := if |old(history)| + 1 >= CompleteCount then AllHousesBuilt else HouseBuilt)
    {
      if body.None? || roof.None? {
        return;
      }
      var h := House(body.value, roof.value);
      if HasCombo(history, h.body.color, h.roof.color) {
        message := DuplicateWarning;
        showConfetti := false;
        return;
      }
      AppendKeepsHistoryInvariant(history, builtCombos, allDone, h);
      var newUniqueCount := |history| + 1;
      history := history + [h];
      builtCombos := builtCombos + {Key(h)};
      showConfetti := true;
      message := HouseBuilt;
      if newUniqueCount >= CompleteCount {
        allDone := true;
        message := AllHousesBuilt;
      }
    }

    /** The timer after a duplicate: the house is emptied and the warning cleared. */
    method ClearDuplicate()
      requires Valid()
      modifies this
      ensures Valid()
      ensures Snapshot() == old(Snapshot()).(body := None, roof := None, message := NoMessage)
    {
      body, roof := None, None;
      message := NoMessage;
    }

    /** The timer after a new house: the message is cleared. */
    method ClearMessage()
      requires Valid()
      modifies this
      ensures Valid()
      ensures Snapshot() == old(Snapshot()).(message := NoMessage)
    {
      message := NoMessage;
    }

    /** resetCurrentHouse (also what the auto-advance timer does): empties
        both slots and hides the confetti; history and playground stay. */
    method ResetCurrentHouse()
      requires Valid()
      modifies this
      ensures Valid()
      ensures Snapshot() == old(Snapshot()).(body := None, roof := None, showConfetti := false)
    {
      body, roof := None, None;
      showConfetti := false;
    }

    /** resetAll: empties the playground, both slots, the history and the
        recorded keys, and lowers every flag. A waiting placement stays. */
    method ResetAll()
      requires Valid()
      modifies this
      ensures Valid()
      ensures Snapshot() == old(Snapshot()).(
        placedShapes := [], body := None, roof := None, history := [], showConfetti := false,
        builtCombos := {}, allDone := false, message := NoMessage)
    {
      placedShapes := [];
      body, roof := None, None;
      history := [];
      showConfetti := false;
      builtCombos := {};
      allDone := false;
      message := NoMessage;
    }

    /** handleStartNewHouse: empties both slots, hides the confetti and clears the message. */
    method HandleStartNewHouse()
      requires Valid()
      modifies this
      ensures Valid()
      ensures Snapshot() == old(Snapshot()).(body := None, roof := None, showConfetti := false, message := NoMessage)
    {
      body, roof := None, None;
      showConfetti := false;
      message := NoMessage;
    }

    /** The "Continuer" button of the completion panel: lowers the completion
        flag, clears the message and hides the confetti; the history stays. */
    method Continue()
      requires Valid()
      modifies this
      ensures Valid()
      ensures Snapshot() == old(Snapshot()).(allDone := false, message := NoMessage, showConfetti := false)
    {
      allDone := false;
      message := NoMessage;
      showConfetti := false;
    }
  }
}
