/** The ship loading plan: a 2 x 20 grid of deck slots, some of them gaps, each holding a
    stack of at most three containers. A slot is selected by clicking it; a container is then
    added to the selected slot from the form. */
module ShipSlots {
  import opened Util

  const ROWS: nat := 2
  const COLS: nat := 20
  const SLOT_COUNT: nat := ROWS * COLS
  const MAX_TIERS: nat := 3

  /** A container as entered in the form (its timestamp is not modelled). */
  datatype Container = Container(id: string, weight: string, content: string, destination: string)

  const EMPTY_FORM: Container := Container("", "", "", "")

  datatype Slot = Slot(id: nat, row: nat, col: nat, isReal: bool, containers: seq<Container>, maxTiers: nat)

  /** The column rule: columns 0 and 1 and every fifth column from 4 on are gaps. */
  predicate IsRealColumn(col: nat) {
    col % 5 != 4 && col != 0 && col != 1
  }

  /** The columns that hold real slots, spelled out. */
  lemma RealColumns(col: nat)
    requires col < COLS
    ensures IsRealColumn(col) <==> col in {2, 3, 5, 6, 7, 8, 10, 11, 12, 13, 15, 16, 17, 18}
  {
  }

  function InitialSlot(index: nat): Slot {
    Slot(index, index / COLS, index % COLS, IsRealColumn(index % COLS), [], MAX_TIERS)
  }

  function InitialSlots(): (slots: seq<Slot>)
    ensures |slots| == SLOT_COUNT
    ensures forall i :: 0 <= i < SLOT_COUNT ==> slots[i] == InitialSlot(i)
  {
    seq(SLOT_COUNT, i requires 0 <= i => InitialSlot(i))
  }

  /** The grid has 40 slots; slot i sits in row i / 20 and column i % 20, every slot starts
      empty with room for three containers, and it is real exactly when its column is. */
  lemma InitialGrid(i: nat)
    requires i < SLOT_COUNT
    ensures var s := InitialSlots()[i];
      && s.id == i && s.row == i / COLS && s.col == i % COLS
      && s.row < ROWS && s.col < COLS && i == s.row * COLS + s.col
      && s.containers == [] && s.maxTiers == 3
      && s.isReal == IsRealColumn(s.col)
  {
  }

  /** The real slots, in the order of the grid. */
  function RealSlots(slots: seq<Slot>): (kept: seq<Slot>)
    ensures |kept| <= |slots|
    ensures forall s :: s in kept <==> s in slots && s.isReal
  {
    if slots == [] then []
    else (if slots[0].isReal then [slots[0]] else []) + RealSlots(slots[1..])
  }

  predicate IdsIncreasing(slots: seq<Slot>) {
    forall i, j :: 0 <= i < j < |slots| ==> slots[i].id < slots[j].id
  }

  /** Filtering keeps the grid order: if the ids increase along the grid they increase along
      the real slots too. */
  lemma {:induction false} RealSlotsKeepOrder(slots: seq<Slot>)
    requires IdsIncreasing(slots)
    ensures IdsIncreasing(RealSlots(slots))
  {
    if slots != [] {
      RealSlotsKeepOrder(slots[1..]);
      var rest := RealSlots(slots[1..]);
      forall s | s in rest ensures slots[0].id < s.id {
        var k :| 0 <= k < |slots[1..]| && slots[1..][k] == s;
        assert slots[k + 1] == s;
      }
    }
  }

  lemma InitialIdsIncreasing()
    ensures IdsIncreasing(InitialSlots())
  {
  }

  // ----- style and geometry -----

  const FILL_COLORS: seq<string> := ["#4A7DFF", "#2B5EE8", "#0A3DD1"]
  const FULL_STROKE: string := "#FF5C5C"
  const PLAIN_STROKE: string := "#D9D9D9"

  /** How a slot is drawn. `fill` is absent where the colour table has no entry (the source
      reads past the end of its table there). */
  datatype SlotStyle = Hidden | Striped | Filled(fill: Option<string>, stroke: string)

  /** getSlotStyle. */
  function StyleOf(slot: Slot): SlotStyle {
    if !slot.isReal then Hidden
    else
      var k := |slot.containers|;
      if k == 0 then Striped
      else Filled(
        if k - 1 < |FILL_COLORS| then Some(FILL_COLORS[k - 1]) else None,
        if k == slot.maxTiers then FULL_STROKE else PLAIN_STROKE)
  }

  /** Gaps are hidden, empty real slots striped, and a real slot holding k of at most three
      containers gets the k-th shade, darker with each container; the red stroke marks
      exactly the full slots. */
  lemma StyleRules(slot: Slot)
    ensures !slot.isReal <==> StyleOf(slot) == Hidden
    ensures slot.isReal && slot.containers == [] <==> StyleOf(slot) == Striped
    ensures slot.isReal && 1 <= |slot.containers| <= 3 ==>
      StyleOf(slot) == Filled(Some(FILL_COLORS[|slot.containers| - 1]), StyleOf(slot).stroke)
    ensures StyleOf(slot).Filled? ==> (StyleOf(slot).stroke == FULL_STROKE <==> |slot.containers| == slot.maxTiers)
  {
  }

  /** Left edge of the slot rectangle in column col: 25 px per column plus a 10 px gap after
      columns 5, 10 and 15. */
  function SlotX(col: nat): real {
    var x := 181.5 + 25.0 * col as real;
    var x := if col > 5 then x + 10.0 else x;
    var x := if col > 10 then x + 10.0 else x;
    if col > 15 then x + 10.0 else x
  }

  /** Top edge of the slot rectangle in row row. */
  function SlotY(row: nat): real {
    if row == 0 then 8.5 else 79.5
  }

  const SLOT_WIDTH: real := 24.0
  const SLOT_HEIGHT: real := 66.0

  /** Slot rectangles never overlap: a later column starts right of where an earlier one
      ends, and the second row starts below the first. */
  lemma {:induction false} SlotsDoNotOverlap(c1: nat, c2: nat)
    requires c1 < c2
    ensures SlotX(c1) + SLOT_WIDTH < SlotX(c2)
    ensures SlotY(0) + SLOT_HEIGHT < SlotY(1)
    decreases c2 - c1
  {
    if c1 + 1 < c2 {
      SlotsDoNotOverlap(c1 + 1, c2);
    }
  }

  /** Every slot lies inside the straight part of the hull outline, between x = 172.325 and
      the stern plate at x = 748, and between y = 1 and y = 153. */
  lemma SlotsInsideHull(row: nat, col: nat)
    requires row < ROWS && col < COLS
    ensures 172.325 < SlotX(col) && SlotX(col) + SLOT_WIDTH < 748.0
    ensures 1.0 < SlotY(row) && SlotY(row) + SLOT_HEIGHT < 153.0
  {
  }

  /** The ship plan page: its slots, the selected slot (a copy of the slot as it was when
      clicked) and the container form. */
  class ShipPlan {
    var slots: seq<Slot>
    var selected: Option<Slot>
    var form: Container

    /** The grid keeps its layout, no slot holds more than three containers, and the
        selection is a real slot whose copy is up to date. */
    ghost predicate Valid()
      reads this
    {
      && |slots| == SLOT_COUNT
      && (forall i :: 0 <= i < SLOT_COUNT ==>
            && slots[i].id == i && slots[i].row == i / COLS && slots[i].col == i % COLS
            && slots[i].isReal == IsRealColumn(i % COLS) && slots[i].maxTiers == MAX_TIERS
            && |slots[i].containers| <= MAX_TIERS)
      && (selected.Some? ==>
            selected.value.id < SLOT_COUNT && selected.value == slots[selected.value.id] && selected.value.isReal)
    }

    constructor ()
      ensures Valid()
      ensures slots == InitialSlots() && selected == None && form == EMPTY_FORM
    {
      slots := InitialSlots();
      selected := None;
      form := EMPTY_FORM;
    }

    /** handleSlotClick: gaps ignore clicks, clicking the selected slot deselects it, and
        clicking any other real slot selects it. */
    method HandleSlotClick(id: nat)
      requires Valid() && id < |slots|
      modifies this
      ensures Valid() && slots == old(slots) && form == old(form)
      ensures !slots[id].isReal ==> selected == old(selected)
      ensures slots[id].isReal && old(selected) == Some(slots[id]) ==> selected == None
      ensures slots[id].isReal && old(selected) != Some(slots[id]) ==> selected == Some(slots[id])
    {
      var slot := slots[id];
      if !slot.isReal {
        return;
      }
      if selected.Some? && selected.value.id == slot.id {
        selected := None;
      } else {
        selected := Some(slot);
      }
    }

    /** handleInputChange for one of the four form fields. */
    method HandleInputChange(field: FormField, value: string)
      modifies this
      ensures slots == old(slots) && selected == old(selected)
      ensures form == match field
        case IdField => old(form).(id := value)
        case WeightField => old(form).(weight := value)
        case ContentField => old(form).(content := value)
        case DestinationField => old(form).(destination := value)
    {
      form := match field
        case IdField => form.(id := value)
        case WeightField => form.(weight := value)
        case ContentField => form.(content := value)
        case DestinationField => form.(destination := value);
    }

    /** addContainer: with a selected slot that is not full, the form's container goes on
        top of that slot's stack, every other slot stays as it was, and the form and the
        selection are cleared. Otherwise nothing changes. */
    method AddContainer()
      requires Valid()
      modifies this
      ensures Valid()
      ensures old(selected).None? || |old(selected).value.containers| >= old(selected).value.maxTiers ==>
        slots == old(slots) && selected == old(selected) && form == old(form)
      ensures old(selected).Some? && |old(selected).value.containers| < old(selected).value.maxTiers ==>
        var id := old(selected).value.id;
        && |slots| == |old(slots)|
        && slots[id] == old(slots)[id].(containers := old(slots)[id].containers + [old(form)])
        && (forall j :: 0 <= j < |slots| && j != id ==> slots[j] == old(slots)[j])
        && selected == None && form == EMPTY_FORM
    {
      if selected.None? || |selected.value.containers| >= selected.value.maxTiers {
        return;
      }
      var slot := selected.value;
      var container := form;
      var newSlots := slots;
      var slotIndex := FindSlotIndex(newSlots, slot.id);
      if slotIndex != -1 {
        newSlots := newSlots[slotIndex := newSlots[slotIndex].(containers := newSlots[slotIndex].containers + [container])];
      }
      slots := newSlots;
      form := EMPTY_FORM;
      selected := None;
    }

    /** The close button: clears the form and the selection. */
    method Close()
      modifies this
      ensures slots == old(slots) && selected == None && form == EMPTY_FORM
    {
      form := EMPTY_FORM;
      selected := None;
    }

    /** filledContainers: the size of the selected stack, 0 without a selection. */
    function FilledContainers(): nat
      reads this
    {
      if selected.None? then 0 else |selected.value.containers|
    }

    /** maxContainers: the selected slot's capacity, 0 without a selection. */
    function MaxContainers(): nat
      reads this
    {
      if selected.None? then 0 else selected.value.maxTiers
    }

    /** emptySlots: the free places left on the selected stack. */
    function EmptySlots(): int
      reads this
    {
      MaxContainers() - FilledContainers()
    }
  }

  datatype FormField = IdField | WeightField | ContentField | DestinationField

  /** findIndex over the slots by id: the first slot carrying `id`, or -1. */
  method FindSlotIndex(slots: seq<Slot>, id: nat) returns (index: int)
    ensures -1 <= index < |slots|
    ensures index == -1 <==> forall k :: 0 <= k < |slots| ==> slots[k].id != id
    ensures index >= 0 ==> slots[index].id == id && forall k :: 0 <= k < index ==> slots[k].id != id
  {
    index := 0;
    while index < |slots|
      invariant 0 <= index <= |slots|
      invariant forall k :: 0 <= k < index ==> slots[k].id != id
    {
      if slots[index].id == id {
        return;
      }
      index := index + 1;
    }
    index := -1;
  }

  /** In a valid plan the selected stack's filled and empty places add up to its capacity of
      three, neither is negative, and a plan without a selection shows 0 of 0. */
  lemma StackCounts(plan: ShipPlan)
    requires plan.Valid()
    ensures plan.selected.Some? ==> plan.FilledContainers() + plan.EmptySlots() == MAX_TIERS && plan.EmptySlots() >= 0
    ensures plan.selected.None? ==> plan.FilledContainers() == 0 && plan.EmptySlots() == 0
  {
  }

  /** In a valid plan every real slot is drawn with a colour from the table: the source
      never reads past its end. */
  lemma StyleAlwaysDefined(plan: ShipPlan, i: nat)
    requires plan.Valid() && i < |plan.slots| && plan.slots[i].isReal && plan.slots[i].containers != []
    ensures StyleOf(plan.slots[i]).Filled? && StyleOf(plan.slots[i]).fill.Some?
  {
  }
}
