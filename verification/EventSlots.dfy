/** The main/aux/ex event storage of one file descriptor's node (src/rbnode.h, src/iosvc_sched.c). */
module EventSlots {
  import opened IoTypes

  /** `ddl` is the position in the deadline heap, or -1 when the event has no time limit. */
  datatype EventData = EventData(callback: Option<Handler>, ddl: int)

  datatype MainType = Empty | MainRead | MainWrite

  datatype Slots = Slots(mainType: MainType, main: EventData, aux: Option<EventData>, ex: Option<EventData>)

  /** Names the storage an `event_data *` points at. */
  datatype Slot = MainSlot | AuxSlot | ExSlot

  const FreshSlots := Slots(Empty, EventData(None, 0), None, None)

  predicate LiveOpt(e: Option<EventData>) {
    e.Some? && e.value.callback.Some?
  }

  function IfLive(e: EventData): Option<EventData> {
    if e.callback.Some? then Some(e) else None
  }

  /** The abstract value, a partial map from wait types to pending events: read and write share the inline
      and the auxiliary storage according to the type recorded for the inline one. */
  function Pending(s: Slots, wt: WaitType): (r: Option<EventData>)
    ensures r.Some? ==> r.value.callback.Some?
  {
    match (s.mainType, wt)
    case (_, WaitException) => if LiveOpt(s.ex) then s.ex else None
    case (Empty, _) => None
    case (MainRead, WaitRead) => IfLive(s.main)
    case (MainWrite, WaitWrite) => IfLive(s.main)
    case (_, _) => if LiveOpt(s.aux) then s.aux else None
  }

  /** The inline storage is marked EMPTY exactly when neither a read nor a write is pending. */
  predicate Valid(s: Slots) {
    s.mainType == Empty <==> s.main.callback.None? && !LiveOpt(s.aux)
  }

  predicate IsMain(s: Slots, wt: WaitType) {
    (s.mainType == MainRead && wt == WaitRead) || (s.mainType == MainWrite && wt == WaitWrite)
  }

  /** get_evt_data: the storage that would hold an event of type `wt`, if there is any. */
  function GetSlot(s: Slots, wt: WaitType): (r: Option<Slot>)
    ensures Pending(s, wt).Some? ==> r.Some? && Load(s, r.value) == Pending(s, wt).value
    ensures r.Some? && Load(s, r.value).callback.Some? ==> Pending(s, wt) == Some(Load(s, r.value))
  {
    if wt == WaitException then
      if s.ex.Some? then Some(ExSlot) else None
    else if s.mainType == Empty then None
    else if IsMain(s, wt) then Some(MainSlot)
    else if s.aux.Some? then Some(AuxSlot)
    else None
  }

  function Load(s: Slots, slot: Slot): EventData {
    match slot
    case MainSlot => s.main
    case AuxSlot => if s.aux.Some? then s.aux.value else EventData(None, 0)
    case ExSlot => if s.ex.Some? then s.ex.value else EventData(None, 0)
  }

  function Store(s: Slots, slot: Slot, e: EventData): Slots {
    match slot
    case MainSlot => s.(main := e)
    case AuxSlot => s.(aux := Some(e))
    case ExSlot => s.(ex := Some(e))
  }

  /** is_scheduled */
  predicate IsScheduled(s: Slots, wt: WaitType)
    ensures IsScheduled(s, wt) <==> Pending(s, wt).Some?
  {
    if wt == WaitException then LiveOpt(s.ex)
    else if s.mainType == Empty then false
    else if IsMain(s, wt) then s.main.callback.Some?
    else LiveOpt(s.aux)
  }

  /** reserve_rd_wr and the exception branch of reserve_evt_mem: find, steal or allocate storage.
      `junk` is what freshly allocated memory happens to hold. */
  function Reserve(s: Slots, wt: WaitType, junk: EventData): (Slots, Slot) {
    if wt == WaitException then
      if s.ex.Some? then (s, ExSlot)
      else if s.aux.Some? && s.aux.value.callback.None? then (s.(ex := s.aux, aux := None), ExSlot)
      else (s.(ex := Some(junk)), ExSlot)
    else if s.mainType == Empty then
      (s.(mainType := if wt == WaitRead then MainRead else MainWrite), MainSlot)
    else if IsMain(s, wt) then (s, MainSlot)
    else if s.aux.Some? then (s, AuxSlot)
    else if s.ex.Some? && s.ex.value.callback.None? then (s.(aux := s.ex, ex := None), AuxSlot)
    else (s.(aux := Some(junk)), AuxSlot)
  }

  /** Scheduling: reserve storage and write the event into it.  Whatever the allocator hands out, no other
      live event is overwritten or hidden. */
  function Schedule(s: Slots, wt: WaitType, e: EventData, junk: EventData): (r: Slots)
    requires Valid(s) && Pending(s, wt).None? && e.callback.Some?
    ensures Valid(r)
    ensures forall w :: Pending(r, w) == if w == wt then Some(e) else Pending(s, w)
  {
    var (s1, slot) := Reserve(s, wt, junk);
    Store(s1, slot, e)
  }

  /** The slot part of iosvc_dequeue: vacate the storage and mark EMPTY when nothing is left. */
  function Vacate(s: Slots, wt: WaitType): (r: Slots)
    requires Valid(s) && Pending(s, wt).Some?
    ensures Valid(r)
    ensures forall w :: Pending(r, w) == if w == wt then None else Pending(s, w)
  {
    var slot := GetSlot(s, wt).value;
    var s1 := Store(s, slot, Load(s, slot).(callback := None));
    if s1.main.callback.None? && !LiveOpt(s1.aux) then s1.(mainType := Empty) else s1
  }

  /** Writing the heap index through the pointer returned by get_evt_data. */
  function SetDdl(s: Slots, wt: WaitType, i: int): (r: Slots)
    requires Pending(s, wt).Some?
    ensures Valid(r) == Valid(s)
    ensures forall w :: Pending(r, w) == if w == wt then Some(Pending(s, w).value.(ddl := i)) else Pending(s, w)
  {
    var slot := GetSlot(s, wt).value;
    Store(s, slot, Load(s, slot).(ddl := i))
  }
}
