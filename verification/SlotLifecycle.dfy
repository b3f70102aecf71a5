/** The life of the Python runtime's slots, over every interleaving of threads.

    A phase reserves a slot; the reservation is resolved by the first probe,
    shared by copied contexts, and replaced by the slot itself where a probe ran.
    A boundary harvests a slot while probes go on storing into it; a slot nobody
    holds is harvested, freed and handed to another phase; closing harvests all
    that is live. The steps below are the atomic ones: one store, one search, one
    slice store, or what runs under the lock without touching a slot's bytes. */
module SlotLifecycle {
  import opened Options

  const HEADER := 16

  type Byte = nat
  type Context = nat

  /** What a context variable, or a probe about to store, refers to. */
  datatype Ref = Lazy(reservation: nat) | Slot(slot: nat) | Sink

  /** A reference and the context of the phase it was made for. */
  datatype Holder = Holder(ref: Ref, context: Context)

  datatype Reservation = Reservation(context: Context, resolved: Option<Ref>)

  /** `bytes` are the set bytes past the header. */
  datatype SlotState = SlotState(context: Context, bytes: set<Byte>)

  datatype Purpose = Boundary | Reclaim | Closing

  /** Where `_harvest` is: about to look for a set byte from `at`, with one found
      at `at`, with the end of its run found too, or with none found any more and
      `at` past the last byte. `runs` are the bytes it cleared and has not written
      yet. */
  datatype Harvest =
    | Idle
    | Scanning(slot: nat, at: Byte, runs: set<Byte>, purpose: Purpose)
    | Located(slot: nat, at: Byte, runs: set<Byte>, purpose: Purpose)
    | Delimited(slot: nat, at: Byte, stop: Byte, runs: set<Byte>, purpose: Purpose)
    | Exhausted(slot: nat, at: Byte, runs: set<Byte>, purpose: Purpose)

  datatype Phase = Open | Shutting(harvested: set<nat>) | Closed

  /** `stored` and `promised` are history: what probes stored into slots, and what
      they stored before the slot's last harvest came past it. */
  datatype State = State(
    size: nat,
    slots: map<nat, SlotState>,
    reservations: map<nat, Reservation>,
    holders: map<nat, Holder>,
    live: set<nat>,
    free: set<nat>,
    harvest: Harvest,
    phase: Phase,
    records: set<(Context, Byte)>,
    stored: set<(Context, Byte)>,
    promised: set<(Context, Byte)>)

  function Initial(size: nat): State {
    State(size, map[], map[], map[], {}, {}, Idle, Open, {}, {}, {})
  }

  // -- steps -------------------------------------------------------------------

  datatype Action =
    | Reserve(holder: nat, reservation: nat, context: Context)
    | Copy(holder: nat, copy: nat)
    | Drop(holder: nat)
    | Resolve(reservation: nat, slot: nat)
    | ResolveToSink(reservation: nat)
    | Rebind(holder: nat)
    | Store(holder: nat, byte: Byte)
    | BeginHarvest(slot: nat, purpose: Purpose)
    | FindSet(byte: Byte)
    | FindClear(byte: Byte)
    | Clear
    | FindNone
    | Write
    | BeginClose
    | FinishClose

  /** The slot or sink a reference leads to, if it is resolved. */
  function Target(s: State, ref: Ref): Option<Ref> {
    if ref.Lazy? then (if ref.reservation in s.reservations then s.reservations[ref.reservation].resolved else None)
    else Some(ref)
  }

  /** Someone may still store into the slot: a reference to it, or a reservation
      that was resolved to it and that someone refers to. */
  predicate Held(s: State, slot: nat) {
    exists h :: h in s.holders && Target(s, s.holders[h].ref) == Some(Slot(slot))
  }

  predicate NoneFrom(bytes: set<Byte>, from: Byte) {
    forall b | b in bytes :: b < from
  }

  predicate AllSet(bytes: set<Byte>, from: Byte, stop: Byte) {
    forall b: Byte | from <= b < stop :: b in bytes
  }

  function Range(from: Byte, stop: Byte): (run: set<Byte>)
    ensures forall b: Byte :: b in run <==> from <= b < stop
    decreases stop - from
  {
    if from >= stop then {} else {from} + Range(from + 1, stop)
  }

  predicate Enabled(s: State, a: Action) {
    match a
    case Reserve(_, reservation, _) => reservation !in s.reservations
    case Copy(holder, _) => holder in s.holders
    case Drop(_) => true
    // Allocation takes the lock, which a harvest holds.
    case Resolve(reservation, slot) =>
      && s.harvest == Idle && s.phase == Open
      && reservation in s.reservations && s.reservations[reservation].resolved == None
      && (slot in s.free || slot !in s.slots)
    case ResolveToSink(reservation) =>
      && s.harvest == Idle && !s.phase.Shutting?
      && reservation in s.reservations && s.reservations[reservation].resolved == None
    case Rebind(holder) => holder in s.holders && Target(s, s.holders[holder].ref).Some?
    case Store(holder, byte) =>
      && HEADER <= byte < s.size
      && holder in s.holders && Target(s, s.holders[holder].ref).Some?
    case BeginHarvest(slot, purpose) =>
      && s.harvest == Idle && slot in s.live
      && (match purpose
          case Boundary => s.phase == Open
          case Reclaim => s.phase == Open && !Held(s, slot)
          case Closing => s.phase.Shutting? && slot !in s.phase.harvested)
    case FindSet(byte) =>
      && s.harvest.Scanning? && s.harvest.slot in s.slots
      && s.harvest.at <= byte && byte in s.slots[s.harvest.slot].bytes
      && (forall b: Byte | s.harvest.at <= b < byte :: b !in s.slots[s.harvest.slot].bytes)
    case FindClear(byte) =>
      && s.harvest.Located? && s.harvest.slot in s.slots
      && s.harvest.at < byte <= s.size
      && AllSet(s.slots[s.harvest.slot].bytes, s.harvest.at, byte)
      && (byte == s.size || byte !in s.slots[s.harvest.slot].bytes)
    case Clear => s.harvest.Delimited? && s.harvest.slot in s.slots
    case FindNone =>
      && s.harvest.Scanning? && s.harvest.slot in s.slots
      && NoneFrom(s.slots[s.harvest.slot].bytes, s.harvest.at)
    case Write => s.harvest.Exhausted? && s.harvest.slot in s.slots
    case BeginClose => s.harvest == Idle && s.phase == Open
    case FinishClose => s.harvest == Idle && s.phase.Shutting? && s.phase.harvested == s.live
  }

  function Credits(context: Context, bytes: set<Byte>): set<(Context, Byte)> {
    set b | b in bytes :: (context, b)
  }

  /** A store counts as promised while the slot's last harvest has not come past
      its byte: it has not begun, or still searches at the byte or before it. */
  predicate AheadOfLastHarvest(s: State, slot: nat, byte: Byte) {
    && s.phase.Shutting? && slot !in s.phase.harvested
    && (s.harvest == Idle || s.harvest.slot != slot || s.harvest.at <= byte)
  }

  function Apply(s: State, a: Action): State
    requires Enabled(s, a)
  {
    match a
    case Reserve(holder, reservation, context) =>
      s.(reservations := s.reservations[reservation := Reservation(context, None)],
         holders := s.holders[holder := Holder(Lazy(reservation), context)])
    case Copy(holder, copy) => s.(holders := s.holders[copy := s.holders[holder]])
    case Drop(holder) => s.(holders := s.holders - {holder})
    case Resolve(reservation, slot) =>
      var context := s.reservations[reservation].context;
      s.(slots := s.slots[slot := SlotState(context, if slot in s.slots then s.slots[slot].bytes else {})],
         reservations := s.reservations[reservation := Reservation(context, Some(Slot(slot)))],
         live := s.live + {slot},
         free := s.free - {slot})
    case ResolveToSink(reservation) =>
      s.(reservations := s.reservations[reservation := Reservation(s.reservations[reservation].context, Some(Sink))])
    case Rebind(holder) =>
      var held := s.holders[holder];
      s.(holders := s.holders[holder := Holder(Target(s, held.ref).value, held.context)])
    case Store(holder, byte) =>
      var held := s.holders[holder];
      (match Target(s, held.ref).value
       case Slot(slot) =>
         if slot !in s.slots then s
         else
           s.(slots := s.slots[slot := SlotState(s.slots[slot].context, s.slots[slot].bytes + {byte})],
              stored := s.stored + {(held.context, byte)},
              promised := s.promised + if AheadOfLastHarvest(s, slot, byte) then {(held.context, byte)} else {})
       case _ => s)
    case BeginHarvest(slot, purpose) =>
      s.(harvest := Scanning(slot, HEADER, {}, purpose),
         live := if purpose == Reclaim then s.live - {slot} else s.live)
    case FindSet(byte) => s.(harvest := Located(s.harvest.slot, byte, s.harvest.runs, s.harvest.purpose))
    case FindClear(byte) => s.(harvest := Delimited(s.harvest.slot, s.harvest.at, byte, s.harvest.runs, s.harvest.purpose))
    case Clear =>
      var h := s.harvest;
      var run := Range(h.at, h.stop);
      s.(slots := s.slots[h.slot := SlotState(s.slots[h.slot].context, s.slots[h.slot].bytes - run)],
         harvest := Scanning(h.slot, h.stop, h.runs + run, h.purpose))
    case FindNone =>
      var h := s.harvest;
      s.(harvest := Exhausted(h.slot, if h.at < s.size then s.size else h.at, h.runs, h.purpose))
    case Write =>
      var h := s.harvest;
      s.(records := s.records + Credits(s.slots[h.slot].context, h.runs),
         harvest := Idle,
         free := if h.purpose == Reclaim then s.free + {h.slot} else s.free,
         phase := if s.phase.Shutting? then Shutting(s.phase.harvested + {h.slot}) else s.phase)
    case BeginClose => s.(phase := Shutting({}), promised := s.stored)
    case FinishClose => s.(phase := Closed, live := {}, free := {})
  }

  /** The states of a run: each action is enabled where it happens. */
  ghost predicate IsRun(s: State, actions: seq<Action>)
    decreases |actions|
  {
    actions == [] || (Enabled(s, actions[0]) && IsRun(Apply(s, actions[0]), actions[1..]))
  }

  function Final(s: State, actions: seq<Action>): State
    requires IsRun(s, actions)
    decreases |actions|
  {
    if actions == [] then s else Final(Apply(s, actions[0]), actions[1..])
  }

  // -- the invariant -------------------------------------------------------------

  /** Slots whose bytes still belong to a phase: the live ones and the one being
      harvested, which a reclaim has taken off the live list. */
  predicate InUse(s: State, slot: nat) {
    slot in s.live || (s.harvest != Idle && s.harvest.slot == slot)
  }

  ghost predicate SlotsAreSeparate(s: State) {
    && s.live <= s.slots.Keys && s.free <= s.slots.Keys && s.live !! s.free
    && (s.harvest != Idle ==>
          s.harvest.slot in s.slots && s.harvest.slot !in s.free
          && (s.harvest.purpose == Reclaim <==> s.harvest.slot !in s.live))
    && (s.phase == Closed ==> s.live == {} && s.free == {} && s.harvest == Idle)
  }

  ghost predicate FreeSlotsAreClear(s: State) {
    forall slot | slot in s.free :: slot in s.slots ==> s.slots[slot].bytes == {}
  }

  /** A reference that leads to a slot leads to a live slot of its own context. */
  ghost predicate LeadsHome(s: State, held: Holder) {
    && (held.ref.Lazy? ==>
          held.ref.reservation in s.reservations && s.reservations[held.ref.reservation].context == held.context)
    && (Target(s, held.ref).Some? && Target(s, held.ref).value.Slot? ==>
          var slot := Target(s, held.ref).value.slot;
          slot in s.slots && s.slots[slot].context == held.context && (s.phase != Closed ==> slot in s.live))
  }

  ghost predicate ReferencesLeadHome(s: State) {
    && (forall h | h in s.holders :: LeadsHome(s, s.holders[h]))
    && (forall r | r in s.reservations && s.reservations[r].resolved.Some? :: !s.reservations[r].resolved.value.Lazy?)
  }

  /** A run is cleared only once every byte in it was set, and a slot being
      reclaimed is clear behind the search: nobody is left to store into it. */
  ghost predicate HarvestIsSound(s: State) {
    && (s.harvest.Delimited? ==>
      s.harvest.slot in s.slots && AllSet(s.slots[s.harvest.slot].bytes, s.harvest.at, s.harvest.stop))
    && (s.harvest != Idle && s.harvest.purpose == Reclaim ==>
      s.harvest.slot in s.slots && forall b | b in s.slots[s.harvest.slot].bytes :: s.harvest.at <= b)
    && (s.harvest.Delimited? ==> s.harvest.at < s.harvest.stop)
    && (s.harvest.Exhausted? ==> s.size <= s.harvest.at)
  }

  ghost predicate BytesAreProbes(s: State) {
    forall slot, b | slot in s.slots && b in s.slots[slot].bytes :: HEADER <= b < s.size
  }

  ghost predicate NothingMiscredited(s: State) {
    && s.records <= s.stored
    && (forall slot, b | slot in s.slots && InUse(s, slot) && b in s.slots[slot].bytes :: (s.slots[slot].context, b) in s.stored)
    && (s.harvest != Idle ==>
          s.harvest.slot in s.slots && forall b | b in s.harvest.runs :: (s.slots[s.harvest.slot].context, b) in s.stored)
  }

  ghost predicate SetInUse(s: State, slot: nat, context: Context, b: Byte) {
    slot in s.slots && InUse(s, slot) && s.slots[slot].context == context && b in s.slots[slot].bytes
  }

  predicate InRuns(s: State, context: Context, b: Byte) {
    s.harvest != Idle && s.harvest.slot in s.slots && s.slots[s.harvest.slot].context == context && b in s.harvest.runs
  }

  /** The three places a stored byte can be. */
  ghost predicate Somewhere(s: State, context: Context, b: Byte) {
    (context, b) in s.records || InRuns(s, context, b) || exists slot :: SetInUse(s, slot, context, b)
  }

  ghost predicate NothingLost(s: State) {
    s.phase != Closed ==> forall context, b | (context, b) in s.stored :: Somewhere(s, context, b)
  }

  /** Set in a slot the last harvests have yet to come past. */
  ghost predicate StillToCome(s: State, slot: nat, context: Context, b: Byte) {
    && slot in s.slots && slot in s.live && s.phase.Shutting? && slot !in s.phase.harvested
    && s.slots[slot].context == context && b in s.slots[slot].bytes
    && (s.harvest != Idle && s.harvest.slot == slot ==> s.harvest.at <= b)
  }

  ghost predicate PromisesKept(s: State) {
    && (s.phase.Shutting? ==> forall context, b | (context, b) in s.promised ::
          (context, b) in s.records || InRuns(s, context, b) || exists slot :: StillToCome(s, slot, context, b))
    && (s.phase.Shutting? && s.harvest != Idle ==> s.harvest.purpose == Closing && s.harvest.slot !in s.phase.harvested)
    && (s.phase == Closed ==> s.promised <= s.records)
  }

  ghost predicate Inv(s: State) {
    && SlotsAreSeparate(s) && FreeSlotsAreClear(s) && ReferencesLeadHome(s) && HarvestIsSound(s)
    && BytesAreProbes(s) && NothingMiscredited(s) && NothingLost(s) && PromisesKept(s)
  }

  /** And nothing but what was promised is, or will be, in a record. */
  ghost predicate OnlyPromised(s: State) {
    && (s.phase.Shutting? ==>
          && s.records <= s.promised
          && (forall context: Context, b: Byte | InRuns(s, context, b) :: (context, b) in s.promised)
          && forall slot: nat, context: Context, b: Byte | StillToCome(s, slot, context, b) :: (context, b) in s.promised)
    && (s.phase == Closed ==> s.records <= s.promised)
  }

  lemma {:induction false} InitialInv(size: nat)
    ensures Inv(Initial(size)) && OnlyPromised(Initial(size))
  {
  }

  // -- every step keeps it ---------------------------------------------------------

  /** Steps that only move references touch no byte. */
  lemma {:induction false} BytesUntouched(s: State, t: State)
    requires Inv(s)
    requires t == s.(reservations := t.reservations, holders := t.holders)
    ensures SlotsAreSeparate(t) && FreeSlotsAreClear(t) && HarvestIsSound(t) && BytesAreProbes(t)
    ensures NothingMiscredited(t) && NothingLost(t) && PromisesKept(t)
  {
    forall context, b | Somewhere(s, context, b)
      ensures Somewhere(t, context, b)
    {
      forall slot | SetInUse(s, slot, context, b)
        ensures SetInUse(t, slot, context, b)
      {
      }
    }
    forall slot, context, b | StillToCome(s, slot, context, b)
      ensures StillToCome(t, slot, context, b)
    {
    }
  }

  lemma {:induction false} StoreInv(s: State, holder: nat, byte: Byte)
    requires Inv(s) && Enabled(s, Store(holder, byte))
    ensures Inv(Apply(s, Store(holder, byte)))
  {
    var t := Apply(s, Store(holder, byte));
    var held := s.holders[holder];
    assert LeadsHome(s, held);
    if !Target(s, held.ref).value.Slot? { return; }
    var slot := Target(s, held.ref).value.slot;
    assert s.phase != Closed ==> slot !in s.free;
    forall context, b, w | SetInUse(s, w, context, b)
      ensures SetInUse(t, w, context, b)
    {
    }
    forall context, b, w | StillToCome(s, w, context, b)
      ensures StillToCome(t, w, context, b)
    {
    }
    if s.phase != Closed {
      assert SetInUse(t, slot, held.context, byte);
    }
    if AheadOfLastHarvest(s, slot, byte) {
      assert StillToCome(t, slot, held.context, byte);
    }
  }

  lemma {:induction false} ResolveInv(s: State, reservation: nat, slot: nat)
    requires Inv(s) && Enabled(s, Resolve(reservation, slot))
    ensures Inv(Apply(s, Resolve(reservation, slot)))
  {
    var t := Apply(s, Resolve(reservation, slot));
    forall context, b, w | SetInUse(s, w, context, b)
      ensures SetInUse(t, w, context, b)
    {
    }
    forall h | h in t.holders
      ensures LeadsHome(t, t.holders[h])
    {
      assert LeadsHome(s, s.holders[h]);
    }
  }

  lemma {:induction false} BeginHarvestInv(s: State, slot: nat, purpose: Purpose)
    requires Inv(s) && Enabled(s, BeginHarvest(slot, purpose))
    ensures Inv(Apply(s, BeginHarvest(slot, purpose)))
  {
    var t := Apply(s, BeginHarvest(slot, purpose));
    forall context, b, w | SetInUse(s, w, context, b)
      ensures SetInUse(t, w, context, b)
    {
    }
    forall context, b, w | StillToCome(s, w, context, b)
      ensures StillToCome(t, w, context, b)
    {
    }
    forall h | h in t.holders
      ensures LeadsHome(t, t.holders[h])
    {
      assert LeadsHome(s, s.holders[h]);
    }
  }

  /** The searches move on over bytes that are clear, or over a run of set ones. */
  lemma {:induction false} SearchInv(s: State, a: Action)
    requires Inv(s) && Enabled(s, a) && (a.FindSet? || a.FindClear?)
    ensures Inv(Apply(s, a))
  {
    var t := Apply(s, a);
    forall context, b, w | SetInUse(s, w, context, b)
      ensures SetInUse(t, w, context, b)
    {
    }
    forall context, b, w | StillToCome(s, w, context, b)
      ensures StillToCome(t, w, context, b)
    {
    }
    forall h | h in t.holders
      ensures LeadsHome(t, t.holders[h])
    {
      assert LeadsHome(s, s.holders[h]);
    }
  }

  /** Clearing a run moves its bytes to `runs`, and no others. */
  lemma {:induction false} ClearInv(s: State)
    requires Inv(s) && Enabled(s, Clear)
    ensures Inv(Apply(s, Clear))
  {
    var t, h := Apply(s, Clear), s.harvest;
    forall context, b, w | SetInUse(s, w, context, b)
      ensures SetInUse(t, w, context, b) || InRuns(t, context, b)
    {
    }
    forall context, b, w | StillToCome(s, w, context, b)
      ensures StillToCome(t, w, context, b) || InRuns(t, context, b)
    {
    }
    forall h | h in t.holders
      ensures LeadsHome(t, t.holders[h])
    {
      assert LeadsHome(s, s.holders[h]);
    }
  }

  /** When nothing is found any more a slot being reclaimed is clear; others may be
      stored into again before the runs are written. */
  lemma {:induction false} FindNoneInv(s: State)
    requires Inv(s) && Enabled(s, FindNone)
    ensures Inv(Apply(s, FindNone))
  {
    var t := Apply(s, FindNone);
    forall context, b, w | SetInUse(s, w, context, b)
      ensures SetInUse(t, w, context, b)
    {
    }
    forall context, b, w | StillToCome(s, w, context, b)
      ensures StillToCome(t, w, context, b)
    {
    }
    forall h | h in t.holders
      ensures LeadsHome(t, t.holders[h])
    {
      assert LeadsHome(s, s.holders[h]);
    }
  }

  /** Writing moves the runs to the records; a reclaimed slot is clear by then. */
  lemma {:induction false} WriteInv(s: State)
    requires Inv(s) && Enabled(s, Write)
    ensures Inv(Apply(s, Write))
  {
    var t, h := Apply(s, Write), s.harvest;
    var context := s.slots[h.slot].context;
    if h.purpose == Reclaim {
      assert s.slots[h.slot].bytes == {};
    }
    forall c: Context, b: Byte | InRuns(s, c, b)
      ensures (c, b) in t.records
    {
    }
    forall c, b, w | SetInUse(s, w, c, b)
      ensures SetInUse(t, w, c, b)
    {
    }
    forall c, b, w | StillToCome(s, w, c, b)
      ensures StillToCome(t, w, c, b)
    {
    }
    forall holder | holder in t.holders
      ensures LeadsHome(t, t.holders[holder])
    {
      assert LeadsHome(s, s.holders[holder]);
    }
  }

  lemma {:induction false} CloseInv(s: State, a: Action)
    requires Inv(s) && Enabled(s, a) && (a.BeginClose? || a.FinishClose?)
    ensures Inv(Apply(s, a))
  {
    var t := Apply(s, a);
    forall c, b, w | SetInUse(s, w, c, b) && a.BeginClose?
      ensures SetInUse(t, w, c, b) && StillToCome(t, w, c, b)
    {
    }
    if a.FinishClose? {
      forall credit: (Context, Byte) | credit in s.promised
        ensures credit in s.records
      {
        var (c, b) := credit;
        assert (c, b) in s.promised;
        assert forall slot :: !StillToCome(s, slot, c, b);
      }
    }
    forall holder | holder in t.holders
      ensures LeadsHome(t, t.holders[holder])
    {
      assert LeadsHome(s, s.holders[holder]);
    }
  }

  lemma {:induction false} ReferencesRemain(s: State, a: Action)
    requires Inv(s) && Enabled(s, a) && (a.Reserve? || a.ResolveToSink?)
    ensures ReferencesLeadHome(Apply(s, a))
  {
    var t := Apply(s, a);
    forall holder | holder in t.holders
      ensures LeadsHome(t, t.holders[holder])
    {
      assert holder in s.holders ==> LeadsHome(s, s.holders[holder]);
    }
  }

  lemma {:induction false} ReferencesInv(s: State, a: Action)
    requires Inv(s) && Enabled(s, a)
    requires a.Reserve? || a.ResolveToSink? || a.Copy? || a.Drop? || a.Rebind?
    ensures Inv(Apply(s, a))
  {
    BytesUntouched(s, Apply(s, a));
    if a.Reserve? || a.ResolveToSink? {
      ReferencesRemain(s, a);
    }
  }

  lemma {:induction false} StepInv(s: State, a: Action)
    requires Inv(s) && Enabled(s, a)
    ensures Inv(Apply(s, a))
  {
    match a
    case Reserve(_, _, _) => ReferencesInv(s, a);
    case Copy(_, _) => ReferencesInv(s, a);
    case Drop(_) => ReferencesInv(s, a);
    case Resolve(reservation, slot) => ResolveInv(s, reservation, slot);
    case ResolveToSink(_) => ReferencesInv(s, a);
    case Rebind(_) => ReferencesInv(s, a);
    case Store(holder, byte) => StoreInv(s, holder, byte);
    case BeginHarvest(slot, purpose) => BeginHarvestInv(s, slot, purpose);
    case FindSet(_) => SearchInv(s, a);
    case FindClear(_) => SearchInv(s, a);
    case Clear => ClearInv(s);
    case FindNone => FindNoneInv(s);
    case Write => WriteInv(s);
    case BeginClose => CloseInv(s, a);
    case FinishClose => CloseInv(s, a);
  }

  /** A probe's store is still to come exactly where it was promised. */
  lemma {:induction false} StoreOnlyPromised(s: State, holder: nat, byte: Byte)
    requires Inv(s) && OnlyPromised(s) && Enabled(s, Store(holder, byte))
    ensures OnlyPromised(Apply(s, Store(holder, byte)))
  {
    var t := Apply(s, Store(holder, byte));
    var held := s.holders[holder];
    assert LeadsHome(s, held);
    forall w: nat, c: Context, b: Byte | StillToCome(t, w, c, b)
      ensures (c, b) in t.promised
    {
      assert StillToCome(s, w, c, b) || (b == byte && c == held.context && AheadOfLastHarvest(s, w, byte));
    }
    forall c: Context, b: Byte | InRuns(t, c, b) && t.phase.Shutting?
      ensures (c, b) in t.promised
    {
      assert InRuns(s, c, b);
    }
  }

  /** A harvest only takes up bytes it was still to come to. */
  lemma {:induction false} HarvestOnlyPromised(s: State, a: Action)
    requires Inv(s) && OnlyPromised(s) && Enabled(s, a)
    requires a.BeginHarvest? || a.FindSet? || a.FindClear? || a.Clear? || a.FindNone?
    ensures OnlyPromised(Apply(s, a))
  {
    var t := Apply(s, a);
    forall w: nat, c: Context, b: Byte | StillToCome(t, w, c, b)
      ensures (c, b) in t.promised
    {
      assert StillToCome(s, w, c, b);
    }
    forall c: Context, b: Byte | InRuns(t, c, b) && t.phase.Shutting?
      ensures (c, b) in t.promised
    {
      assert InRuns(s, c, b) || StillToCome(s, s.harvest.slot, c, b);
    }
  }

  lemma {:induction false} WriteOnlyPromised(s: State)
    requires Inv(s) && OnlyPromised(s) && Enabled(s, Write)
    ensures OnlyPromised(Apply(s, Write))
  {
    var t := Apply(s, Write);
    forall w: nat, c: Context, b: Byte | StillToCome(t, w, c, b)
      ensures (c, b) in t.promised
    {
      assert StillToCome(s, w, c, b);
    }
    forall credit: (Context, Byte) | credit in t.records && t.phase.Shutting?
      ensures credit in t.promised
    {
      assert credit in s.records || InRuns(s, credit.0, credit.1);
      assert credit == (credit.0, credit.1);
    }
  }

  lemma {:induction false} CloseOnlyPromised(s: State, a: Action)
    requires Inv(s) && OnlyPromised(s) && Enabled(s, a) && (a.BeginClose? || a.FinishClose?)
    ensures OnlyPromised(Apply(s, a))
  {
    var t := Apply(s, a);
    forall w: nat, c: Context, b: Byte | StillToCome(t, w, c, b)
      ensures (c, b) in t.promised
    {
      assert InUse(s, w) && (s.slots[w].context, b) in s.stored;
    }
  }

  lemma {:induction false} ReferencesOnlyPromised(s: State, a: Action)
    requires OnlyPromised(s) && Enabled(s, a)
    requires a.Reserve? || a.ResolveToSink? || a.Copy? || a.Drop? || a.Rebind? || a.Resolve?
    ensures OnlyPromised(Apply(s, a))
  {
    var t := Apply(s, a);
    if !a.Resolve? {
      forall w: nat, c: Context, b: Byte | StillToCome(t, w, c, b)
        ensures (c, b) in t.promised
      {
        assert StillToCome(s, w, c, b);
      }
      forall c: Context, b: Byte | InRuns(t, c, b) && t.phase.Shutting?
        ensures (c, b) in t.promised
      {
        assert InRuns(s, c, b);
      }
    }
  }

  lemma {:induction false} StepOnlyPromised(s: State, a: Action)
    requires Inv(s) && OnlyPromised(s) && Enabled(s, a)
    ensures OnlyPromised(Apply(s, a))
  {
    match a
    case Store(holder, byte) => StoreOnlyPromised(s, holder, byte);
    case BeginHarvest(_, _) => HarvestOnlyPromised(s, a);
    case FindSet(_) => HarvestOnlyPromised(s, a);
    case FindClear(_) => HarvestOnlyPromised(s, a);
    case Clear => HarvestOnlyPromised(s, a);
    case FindNone => HarvestOnlyPromised(s, a);
    case Write => WriteOnlyPromised(s);
    case BeginClose => CloseOnlyPromised(s, a);
    case FinishClose => CloseOnlyPromised(s, a);
    case _ => ReferencesOnlyPromised(s, a);
  }

  // -- where the slots are ----------------------------------------------------------

  predicate BeingReclaimed(s: State, slot: nat) {
    s.harvest != Idle && s.harvest.purpose == Reclaim && s.harvest.slot == slot
  }

  /** Until the runtime is closed every slot serves a phase, waits for one or is being
      reclaimed. */
  ghost predicate NoSlotIsLost(s: State) {
    s.phase != Closed ==> forall slot | slot in s.slots :: slot in s.live || slot in s.free || BeingReclaimed(s, slot)
  }

  lemma {:induction false} StepLosesNoSlot(s: State, a: Action)
    requires Inv(s) && NoSlotIsLost(s) && Enabled(s, a)
    ensures NoSlotIsLost(Apply(s, a))
  {
    var t := Apply(s, a);
    forall slot | slot in t.slots && t.phase != Closed
      ensures slot in t.live || slot in t.free || BeingReclaimed(t, slot)
    {
      assert slot in s.slots ==> slot in s.live || slot in s.free || BeingReclaimed(s, slot);
    }
  }

  // -- the main result ---------------------------------------------------------------

  lemma {:induction false} RunsKeepInv(s: State, actions: seq<Action>)
    requires Inv(s) && OnlyPromised(s) && NoSlotIsLost(s) && IsRun(s, actions)
    ensures Inv(Final(s, actions)) && OnlyPromised(Final(s, actions)) && NoSlotIsLost(Final(s, actions))
    decreases |actions|
  {
    if actions != [] {
      StepInv(s, actions[0]);
      StepOnlyPromised(s, actions[0]);
      StepLosesNoSlot(s, actions[0]);
      RunsKeepInv(Apply(s, actions[0]), actions[1..]);
    }
  }

  /** Over every interleaving: no record credits a context with a byte no probe
      of that context stored; until the runtime is closed every stored byte is in
      a record of its context, in the runs of the harvest under way, or still set
      in a slot of its context that is live or being harvested; free slots are
      clear; and once it is closed, a byte is in a record of a context if and only
      if a probe of the context stored it before its slot's last harvest came past
      it: that harvest had not begun, or still searched at the byte or before it. */
  lemma {:induction false} EvidenceIsExact(size: nat, actions: seq<Action>, context: Context, b: Byte)
    requires IsRun(Initial(size), actions)
    ensures var s := Final(Initial(size), actions);
      && ((context, b) in s.records ==> (context, b) in s.stored)
      && (s.phase != Closed && (context, b) in s.stored ==> Somewhere(s, context, b))
      && (forall slot | slot in s.free :: slot in s.slots && s.slots[slot].bytes == {})
      && (s.phase == Closed ==> ((context, b) in s.records <==> (context, b) in s.promised))
  {
    InitialInv(size);
    RunsKeepInv(Initial(size), actions);
  }

  /** The action is a store of the byte for the context, before its slot's last
      harvest came past it. */
  predicate IsTimely(s: State, a: Action, context: Context, b: Byte)
    requires Enabled(s, a)
  {
    && a.Store? && a.byte == b && s.holders[a.holder].context == context
    && var target := Target(s, s.holders[a.holder].ref).value;
    && target.Slot? && target.slot in s.slots && (s.phase == Open || AheadOfLastHarvest(s, target.slot, b))
  }

  ghost predicate SomeIsTimely(s: State, actions: seq<Action>, context: Context, b: Byte)
    requires IsRun(s, actions)
    decreases |actions|
  {
    actions != [] && (IsTimely(s, actions[0], context, b) || SomeIsTimely(Apply(s, actions[0]), actions[1..], context, b))
  }

  /** What closing will record of what was stored so far. */
  function Due(s: State): set<(Context, Byte)> {
    if s.phase == Open then s.stored else s.promised
  }

  lemma {:induction false} TimelyIsDue(s: State, a: Action, context: Context, b: Byte)
    requires Enabled(s, a)
    ensures (context, b) in Due(Apply(s, a)) <==> (context, b) in Due(s) || IsTimely(s, a, context, b)
  {
  }

  lemma {:induction false} DueWasTimely(s: State, actions: seq<Action>, context: Context, b: Byte)
    requires IsRun(s, actions)
    ensures (context, b) in Due(Final(s, actions)) <==> (context, b) in Due(s) || SomeIsTimely(s, actions, context, b)
    decreases |actions|
  {
    if actions != [] {
      TimelyIsDue(s, actions[0], context, b);
      DueWasTimely(Apply(s, actions[0]), actions[1..], context, b);
    }
  }

  /** So of every run that closes the runtime: a byte is in a record of a context if
      and only if some store of it for the context was timely. */
  lemma {:induction false} OnlyTimelyStoresAreRecorded(size: nat, actions: seq<Action>, context: Context, b: Byte)
    requires IsRun(Initial(size), actions) && Final(Initial(size), actions).phase == Closed
    ensures (context, b) in Final(Initial(size), actions).records <==> SomeIsTimely(Initial(size), actions, context, b)
  {
    EvidenceIsExact(size, actions, context, b);
    DueWasTimely(Initial(size), actions, context, b);
  }

  /** A store always goes to a slot of the phase the probe belongs to, however
      often slots were freed and handed on in between. */
  lemma {:induction false} StoresGoHome(size: nat, actions: seq<Action>, holder: nat, b: Byte)
    requires IsRun(Initial(size), actions)
    requires Enabled(Final(Initial(size), actions), Store(holder, b))
    ensures var s := Final(Initial(size), actions);
      var target := Target(s, s.holders[holder].ref).value;
      target.Slot? ==>
        && target.slot in s.slots && target.slot !in s.free
        && s.slots[target.slot].context == s.holders[holder].context
  {
    InitialInv(size);
    RunsKeepInv(Initial(size), actions);
    var s := Final(Initial(size), actions);
    assert LeadsHome(s, s.holders[holder]);
  }

  /** In every run that has not closed the runtime a slot is in exactly one of three
      places: live, free, or being reclaimed; and the record of a reclaimed slot
      leaves it free and clear. */
  lemma {:induction false} SlotsAreAccountedFor(size: nat, actions: seq<Action>, slot: nat)
    requires IsRun(Initial(size), actions)
    ensures var s := Final(Initial(size), actions);
      s.phase != Closed && slot in s.slots ==>
        && (slot in s.live || slot in s.free || BeingReclaimed(s, slot))
        && !(slot in s.live && slot in s.free) && !(BeingReclaimed(s, slot) && (slot in s.live || slot in s.free))
    ensures var s := Final(Initial(size), actions);
      BeingReclaimed(s, slot) && Enabled(s, Write) ==>
        var t := Apply(s, Write);
        slot in t.free && slot in t.slots && t.slots[slot].bytes == {} && !BeingReclaimed(t, slot)
  {
    InitialInv(size);
    RunsKeepInv(Initial(size), actions);
    var s := Final(Initial(size), actions);
    if BeingReclaimed(s, slot) && Enabled(s, Write) {
      StepInv(s, Write);
      StepLosesNoSlot(s, Write);
    }
  }

  /** Once resolved a reference leads to the same slot or sink ever after, from
      whichever copied context. */
  lemma {:induction false} ResolutionIsFinal(s: State, actions: seq<Action>, ref: Ref)
    requires IsRun(s, actions) && Target(s, ref).Some?
    ensures Target(Final(s, actions), ref) == Target(s, ref)
    decreases |actions|
  {
    if actions != [] {
      var a := actions[0];
      assert Target(Apply(s, a), ref) == Target(s, ref);
      ResolutionIsFinal(Apply(s, a), actions[1..], ref);
    }
  }

  /** One context's slot, live while the runtime closes. */
  function OneSlot(bytes: set<Byte>, harvest: Harvest, harvested: set<nat>, stored: set<(Context, Byte)>): State {
    State(HEADER + 1, map[0 := SlotState(0, bytes)], map[0 := Reservation(0, Some(Slot(0)))],
          map[0 := Holder(Lazy(0), 0)], {0}, {}, harvest, Shutting(harvested), {}, stored, {})
  }

  lemma {:induction false} OneStep(s: State, a: Action, t: State, rest: seq<Action>)
    requires Enabled(s, a) && Apply(s, a) == t && IsRun(t, rest)
    ensures IsRun(s, [a] + rest) && Final(s, [a] + rest) == Final(t, rest)
  {
    assert ([a] + rest)[1..] == rest;
  }

  lemma {:induction false} OneSlotOpens(rest: seq<Action>)
    requires IsRun(OneSlot({}, Idle, {}, {}), rest)
    ensures var actions := [Reserve(0, 0, 0)] + ([Resolve(0, 0)] + ([BeginClose] + rest));
      IsRun(Initial(HEADER + 1), actions) && Final(Initial(HEADER + 1), actions) == Final(OneSlot({}, Idle, {}, {}), rest)
  {
    var s0 := Initial(HEADER + 1);
    var s1 := Apply(s0, Reserve(0, 0, 0));
    var s2 := Apply(s1, Resolve(0, 0));
    OneStep(s2, BeginClose, OneSlot({}, Idle, {}, {}), rest);
    OneStep(s1, Resolve(0, 0), s2, [BeginClose] + rest);
    OneStep(s0, Reserve(0, 0, 0), s1, [Resolve(0, 0)] + ([BeginClose] + rest));
  }

  lemma {:induction false} OneSlotIsSearched(rest: seq<Action>)
    requires IsRun(OneSlot({}, Exhausted(0, HEADER + 1, {}, Closing), {}, {}), rest)
    ensures var actions := [BeginHarvest(0, Closing)] + ([FindNone] + rest);
      IsRun(OneSlot({}, Idle, {}, {}), actions)
      && Final(OneSlot({}, Idle, {}, {}), actions) == Final(OneSlot({}, Exhausted(0, HEADER + 1, {}, Closing), {}, {}), rest)
  {
    var scanning := OneSlot({}, Scanning(0, HEADER, {}, Closing), {}, {});
    OneStep(scanning, FindNone, OneSlot({}, Exhausted(0, HEADER + 1, {}, Closing), {}, {}), rest);
    OneStep(OneSlot({}, Idle, {}, {}), BeginHarvest(0, Closing), scanning, [FindNone] + rest);
  }

  lemma {:induction false} OneSlotIsWritten(stored: set<(Context, Byte)>)
    ensures var actions := [Write] + ([FinishClose] + []);
      var s := OneSlot({HEADER}, Exhausted(0, HEADER + 1, {}, Closing), {}, stored);
      && IsRun(s, actions)
      && var after := Final(s, actions); after.phase == Closed && after.records == {} && after.stored == stored
  {
    var s := OneSlot({HEADER}, Exhausted(0, HEADER + 1, {}, Closing), {}, stored);
    var written := Apply(s, Write);
    assert written.records == {} && written.phase.harvested == {0};
    var closed := Apply(written, FinishClose);
    assert IsRun(closed, []);
    OneStep(written, FinishClose, closed, []);
    OneStep(s, Write, written, [FinishClose] + []);
  }

  lemma {:induction false} OneSlotStores()
    ensures var s := OneSlot({}, Exhausted(0, HEADER + 1, {}, Closing), {}, {});
      && Enabled(s, Store(0, HEADER))
      && Apply(s, Store(0, HEADER)) == OneSlot({HEADER}, Exhausted(0, HEADER + 1, {}, Closing), {}, {(0, HEADER)})
  {
    var s := OneSlot({}, Exhausted(0, HEADER + 1, {}, Closing), {}, {});
    var t := Apply(s, Store(0, HEADER));
    assert {} + {HEADER} == {HEADER};
    assert t.slots == OneSlot({HEADER}, Idle, {}, {}).slots;
    assert t.stored == {(0, HEADER)};
    assert t.promised == {};
  }

  /** A run that loses a byte: it was stored once its slot's last harvest had come
      past it, if only between the last search and the record. */
  lemma {:induction false} LateStoreIsLost() returns (actions: seq<Action>)
    ensures IsRun(Initial(HEADER + 1), actions)
    ensures var s := Final(Initial(HEADER + 1), actions);
      s.phase == Closed && (0, HEADER) in s.stored && (0, HEADER) !in s.records
  {
    OneSlotIsWritten({(0, HEADER)});
    var last := [Write] + ([FinishClose] + []);
    OneSlotStores();
    OneStep(OneSlot({}, Exhausted(0, HEADER + 1, {}, Closing), {}, {}), Store(0, HEADER),
      OneSlot({HEADER}, Exhausted(0, HEADER + 1, {}, Closing), {}, {(0, HEADER)}), last);
    var late := [Store(0, HEADER)] + last;
    OneSlotIsSearched(late);
    var closing := [BeginHarvest(0, Closing)] + ([FindNone] + late);
    OneSlotOpens(closing);
    actions := [Reserve(0, 0, 0)] + ([Resolve(0, 0)] + ([BeginClose] + closing));
  }
}
