/** The phone state machine wired to the log store
    (phone_states.go:102-272): the state accessor and mutator that keep
    each phone's current state in its log, `Fire`, and the trigger
    methods. The pure functions give what one call does to one phone's
    history; the class methods are proved against them. */
module PhoneStates {
  import opened PhoneTypes
  import opened LogStore
  import opened PhoneMachine

  datatype Error =
    | MissingPhoneId                                   // no phone ID in the call's context
    | InvalidTransition(state: State, trigger: Trigger) // no rule for the trigger in this state

  datatype Result<T> = Ok(value: T) | Err(error: Error)

  /** The outcome of firing a trigger: the actions it ran, or the error. */
  datatype FireResult = Fired(actions: seq<Action>) | Failed(error: Error)

  /** The state a phone is in before its first trigger. */
  const InitialState: State := OffHook

  /** The history of phone `p` once the accessor has looked at it: a phone
      without records gets the initial record. Looking adds nothing to a
      phone that has records and never changes the state reported. */
  function Accessed(h: seq<Log>, p: PhoneId): (r: seq<Log>)
    ensures r != [] && (h != [] ==> r == h)
    ensures h == [] ==> r == [InitialLog(p, InitialState)]
    ensures CurrentState(r) == CurrentState(h)
  {
    if h == [] then [InitialLog(p, InitialState)] else h
  }

  /** The current state: the To of the last record, or the initial state.
      It is always the initial state or a state the log records. */
  function CurrentState(h: seq<Log>): (r: State)
    ensures h != [] ==> r == h[|h| - 1].to
    ensures r == InitialState || exists i | 0 <= i < |h| :: h[i].to == r
  {
    if h == [] then InitialState else h[|h| - 1].to
  }

  /** The history after the mutator is asked to move phone `p` to
      `newState`: the phone ends in `newState`, the accessed history is kept
      as a prefix, and at most one record is added, none when the phone is
      already there. */
  function Mutated(h: seq<Log>, p: PhoneId, newState: State): (r: seq<Log>)
    ensures CurrentState(r) == newState
    ensures Accessed(h, p) <= r && |r| <= |Accessed(h, p)| + 1
    ensures r == Accessed(h, p) <==> newState == CurrentState(h)
  {
    var h1 := Accessed(h, p);
    var current := CurrentState(h1);
    if newState == current then h1 else Appended(h1, p, current, newState)
  }

  /** What firing `t` on phone `p` does to its history `h`. The fire fails
      exactly when the lookup finds no rule, and then only the accessor's
      record can have been written; otherwise at most one record is added. */
  function FireOn(h: seq<Log>, p: PhoneId, t: Trigger): (r: (FireResult, seq<Log>))
    ensures r.0.Failed? <==> Lookup(CurrentState(h), t).None?
    ensures r.0.Failed? ==> r == (Failed(InvalidTransition(CurrentState(h), t)), Accessed(h, p))
    ensures Accessed(h, p) <= r.1 && |r.1| <= |Accessed(h, p)| + 1
    ensures Lookup(CurrentState(h), t).Some? && Lookup(CurrentState(h), t).value.PermitRule? ==>
      r.0.Fired? && CurrentState(r.1) == Lookup(CurrentState(h), t).value.destination
    ensures Lookup(CurrentState(h), t).Some? && Lookup(CurrentState(h), t).value.InternalRule? ==>
      r == (Fired([Lookup(CurrentState(h), t).value.action]), Accessed(h, p))
  {
    var h1 := Accessed(h, p);
    var s := CurrentState(h1);
    match Lookup(s, t)
    case None => (Failed(InvalidTransition(s, t)), h1)
    case Some(InternalRule(a)) => (Fired([a]), h1)
    case Some(PermitRule(d)) => (Fired(TransitionActions(s, d, t)), Mutated(h1, p, d))
  }

  /** Firing `t` on phone `p` of the whole store; other phones keep their
      records. */
  function FireAt(m: Logs, p: PhoneId, t: Trigger): (r: (FireResult, Logs))
    ensures p in r.1
    ensures forall q | q != p :: History(r.1, q) == History(m, q)
  {
    var (res, h) := FireOn(History(m, p), p, t);
    (res, m[p := h])
  }

  /** A history the machine can produce for phone `p`: well formed, starting
      with the initial record, each record leaving the state the previous
      one entered and entering a different one. */
  predicate MachineHistory(p: PhoneId, h: seq<Log>) {
    && WellFormed(p, h)
    && h[0] == InitialLog(p, InitialState)
    && forall i | 0 < i < |h| :: h[i].from == Some(h[i - 1].to) && h[i].to != h[i - 1].to
  }

  predicate MachineInvariant(m: Logs) {
    forall p | p in m :: MachineHistory(p, m[p])
  }

  /** The accessor reports the last To (the initial state for a fresh
      phone) and only ever adds the initial record. */
  lemma AccessedKeepsHistory(p: PhoneId, h: seq<Log>)
    requires h == [] || MachineHistory(p, h)
    ensures MachineHistory(p, Accessed(h, p))
    ensures CurrentState(Accessed(h, p)) == CurrentState(h)
    ensures h != [] ==> Accessed(h, p) == h
    ensures h == [] ==> Accessed(h, p) == [InitialLog(p, InitialState)]
  {
  }

  /** The mutator writes nothing exactly when asked for the current state;
      otherwise it appends the one record (current -> newState). Either way
      the phone ends in `newState` with a machine history. */
  lemma {:induction false} MutatedKeepsHistory(p: PhoneId, h: seq<Log>, newState: State)
    requires h == [] || MachineHistory(p, h)
    ensures MachineHistory(p, Mutated(h, p, newState))
    ensures CurrentState(Mutated(h, p, newState)) == newState
    ensures newState == CurrentState(h) ==> Mutated(h, p, newState) == Accessed(h, p)
    ensures newState != CurrentState(h) ==>
      Mutated(h, p, newState) == Accessed(h, p) + [TransitionLog(|Accessed(h, p)| + 1, p, CurrentState(h), newState)]
  {
    var h1 := Accessed(h, p);
    AccessedKeepsHistory(p, h);
    if newState != CurrentState(h1) {
      AppendedWellFormed(p, h1, CurrentState(h1), newState);
      var h2 := Appended(h1, p, CurrentState(h1), newState);
      forall i | 0 < i < |h2| ensures h2[i].from == Some(h2[i - 1].to) && h2[i].to != h2[i - 1].to {
        if i < |h1| {
          assert h2[i] == h1[i] && h2[i - 1] == h1[i - 1];
        }
      }
    }
  }

  /** Asking the mutator twice for the same state writes at most once. */
  lemma MutatorIdempotent(p: PhoneId, h: seq<Log>, newState: State)
    requires h == [] || MachineHistory(p, h)
    ensures Mutated(Mutated(h, p, newState), p, newState) == Mutated(h, p, newState)
  {
    MutatedKeepsHistory(p, h, newState);
    MutatedKeepsHistory(p, Mutated(h, p, newState), newState);
  }

  /** Firing keeps a machine history, never rewrites a record and adds at
      most one transition record. */
  lemma FireKeepsHistory(p: PhoneId, h: seq<Log>, t: Trigger)
    requires h == [] || MachineHistory(p, h)
    ensures MachineHistory(p, FireOn(h, p, t).1)
    ensures Accessed(h, p) <= FireOn(h, p, t).1
    ensures |FireOn(h, p, t).1| <= |Accessed(h, p)| + 1
  {
    AccessedKeepsHistory(p, h);
    var h1 := Accessed(h, p);
    match Lookup(CurrentState(h1), t)
    case None =>
    case Some(InternalRule(_)) =>
    case Some(PermitRule(d)) =>
      MutatedKeepsHistory(p, h1, d);
  }

  /** Every phone of a store the machine writes keeps a machine history. */
  lemma FireAtKeepsInvariant(m: Logs, p: PhoneId, t: Trigger)
    requires MachineInvariant(m)
    ensures MachineInvariant(FireAt(m, p, t).1)
  {
    FireKeepsHistory(p, History(m, p), t);
  }

  /** A fire fails exactly when no rule of the current state or its
      ancestors matches; a failed fire writes no transition record. */
  lemma FailedFireWritesNothing(p: PhoneId, h: seq<Log>, t: Trigger)
    ensures FireOn(h, p, t).0.Failed? ==>
      forall i | 0 <= i < |Ancestors(CurrentState(h))| :: Configured(Ancestors(CurrentState(h))[i], t).None?
    ensures (forall i | 0 <= i < |Ancestors(CurrentState(h))| :: Configured(Ancestors(CurrentState(h))[i], t).None?) ==>
      FireOn(h, p, t).0.Failed?
  {
    LookupFirstMatch(CurrentState(h), t);
  }

  /** Mute, unmute and volume changes are internal to Connected and, through
      the substate relation, to OnHold: they run their one action and leave
      the history as the accessor left it. */
  lemma InternalTriggersKeepState(p: PhoneId, h: seq<Log>, t: Trigger)
    requires CurrentState(h) == Connected || CurrentState(h) == OnHold
    requires t.MuteMicrophone? || t.UnmuteMicrophone? || t.SetVolume?
    ensures FireOn(h, p, t).1 == Accessed(h, p)
    ensures FireOn(h, p, t).0 ==
      Fired([match t case MuteMicrophone => Muted case UnmuteMicrophone => Unmuted case _ => VolumeSet(t.volume)])
  {
  }

  /** PlacedOnHold, inherited from Connected, re-enters OnHold: it succeeds
      and, the state being unchanged, the mutator writes nothing. */
  lemma HoldWhileOnHoldWritesNothing(p: PhoneId, h: seq<Log>)
    requires h == [] || MachineHistory(p, h)
    requires CurrentState(h) == OnHold
    ensures FireOn(h, p, PlacedOnHold) == (Fired([]), h)
  {
    AccessedKeepsHistory(p, h);
    MutatedKeepsHistory(p, h, OnHold);
    assert Lookup(OnHold, PlacedOnHold) == Some(PermitRule(OnHold));
    assert TransitionActions(OnHold, OnHold, PlacedOnHold) == [];
    assert Mutated(h, p, OnHold) == h;
  }

  /** A destroyed phone accepts no trigger and its history stays as it is. */
  lemma DestroyedIsTerminal(p: PhoneId, h: seq<Log>, t: Trigger)
    requires CurrentState(h) == PhoneDestroyed
    ensures FireOn(h, p, t) == (Failed(InvalidTransition(PhoneDestroyed, t)), h)
  {
  }

  /** FireAt when the lookup on the accessed history finds no rule. */
  lemma FireAtFails(m: Logs, p: PhoneId, t: Trigger, h1: seq<Log>)
    requires h1 == Accessed(History(m, p), p) && Lookup(CurrentState(h1), t).None?
    ensures FireAt(m, p, t) == (Failed(InvalidTransition(CurrentState(h1), t)), m[p := h1])
  {
  }

  /** FireAt when the lookup finds an internal transition. */
  lemma FireAtInternal(m: Logs, p: PhoneId, t: Trigger, h1: seq<Log>, a: Action)
    requires h1 == Accessed(History(m, p), p) && Lookup(CurrentState(h1), t) == Some(InternalRule(a))
    ensures FireAt(m, p, t) == (Fired([a]), m[p := h1])
  {
  }

  /** FireAt when the lookup finds a Permit to `d`: the store after the
      accessor (`accessed`) and then the mutator (`moved`). */
  lemma FireAtPermit(m: Logs, accessed: Logs, moved: Logs, p: PhoneId, t: Trigger, h1: seq<Log>, d: State)
    requires h1 == Accessed(History(m, p), p) && accessed == m[p := h1]
    requires moved == accessed[p := Mutated(History(accessed, p), p, d)]
    requires Lookup(CurrentState(h1), t) == Some(PermitRule(d))
    ensures FireAt(m, p, t) == (Fired(TransitionActions(CurrentState(h1), d, t)), moved)
  {
    assert History(accessed, p) == h1;
    assert moved == m[p := Mutated(h1, p, d)];
    assert FireOn(History(m, p), p, t) == (Fired(TransitionActions(CurrentState(h1), d, t)), Mutated(h1, p, d));
  }

  /** The current state of phone `phoneId`, which is given by the call's
      context and may be missing. */
  method StateAccessor(ps: PhoneStates, phoneId: Option<PhoneId>) returns (r: Result<State>)
    requires ps.Valid()
    modifies ps.phoneLogs
    ensures ps.Valid()
    ensures phoneId.None? ==> r == Err(MissingPhoneId) && ps.phoneLogs.logs == old(ps.phoneLogs.logs)
    ensures phoneId.Some? ==>
      var p := phoneId.value;
      var h := History(old(ps.phoneLogs.logs), p);
      && r == Ok(CurrentState(h))
      && ps.phoneLogs.logs == old(ps.phoneLogs.logs)[p := Accessed(h, p)]
  {
    if phoneId.None? {
      return Err(MissingPhoneId);
    }
    var p := phoneId.value;
    ghost var h := History(ps.phoneLogs.logs, p);
    AccessedKeepsHistory(p, h);
    var last := ps.phoneLogs.GetLastOrInsert(p, InitialState);
    return Ok(last.to);
  }

  /** Moves phone `phoneId` to `newState`: nothing is written when it is
      already there, else the record (current -> newState) is appended. */
  method StateMutator(ps: PhoneStates, phoneId: Option<PhoneId>, newState: State) returns (err: Option<Error>)
    requires ps.Valid()
    modifies ps.phoneLogs
    ensures ps.Valid()
    ensures phoneId.None? ==> err == Some(MissingPhoneId) && ps.phoneLogs.logs == old(ps.phoneLogs.logs)
    ensures phoneId.Some? ==>
      var p := phoneId.value;
      && err == None
      && ps.phoneLogs.logs == old(ps.phoneLogs.logs)[p := Mutated(History(old(ps.phoneLogs.logs), p), p, newState)]
  {
    var cs := StateAccessor(ps, phoneId);
    if cs.Err? {
      return Some(cs.error);
    }
    var currentState := cs.value;
    ghost var h := History(old(ps.phoneLogs.logs), phoneId.value);
    MutatedKeepsHistory(phoneId.value, h, newState);
    if newState == currentState {
      return None;
    }
    AccessedKeepsHistory(phoneId.value, h);
    ps.phoneLogs.InsertPhoneLog(phoneId.value, currentState, newState);
    return None;
  }

  /** The machine together with the store that holds every phone's state. */
  class PhoneStates {
    const phoneLogs: LogStore

    ghost predicate Valid()
      reads this, phoneLogs
    {
      phoneLogs.Valid() && MachineInvariant(phoneLogs.logs)
    }

    constructor ()
      ensures Valid() && fresh(phoneLogs) && phoneLogs.logs == map[]
    {
      phoneLogs := new LogStore();
    }

    /** The records of `phone`, empty before its first trigger. */
    method GetPhoneLogs(phone: Phone) returns (r: seq<Log>)
      ensures phone.id in phoneLogs.logs ==> r == phoneLogs.logs[phone.id]
      ensures phone.id !in phoneLogs.logs ==> r == []
    {
      r := phoneLogs.GetPhoneLogs(phone.id);
    }

    /** Fires `t` for the phone named by the context: reads its state, picks
        the rule, runs an internal action or moves the phone. */
    method Fire(phoneId: Option<PhoneId>, t: Trigger) returns (r: FireResult)
      requires Valid()
      modifies phoneLogs
      ensures Valid()
      ensures phoneId.None? ==> r == Failed(MissingPhoneId) && phoneLogs.logs == old(phoneLogs.logs)
      ensures phoneId.Some? ==> (r, phoneLogs.logs) == FireAt(old(phoneLogs.logs), phoneId.value, t)
    {
      var current := StateAccessor(this, phoneId);
      if current.Err? {
        return Failed(current.error);
      }
      var state := current.value;
      ghost var p := phoneId.value;
      ghost var h1 := Accessed(History(old(phoneLogs.logs), p), p);
      ghost var accessed := phoneLogs.logs;
      match Lookup(state, t) {
        case None =>
          r := Failed(InvalidTransition(state, t));
          FireAtFails(old(phoneLogs.logs), p, t, h1);
        case Some(InternalRule(action)) =>
          r := Fired([action]);
          FireAtInternal(old(phoneLogs.logs), p, t, h1, action);
        case Some(PermitRule(destination)) =>
          var _ := StateMutator(this, phoneId, destination);
          r := Fired(TransitionActions(state, destination, t));
          FireAtPermit(old(phoneLogs.logs), accessed, phoneLogs.logs, p, t, h1, destination);
      }
    }

    method TriggerCallDialed(phone: Phone, callee: string) returns (r: FireResult)
      requires Valid()
      modifies phoneLogs
      ensures Valid()
      ensures (r, phoneLogs.logs) == FireAt(old(phoneLogs.logs), phone.id, CallDialed(callee))
    {
      r := Fire(Some(phone.id), CallDialed(callee));
    }

    method TriggerCallConnected(phone: Phone) returns (r: FireResult)
      requires Valid()
      modifies phoneLogs
      ensures Valid()
      ensures (r, phoneLogs.logs) == FireAt(old(phoneLogs.logs), phone.id, CallConnected)
    {
      r := Fire(Some(phone.id), CallConnected);
    }

    method TriggerSetVolume(phone: Phone, volume: int) returns (r: FireResult)
      requires Valid()
      modifies phoneLogs
      ensures Valid()
      ensures (r, phoneLogs.logs) == FireAt(old(phoneLogs.logs), phone.id, SetVolume(volume))
    {
      r := Fire(Some(phone.id), SetVolume(volume));
    }

    method TriggerPlaceOnHold(phone: Phone) returns (r: FireResult)
      requires Valid()
      modifies phoneLogs
      ensures Valid()
      ensures (r, phoneLogs.logs) == FireAt(old(phoneLogs.logs), phone.id, PlacedOnHold)
    {
      r := Fire(Some(phone.id), PlacedOnHold);
    }

    method TriggerMuteMicrophone(phone: Phone) returns (r: FireResult)
      requires Valid()
      modifies phoneLogs
      ensures Valid()
      ensures (r, phoneLogs.logs) == FireAt(old(phoneLogs.logs), phone.id, MuteMicrophone)
    {
      r := Fire(Some(phone.id), MuteMicrophone);
    }

    method TriggerUnmuteMicrophone(phone: Phone) returns (r: FireResult)
      requires Valid()
      modifies phoneLogs
      ensures Valid()
      ensures (r, phoneLogs.logs) == FireAt(old(phoneLogs.logs), phone.id, UnmuteMicrophone)
    {
      r := Fire(Some(phone.id), UnmuteMicrophone);
    }

    method TriggerTakenOffHold(phone: Phone) returns (r: FireResult)
      requires Valid()
      modifies phoneLogs
      ensures Valid()
      ensures (r, phoneLogs.logs) == FireAt(old(phoneLogs.logs), phone.id, TakenOffHold)
    {
      r := Fire(Some(phone.id), TakenOffHold);
    }

    method TriggerPhoneHurledAgainstWall(phone: Phone) returns (r: FireResult)
      requires Valid()
      modifies phoneLogs
      ensures Valid()
      ensures (r, phoneLogs.logs) == FireAt(old(phoneLogs.logs), phone.id, PhoneHurledAgainstWall)
    {
      r := Fire(Some(phone.id), PhoneHurledAgainstWall);
    }
  }
}
