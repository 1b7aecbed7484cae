/** The phone state machine as configured by NewPhoneStates
    (phone_states.go:124-167): the rules declared on each state, the
    substate hierarchy, the lookup that walks from a state to its
    ancestors, and the entry and exit actions as abstract labels. */
module PhoneMachine {
  import opened PhoneTypes

  /** Labels for the side effects of the configured actions. */
  datatype Action =
    | Dialed(callee: string)
    | CallTimerStarted
    | CallTimerStopped
    | Muted
    | Unmuted
    | VolumeSet(volume: int)
    | Wrecked

  /** An external transition to `destination` (Permit) or a same-state
      transition running `action` (InternalTransition). */
  datatype Rule = PermitRule(destination: State) | InternalRule(action: Action)

  /** The rules declared directly on a state. Only Connected declares
      internal transitions, no Permit leads back to its own state, and
      PhoneDestroyed declares nothing. */
  function Configured(s: State, t: Trigger): (r: Option<Rule>)
    ensures r.Some? ==> s != PhoneDestroyed
    ensures r.Some? && r.value.InternalRule? ==> s == Connected
    ensures r.Some? && r.value.PermitRule? ==> r.value.destination != s
  {
    match (s, t)
    case (OffHook, CallDialed(_)) => Some(PermitRule(Ringing))
    case (Ringing, CallConnected) => Some(PermitRule(Connected))
    case (Connected, MuteMicrophone) => Some(InternalRule(Muted))
    case (Connected, UnmuteMicrophone) => Some(InternalRule(Unmuted))
    case (Connected, SetVolume(v)) => Some(InternalRule(VolumeSet(v)))
    case (Connected, LeftMessage) => Some(PermitRule(OffHook))
    case (Connected, PlacedOnHold) => Some(PermitRule(OnHold))
    case (OnHold, TakenOffHold) => Some(PermitRule(Connected))
    case (OnHold, PhoneHurledAgainstWall) => Some(PermitRule(PhoneDestroyed))
    case _ => None
  }

  /** The six Permit declarations, by trigger name. */
  const DeclaredPermits: set<(State, string, State)> := {
    (OffHook, "CallDialed", Ringing),
    (Ringing, "CallConnected", Connected),
    (Connected, "LeftMessage", OffHook),
    (Connected, "PlacedOnHold", OnHold),
    (OnHold, "TakenOffHold", Connected),
    (OnHold, "PhoneHurledAgainstWall", PhoneDestroyed)
  }

  /** The three InternalTransition declarations, by trigger name. */
  const DeclaredInternals: set<(State, string)> := {
    (Connected, "MuteMicrophone"),
    (Connected, "UnmuteMicrophone"),
    (Connected, "SetVolume")
  }

  /** The table holds exactly the declared rules, and nothing is declared
      on PhoneDestroyed. */
  lemma ConfiguredMatchesDeclaration(s: State, t: Trigger, d: State)
    ensures Configured(s, t) == Some(PermitRule(d)) <==> (s, TriggerName(t), d) in DeclaredPermits
    ensures (Configured(s, t).Some? && Configured(s, t).value.InternalRule?)
            <==> (s, TriggerName(t)) in DeclaredInternals
    ensures s == PhoneDestroyed ==> Configured(s, t) == None
  {
  }

  /** The depth of a state in the substate forest. */
  function Depth(s: State): nat {
    if s == OnHold then 1 else 0
  }

  /** OnHold is a substate of Connected; every other state is a root.
      Each parent is strictly shallower, so the hierarchy has no cycle. */
  function Parent(s: State): (r: Option<State>)
    ensures r.Some? <==> s == OnHold
    ensures r.Some? ==> r.value == Connected && Depth(r.value) < Depth(s)
  {
    if s == OnHold then Some(Connected) else None
  }

  /** `s` followed by its ancestors, innermost first. */
  function Ancestors(s: State): (r: seq<State>)
    decreases Depth(s)
    ensures |r| > 0 && r[0] == s
  {
    match Parent(s)
    case None => [s]
    case Some(p) => [s] + Ancestors(p)
  }

  /** The rule a trigger selects: the state's own rule, else its parent's.
      A rule declared on the state itself always wins, and a destroyed
      phone finds none. */
  function Lookup(s: State, t: Trigger): (r: Option<Rule>)
    decreases Depth(s)
    ensures Configured(s, t).Some? ==> r == Configured(s, t)
    ensures r.Some? ==> s != PhoneDestroyed
  {
    match Configured(s, t)
    case Some(rule) => Some(rule)
    case None =>
      match Parent(s)
      case None => None
      case Some(p) => Lookup(p, t)
  }

  /** Lookup finds a rule exactly when some ancestor declares one, and then
      it is the rule of the innermost such ancestor. */
  lemma {:induction false} LookupFirstMatch(s: State, t: Trigger)
    decreases Depth(s)
    ensures (forall i | 0 <= i < |Ancestors(s)| :: Configured(Ancestors(s)[i], t).None?) ==> Lookup(s, t).None?
    ensures Lookup(s, t).None? ==> forall i | 0 <= i < |Ancestors(s)| :: Configured(Ancestors(s)[i], t).None?
    ensures Lookup(s, t).Some? ==>
      exists i | 0 <= i < |Ancestors(s)| ::
        Lookup(s, t) == Configured(Ancestors(s)[i], t)
        && forall j | 0 <= j < i :: Configured(Ancestors(s)[j], t).None?
  {
    var a := Ancestors(s);
    match Parent(s)
    case None =>
      assert a == [s];
      assert Lookup(s, t) == Configured(a[0], t);
    case Some(p) =>
      LookupFirstMatch(p, t);
      var b := Ancestors(p);
      assert a == [s] + b;
      if Configured(s, t).Some? {
        assert Lookup(s, t) == Configured(a[0], t);
      } else {
        assert Lookup(s, t) == Lookup(p, t);
        assert forall i | 0 <= i < |b| :: b[i] == a[i + 1];
        assert forall i | 0 < i < |a| :: a[i] == b[i - 1];
      }
  }

  /** A trigger OnHold does not declare behaves as it does in Connected. */
  lemma OnHoldInheritsConnected(t: Trigger)
    requires Configured(OnHold, t) == None
    ensures Lookup(OnHold, t) == Lookup(Connected, t)
  {
  }

  /** `Includes(s, d)`: `d` is `s` or one of its substates. */
  predicate Includes(s: State, d: State) {
    s in Ancestors(d)
  }

  /** Entry actions: OnEntryFrom(CallDialed) on Ringing, OnEntry on
      Connected and on PhoneDestroyed. */
  function EntryActions(s: State, t: Trigger): (r: seq<Action>)
    ensures |r| <= 1
    ensures r != [] ==> s in {Ringing, Connected, PhoneDestroyed}
    ensures s == Ringing && r != [] ==> t.CallDialed? && r == [Dialed(t.callee)]
  {
    match (s, t)
    case (Ringing, CallDialed(callee)) => [Dialed(callee)]
    case (Connected, _) => [CallTimerStarted]
    case (PhoneDestroyed, _) => [Wrecked]
    case _ => []
  }

  /** Exit actions: OnExit on Connected. */
  function ExitActions(s: State): (r: seq<Action>)
    ensures r != [] ==> s == Connected && r == [CallTimerStopped]
  {
    if s == Connected then [CallTimerStopped] else []
  }

  /** Exit actions run when leaving `s` for `d`, innermost first: every
      state on the way up that does not contain `d`. */
  function ExitChain(s: State, d: State): seq<Action>
    decreases Depth(s)
  {
    if Includes(s, d) then []
    else
      ExitActions(s) +
      match Parent(s)
      case None => []
      case Some(p) => ExitChain(p, d)
  }

  /** Entry actions run when entering `d` from `src`, outermost first:
      every state on the way down that does not contain `src`. */
  function EnterChain(d: State, src: State, t: Trigger): seq<Action>
    decreases Depth(d)
  {
    if Includes(d, src) then []
    else
      (match Parent(d)
       case None => []
       case Some(p) => EnterChain(p, src, t))
      + EntryActions(d, t)
  }

  /** The actions an external transition from `s` to `d` runs. The only
      configured move from a state back to itself is PlacedOnHold in OnHold,
      inherited from Connected; OnHold declares no entry or exit action, so
      that move runs none. */
  function TransitionActions(s: State, d: State, t: Trigger): (r: seq<Action>)
    ensures s != d ==> (CallTimerStopped in r <==> Includes(Connected, s) && !Includes(Connected, d))
    ensures s != d ==> (CallTimerStarted in r <==> Includes(Connected, d) && !Includes(Connected, s))
  {
    if s == d then ExitActions(s) + EntryActions(s, t)
    else ExitChain(s, d) + EnterChain(d, s, t)
  }

  /** The call timer follows the call: holding and resuming a call runs no
      action, hanging up or wrecking the phone from hold stops the timer. */
  lemma CallTimerActions(callee: string)
    ensures TransitionActions(OffHook, Ringing, CallDialed(callee)) == [Dialed(callee)]
    ensures TransitionActions(Ringing, Connected, CallConnected) == [CallTimerStarted]
    ensures TransitionActions(Connected, OnHold, PlacedOnHold) == []
    ensures TransitionActions(OnHold, Connected, TakenOffHold) == []
    ensures TransitionActions(OnHold, PhoneDestroyed, PhoneHurledAgainstWall) == [CallTimerStopped, Wrecked]
    ensures TransitionActions(OnHold, OffHook, LeftMessage) == [CallTimerStopped]
    ensures TransitionActions(Connected, OffHook, LeftMessage) == [CallTimerStopped]
  {
  }
}
