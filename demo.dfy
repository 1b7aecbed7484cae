/** The demonstration run of main.go:21-80: three fresh phones go through
    ten rounds of triggers, each round firing one trigger on phone 1, 2
    and 3 in turn, and every call must succeed. */
module Demo {
  import opened PhoneTypes
  import opened LogStore
  import opened PhoneMachine
  import opened PhoneStates

  /** The trigger of each round for the phone that dials `callee`. */
  function DemoTriggers(callee: string): seq<Trigger> {
    [CallDialed(callee), CallConnected, SetVolume(2), PlacedOnHold, MuteMicrophone,
     UnmuteMicrophone, TakenOffHold, SetVolume(11), PlacedOnHold, PhoneHurledAgainstWall]
  }

  /** One call of a Trigger method as the demonstration sees it: the phone's
      new history, or None when the call returns an error. */
  function FireStep(h: seq<Log>, p: PhoneId, t: Trigger): Option<seq<Log>> {
    var (r, h1) := FireOn(h, p, t);
    if r.Failed? then None else Some(h1)
  }

  /** FireStep is what a call does to the store: it fails exactly when
      FireAt fails, and otherwise FireAt replaces the phone's history by
      FireStep's. */
  lemma FireStepIsFireAt(m: Logs, p: PhoneId, t: Trigger)
    ensures FireStep(History(m, p), p, t).None? <==> FireAt(m, p, t).0.Failed?
    ensures FireStep(History(m, p), p, t).Some? ==>
      FireAt(m, p, t).1 == m[p := FireStep(History(m, p), p, t).value]
  {
  }

  /** Round `k`: phone `phones[i]` fires `cols[i][k]`, for i = 0, 1, 2. */
  function Round(phones: seq<PhoneId>, cols: seq<seq<Trigger>>, k: nat): seq<(PhoneId, Trigger)>
    requires |phones| == |cols| == 3 && k < |cols[0]| && k < |cols[1]| && k < |cols[2]|
  {
    [(phones[0], cols[0][k]), (phones[1], cols[1][k]), (phones[2], cols[2][k])]
  }

  /** Fires the requests in order with `step`, stopping at the first
      failure as the demonstration's error check does. */
  function RunRequests(step: (seq<Log>, PhoneId, Trigger) -> Option<seq<Log>>, m: Logs,
                       reqs: seq<(PhoneId, Trigger)>): Option<Logs>
    decreases |reqs|
  {
    if reqs == [] then Some(m)
    else
      var (p, t) := reqs[0];
      match step(History(m, p), p, t)
      case None => None
      case Some(h) => RunRequests(step, m[p := h], reqs[1..])
  }

  predicate SameLength(cols: seq<seq<Trigger>>) {
    |cols| == 3 && |cols[0]| == |cols[1]| == |cols[2]|
  }

  /** Rounds `k` onwards, one loop of main.go per round. */
  function RunRounds(step: (seq<Log>, PhoneId, Trigger) -> Option<seq<Log>>, m: Logs,
                     phones: seq<PhoneId>, cols: seq<seq<Trigger>>, k: nat): Option<Logs>
    requires |phones| == 3 && SameLength(cols) && k <= |cols[0]|
    decreases |cols[0]| - k
  {
    if k == |cols[0]| then Some(m)
    else
      match RunRequests(step, m, Round(phones, cols, k))
      case None => None
      case Some(m1) => RunRounds(step, m1, phones, cols, k + 1)
  }

  /** The triggers fired with `step` on a single phone, in order, stopping
      at the first failure. */
  function RunPhone(step: (seq<Log>, PhoneId, Trigger) -> Option<seq<Log>>, h: seq<Log>,
                    p: PhoneId, ts: seq<Trigger>): Option<seq<Log>>
    decreases |ts|
  {
    if ts == [] then Some(h)
    else
      match step(h, p, ts[0])
      case None => None
      case Some(h1) => RunPhone(step, h1, p, ts[1..])
  }

  predicate Distinct(phones: seq<PhoneId>) {
    forall i, j | 0 <= i < j < |phones| :: phones[i] != phones[j]
  }

  /** One round over three distinct phones in which every fire succeeds. */
  lemma ThreePhoneRound(step: (seq<Log>, PhoneId, Trigger) -> Option<seq<Log>>, m: Logs,
                        p1: PhoneId, p2: PhoneId, p3: PhoneId, t1: Trigger, t2: Trigger, t3: Trigger,
                        n1: seq<Log>, n2: seq<Log>, n3: seq<Log>)
    requires p1 != p2 && p1 != p3 && p2 != p3
    requires step(History(m, p1), p1, t1) == Some(n1)
    requires step(History(m, p2), p2, t2) == Some(n2)
    requires step(History(m, p3), p3, t3) == Some(n3)
    ensures RunRequests(step, m, [(p1, t1), (p2, t2), (p3, t3)]) == Some(m[p1 := n1][p2 := n2][p3 := n3])
  {
    var r := [(p1, t1), (p2, t2), (p3, t3)];
    var m1 := m[p1 := n1];
    var m2 := m1[p2 := n2];
    var m3 := m2[p3 := n3];
    assert History(m1, p2) == History(m, p2);
    assert History(m2, p3) == History(m, p3);
    assert RunRequests(step, m3, r[3..]) == Some(m3);
    assert RunRequests(step, m2, r[2..]) == Some(m3);
    assert RunRequests(step, m1, r[1..]) == Some(m3);
  }

  /** The first step of a successful run on one phone succeeds, and the
      rest of the run continues from its result. */
  lemma RunPhoneFirst(step: (seq<Log>, PhoneId, Trigger) -> Option<seq<Log>>, h: seq<Log>, p: PhoneId,
                      ts: seq<Trigger>, f: seq<Log>)
    requires |ts| > 0 && RunPhone(step, h, p, ts) == Some(f)
    ensures step(h, p, ts[0]).Some? && RunPhone(step, step(h, p, ts[0]).value, p, ts[1..]) == Some(f)
  {
  }

  /** The phones do not interfere: when each phone's own triggers all
      succeed on its own history, running them round by round over the
      three phones succeeds and leaves each phone with the history it would
      have had alone; other phones keep theirs. */
  lemma {:induction false} RoundRobin(step: (seq<Log>, PhoneId, Trigger) -> Option<seq<Log>>, m: Logs,
                                      phones: seq<PhoneId>, cols: seq<seq<Trigger>>, k: nat, f: seq<seq<Log>>)
    requires |phones| == 3 && Distinct(phones) && SameLength(cols) && k <= |cols[0]| && |f| == 3
    requires forall i | 0 <= i < 3 :: RunPhone(step, History(m, phones[i]), phones[i], cols[i][k..]) == Some(f[i])
    decreases |cols[0]| - k
    ensures RunRounds(step, m, phones, cols, k).Some?
    ensures forall q ::
      History(RunRounds(step, m, phones, cols, k).value, q) ==
      (if q == phones[0] then f[0] else if q == phones[1] then f[1] else if q == phones[2] then f[2] else History(m, q))
  {
    var p1, p2, p3 := phones[0], phones[1], phones[2];
    assert p1 != p2 && p1 != p3 && p2 != p3;
    if k == |cols[0]| {
      forall i | 0 <= i < 3 ensures f[i] == History(m, phones[i]) {
        assert cols[i][k..] == [];
      }
    } else {
      var h1, h2, h3 := History(m, p1), History(m, p2), History(m, p3);
      RunPhoneFirst(step, h1, p1, cols[0][k..], f[0]);
      RunPhoneFirst(step, h2, p2, cols[1][k..], f[1]);
      RunPhoneFirst(step, h3, p3, cols[2][k..], f[2]);
      var t1, t2, t3 := cols[0][k], cols[1][k], cols[2][k];
      assert cols[0][k..][0] == t1 && cols[1][k..][0] == t2 && cols[2][k..][0] == t3;
      assert cols[0][k..][1..] == cols[0][k + 1..];
      assert cols[1][k..][1..] == cols[1][k + 1..];
      assert cols[2][k..][1..] == cols[2][k + 1..];
      var n1, n2, n3 := step(h1, p1, t1).value, step(h2, p2, t2).value, step(h3, p3, t3).value;
      ThreePhoneRound(step, m, p1, p2, p3, t1, t2, t3, n1, n2, n3);
      var m1 := m[p1 := n1][p2 := n2][p3 := n3];
      assert History(m1, p1) == n1 && History(m1, p2) == n2 && History(m1, p3) == n3;
      RoundRobin(step, m1, phones, cols, k + 1, f);
      assert Round(phones, cols, k) == [(p1, t1), (p2, t2), (p3, t3)];
    }
  }

  /** RoundRobin from an empty store. */
  lemma RoundRobinFresh(step: (seq<Log>, PhoneId, Trigger) -> Option<seq<Log>>, phones: seq<PhoneId>,
                        cols: seq<seq<Trigger>>, f: seq<seq<Log>>)
    requires |phones| == 3 && Distinct(phones) && SameLength(cols) && |f| == 3
    requires forall i | 0 <= i < 3 :: RunPhone(step, History(map[], phones[i]), phones[i], cols[i]) == Some(f[i])
    ensures RunRounds(step, map[], phones, cols, 0).Some?
    ensures forall i | 0 <= i < 3 :: History(RunRounds(step, map[], phones, cols, 0).value, phones[i]) == f[i]
    ensures forall q | q !in phones :: History(RunRounds(step, map[], phones, cols, 0).value, q) == []
  {
    assert cols[0][0..] == cols[0] && cols[1][0..] == cols[1] && cols[2][0..] == cols[2];
    RoundRobin(step, map[], phones, cols, 0, f);
  }

  /** The seven records each phone ends with. */
  function DemoHistory(p: PhoneId): seq<Log> {
    [InitialLog(p, OffHook),
     TransitionLog(2, p, OffHook, Ringing),
     TransitionLog(3, p, Ringing, Connected),
     TransitionLog(4, p, Connected, OnHold),
     TransitionLog(5, p, OnHold, Connected),
     TransitionLog(6, p, Connected, OnHold),
     TransitionLog(7, p, OnHold, PhoneDestroyed)]
  }

  /** How many records a phone has after `k` demo triggers. */
  function Count(k: nat): nat
    requires k <= 10
  {
    [0, 2, 3, 3, 4, 4, 4, 5, 5, 6, 7][k]
  }

  /** Demo trigger `k` succeeds on a phone holding Count(k) records and
      extends its history to Count(k + 1) records. */
  lemma DemoStep(p: PhoneId, callee: string, k: nat)
    requires k < 10
    ensures FireStep(DemoHistory(p)[..Count(k)], p, DemoTriggers(callee)[k]) == Some(DemoHistory(p)[..Count(k + 1)])
  {
    var d := DemoHistory(p);
    var h := d[..Count(k)];
    var t := DemoTriggers(callee)[k];
    if k == 0 {
      assert d[..Count(k + 1)] == [d[0], d[1]];
    } else if Count(k) < Count(k + 1) {
      assert Count(k + 1) == Count(k) + 1;
      assert d[..Count(k + 1)] == h + [d[Count(k)]];
    } else {
      assert d[..Count(k + 1)] == h;
    }
    if k == 0 {
      assert h == [];
      assert Accessed(h, p) == [d[0]];
      assert Lookup(OffHook, t) == Some(PermitRule(Ringing));
      assert Mutated([d[0]], p, Ringing) == [d[0], d[1]];
    } else if k == 1 {
      assert Lookup(Ringing, t) == Some(PermitRule(Connected));
    } else if k == 2 || k == 7 {
      assert Lookup(Connected, t).Some? && Lookup(Connected, t).value.InternalRule?;
    } else if k == 3 || k == 8 {
      assert Lookup(Connected, t) == Some(PermitRule(OnHold));
    } else if k == 4 || k == 5 {
      assert Lookup(OnHold, t).Some? && Lookup(OnHold, t).value.InternalRule?;
    } else if k == 6 {
      assert Lookup(OnHold, t) == Some(PermitRule(Connected));
    } else {
      assert Lookup(OnHold, t) == Some(PermitRule(PhoneDestroyed));
    }
  }

  /** The demo triggers from `k` on all succeed on one phone. */
  lemma {:induction false} DemoPhoneFrom(p: PhoneId, callee: string, k: nat)
    requires k <= 10
    decreases 10 - k
    ensures RunPhone(FireStep, DemoHistory(p)[..Count(k)], p, DemoTriggers(callee)[k..]) == Some(DemoHistory(p))
  {
    var ts := DemoTriggers(callee)[k..];
    if k == 10 {
      assert ts == [];
      assert DemoHistory(p)[..Count(k)] == DemoHistory(p);
    } else {
      DemoStep(p, callee, k);
      DemoPhoneFrom(p, callee, k + 1);
      assert ts[0] == DemoTriggers(callee)[k] && ts[1..] == DemoTriggers(callee)[k + 1..];
    }
  }

  /** Alone, a fresh phone goes through all the demo triggers and ends with
      DemoHistory. */
  lemma DemoPhone(p: PhoneId, callee: string)
    ensures RunPhone(FireStep, History(map[], p), p, DemoTriggers(callee)) == Some(DemoHistory(p))
  {
    DemoPhoneFrom(p, callee, 0);
    assert DemoHistory(p)[..Count(0)] == History(map[], p);
    assert DemoTriggers(callee)[0..] == DemoTriggers(callee);
  }

  /** Each of three phones, alone, goes through its demo triggers. */
  lemma DemoPhones(phones: seq<PhoneId>, names: seq<string>)
    requires |phones| == |names| == 3
    ensures
      var cols := [DemoTriggers(names[0]), DemoTriggers(names[1]), DemoTriggers(names[2])];
      var f := [DemoHistory(phones[0]), DemoHistory(phones[1]), DemoHistory(phones[2])];
      forall i | 0 <= i < 3 :: RunPhone(FireStep, History(map[], phones[i]), phones[i], cols[i]) == Some(f[i])
  {
    DemoPhone(phones[0], names[0]);
    DemoPhone(phones[1], names[1]);
    DemoPhone(phones[2], names[2]);
  }

  /** For any three distinct phones, every call of the demonstration
      succeeds and each phone ends with the history DemoHistory. */
  lemma DemoSucceeds(phones: seq<PhoneId>, names: seq<string>)
    requires |phones| == |names| == 3 && Distinct(phones)
    ensures
      var r := RunRounds(FireStep, map[], phones, [DemoTriggers(names[0]), DemoTriggers(names[1]), DemoTriggers(names[2])], 0);
      && r.Some?
      && History(r.value, phones[0]) == DemoHistory(phones[0])
      && History(r.value, phones[1]) == DemoHistory(phones[1])
      && History(r.value, phones[2]) == DemoHistory(phones[2])
      && forall q | q !in phones :: History(r.value, q) == []
  {
    var cols := [DemoTriggers(names[0]), DemoTriggers(names[1]), DemoTriggers(names[2])];
    var f := [DemoHistory(phones[0]), DemoHistory(phones[1]), DemoHistory(phones[2])];
    DemoPhones(phones, names);
    RoundRobinFresh(FireStep, phones, cols, f);
    var r := RunRounds(FireStep, map[], phones, cols, 0).value;
    assert History(r, phones[0]) == f[0] && History(r, phones[1]) == f[1] && History(r, phones[2]) == f[2];
  }

  /** The run of main.go itself: phones 1, 2 and 3 dialling Stamp, Ricka
      and Marie. */
  lemma MainDemoSucceeds()
    ensures
      var cols := [DemoTriggers("Stamp"), DemoTriggers("Ricka"), DemoTriggers("Marie")];
      var r := RunRounds(FireStep, map[], [1, 2, 3], cols, 0);
      && r.Some?
      && History(r.value, 1) == DemoHistory(1)
      && History(r.value, 2) == DemoHistory(2)
      && History(r.value, 3) == DemoHistory(3)
      && forall q | q < 1 || 3 < q :: History(r.value, q) == []
  {
    var phones := [1, 2, 3];
    DemoSucceeds(phones, ["Stamp", "Ricka", "Marie"]);
    assert phones[0] == 1 && phones[1] == 2 && phones[2] == 3;
  }

  /** Each phone of the demonstration ends destroyed with seven records
      numbered 1 to 7 that form a machine history; any further trigger
      fails and writes nothing. */
  lemma DemoFinalState(p: PhoneId, t: Trigger)
    ensures |DemoHistory(p)| == 7 && CurrentState(DemoHistory(p)) == PhoneDestroyed
    ensures forall i | 0 <= i < 7 :: DemoHistory(p)[i].id == i + 1
    ensures MachineHistory(p, DemoHistory(p))
    ensures FireOn(DemoHistory(p), p, t) == (Failed(InvalidTransition(PhoneDestroyed, t)), DemoHistory(p))
  {
    DestroyedIsTerminal(p, DemoHistory(p), t);
  }
}
