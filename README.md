# Phone states: a per-phone transition log under a hierarchical state machine

This project models the core of `phonestates`, a Go program in which many phones share one
state machine. The machine does not hold each phone's current state. It reads that state from a
per-phone log of transitions, and it writes every accepted transition back to that log.

- `types.dfy` (module `PhoneTypes`): phone IDs, the five states, and the nine triggers. A trigger
  that declares a parameter carries it as a typed field: `CallDialed(callee)`, `SetVolume(volume)`.
- `log_store.dfy` (module `LogStore`): the log store. It is a class holding
  `map<PhoneId, seq<Log>>`, with `GetLastOrInsert`, `GetPhoneLogs` and `InsertPhoneLog` as
  methods that update the map in place. The class invariant says every present phone has a
  non-empty history. Its records are numbered 1..n and belong to that phone.
- `machine.dfy` (module `PhoneMachine`): the configuration built by `NewPhoneStates`. It holds:
  - the rule table keyed by (state, trigger): `Permit` gives an external transition,
    `InternalTransition` gives a same-state action;
  - the parent map, in which OnHold is a substate of Connected;
  - `Lookup`, which walks from a state up through its ancestors;
  - the entry and exit actions, as abstract labels.
- `phone_states.dfy` (module `PhoneStates`):
  - pure functions giving what the state accessor, the state mutator and one fire do to one
    phone's history;
  - the class `PhoneStates`, whose `Fire` and `Trigger*` methods are proved against those
    functions;
  - the lemmas. The main one: every stored history starts with the initial OffHook record, and
    `logs[i].to` equals `logs[i+1].from`.
- `demo.dfy` (module `Demo`): the run of `main.go` as a scenario. Ten rounds go over three
  phones. Every call succeeds, and each phone ends in PhoneDestroyed with seven records. The
  drivers of the run take the single-phone step as a parameter. The step used for the demo is
  `FireStep`, what one `Trigger*` call does to the calling phone's history, and
  `FireStepIsFireAt` ties it to the store-wide fire.

Modelling choices:
- The phone ID that the source passes through a `context.Context` is an explicit
  `Option<PhoneId>`. `None` stands for a context without the key.
- The `From` field of the synthetic initial record is the empty string in the source. Here it is
  `None`, and every other record has `Some(state)`.
- The `Remarks` text is abstract: `InitialRemarks(initial)` or `TransitionRemarks(from, to)`.
- The two store implementations differ in small ways:
  - `PhoneLogs.GetPhoneLogs` (phone_states.go:78-80) returns the stored slice itself.
  - `LogRepository.GetPhoneLogs` (log_repository.go:63-72) returns a copy.
  - A Dafny `seq` is a value, so the model has copy semantics.
  - The remark texts differ between the two files.
  - Otherwise the two stores behave the same. The model has one store, `LogStore.LogStore`.
- Two behaviours of the source to note:
  - `GetPhoneLogs` on a phone that was never accessed returns an empty sequence, not a one-record
    history.
  - The accessor inserts the initial record before the trigger is looked up. A fire that fails
    with `InvalidTransition` on a fresh phone therefore still leaves that record behind. It never
    leaves a transition record.

## Model

| member | source | states |
|---|---|---|
| `LogStore.AppendedWellFormed` | log_repository.go:84-92 | appending keeps IDs 1..n and the phone ID on every record, keeps every earlier record, and adds exactly one record numbered old length + 1 with the given From/To |
| `LogStore.LogStore.constructor` | log_repository.go:34-38 | a new repository has no phone |
| `LogStore.LogStore.GetLastOrInsert` | log_repository.go:41-60 | for a present phone: returns its last record and leaves the whole map unchanged; for an unseen phone: stores and returns exactly the record {1, phone, no From, initial}; the store invariant is kept |
| `LogStore.LogStore.GetPhoneLogs` | log_repository.go:63-72 | returns the stored sequence of the phone (empty for an unseen phone) and changes nothing |
| `LogStore.LogStore.InsertPhoneLog` | log_repository.go:75-95 | appends one record with ID = old length + 1, the given From/To and the phone's ID; other phones are untouched; an unseen phone gets a one-record history with ID 1 and no initial record; the invariant is kept |
| `PhoneMachine.Configured` | phone_states.go:127-161 | only Connected declares internal transitions, no Permit leads back to the state that declares it, and PhoneDestroyed declares nothing |
| `PhoneMachine.ConfiguredMatchesDeclaration` | phone_states.go:127-167 | the rule table holds exactly the six declared Permit edges and the three InternalTransitions on Connected; PhoneDestroyed declares nothing |
| `PhoneMachine.Parent` | phone_states.go:158-159 | OnHold is the only state with a parent, and its parent is Connected; every parent is strictly shallower, so the hierarchy has no cycle |
| `PhoneMachine.Lookup` | phone_states.go:158-161 | a rule declared on the state itself wins over an inherited one, and a destroyed phone finds no rule |
| `PhoneMachine.LookupFirstMatch` | phone_states.go:158-161 | a trigger with no rule on any ancestor finds nothing; a rule found is that of the innermost ancestor that declares one |
| `PhoneMachine.OnHoldInheritsConnected` | phone_states.go:137-161 | a trigger OnHold does not declare behaves in OnHold as it does in Connected |
| `PhoneMachine.EntryActions` | phone_states.go:130-167 | a state runs at most one entry action, and only Ringing (when entered by CallDialed), Connected and PhoneDestroyed declare one |
| `PhoneMachine.ExitActions` | phone_states.go:139-142 | only Connected declares an exit action, and it stops the call timer |
| `PhoneMachine.TransitionActions` | phone_states.go:137-161 | on a move between two different states, the call timer is stopped exactly when the move leaves the Connected superstate and started exactly when it enters Connected from outside, so holding and resuming leave it running |
| `PhoneMachine.CallTimerActions` | phone_states.go:130-167 | dialling runs onDialed; connecting starts the call timer; holding and resuming run no action; hanging up from Connected or from hold stops the timer; wrecking from hold stops the timer and prints its message |
| `PhoneStates.Accessed` | phone_states.go:174-183 | a phone with records is left as it is, a fresh phone gets exactly the one initial record {1, phone, no From, OffHook}, and looking never changes the state reported |
| `PhoneStates.CurrentState` | phone_states.go:180-182 | the state is the To of the last record, and it is always the initial state or a state the log records |
| `PhoneStates.Mutated` | phone_states.go:185-219 | the phone ends in the new state, the accessed history is kept as a prefix, at most one record is added, and none exactly when the phone is already in the new state |
| `PhoneStates.FireOn` | phone_states.go:114-122 | a fire fails exactly when the lookup finds no rule, and then returns InvalidTransition(state, trigger) with only the accessor's record written; a Permit moves the phone to its destination; an internal transition runs its one action and writes nothing beyond the accessor's record; any fire keeps the accessed history as a prefix and adds at most one record |
| `PhoneStates.FireAt` | phone_states.go:213 | firing on one phone leaves every other phone's records as they were and the fired phone present |
| `PhoneStates.AccessedKeepsHistory` | phone_states.go:174-183 | the accessor reports the last To, or OffHook for a fresh phone; it adds only the initial record and keeps a machine history |
| `PhoneStates.MutatedKeepsHistory` | phone_states.go:185-219 | the mutator writes nothing exactly when the new state equals the current one; otherwise it appends the single record (current to new); the phone ends in the new state and `logs[i].to == logs[i+1].from` still holds |
| `PhoneStates.MutatorIdempotent` | phone_states.go:203-206 | asking the mutator twice for the same state writes at most once |
| `PhoneStates.FireKeepsHistory` | phone_states.go:114-122 | a fire keeps the chain invariant, never rewrites an existing record and adds at most one transition record |
| `PhoneStates.FireAtKeepsInvariant` | phone_states.go:114-122 | every phone of the store keeps a machine history across any fire |
| `PhoneStates.FailedFireWritesNothing` | phone_states.go:114-122 | a fire fails exactly when neither the current state nor any of its superstates declares a rule for the trigger |
| `PhoneStates.InternalTriggersKeepState` | phone_states.go:143-159 | mute, unmute and volume changes are accepted in Connected and, through SubstateOf, in OnHold; each runs its action once and leaves state and log unchanged |
| `PhoneStates.HoldWhileOnHoldWritesNothing` | phone_states.go:155-160 | PlacedOnHold inherited by OnHold re-enters OnHold: it succeeds, runs no action and writes no record |
| `PhoneStates.DestroyedIsTerminal` | phone_states.go:163-167 | a destroyed phone rejects every trigger with InvalidTransition and its history stays unchanged |
| `PhoneStates.StateAccessor` | phone_states.go:174-183 | without a phone ID: the error, and nothing changes; with one: the current state, the To of the last record (OffHook for a fresh phone, whose initial record is inserted) |
| `PhoneStates.StateMutator` | phone_states.go:185-219 | without a phone ID: the error, and nothing changes; with one: succeeds, writing nothing if the state is unchanged and appending (current to new) otherwise |
| `PhoneStates.PhoneStates.constructor` | phone_states.go:109-172 | a new machine starts with an empty log store |
| `PhoneStates.PhoneStates.GetPhoneLogs` | phone_states.go:222-224 | the phone's stored records, empty before its first trigger |
| `PhoneStates.PhoneStates.Fire` | phone_states.go:114-122 | without a phone ID: MissingPhoneId and nothing changes; with one: exactly what the fire specification gives for that phone, with the invariant kept |
| `PhoneStates.PhoneStates.TriggerCallDialed` | phone_states.go:227-230 | fires CallDialed(callee) for the phone |
| `PhoneStates.PhoneStates.TriggerCallConnected` | phone_states.go:233-236 | fires CallConnected for the phone |
| `PhoneStates.PhoneStates.TriggerSetVolume` | phone_states.go:239-242 | fires SetVolume(volume) for the phone |
| `PhoneStates.PhoneStates.TriggerPlaceOnHold` | phone_states.go:245-248 | fires PlacedOnHold for the phone |
| `PhoneStates.PhoneStates.TriggerMuteMicrophone` | phone_states.go:251-254 | fires MuteMicrophone for the phone |
| `PhoneStates.PhoneStates.TriggerUnmuteMicrophone` | phone_states.go:257-260 | fires UnmuteMicrophone for the phone |
| `PhoneStates.PhoneStates.TriggerTakenOffHold` | phone_states.go:263-266 | fires TakenOffHold for the phone |
| `PhoneStates.PhoneStates.TriggerPhoneHurledAgainstWall` | phone_states.go:269-272 | fires PhoneHurledAgainstWall for the phone |
| `Demo.DemoStep` | main.go:31-80 | each of the ten demo triggers succeeds on a phone in its expected state and extends its history to the expected prefix |
| `Demo.ThreePhoneRound` | main.go:36-39 | a round over three distinct phones whose fires all succeed leaves each phone with its own new history |
| `Demo.FireStepIsFireAt` | main.go:32-33 | one Trigger call followed by the error check: it fails exactly when the fire on the store fails, and otherwise the store changes only in the called phone's history |
| `Demo.RoundRobin` | main.go:31-80 | phones do not interfere: if each phone's own triggers all succeed on its own history, the rounds over the three phones all succeed, each phone ends with the history it would have had alone, and every other phone keeps its records |
| `Demo.DemoPhoneFrom` | main.go:31-80 | the demo triggers from any round on succeed on one phone holding the records of the earlier rounds, and it ends with the seven-record history |
| `Demo.DemoSucceeds` | main.go:21-80 | for any three distinct phones, every call of the demo succeeds and each phone ends with the seven-record history |
| `Demo.MainDemoSucceeds` | main.go:21-80 | the same for phones 1, 2, 3 dialling Stamp, Ricka and Marie |
| `Demo.DemoFinalState` | main.go:82-88 | each phone ends in PhoneDestroyed with seven records numbered 1..7 that form a machine history, and any further trigger fails without writing |

## Left out

- Locking (`sync.RWMutex` in log_repository.go) and the library's queued firing mode are
  concurrency. Calls are modelled as running one after another.
- The internals of the state machine library are not part of this model. The model covers only:
  - the rule lookup through the substate hierarchy;
  - internal transitions, which run their one action and never call the mutator;
  - external transitions, which run the exit chain, then the mutator, then the entry chain.
  The actions appear only as abstract labels in the result of a fire. In the library, the
  mutator runs between the exit and entry actions. The trace does not show where.
- The action bodies are not modelled. They print to the console and read the wall clock
  (`onDialed`, `onMute`, `onUnmute`, `onSetVolume`, `startCallTimer`, `stopCallTimer`,
  `currentTime`, "phone wrecked!"). They appear only as the `Action` labels.
- The text of `Remarks` depends on Go's `%q` quoting. It is kept abstract.
- `context.Context` and reflection-based `SetTriggerParameters` are replaced by typed arguments:
  - an explicit `Option<PhoneId>` for the phone ID;
  - typed trigger constructors for the trigger parameters.
  As a result, the type-assertion error branches of the mutator (phone_states.go:187-190,
  198-201) cannot be reached and are not modelled. Neither is the mutator's second phone-ID
  check (phone_states.go:208-211), which cannot fail once the accessor at line 192 has
  succeeded.
- `PhoneStates.PhoneStates.Fire` ignores the mutator's error result. With the phone ID the
  accessor has just accepted, the mutator always succeeds.
- `LogStore.LogStore.InsertPhoneLog` has no error result. The source's result is always nil.
- `Phone.Name` (log_repository.go:16) is not used by the core and is not modelled.
- The printing loop of main.go (lines 82-88) is console output. The scenario lemmas state the
  histories it would print.
