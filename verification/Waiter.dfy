/** The wake-up cell of src/waiter.rs: one notifier at a time against the owner of a future, every
    atomic instruction and every access to the waker's storage one step. */
module Waiters {
  import opened QueueSpec

  /** Addresses of waker storage; wakers are 8-aligned, so the low three bits carry the flags. */
  type Address = bv64
  const NULL: Address := 0

  predicate Aligned(a: Address) { a & 7 == 0 }

  datatype Flags = Flags(lock: bool, evict: bool) {
    predicate Meets(target: Flags) {
      (lock && target.lock) || (evict && target.evict)
    }

    predicate Covers(target: Flags) {
      (target.lock ==> lock) && (target.evict ==> evict)
    }

    function With(f: Flags): Flags {
      Flags(lock || f.lock, evict || f.evict)
    }
  }

  /** The atomic word, unpacked. */
  datatype Word = Word(addr: Address, flags: Flags, canDrop: bool)

  /** The storage inside the future; a stored waker is named by a number of its own. */
  datatype Slot = Slot(addr: Address, alive: bool, waker: Option<nat>)

  /** Why `clear_waker` is running: the two calls in `wait_for_flag`, and the one in `drop`. */
  datatype Call = Entry | Retry | Final

  datatype Outcome = Unpolled | Pending(w: nat) | Ready(flags: Flags)

  /** What the owner does next. */
  datatype Owner =
    | NoFuture
    | Resting(last: Outcome)
    | Clearing(call: Call)                    // fetch_and(FLAG_MASK)
    | Dropping(call: Call, seen: Flags)       // storage.assume_init_drop()
    | Spinning(call: Call, seen: Flags)       // load, until CAN_DROP is set
    | Writing                                 // waker.write(clone)
    | Publishing(w: nat)                      // fetch_or(address | CAN_DROP)
    | Freeing                                 // the future goes away

  /** What the notifier does next. */
  datatype Notifier =
    | Off
    | Taking                                      // fetch_and(HAS_LOCK | WANTS_EVICT)
    | Reading(addr: Address, restore: bool)       // waker_ptr.read()
    | Restoring(hand: Option<nat>)                // fetch_or(CAN_DROP)
    | Waking(w: nat)                              // waker.wake()

  /** `woken` and `dropped` record how wakers were consumed; `republished` says that the owner has
      published since the notifier's last fetch_and. */
  datatype State = State(word: Word, slot: Slot, target: Flags, owner: Owner, notifier: Notifier,
                         nextWaker: nat, woken: multiset<nat>, dropped: multiset<nat>, republished: bool)

  datatype Action =
    | Start(addr: Address, target: Flags)     // WaiterFlagFut::new
    | Poll
    | Cancel                                  // drop of the future
    | OwnerStep
    | AddFlag(flag: Flags)                    // start() or evict()
    | NotifierStep

  predicate Enabled(s: State, a: Action) {
    match a
    case Start(addr, target) =>
      s.owner.NoFuture? && Aligned(addr) && addr != NULL && (target.lock || target.evict)
    case Poll => s.owner.Resting?
    case Cancel => s.owner.Resting?
    case OwnerStep => !s.owner.NoFuture? && !s.owner.Resting?
    case AddFlag(flag) => s.notifier.Off?
    case NotifierStep => !s.notifier.Off?
  }

  function Held(w: Option<nat>): multiset<nat> {
    if w.Some? then multiset{w.value} else multiset{}
  }

  /** `clear_waker` has returned `seen`. */
  function Cleared(s: State, call: Call, seen: Flags): Owner {
    match call
    case Entry => if seen.Covers(s.target) then Resting(Ready(seen)) else Writing
    case Retry => Resting(Ready(seen))
    case Final => Freeing
  }

  function StepOwner(s: State): State {
    match s.owner
    case NoFuture => s
    case Resting(_) => s
    case Clearing(call) =>
      var seen := s.word.flags;
      s.(word := s.word.(addr := NULL),
         owner := if s.word.addr != NULL then Dropping(call, seen)
                  else if !s.word.canDrop then Spinning(call, seen)
                  else Cleared(s, call, seen))
    case Dropping(call, seen) =>
      s.(slot := s.slot.(waker := None),
         dropped := s.dropped + Held(s.slot.waker),
         owner := Cleared(s, call, seen))
    case Spinning(call, seen) =>
      if s.word.canDrop then s.(owner := Cleared(s, call, seen)) else s
    case Writing =>
      s.(slot := s.slot.(waker := Some(s.nextWaker)), nextWaker := s.nextWaker + 1,
         owner := Publishing(s.nextWaker))
    case Publishing(w) =>
      s.(word := s.word.(addr := s.slot.addr, canDrop := true), republished := true,
         owner := if s.word.flags.Meets(s.target) then Clearing(Retry) else Resting(Pending(w)))
    case Freeing =>
      s.(slot := s.slot.(alive := false), owner := NoFuture)
  }

  function Handed(hand: Option<nat>): Notifier {
    if hand.Some? then Waking(hand.value) else Off
  }

  /** `add_flag`: notify only if there is a waker to take. */
  function StartNotifying(s: State, flag: Flags): State {
    s.(word := s.word.(flags := s.word.flags.With(flag)),
       notifier := if s.word.addr != NULL then Taking else Off)
  }

  function StepNotifier(s: State): State {
    match s.notifier
    case Off => s
    case Taking =>
      s.(word := s.word.(addr := NULL, canDrop := false), republished := false,
         notifier := if s.word.addr != NULL then Reading(s.word.addr, s.word.canDrop)
                     else if s.word.canDrop then Restoring(None) else Off)
    case Reading(_, restore) =>
      s.(slot := s.slot.(waker := None),
         notifier := if restore then Restoring(s.slot.waker) else Handed(s.slot.waker))
    case Restoring(hand) =>
      s.(word := s.word.(canDrop := true), notifier := Handed(hand))
    case Waking(w) =>
      s.(woken := s.woken + multiset{w}, notifier := Off)
  }

  function Apply(s: State, a: Action): State {
    match a
    case Start(addr, target) =>
      s.(slot := Slot(addr, true, None), target := target, owner := Resting(Unpolled))
    case Poll => s.(owner := Clearing(Entry))
    case Cancel => s.(owner := Clearing(Final))
    case OwnerStep => StepOwner(s)
    case AddFlag(flag) => StartNotifying(s, flag)
    case NotifierStep => StepNotifier(s)
  }

  /** `Waiter::new`. */
  function Initial(hasLock: bool): State {
    State(Word(NULL, Flags(hasLock, false), true), Slot(NULL, false, None), Flags(false, false),
          NoFuture, Off, 0, multiset{}, multiset{}, false)
  }

  ghost predicate Possible(s: State, run: seq<Action>) {
    run == [] ||
    (Possible(s, run[..|run| - 1]) && Enabled(After(s, run[..|run| - 1]), run[|run| - 1]))
  }

  function After(s: State, run: seq<Action>): State {
    if run == [] then s else Apply(After(s, run[..|run| - 1]), run[|run| - 1])
  }

  lemma Continued(s: State, run: seq<Action>, u: State, a: Action, t: State) returns (longer: seq<Action>)
    requires Possible(s, run) && After(s, run) == u && Enabled(u, a) && Apply(u, a) == t
    ensures Possible(s, longer) && After(s, longer) == t
  {
    longer := run + [a];
    assert longer[..|run|] == run;
  }

  // ----- What every step keeps

  /** The notifier may be about to touch the storage, or has just taken the waker out of it. */
  predicate HasPointer(n: Notifier) {
    n.Reading? || (n.Restoring? && n.hand.Some?)
  }

  /** The owner is not about to touch the storage. */
  predicate HandsOff(o: Owner) {
    o.Resting? || o.Clearing? || o.Spinning?
  }

  /** Exactly one of these holds the storage's content: the word, the notifier, the owner. */
  ghost predicate StorageInv(s: State) {
    && Aligned(s.slot.addr)
    && (s.slot.alive <==> !s.owner.NoFuture?)
    && (s.slot.alive ==> s.slot.addr != NULL)
    && (s.slot.waker.Some? <==>
          s.word.addr != NULL || s.notifier.Reading? || s.owner.Dropping? || s.owner.Publishing?)
    && (s.word.addr != NULL ==>
          s.word.addr == s.slot.addr && (s.owner.Resting? || s.owner.Clearing?) && !HasPointer(s.notifier))
    && (HasPointer(s.notifier) ==> HandsOff(s.owner) && !s.republished)
    && (s.notifier.Reading? ==> s.notifier.addr == s.slot.addr && s.notifier.restore)
    && (s.owner.Spinning? ==> !s.notifier.Taking?)
    && (s.owner.Publishing? ==> s.slot.waker == Some(s.owner.w))
  }

  /** CAN_DROP is clear exactly between the notifier's fetch_and and whichever comes first: its
      restoring fetch_or, or the owner's publication of a new waker. */
  ghost predicate CanDropInv(s: State) {
    !s.word.canDrop <==> (s.notifier.Reading? || s.notifier.Restoring?) && !s.republished
  }

  /** Where the waker of the last pending poll is. */
  ghost predicate WakeInv(s: State) {
    && (s.owner.Resting? && s.owner.last.Pending? ==>
          var w := s.owner.last.w;
          || s.slot.waker == Some(w)
          || s.notifier == Restoring(Some(w))
          || s.notifier == Waking(w)
          || w in s.woken)
    && (s.owner.Resting? && s.word.addr != NULL ==>
          s.owner.last.Pending? && (s.word.flags.Meets(s.target) ==> s.notifier.Taking?))
  }

  predicate CallOf(o: Owner, call: Call) {
    match o
    case Clearing(c) => c == call
    case Dropping(c, _) => c == call
    case Spinning(c, _) => c == call
    case _ => false
  }

  /** Flags are never taken back, and `Ready` is only ever returned with a flag of the target. */
  ghost predicate ReadyInv(s: State) {
    && (s.slot.alive ==> s.target.lock || s.target.evict)
    && (s.owner.Resting? && s.owner.last.Ready? ==>
          s.owner.last.flags.Meets(s.target) && s.word.flags.Covers(s.owner.last.flags))
    && ((s.owner.Dropping? || s.owner.Spinning?) ==> s.word.flags.Covers(s.owner.seen))
    && (CallOf(s.owner, Retry) ==> s.word.flags.Meets(s.target))
    && ((s.owner.Dropping? || s.owner.Spinning?) && s.owner.call == Retry ==> s.owner.seen.Meets(s.target))
  }

  ghost predicate Inv(s: State) {
    StorageInv(s) && CanDropInv(s) && WakeInv(s) && ReadyInv(s)
  }

  lemma {:induction false} StepKeepsInv(s: State, a: Action)
    requires Inv(s) && Enabled(s, a)
    ensures Inv(Apply(s, a))
  {
    match a
    case OwnerStep => OwnerKeepsInv(s);
    case NotifierStep => NotifierKeepsInv(s);
    case _ =>
  }

  lemma {:induction false} OwnerKeepsInv(s: State)
    requires Inv(s) && Enabled(s, OwnerStep)
    ensures Inv(StepOwner(s))
  {
    OwnerKeepsStorage(s);
    OwnerKeepsWake(s);
    OwnerKeepsReady(s);
  }

  lemma OwnerKeepsWake(s: State)
    requires StorageInv(s) && CanDropInv(s) && WakeInv(s) && Enabled(s, OwnerStep)
    ensures CanDropInv(StepOwner(s)) && WakeInv(StepOwner(s))
  {
    match s.owner
    case Publishing(w) =>
    case Clearing(call) => match call { case Entry => case Retry => case Final => }
    case Dropping(call, seen) => match call { case Entry => case Retry => case Final => }
    case Spinning(call, seen) => match call { case Entry => case Retry => case Final => }
    case _ =>
  }

  lemma OwnerKeepsStorage(s: State)
    requires StorageInv(s) && CanDropInv(s) && Enabled(s, OwnerStep)
    ensures StorageInv(StepOwner(s))
  {
    match s.owner
    case Clearing(call) => match call { case Entry => case Retry => case Final => }
    case Dropping(call, seen) => match call { case Entry => case Retry => case Final => }
    case Spinning(call, seen) => match call { case Entry => case Retry => case Final => }
    case _ =>
  }

  lemma OwnerKeepsReady(s: State)
    requires StorageInv(s) && ReadyInv(s) && Enabled(s, OwnerStep)
    ensures ReadyInv(StepOwner(s))
  {
    match s.owner
    case Clearing(call) =>
    case Dropping(call, seen) =>
    case Spinning(call, seen) =>
    case _ =>
  }

  lemma {:induction false} NotifierKeepsInv(s: State)
    requires Inv(s) && Enabled(s, NotifierStep)
    ensures Inv(StepNotifier(s))
  {
    match s.notifier
    case Taking =>
    case Reading(_, _) =>
    case Restoring(hand) =>
    case Waking(w) =>
  }

  lemma {:induction false} RunKeepsInv(hasLock: bool, run: seq<Action>)
    requires Possible(Initial(hasLock), run)
    ensures Inv(After(Initial(hasLock), run))
  {
    if run != [] {
      RunKeepsInv(hasLock, run[..|run| - 1]);
      StepKeepsInv(After(Initial(hasLock), run[..|run| - 1]), run[|run| - 1]);
    }
  }

  // ----- Wakers are consumed exactly once

  function Is(x: Option<nat>, w: nat): nat {
    if x == Some(w) then 1 else 0
  }

  /** The waker that the notifier has taken out of the storage and not woken yet. */
  function InHand(n: Notifier): Option<nat> {
    match n
    case Restoring(hand) => hand
    case Waking(w) => Some(w)
    case _ => None
  }

  ghost predicate Conserved(s: State, w: nat) {
    Is(s.slot.waker, w) + Is(InHand(s.notifier), w) + s.woken[w] + s.dropped[w] == if w < s.nextWaker then 1 else 0
  }

  lemma {:induction false} StepConserves(s: State, a: Action, w: nat)
    requires Inv(s) && Enabled(s, a) && Conserved(s, w)
    ensures Conserved(Apply(s, a), w)
  {
    match a
    case OwnerStep => match s.owner { case Writing => case Dropping(_, _) => case _ => }
    case NotifierStep => match s.notifier { case Reading(_, _) => case Taking => case _ => }
    case _ =>
  }

  /** In every interleaving each waker ever stored has been woken, dropped, or is still in one
      place: never twice, and never nowhere. */
  lemma {:induction false} ConsumedExactlyOnce(hasLock: bool, run: seq<Action>, w: nat)
    requires Possible(Initial(hasLock), run)
    ensures Conserved(After(Initial(hasLock), run), w)
  {
    if run != [] {
      ConsumedExactlyOnce(hasLock, run[..|run| - 1], w);
      RunKeepsInv(hasLock, run[..|run| - 1]);
      StepConserves(After(Initial(hasLock), run[..|run| - 1]), run[|run| - 1], w);
    }
  }

  // ----- Who may touch the storage

  /** A notifier that reads the storage finds it alive and holding a waker, while the owner is not
      about to write, publish, drop or free it; the owner drops only a waker that is there, and
      neither overwrites nor frees one. */
  lemma {:induction false} StorageSafety(hasLock: bool, run: seq<Action>)
    requires Possible(Initial(hasLock), run)
    ensures var s := After(Initial(hasLock), run);
            && (s.notifier.Reading? ==>
                  && s.slot.alive && s.notifier.addr == s.slot.addr && s.slot.waker.Some?
                  && (s.owner.Resting? || s.owner.Clearing? || s.owner.Spinning?))
            && (s.owner.Dropping? ==> s.slot.waker.Some?)
            && (s.owner.Writing? || s.owner.Freeing? ==> s.slot.waker.None? && s.word.addr == NULL)
            && (s.owner.NoFuture? ==> s.word.addr == NULL)
  {
    RunKeepsInv(hasLock, run);
  }

  /** Between the notifier's fetch_and and its restoring fetch_or, CAN_DROP is clear unless the
      owner has published a new waker in the meantime; at all other times it is set. */
  lemma {:induction false} CanDropExactly(hasLock: bool, run: seq<Action>)
    requires Possible(Initial(hasLock), run)
    ensures var s := After(Initial(hasLock), run);
            if s.notifier.Reading? || s.notifier.Restoring? then s.word.canDrop <==> s.republished
            else s.word.canDrop
  {
    RunKeepsInv(hasLock, run);
  }

  /** The exception is real: a notifier that meant to take one waker finds none, and before it
      restores the bit the owner has published the next one. */
  lemma CanDropSetEarly() returns (run: seq<Action>)
    ensures Possible(Initial(false), run)
    ensures After(Initial(false), run).notifier == Restoring(None) && After(Initial(false), run).word.canDrop
  {
    var s;
    run, s := NotifierFindsNone();
    var t := s.(slot := Slot(8, true, Some(1)), nextWaker := 2, owner := Publishing(1));
    run := Continued(Initial(false), run, s, OwnerStep, t);
    var u := t.(word := Word(8, Flags(false, true), true), republished := true, owner := Resting(Pending(1)));
    run := Continued(Initial(false), run, t, OwnerStep, u);
  }

  lemma NotifierFindsNone() returns (run: seq<Action>, s: State)
    ensures Possible(Initial(false), run) && After(Initial(false), run) == s
    ensures s == State(Word(NULL, Flags(false, true), false), Slot(8, true, None), Flags(true, false),
                       Writing, Restoring(None), 1, multiset{}, multiset{0}, false)
  {
    var u;
    run, u := PollAgain();
    var t := u.(slot := Slot(8, true, None), dropped := multiset{0}, owner := Writing);
    run := Continued(Initial(false), run, u, OwnerStep, t);
    s := t.(word := Word(NULL, Flags(false, true), false), notifier := Restoring(None), republished := false);
    run := Continued(Initial(false), run, t, NotifierStep, s);
  }

  /** A flag that nobody waits for is set, and before its notifier takes the waker the owner has. */
  lemma PollAgain() returns (run: seq<Action>, s: State)
    ensures Possible(Initial(false), run) && After(Initial(false), run) == s
    ensures s == State(Word(NULL, Flags(false, true), true), Slot(8, true, Some(0)), Flags(true, false),
                       Dropping(Entry, Flags(false, true)), Taking, 1, multiset{}, multiset{}, true)
  {
    var u;
    run, u := FirstPoll();
    var t := u.(word := Word(8, Flags(false, true), true), notifier := Taking);
    run := Continued(Initial(false), run, u, AddFlag(Flags(false, true)), t);
    run := Continued(Initial(false), run, t, Poll, t.(owner := Clearing(Entry)));
    s := t.(word := Word(NULL, Flags(false, true), true), owner := Dropping(Entry, Flags(false, true)));
    run := Continued(Initial(false), run, t.(owner := Clearing(Entry)), OwnerStep, s);
  }

  /** A future waits for the lock and its first poll is pending. */
  lemma FirstPoll() returns (run: seq<Action>, s: State)
    ensures Possible(Initial(false), run) && After(Initial(false), run) == s
    ensures s == State(Word(8, Flags(false, false), true), Slot(8, true, Some(0)), Flags(true, false),
                       Resting(Pending(0)), Off, 1, multiset{}, multiset{}, true)
  {
    var u;
    run, u := FirstWrite();
    var t := u.(slot := Slot(8, true, Some(0)), nextWaker := 1, owner := Publishing(0));
    run := Continued(Initial(false), run, u, OwnerStep, t);
    s := t.(word := Word(8, Flags(false, false), true), republished := true, owner := Resting(Pending(0)));
    run := Continued(Initial(false), run, t, OwnerStep, s);
  }

  lemma FirstWrite() returns (run: seq<Action>, s: State)
    ensures Possible(Initial(false), run) && After(Initial(false), run) == s
    ensures s == Initial(false).(slot := Slot(8, true, None), target := Flags(true, false), owner := Writing)
  {
    var t := Initial(false).(slot := Slot(8, true, None), target := Flags(true, false), owner := Resting(Unpolled));
    run := Continued(Initial(false), [], Initial(false), Start(8, Flags(true, false)), t);
    run := Continued(Initial(false), run, t, Poll, t.(owner := Clearing(Entry)));
    s := t.(owner := Writing);
    run := Continued(Initial(false), run, t.(owner := Clearing(Entry)), OwnerStep, s);
  }

  // ----- No wake-up is lost, and nobody waits for ever

  function StepsLeft(n: Notifier): nat {
    match n
    case Off => 0
    case Waking(_) => 1
    case Restoring(_) => 2
    case Reading(_, _) => 3
    case Taking => 4
  }

  /** The notifier finishes what it is doing, undisturbed. */
  function Finish(s: State): State
    decreases StepsLeft(s.notifier)
  {
    if s.notifier.Off? then s else Finish(StepNotifier(s))
  }

  lemma {:induction false} FinishWakes(s: State, w: nat)
    requires Inv(s) && s.owner == Resting(Pending(w))
    requires s.slot.waker == Some(w) ==> s.notifier.Taking? || s.notifier.Reading?
    ensures w in Finish(s).woken
    decreases StepsLeft(s.notifier)
  {
    if !s.notifier.Off? {
      NotifierKeepsInv(s);
      FinishWakes(StepNotifier(s), w);
    }
  }

  /** If the last poll returned `Pending` and a flag it waits for is set, the waker of that poll
      has been woken, or the notifier is mid-step and its own remaining steps wake it. */
  lemma {:induction false} NoLostWakeUp(hasLock: bool, run: seq<Action>, w: nat)
    requires Possible(Initial(hasLock), run)
    requires var s := After(Initial(hasLock), run);
             s.owner == Resting(Pending(w)) && s.word.flags.Meets(s.target)
    ensures var s := After(Initial(hasLock), run);
            w in s.woken || (!s.notifier.Off? && w in Finish(s).woken)
  {
    RunKeepsInv(hasLock, run);
    FinishWakes(After(Initial(hasLock), run), w);
  }

  /** Flag or no flag: after a pending poll the waker is registered, or it is woken in the end. */
  lemma {:induction false} WakerStaysRegistered(hasLock: bool, run: seq<Action>, w: nat)
    requires Possible(Initial(hasLock), run) && After(Initial(hasLock), run).owner == Resting(Pending(w))
    ensures var s := After(Initial(hasLock), run);
            (s.word.addr == s.slot.addr && s.slot.waker == Some(w)) || w in Finish(s).woken
  {
    var s := After(Initial(hasLock), run);
    RunKeepsInv(hasLock, run);
    if !(s.word.addr == s.slot.addr && s.slot.waker == Some(w)) {
      FinishWakes(s, w);
    }
  }

  /** A poll is only ever `Ready` with a flag that it waited for, and that flag is still set. */
  lemma {:induction false} ReadyHasAFlag(hasLock: bool, run: seq<Action>)
    requires Possible(Initial(hasLock), run)
    requires var s := After(Initial(hasLock), run);
             s.owner.Resting? && s.owner.last.Ready?
    ensures var s := After(Initial(hasLock), run);
            s.owner.last.flags.Meets(s.target) && s.word.flags.Covers(s.owner.last.flags)
  {
    RunKeepsInv(hasLock, run);
  }

  lemma {:induction false} FinishRestores(s: State)
    requires Inv(s)
    ensures Inv(Finish(s)) && Finish(s).notifier.Off? && Finish(s).owner == s.owner
    decreases StepsLeft(s.notifier)
  {
    if !s.notifier.Off? {
      NotifierKeepsInv(s);
      FinishRestores(StepNotifier(s));
    }
  }

  /** While the owner spins, the notifier is between its fetch_and and its fetch_or or CAN_DROP is
      set already, so that the spin ends once the notifier is done. */
  lemma {:induction false} SpinningEnds(hasLock: bool, run: seq<Action>)
    requires Possible(Initial(hasLock), run) && After(Initial(hasLock), run).owner.Spinning?
    ensures var s := After(Initial(hasLock), run);
            && (!s.word.canDrop ==> s.notifier.Reading? || s.notifier.Restoring?)
            && !StepOwner(Finish(s)).owner.Spinning?
  {
    RunKeepsInv(hasLock, run);
    FinishRestores(After(Initial(hasLock), run));
  }

  /** Once set, CAN_DROP stays set for a spinning owner, whatever notifiers do next. */
  lemma {:induction false} SpinningIsNotProlonged(hasLock: bool, run: seq<Action>, a: Action)
    requires Possible(Initial(hasLock), run) && Enabled(After(Initial(hasLock), run), a) && !a.OwnerStep?
    requires var s := After(Initial(hasLock), run);
             s.owner.Spinning? && s.word.canDrop
    ensures var s := After(Initial(hasLock), run);
            Apply(s, a).owner == s.owner && Apply(s, a).word.canDrop
  {
    RunKeepsInv(hasLock, run);
  }

  function OwnerStepsLeft(o: Owner): nat {
    match o
    case NoFuture => 0
    case Resting(_) => 0
    case Freeing => 1
    case Spinning(call, _) => CallSteps(call)
    case Dropping(call, _) => CallSteps(call)
    case Clearing(call) => CallSteps(call) + 1
    case Publishing(_) => 4
    case Writing => 5
  }

  function CallSteps(call: Call): nat {
    match call case Entry => 6 case Retry => 2 case Final => 2
  }

  /** Once the notifier is done, every step of the owner brings its call closer to its end. */
  lemma {:induction false} OwnerProgress(s: State)
    requires Inv(s) && s.notifier.Off? && Enabled(s, OwnerStep)
    ensures Inv(StepOwner(s)) && StepOwner(s).notifier.Off?
    ensures OwnerStepsLeft(StepOwner(s).owner) < OwnerStepsLeft(s.owner)
  {
    OwnerKeepsInv(s);
    OwnerMovesOn(s);
  }

  lemma OwnerMovesOn(s: State)
    requires s.word.canDrop && Enabled(s, OwnerStep)
    ensures OwnerStepsLeft(StepOwner(s).owner) < OwnerStepsLeft(s.owner)
  {
    match s.owner
    case Clearing(call) => match call { case Entry => case Retry => case Final => }
    case Dropping(call, seen) => match call { case Entry => case Retry => case Final => }
    case Spinning(call, seen) => match call { case Entry => case Retry => case Final => }
    case _ =>
  }
}
