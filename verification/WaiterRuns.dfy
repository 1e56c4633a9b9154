/** What a run of the wake-up cell comes to, told from the history of the run: the flags are those that
    have been added, and a poll answers for what was set when it began. */
module WaiterRuns {
  import opened QueueSpec
  import opened Waiters

  // ----- Flags

  predicate AddsLock(run: seq<Action>, k: nat) {
    k < |run| && run[k].AddFlag? && run[k].flag.lock
  }

  predicate AddsEvict(run: seq<Action>, k: nat) {
    k < |run| && run[k].AddFlag? && run[k].flag.evict
  }

  /** A flag is set if and only if it has been added, or was there from the start: none is lost, whoever
      polls and cancels meanwhile, and none is set by anything else. */
  lemma {:induction false} FlagsAreThoseAdded(hasLock: bool, run: seq<Action>)
    requires Possible(Initial(hasLock), run)
    ensures var f := After(Initial(hasLock), run).word.flags;
            && (f.lock <==> hasLock || exists k: nat :: AddsLock(run, k))
            && (f.evict <==> exists k: nat :: AddsEvict(run, k))
  {
    if run != [] {
      var n := |run| - 1;
      FlagsAreThoseAdded(hasLock, run[..n]);
      StepAdds(After(Initial(hasLock), run[..n]), run[n]);
      AddedSoFar(run);
    }
  }

  lemma AddedSoFar(run: seq<Action>)
    requires run != []
    ensures var n := |run| - 1;
            && ((exists k: nat :: AddsLock(run, k)) <==> (exists k: nat :: AddsLock(run[..n], k)) || AddsLock(run, n))
            && ((exists k: nat :: AddsEvict(run, k))
                <==> (exists k: nat :: AddsEvict(run[..n], k)) || AddsEvict(run, n))
  {
    var n := |run| - 1;
    forall k: nat | k < n
      ensures AddsLock(run, k) <==> AddsLock(run[..n], k)
      ensures AddsEvict(run, k) <==> AddsEvict(run[..n], k)
    {
    }
    forall k: nat | AddsLock(run[..n], k) ensures AddsLock(run, k) {}
    forall k: nat | AddsEvict(run[..n], k) ensures AddsEvict(run, k) {}
  }

  lemma StepAdds(s: State, a: Action)
    ensures var f := Apply(s, a).word.flags;
            && (f.lock <==> s.word.flags.lock || (a.AddFlag? && a.flag.lock))
            && (f.evict <==> s.word.flags.evict || (a.AddFlag? && a.flag.evict))
  {
  }

  function NumAdded(run: seq<Action>): nat {
    if run == [] then 0 else NumAdded(run[..|run| - 1]) + if run[|run| - 1].AddFlag? then 1 else 0
  }

  /** Each flag added wakes at most one waker, and nothing else wakes any. */
  lemma {:induction false} OneWakeEach(hasLock: bool, run: seq<Action>)
    requires Possible(Initial(hasLock), run)
    ensures var s := After(Initial(hasLock), run);
            |s.woken| + (if s.notifier.Off? then 0 else 1) <= NumAdded(run)
  {
    if run != [] {
      OneWakeEach(hasLock, run[..|run| - 1]);
    }
  }

  // ----- What the owner has been asked for

  predicate IsRequest(a: Action) {
    a.Start? || a.Poll? || a.Cancel?
  }

  /** The last time the owner was asked for something, counted from 1. */
  function Request(run: seq<Action>): (n: nat)
    ensures n <= |run| && (n > 0 ==> IsRequest(run[n - 1]))
    ensures forall k :: n <= k < |run| ==> !IsRequest(run[k])
  {
    if run == [] then 0 else if IsRequest(run[|run| - 1]) then |run| else Request(run[..|run| - 1])
  }

  /** The flags that the last future to be made waits for. */
  function Target(run: seq<Action>): Flags {
    if run == [] then Flags(false, false)
    else if run[|run| - 1].Start? then run[|run| - 1].target
    else Target(run[..|run| - 1])
  }

  predicate PollIsUnderWay(o: Owner) {
    CallOf(o, Entry) || CallOf(o, Retry) || o.Writing? || o.Publishing?
  }

  /** What the owner does about `a`, or has done. */
  predicate Answers(o: Owner, a: Action) {
    match a
    case Start(_, _) => o == Resting(Unpolled)
    case Poll => PollIsUnderWay(o) || (o.Resting? && !o.last.Unpolled?)
    case Cancel => CallOf(o, Final) || o.Freeing? || o.NoFuture?
    case _ => false
  }

  lemma StepAnswers(s: State, a: Action, last: Action)
    requires Enabled(s, a) && !IsRequest(a) && Answers(s.owner, last)
    ensures Answers(Apply(s, a).owner, last)
  {
    match s.owner
    case Clearing(call) => match call { case Entry => case Retry => case Final => }
    case Dropping(call, seen) => match call { case Entry => case Retry => case Final => }
    case Spinning(call, seen) => match call { case Entry => case Retry => case Final => }
    case _ =>
  }

  /** A future that has been made rests until it is polled, a poll ends with an answer, and a cancelled
      future goes; the future waits for what it was made for. */
  lemma {:induction false} OwnerAnswers(hasLock: bool, run: seq<Action>)
    requires Possible(Initial(hasLock), run)
    ensures var s, n := After(Initial(hasLock), run), Request(run);
            && (if n == 0 then s.owner.NoFuture? else Answers(s.owner, run[n - 1]))
            && s.target == Target(run)
  {
    if run != [] {
      var before, a := run[..|run| - 1], run[|run| - 1];
      OwnerAnswers(hasLock, before);
      if !IsRequest(a) && Request(before) > 0 {
        StepAnswers(After(Initial(hasLock), before), a, before[Request(before) - 1]);
      }
    }
  }

  // ----- What a poll answers

  /** A poll that began with the flags `f` and the next waker `m`. */
  predicate Polling(s: State, f: Flags, m: nat) {
    && s.word.flags.Covers(f) && (s.target.lock || s.target.evict)
    && match s.owner
       case Clearing(Entry) => s.nextWaker == m
       case Dropping(Entry, seen) => s.nextWaker == m && seen.Covers(f)
       case Spinning(Entry, seen) => s.nextWaker == m && seen.Covers(f)
       case Writing => s.nextWaker == m && !f.Covers(s.target)
       case Publishing(w) => w == m && s.nextWaker == m + 1 && !f.Covers(s.target)
       case Clearing(Retry) => s.nextWaker == m + 1 && !f.Covers(s.target)
       case Dropping(Retry, seen) => s.nextWaker == m + 1 && !f.Covers(s.target) && seen.Covers(f)
       case Spinning(Retry, seen) => s.nextWaker == m + 1 && !f.Covers(s.target) && seen.Covers(f)
       case Resting(last) => Answered(s, last, f, m)
       case _ => false
  }

  predicate Answered(s: State, last: Outcome, f: Flags, m: nat) {
    match last
    case Unpolled => false
    case Ready(flags) =>
      && flags.Covers(f)
      && (if s.nextWaker == m then flags.Covers(s.target) else s.nextWaker == m + 1 && !f.Covers(s.target))
    case Pending(w) => w == m && s.nextWaker == m + 1 && !f.Meets(s.target)
  }

  lemma StepPolls(s: State, a: Action, f: Flags, m: nat)
    requires Enabled(s, a) && !IsRequest(a) && Polling(s, f, m)
    ensures Polling(Apply(s, a), f, m)
  {
    match s.owner
    case Clearing(call) => match call { case Entry => case Retry => case Final => }
    case Dropping(call, seen) => match call { case Entry => case Retry => case Final => }
    case Spinning(call, seen) => match call { case Entry => case Retry => case Final => }
    case Resting(last) => match last { case Unpolled => case Ready(_) => case Pending(_) => }
    case _ =>
  }

  lemma {:induction false} PollIsKept(hasLock: bool, run: seq<Action>)
    requires Possible(Initial(hasLock), run) && Request(run) > 0 && run[Request(run) - 1].Poll?
    ensures var u := After(Initial(hasLock), run[..Request(run) - 1]);
            Polling(After(Initial(hasLock), run), u.word.flags, u.nextWaker)
  {
    var n, before := Request(run), run[..|run| - 1];
    if n == |run| {
      RunKeepsInv(hasLock, before);
    } else {
      assert Request(before) == n && before[..n - 1] == run[..n - 1];
      PollIsKept(hasLock, before);
      var u := After(Initial(hasLock), run[..n - 1]);
      StepPolls(After(Initial(hasLock), before), run[|run| - 1], u.word.flags, u.nextWaker);
    }
  }

  /** A poll that has ended.  It is ready, and reports it, if a flag that it waits for was set when it
      began; it reports every flag set by then; it leaves no waker behind if and only if it has seen all
      that it waits for, as it has if all were set when it began; if it is pending its waker is new. */
  lemma {:induction false} PollAnswers(hasLock: bool, run: seq<Action>)
    requires Possible(Initial(hasLock), run) && Request(run) > 0 && run[Request(run) - 1].Poll?
    requires After(Initial(hasLock), run).owner.Resting?
    ensures var u, s := After(Initial(hasLock), run[..Request(run) - 1]), After(Initial(hasLock), run);
            var f, last, target := u.word.flags, s.owner.last, Target(run);
            && (last.Ready? || (last == Pending(u.nextWaker) && s.nextWaker == u.nextWaker + 1))
            && (f.Meets(target) ==> last.Ready?)
            && (last.Ready? ==> last.flags.Covers(f) && last.flags.Meets(target))
            && (f.Covers(target) ==> s.nextWaker == u.nextWaker)
            && (s.nextWaker == u.nextWaker ==> last.Ready? && last.flags.Covers(target))
  {
    OwnerAnswers(hasLock, run);
    PollIsKept(hasLock, run);
    RunKeepsInv(hasLock, run);
  }
}
