/** The handshake between the block's thread, which calls, and the interruptible thread,
    which runs the callable. Every access to the flags is under one mutex, so each stretch
    from taking the lock to releasing it is one step, except that the runner holds the lock
    for as long as the callable runs. Both sides wait on one condition variable. */
module Handshake {

  /** Where the calling thread is. Wants: about to take the lock in call(). Notifying: asked,
      lock released, notification not yet sent. Relock: about to take the lock and look at
      the acknowledgement. Asleep: in the condition wait. Interrupting, Joining: in the
      destructor. Gone: destroyed. */
  datatype Caller = Idle | Wants | Notifying | Relock | Asleep | Interrupting | Joining | Gone

  /** Where the runner is. Head, Inner: about to take the lock at the loop head, or again
      inside the wait loop. Napping: in the condition wait. Running: in the callable, lock
      held. Acking, Leaving: lock released, notification not yet sent, before another round
      or before the end. Out: returned from run(). Stuck: the callable destroyed its own
      thread object, and waits for the lock it holds. */
  datatype Runner = Head | Inner | Napping | Running | Acking | Leaving | Out | Stuck

  /** asked: requests made. started, finished: times the callable was entered and completed.
      returned: the number of calls that came back after asking. */
  datatype State = State(
    caller: Caller, runner: Runner,
    waitMsg: bool, waitAck: bool, callable: bool, interrupt: bool,
    asked: nat, started: nat, finished: nat, returned: nat)

  datatype Step =
    | Begin          // the actor calls
    | Enter          // take the lock in call(): ask, or return if there is no callable
    | NotifyRunner
    | Look           // take the lock: consume the acknowledgement, or go to sleep
    | CallerSpurious
    | Destroy        // destructor: take the callable away
    | DoInterrupt    // destructor: interrupt
    | Join
    | Top            // runner at the loop head
    | Recheck        // runner back from the condition wait, which throws if it was interrupted
    | RunnerSpurious
    | InterruptNap   // an interrupt throws out of the condition wait
    | Finish         // the callable returns
    | Throw          // the callable throws, interrupted or not
    | Swallow        // the callable catches an interrupt and goes on
    | SelfDestroy    // the callable marks its block done, which destroys this object
    | NotifyCaller
    | StopAll        // the executor interrupts every thread

  predicate Locked(s: State) {
    s.runner.Running? || s.runner.Stuck?
  }

  predicate Enabled(s: State, t: Step) {
    match t
    case Begin => s.caller.Idle?
    case Enter => s.caller.Wants? && !Locked(s)
    case NotifyRunner => s.caller.Notifying?
    case Look => s.caller.Relock? && !Locked(s)
    case CallerSpurious => s.caller.Asleep?
    case Destroy => s.caller.Idle? && !Locked(s)
    case DoInterrupt => s.caller.Interrupting?
    case Join => s.caller.Joining? && s.runner.Out?
    case Top => s.runner.Head?
    case Recheck => s.runner.Inner?
    case RunnerSpurious => s.runner.Napping?
    case InterruptNap => s.runner.Napping? && s.interrupt
    case Finish => s.runner.Running?
    case Throw => s.runner.Running?
    case Swallow => s.runner.Running? && s.interrupt
    case SelfDestroy => s.runner.Running?
    case NotifyCaller => s.runner.Acking? || s.runner.Leaving?
    case StopAll => true
  }

  /** The wait loop and what follows it, with the lock taken. */
  function AfterLock(s: State): State {
    if s.waitMsg then
      if s.interrupt then Exit(s.(interrupt := false)) else s.(runner := Napping)
    else
      var s1 := s.(waitMsg := true);
      if !s1.callable then Exit(s1) else s1.(runner := Running, started := s1.started + 1)
  }

  /** The end of run(): give up the callable and acknowledge. */
  function Exit(s: State): State {
    s.(runner := Leaving, callable := false, waitAck := false)
  }

  function Apply(s: State, t: Step): State
    requires Enabled(s, t)
  {
    match t
    case Begin => s.(caller := Wants)
    case Enter =>
      if !s.callable then s.(caller := Idle)
      else s.(caller := Notifying, waitMsg := false, asked := s.asked + 1)
    case NotifyRunner =>
      s.(caller := Relock, runner := if s.runner.Napping? then Inner else s.runner)
    case Look =>
      if s.waitAck then s.(caller := Asleep)
      else s.(caller := Idle, waitAck := true, returned := s.returned + 1)
    case CallerSpurious => s.(caller := Relock)
    case Destroy => s.(caller := Interrupting, callable := false)
    case DoInterrupt => s.(caller := Joining, interrupt := true)
    case Join => s.(caller := Gone)
    case Top => if s.interrupt then Exit(s) else AfterLock(s)
    case Recheck => if s.interrupt then Exit(s.(interrupt := false)) else AfterLock(s)
    case RunnerSpurious => s.(runner := Inner)
    case InterruptNap => Exit(s.(interrupt := false))
    case Finish => s.(runner := Acking, waitAck := false, finished := s.finished + 1)
    case Throw => Exit(s)
    case Swallow => s.(interrupt := false)
    case SelfDestroy => s.(runner := Stuck)
    case NotifyCaller =>
      s.(runner := if s.runner.Acking? then Head else Out,
         caller := if s.caller.Asleep? then Relock else s.caller)
    case StopAll => s.(interrupt := true)
  }

  /** After the constructor's spawn barrier. */
  const START: State := State(Idle, Head, true, true, true, false, 0, 0, 0, 0)

  predicate Exited(s: State) {
    s.runner.Leaving? || s.runner.Out?
  }

  predicate Awaiting(s: State) {
    s.caller.Notifying? || s.caller.Relock? || s.caller.Asleep?
  }

  predicate Inv(s: State) {
    // bookkeeping of requests and answers
    && s.asked == s.returned + (if Awaiting(s) then 1 else 0)
    && (!Exited(s) ==> s.asked == s.started + (if s.waitMsg then 0 else 1))
    && (!Exited(s) ==> s.started == s.finished + (if Locked(s) then 1 else 0))
    && s.finished <= s.started <= s.asked <= s.started + 1
    // the acknowledgement answers the request being waited for
    && (!Exited(s) && !Awaiting(s) ==> s.waitAck && s.waitMsg && !Locked(s))
    && (!Exited(s) && Awaiting(s) && s.waitAck ==> s.finished == s.returned)
    && (!Exited(s) && Awaiting(s) && !s.waitAck ==> s.waitMsg && !Locked(s) && s.finished == s.asked)
    && (Exited(s) ==> !s.callable && (Awaiting(s) ==> !s.waitAck))
    // no lost notification
    && (s.runner.Napping? ==> s.waitMsg || s.caller.Notifying?)
    && (s.caller.Asleep? ==> s.waitAck || s.runner.Acking? || s.runner.Leaving?)
    // the destructor
    && (s.caller.Interrupting? || s.caller.Joining? || s.caller.Gone? ==> !s.callable)
    && (s.caller.Joining? && !Exited(s) ==> s.interrupt)
    && (s.caller.Gone? ==> s.runner.Out?)
  }

  lemma StepKeeps(s: State, t: Step)
    requires Inv(s) && Enabled(s, t)
    ensures Inv(Apply(s, t))
  {
  }

  function RunFrom(s: State, ts: seq<Step>): State
    requires Legal(s, ts)
    decreases |ts|
  {
    if ts == [] then s else RunFrom(Apply(s, ts[0]), ts[1..])
  }

  predicate Legal(s: State, ts: seq<Step>)
    decreases |ts|
  {
    ts != [] ==> Enabled(s, ts[0]) && Legal(Apply(s, ts[0]), ts[1..])
  }

  lemma {:induction false} RunKeeps(s: State, ts: seq<Step>)
    requires Inv(s) && Legal(s, ts)
    ensures Inv(RunFrom(s, ts))
    decreases |ts|
  {
    if ts != [] {
      StepKeeps(s, ts[0]);
      RunKeeps(Apply(s, ts[0]), ts[1..]);
    }
  }

  /** A call that comes back after asking: the callable was entered and completed exactly
      once for it, or the runner has left its loop for good. */
  lemma CallReturnsAfterOneRun(ts: seq<Step>)
    requires Legal(START, ts) && Enabled(RunFrom(START, ts), Look) && !RunFrom(START, ts).waitAck
    ensures var s := RunFrom(START, ts);
            || (s.started == s.returned + 1 && s.finished == s.returned + 1 && s.asked == s.returned + 1)
            || Exited(s)
  {
    RunKeeps(START, ts);
  }

  /** A step of one of the two threads that does not depend on luck or an outside interrupt. */
  const PROGRESS: set<Step> := {Enter, NotifyRunner, Look, DoInterrupt, Join, Top, Recheck, InterruptNap, Finish, NotifyCaller}

  /** Nobody is asleep for good: whenever a call or the destructor is under way, some step of
      one of the two threads other than an outside interrupt can happen, unless the callable
      destroyed its own thread object. */
  lemma NoDeadlock(ts: seq<Step>)
    requires Legal(START, ts)
    ensures var s := RunFrom(START, ts);
            !s.caller.Idle? && !s.caller.Gone? && !s.runner.Stuck?
            ==> exists t :: t in PROGRESS && Enabled(s, t)
  {
    RunKeeps(START, ts);
    var s := RunFrom(START, ts);
    if !s.caller.Idle? && !s.caller.Gone? && !s.runner.Stuck? {
      var t := match s.caller
               case Wants => if s.runner.Running? then Finish else Enter
               case Notifying => NotifyRunner
               case Relock => if s.runner.Running? then Finish else Look
               case Interrupting => DoInterrupt
               case Joining => RunnerMove(s)
               case _ => RunnerMove(s);
      assert Enabled(s, t);
    }
  }

  function RunnerMove(s: State): Step {
    match s.runner
    case Head => Top
    case Inner => Recheck
    case Napping => InterruptNap
    case Running => Finish
    case Out => Join
    case _ => NotifyCaller
  }

  /** Somebody waits: a call has been made and its request sent, or the destructor joins. */
  predicate Waiting(s: State) {
    s.caller.Wants? || s.caller.Relock? || s.caller.Asleep? || s.caller.Joining?
  }

  /** Over every run: while somebody waits, the two threads are blocked if and only if the
      callable has destroyed its own thread object. A spurious wakeup of the caller changes
      nothing about that. */
  lemma BlockedExact(ts: seq<Step>)
    requires Legal(START, ts) && Waiting(RunFrom(START, ts))
    ensures var s := RunFrom(START, ts);
      (forall t :: t in PROGRESS ==> !Enabled(s, t)) <==> s.runner.Stuck?
  {
    NoDeadlock(ts);
    var s := RunFrom(START, ts);
  }

  /** And then for good: whatever follows, the runner stays stuck, no call comes back and the
      destructor does not end. */
  lemma {:induction false} StuckForGood(s: State, ts: seq<Step>)
    requires s.runner.Stuck? && Legal(s, ts)
    ensures var z := RunFrom(s, ts);
      z.runner.Stuck? && z.returned == s.returned && z.finished == s.finished && (z.caller.Gone? ==> s.caller.Gone?)
    decreases |ts|
  {
    if ts != [] {
      StuckForGood(Apply(s, ts[0]), ts[1..]);
    }
  }

  /** A callable that marks its block done from inside work blocks both threads for good, in
      every run: from then on the call it is part of does not come back. */
  lemma SelfDestroyDeadlocks(ts: seq<Step>, rest: seq<Step>)
    requires Legal(START, ts) && Enabled(RunFrom(START, ts), SelfDestroy)
    requires Legal(Apply(RunFrom(START, ts), SelfDestroy), rest)
    ensures var s := RunFrom(START, ts);
      var z := RunFrom(Apply(s, SelfDestroy), rest);
      Awaiting(s) && Awaiting(z) && z.runner.Stuck? && z.returned == s.returned
  {
    RunKeeps(START, ts);
    var s := Apply(RunFrom(START, ts), SelfDestroy);
    StuckForGood(s, rest);
    StillAwaiting(s, rest);
  }

  lemma {:induction false} StillAwaiting(s: State, ts: seq<Step>)
    requires s.runner.Stuck? && Awaiting(s) && Legal(s, ts)
    ensures Awaiting(RunFrom(s, ts))
    decreases |ts|
  {
    if ts != [] {
      StillAwaiting(Apply(s, ts[0]), ts[1..]);
    }
  }

  /** Such a run: the first call, and the callable destroys its thread object. */
  lemma SelfDestroyHappens()
    ensures Legal(START, [Begin, Enter, NotifyRunner, Top])
    ensures Enabled(RunFrom(START, [Begin, Enter, NotifyRunner, Top]), SelfDestroy)
  {
    var s1 := Apply(START, Begin);
    var s2 := Apply(s1, Enter);
    var s3 := Apply(s2, NotifyRunner);
    assert [Top][1..] == [] && [NotifyRunner, Top][1..] == [Top];
    assert [Enter, NotifyRunner, Top][1..] == [NotifyRunner, Top];
    assert [Begin, Enter, NotifyRunner, Top][1..] == [Enter, NotifyRunner, Top];
    assert Legal(s3, [Top]) && Legal(s2, [NotifyRunner, Top]) && Legal(s1, [Enter, NotifyRunner, Top]);
    assert RunFrom(s3, [Top]) == Apply(s3, Top);
    assert RunFrom(s2, [NotifyRunner, Top]) == Apply(s3, Top);
  }

  // ---------------------------------------------------------------- the last run

  /** The runner has left its loop, or will before it enters the callable again. */
  predicate Doomed(s: State) {
    Exited(s) || ((s.interrupt || !s.callable) && !Locked(s))
  }

  lemma DoomedStep(s: State, t: Step)
    requires Doomed(s) && Enabled(s, t)
    ensures Doomed(Apply(s, t)) && Apply(s, t).started == s.started && Apply(s, t).finished == s.finished
  {
  }

  lemma {:induction false} DoomedStays(s: State, ts: seq<Step>)
    requires Doomed(s) && Legal(s, ts)
    ensures var z := RunFrom(s, ts); Doomed(z) && z.started == s.started && z.finished == s.finished
    decreases |ts|
  {
    hide Doomed;
    if ts != [] {
      DoomedStep(s, ts[0]);
      hide Apply;
      hide Enabled;
      DoomedStays(Apply(s, ts[0]), ts[1..]);
    }
  }

  /** A callable that throws is not entered again, and that run does not count as completed; nor is
      it entered after an interrupt, or the destructor, that finds the runner outside of it:
      whatever follows. */
  lemma NoRunAfter(s: State, t: Step, ts: seq<Step>)
    requires Enabled(s, t) && Legal(Apply(s, t), ts)
    requires t == Throw || t == Destroy || ((t == StopAll || t == DoInterrupt) && !Locked(s))
    ensures var z := RunFrom(Apply(s, t), ts); z.started == s.started && z.finished == s.finished
  {
    DoomedStays(Apply(s, t), ts);
  }
}
