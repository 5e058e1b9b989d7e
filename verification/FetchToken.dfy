/**
  Fetching video frames: the frame pool's client and fetch threads, and the block pool's release notifier.
  Each method is one atomic step. An accepted request is carried by exactly one token until it is answered,
  and a fetch that waits for a released buffer is woken by any release after its flag was cleared.
 */
module FetchToken {
  import opened Options

  /** What the fetch thread is doing for the current frame pool. */
  datatype Fetching = Idle | Fetch | TimedOut | Registering

  /** How an attempt to fetch a block ends. */
  datatype Outcome = Done | DequeueTimedOut | TryLater

  /** How many of the callbacks belong to one frame pool. */
  ghost function Count(cbs: seq<nat>, generation: nat): nat {
    if cbs == [] then 0 else Count(cbs[..|cbs| - 1], generation) + if cbs[|cbs| - 1] == generation then 1 else 0
  }

  lemma CountAppend(cbs: seq<nat>, cb: nat, generation: nat)
    ensures Count(cbs + [cb], generation) == Count(cbs, generation) + if cb == generation then 1 else 0
  {
    assert (cbs + [cb])[..|cbs|] == cbs;
  }

  lemma {:induction false} NotFromTheFuture(cbs: seq<nat>, generation: nat)
    requires forall k :: 0 <= k < |cbs| ==> cbs[k] < generation
    ensures Count(cbs, generation) == 0
  {
    if cbs != [] {
      NotFromTheFuture(cbs[..|cbs| - 1], generation);
    }
  }

  class FramePool {
    // The frame pool; a new one is made at each resolution change.
    var generation: nat
    var outputCb: bool
    var fetchTasks: nat
    var delayedTasks: nat
    var replies: nat
    var fetching: Fetching
    // The block pool, which outlives frame pools. A callback is named by the frame pool that made it.
    var released: bool
    var storedCb: Option<nat>
    var runningCbs: seq<nat>
    // What happened since the last fetch that got no block: releases at any time, those before the flag was
    // cleared, those after, and whether one of the latter was taken by a callback of another frame pool.
    ghost var releasedSinceTimeout: bool
    ghost var releasedBeforeClear: bool
    ghost var releasedSinceClear: bool
    ghost var swallowed: bool

    ghost function Snap(): Snapshot
      reads this
    {
      Snapshot(generation, outputCb, fetchTasks, delayedTasks, replies, fetching, released, storedCb, runningCbs,
               releasedSinceTimeout, releasedBeforeClear, releasedSinceClear, swallowed)
    }

    /** Everything that will lead to an answer. */
    ghost function Tokens(): nat
      reads this
    {
      fetchTasks + delayedTasks + replies
      + (if fetching.Idle? then 0 else 1)
      + (if storedCb == Some(generation) then 1 else 0)
      + Count(runningCbs, generation)
    }

    ghost predicate Valid()
      reads this
    {
      && Tokens() == (if outputCb then 1 else 0)
      && !(released && storedCb.Some?)
      && (storedCb.Some? ==> storedCb.value <= generation)
      && (forall k :: 0 <= k < |runningCbs| ==> runningCbs[k] <= generation)
      && (fetching.Registering? && releasedSinceClear && !swallowed ==> released)
      && (storedCb == Some(generation) && !swallowed ==> !releasedSinceClear)
      && (fetching.TimedOut? ==> (releasedSinceTimeout <==> releasedBeforeClear))
      && (fetching.Registering? || storedCb == Some(generation) ==>
            && (releasedSinceTimeout <==> releasedBeforeClear || releasedSinceClear)
            && (swallowed ==> releasedSinceClear))
    }

    constructor ()
      ensures Valid() && Snap() == INITIAL
    {
      generation, outputCb, fetchTasks, delayedTasks, replies, fetching := 0, false, 0, 0, 0, Idle;
      released, storedCb, runningCbs := false, None, [];
      releasedSinceTimeout, releasedBeforeClear, releasedSinceClear, swallowed := false, false, false, false;
    }

    /** A request is accepted only when no other is under way; then exactly one token is made. */
    method GetVideoFrame() returns (accepted: bool)
      requires Valid()
      modifies this`outputCb, this`fetchTasks
      ensures Valid() && accepted == !old(outputCb) && outputCb
      ensures fetchTasks == old(fetchTasks) + if accepted then 1 else 0
    {
      if outputCb {
        return false;
      }
      outputCb := true;
      fetchTasks := fetchTasks + 1;
      return true;
    }

    /** A posted or delayed fetch task starts. */
    method StartFetch(delayed: bool)
      requires Valid() && fetching.Idle? && (if delayed then delayedTasks > 0 else fetchTasks > 0)
      modifies this`fetching, this`fetchTasks, this`delayedTasks
      ensures Valid() && fetching.Fetch?
      ensures delayedTasks == old(delayedTasks) - (if delayed then 1 else 0)
      ensures fetchTasks == old(fetchTasks) - (if delayed then 0 else 1)
    {
      if delayed {
        delayedTasks := delayedTasks - 1;
      } else {
        fetchTasks := fetchTasks - 1;
      }
      fetching := Fetch;
    }

    /** fetchGraphicBlock() comes back; anything but a timeout is answered. */
    method FetchReturns(outcome: Outcome)
      requires Valid() && fetching.Fetch?
      modifies this`fetching, this`replies, this`releasedSinceTimeout, this`releasedBeforeClear,
               this`releasedSinceClear, this`swallowed
      ensures Valid()
      ensures fetching == match outcome case Done => Idle case DequeueTimedOut => TimedOut case TryLater => Registering
      ensures replies == old(replies) + if outcome.Done? then 1 else 0
      ensures releasedSinceTimeout == if outcome.Done? then old(releasedSinceTimeout) else outcome.TryLater? && released
      ensures releasedBeforeClear == (outcome.Done? && old(releasedBeforeClear))
      ensures releasedSinceClear == if outcome.TryLater? then released else old(releasedSinceClear)
      ensures swallowed == (old(swallowed) && !outcome.TryLater?)
    {
      match outcome {
        case Done =>
          replies := replies + 1;
          fetching := Idle;
        case DequeueTimedOut =>
          releasedSinceTimeout, releasedBeforeClear := false, false;
          fetching := TimedOut;
        case TryLater =>
          releasedSinceTimeout, releasedBeforeClear := released, false;
          releasedSinceClear, swallowed := released, false;
          fetching := Registering;
      }
    }

    /** After a dequeue timed out, the release flag is cleared. */
    method ClearReleased()
      requires Valid() && fetching.TimedOut?
      modifies this`fetching, this`released, this`releasedSinceClear, this`swallowed
      ensures Valid() && fetching.Registering? && !released && !releasedSinceClear && !swallowed
    {
      released := false;
      releasedSinceClear, swallowed := false, false;
      fetching := Registering;
    }

    /**
      The fetch asks to be told of a released block: at once if there was a release, later otherwise. Without a
      notifier it tries again after a delay.
     */
    method SetNotifyBlockAvailableCb(hasNotifier: bool)
      requires Valid() && fetching.Registering?
      modifies this`fetching, this`delayedTasks, this`released, this`storedCb, this`fetchTasks
      ensures Valid() && fetching.Idle?
      ensures hasNotifier && releasedSinceClear && !swallowed ==> old(released)
      ensures fetchTasks == old(fetchTasks) + (if hasNotifier && old(released) then 1 else 0)
      ensures storedCb == if hasNotifier && !old(released) then Some(generation) else old(storedCb)
      ensures released == (old(released) && !hasNotifier)
      ensures delayedTasks == old(delayedTasks) + (if hasNotifier then 0 else 1)
    {
      fetching := Idle;
      if !hasNotifier {
        delayedTasks := delayedTasks + 1;
        return;
      }
      if released {
        released := false;
        fetchTasks := fetchTasks + 1;
      } else {
        storedCb := Some(generation);
      }
    }

    /** A buffer was released: the stored callback is taken out to be run, or the flag remembers the release. */
    method OnEventNotified()
      requires Valid()
      modifies this`released, this`storedCb, this`runningCbs, this`releasedSinceTimeout, this`releasedBeforeClear,
               this`releasedSinceClear, this`swallowed
      ensures Valid() && storedCb.None?
      ensures released == old(storedCb).None?
      ensures runningCbs == old(runningCbs) + if old(storedCb).Some? then [old(storedCb).value] else []
      ensures releasedSinceTimeout && releasedSinceClear
      ensures releasedBeforeClear == (old(releasedBeforeClear) || fetching.TimedOut?)
      ensures swallowed == (old(swallowed) || (old(storedCb).Some? && old(storedCb).value != generation))
    {
      hide Count;
      released := true;
      releasedSinceTimeout, releasedSinceClear := true, true;
      releasedBeforeClear := releasedBeforeClear || fetching.TimedOut?;
      if storedCb.Some? {
        released := false;
        swallowed := swallowed || storedCb.value != generation;
        CountAppend(runningCbs, storedCb.value, generation);
        runningCbs, storedCb := runningCbs + [storedCb.value], None;
      }
    }

    /** A callback that was taken out runs: it posts a fetch task, which is dropped if its frame pool is gone. */
    method RunCallback()
      requires Valid() && runningCbs != []
      modifies this`runningCbs, this`fetchTasks
      ensures Valid() && runningCbs == old(runningCbs)[..|old(runningCbs)| - 1]
      ensures fetchTasks == old(fetchTasks) + if old(runningCbs)[|old(runningCbs)| - 1] == generation then 1 else 0
    {
      if runningCbs[|runningCbs| - 1] == generation {
        fetchTasks := fetchTasks + 1;
      }
      runningCbs := runningCbs[..|runningCbs| - 1];
    }

    /** The reply reaches the client. */
    method OnVideoFrameReady()
      requires Valid() && replies > 0
      modifies this`outputCb, this`replies
      ensures Valid() && old(outputCb) && !outputCb && replies == 0
    {
      if !outputCb {
        assert false;  // a reply without a request
      }
      replies := replies - 1;
      outputCb := false;
    }

    /** A resolution change: tasks and replies of the old frame pool are dropped, its stored callback is not. */
    method Replace()
      requires Valid()
      modifies this`generation, this`outputCb, this`fetchTasks, this`delayedTasks, this`replies, this`fetching
      ensures Valid() && generation == old(generation) + 1 && !outputCb && fetching.Idle?
      ensures fetchTasks == delayedTasks == replies == 0
    {
      generation := generation + 1;
      outputCb, fetchTasks, delayedTasks, replies, fetching := false, 0, 0, 0, Idle;
      NotFromTheFuture(runningCbs, generation);
    }

    /** A request under way has one token, and no answer is left over once it is answered. */
    lemma OneToken()
      requires Valid()
      ensures outputCb <==> Tokens() == 1
      ensures !outputCb ==> replies == 0 && fetchTasks == 0 && delayedTasks == 0 && storedCb != Some(generation)
      ensures replies <= 1
    {
    }

    /** A fetch that waits has missed no release since the flag was cleared, unless a dead pool's callback took it. */
    lemma WaitingMissedNothing()
      requires Valid() && storedCb == Some(generation)
      ensures !released && (releasedSinceClear ==> swallowed)
    {
    }

    /**
      A fetch that waits has missed a release exactly when one fell between the dequeue that timed out and the
      clearing of the flag, or when a dead pool's callback took one.
     */
    lemma MissedIff()
      requires Valid() && storedCb == Some(generation)
      ensures releasedSinceTimeout <==> releasedBeforeClear || swallowed
    {
    }
  }

  // ----- Every interleaving -----

  datatype Step =
    | ClientRequests | ClientGetsReply | ClientReplacesPool
    | FetchStarts(delayed: bool) | FetchEnds(outcome: Outcome) | FetchClears | FetchRegisters(hasNotifier: bool)
    | BufferReleased | CallbackRuns

  datatype Snapshot =
    Snapshot(generation: nat, outputCb: bool, fetchTasks: nat, delayedTasks: nat, replies: nat, fetching: Fetching,
             released: bool, storedCb: Option<nat>, runningCbs: seq<nat>, releasedSinceTimeout: bool,
             releasedBeforeClear: bool, releasedSinceClear: bool, swallowed: bool)

  const INITIAL: Snapshot := Snapshot(0, false, 0, 0, 0, Idle, false, None, [], false, false, false, false)

  /** A step that can be taken now. */
  ghost predicate Enabled(s: Snapshot, step: Step) {
    match step
    case ClientRequests => !s.outputCb
    case ClientGetsReply => s.replies > 0
    case ClientReplacesPool => true
    case FetchStarts(delayed) => s.fetching.Idle? && (if delayed then s.delayedTasks > 0 else s.fetchTasks > 0)
    case FetchEnds(outcome) => s.fetching.Fetch?
    case FetchClears => s.fetching.TimedOut?
    case FetchRegisters(hasNotifier) => s.fetching.Registering?
    case BufferReleased => true
    case CallbackRuns => s.runningCbs != []
  }

  /** What a step does. */
  ghost predicate Taken(s: Snapshot, step: Step, t: Snapshot)
    requires Enabled(s, step)
  {
    match step
    case ClientRequests => t == s.(outputCb := true, fetchTasks := s.fetchTasks + 1)
    case ClientGetsReply => t == s.(outputCb := false, replies := 0)
    case ClientReplacesPool =>
      t == s.(generation := s.generation + 1, outputCb := false, fetchTasks := 0, delayedTasks := 0, replies := 0,
              fetching := Idle)
    case FetchStarts(delayed) =>
      if delayed then t == s.(fetching := Fetch, delayedTasks := s.delayedTasks - 1)
      else t == s.(fetching := Fetch, fetchTasks := s.fetchTasks - 1)
    case FetchEnds(Done) => t == s.(fetching := Idle, replies := s.replies + 1)
    case FetchEnds(DequeueTimedOut) =>
      t == s.(fetching := TimedOut, releasedSinceTimeout := false, releasedBeforeClear := false)
    case FetchEnds(TryLater) =>
      t == s.(fetching := Registering, releasedSinceTimeout := s.released, releasedBeforeClear := false,
              releasedSinceClear := s.released, swallowed := false)
    case FetchClears =>
      t == s.(fetching := Registering, released := false, releasedSinceClear := false, swallowed := false)
    case FetchRegisters(hasNotifier) =>
      if !hasNotifier then t == s.(fetching := Idle, delayedTasks := s.delayedTasks + 1)
      else if s.released then t == s.(fetching := Idle, released := false, fetchTasks := s.fetchTasks + 1)
      else t == s.(fetching := Idle, storedCb := Some(s.generation))
    case BufferReleased =>
      && t.storedCb.None? && t.released == s.storedCb.None?
      && t.runningCbs == s.runningCbs + (if s.storedCb.Some? then [s.storedCb.value] else [])
      && t.releasedSinceTimeout && t.releasedSinceClear
      && t.releasedBeforeClear == (s.releasedBeforeClear || s.fetching.TimedOut?)
      && t.swallowed == (s.swallowed || (s.storedCb.Some? && s.storedCb.value != s.generation))
      && (t.generation, t.outputCb, t.fetchTasks, t.delayedTasks, t.replies, t.fetching)
         == (s.generation, s.outputCb, s.fetchTasks, s.delayedTasks, s.replies, s.fetching)
    case CallbackRuns =>
      var last := |s.runningCbs| - 1;
      t == s.(runningCbs := s.runningCbs[..last],
              fetchTasks := s.fetchTasks + if s.runningCbs[last] == s.generation then 1 else 0)
  }

  /** A step that is not enabled is skipped. */
  ghost predicate Next(s: Snapshot, step: Step, t: Snapshot) {
    if Enabled(s, step) then Taken(s, step, t) else t == s
  }

  /** Any interleaving of the client, the fetch thread and the notifier. */
  method Run(steps: seq<Step>) returns (p: FramePool, ghost history: seq<Snapshot>)
    ensures p.Valid()
    ensures |history| == |steps| + 1 && history[0] == INITIAL && history[|steps|] == p.Snap()
    ensures forall n :: 0 <= n < |steps| ==> Next(history[n], steps[n], history[n + 1])
  {
    p := new FramePool();
    history := [p.Snap()];
    for n := 0 to |steps|
      invariant fresh(p) && p.Valid()
      invariant |history| == n + 1 && history[0] == INITIAL && history[n] == p.Snap()
      invariant forall k :: 0 <= k < n ==> Next(history[k], steps[k], history[k + 1])
    {
      hide FramePool.Valid, Next;
      Handle(p, steps[n]);
      history := history + [p.Snap()];
    }
  }

  method Handle(p: FramePool, step: Step)
    requires p.Valid()
    modifies p
    ensures p.Valid() && Next(old(p.Snap()), step, p.Snap())
  {
    hide FramePool.Valid, FramePool.Snap, Next;
    if step.ClientRequests? || step.ClientGetsReply? || step.ClientReplacesPool? {
      ClientStep(p, step);
    } else if step.BufferReleased? || step.CallbackRuns? {
      NotifierStep(p, step);
    } else if step.FetchStarts? || step.FetchEnds? {
      FetchStep(p, step);
    } else {
      RegisterStep(p, step);
    }
  }

  method ClientStep(p: FramePool, step: Step)
    requires p.Valid() && (step.ClientRequests? || step.ClientGetsReply? || step.ClientReplacesPool?)
    modifies p
    ensures p.Valid() && Next(old(p.Snap()), step, p.Snap())
  {
    hide FramePool.Valid;
    match step {
      case ClientRequests => var accepted := p.GetVideoFrame();
      case ClientGetsReply => if p.replies > 0 { p.OnVideoFrameReady(); }
      case ClientReplacesPool => p.Replace();
    }
  }

  method NotifierStep(p: FramePool, step: Step)
    requires p.Valid() && (step.BufferReleased? || step.CallbackRuns?)
    modifies p
    ensures p.Valid() && Next(old(p.Snap()), step, p.Snap())
  {
    hide FramePool.Valid;
    match step {
      case BufferReleased => p.OnEventNotified();
      case CallbackRuns => if p.runningCbs != [] { p.RunCallback(); }
    }
  }

  method FetchStep(p: FramePool, step: Step)
    requires p.Valid() && (step.FetchStarts? || step.FetchEnds?)
    modifies p
    ensures p.Valid() && Next(old(p.Snap()), step, p.Snap())
  {
    hide FramePool.Valid;
    match step {
      case FetchStarts(delayed) =>
        if p.fetching.Idle? && (if delayed then p.delayedTasks > 0 else p.fetchTasks > 0) {
          p.StartFetch(delayed);
        }
      case FetchEnds(outcome) => if p.fetching.Fetch? { p.FetchReturns(outcome); }
    }
  }

  method RegisterStep(p: FramePool, step: Step)
    requires p.Valid() && (step.FetchClears? || step.FetchRegisters?)
    modifies p
    ensures p.Valid() && Next(old(p.Snap()), step, p.Snap())
  {
    hide FramePool.Valid;
    match step {
      case FetchClears => if p.fetching.TimedOut? { p.ClearReleased(); }
      case FetchRegisters(hasNotifier) => if p.fetching.Registering? { p.SetNotifyBlockAvailableCb(hasNotifier); }
    }
  }

  // ----- Releases that are missed -----

  /** Asks for a frame, and runs the fetch up to the point where the dequeue has timed out. */
  method RequestUntilTimeout(p: FramePool)
    requires p.Valid() && !p.outputCb
    modifies p`outputCb, p`fetchTasks, p`delayedTasks, p`fetching, p`replies, p`releasedSinceTimeout,
             p`releasedBeforeClear, p`releasedSinceClear, p`swallowed
    ensures p.Valid() && p.fetching.TimedOut?
  {
    var accepted := p.GetVideoFrame();
    p.StartFetch(false);
    p.FetchReturns(DequeueTimedOut);
  }

  /**
    A buffer released after the dequeue timed out, but before the flag is cleared: whatever the state of the pool,
    the fetch waits all the same.
   */
  method ReleaseBeforeClearIsMissed(p: FramePool)
    requires p.Valid() && p.fetching.TimedOut?
    modifies p
    ensures p.Valid() && p.storedCb == Some(p.generation) && p.fetching.Idle? && !p.released
    ensures p.releasedSinceTimeout && p.releasedBeforeClear && !p.releasedSinceClear
  {
    p.OnEventNotified();
    p.ClearReleased();
    p.SetNotifyBlockAvailableCb(true);
  }

  /** The callback of a frame pool that is gone takes the release that the next one waits for. */
  method DeadPoolSwallowsRelease() returns (p: FramePool)
    ensures p.Valid() && p.storedCb == Some(p.generation) && p.releasedSinceClear
  {
    p := new FramePool();
    RequestUntilTimeout(p);
    p.ClearReleased();
    p.SetNotifyBlockAvailableCb(true);
    p.Replace();
    WaitInVain(p);
  }

  /** A callback of an older frame pool is stored. */
  method WaitInVain(p: FramePool)
    requires p.Valid() && !p.outputCb && p.storedCb.Some? && p.storedCb.value != p.generation
    modifies p
    ensures p.Valid() && p.storedCb == Some(p.generation) && p.releasedSinceClear
  {
    RequestUntilTimeout(p);
    p.ClearReleased();
    p.OnEventNotified();
    p.SetNotifyBlockAvailableCb(true);
  }
}
