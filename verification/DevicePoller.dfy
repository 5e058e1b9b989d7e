/**
  The device poller: a client task runner and a poll thread, joined by an auto-reset event. Each method is
  one atomic step of one of the two threads, so that a sequence of calls is an interleaving. A poll that was
  asked for is not lost: whenever buffers are queued, something is on its way that leads to a service task.
 */
module DevicePoller {

  /** Where the poll thread is in its loop. */
  datatype PollThread = Waiting | Woken | Polling | Exited

  /** What the client's task runner does. */
  datatype Client = Between | Servicing(inputDone: bool, outputDone: bool) | Joining

  datatype Which = Input | Output

  /** What DQBUF answers. */
  datatype Answer = Buffer | Again | Failed

  /** A V4L2 queue as far as polling is concerned. */
  datatype Queue = Queue(queued: nat, streaming: bool)

  function AfterDequeue(q: Queue, answer: Answer): Queue {
    if q.queued > 0 && answer.Buffer? then q.(queued := q.queued - 1) else q
  }

  /** The loop over a queue goes on. */
  predicate More(q: Queue, answer: Answer) {
    q.queued > 0 && answer.Buffer?
  }

  predicate Fails(q: Queue, answer: Answer) {
    q.queued > 0 && answer.Failed?
  }

  /** Buffers stay queued after DQBUF, and another poll is asked for. */
  predicate Reschedules(q: Queue, answer: Answer) {
    (q.queued > 0 && answer.Again?) || (q.queued > 1 && answer.Buffer?)
  }

  class Poller {
    // shared
    var signalled: bool
    var stopPolling: bool
    // poll thread
    var thread: PollThread
    // client
    var isPolling: bool
    var client: Client
    var serviceTasks: nat
    var errorTasks: nat
    var error: bool
    var input: Queue
    var output: Queue

    ghost function Snap(): Snapshot
      reads this
    {
      Snapshot(signalled, stopPolling, thread, isPolling, client, serviceTasks, errorTasks, error, input, output)
    }

    /** A service or error task will come: one is posted, or the poll thread is about to post one. */
    ghost predicate Pending()
      reads this
    {
      signalled || thread.Woken? || thread.Polling? || serviceTasks > 0 || errorTasks > 0
    }

    /** The queue needs no poll, or one is pending. */
    ghost predicate Covered(q: Queue)
      reads this
    {
      q.queued > 0 ==> Pending()
    }

    ghost predicate Valid()
      reads this
    {
      && (input.queued > 0 ==> input.streaming)
      && (output.queued > 0 ==> output.streaming)
      && (client.Joining? ==> stopPolling)
      && (isPolling && !error && !stopPolling ==>
            && (thread.Exited? ==> errorTasks > 0)
            && (client.Between? ==> Covered(input) && Covered(output))
            && (client.Servicing? && client.inputDone ==> Covered(input))
            && (client.Servicing? && client.outputDone ==> Covered(output)))
    }

    /** No lost poll: between tasks, queued buffers mean that a service or error task is on its way. */
    lemma NoLostPoll()
      requires Valid() && isPolling && !stopPolling && !error && client.Between?
      ensures input.queued > 0 || output.queued > 0 ==>
                || serviceTasks > 0
                || errorTasks > 0
                || thread.Woken? || thread.Polling?
                || (signalled && thread.Waiting?)
    {
    }

    constructor ()
      ensures Valid() && Snap() == INITIAL
    {
      signalled, stopPolling, thread, isPolling := false, false, Exited, false;
      client, serviceTasks, errorTasks, error := Between, 0, 0, false;
      input, output := Queue(0, false), Queue(0, false);
    }

    // ----- Poll thread -----

    /** mTriggerPoll.Wait() returns and resets the event. */
    method Wait()
      requires Valid() && thread.Waiting? && signalled
      modifies this`signalled, this`thread
      ensures Valid() && thread.Woken? && !signalled
    {
      signalled := false;
      thread := Woken;
    }

    method CheckStop()
      requires Valid() && thread.Woken?
      modifies this`thread
      ensures Valid() && thread == if stopPolling then Exited else Polling
    {
      thread := if stopPolling then Exited else Polling;
    }

    /** poll() returns: the matching task is posted, and after an error the loop is left. */
    method PollReturns(ok: bool)
      requires Valid() && thread.Polling?
      modifies this`thread, this`serviceTasks, this`errorTasks
      ensures Valid() && thread == (if ok then Waiting else Exited)
      ensures serviceTasks == old(serviceTasks) + (if ok then 1 else 0)
      ensures errorTasks == old(errorTasks) + (if ok then 0 else 1)
    {
      if ok {
        serviceTasks := serviceTasks + 1;
        thread := Waiting;
      } else {
        errorTasks := errorTasks + 1;
        thread := Exited;
      }
    }

    // ----- Client -----

    method SchedulePoll()
      modifies this`signalled
      ensures signalled == (old(signalled) || isPolling)
    {
      if isPolling {
        signalled := true;
      }
    }

    method StartPolling(threadOk: bool) returns (ok: bool)
      requires Valid() && !client.Joining?
      modifies this`isPolling, this`stopPolling, this`thread, this`signalled
      ensures Valid() && ok == (old(isPolling) || threadOk) && isPolling == ok
      ensures old(isPolling) || !ok ==> unchanged(this)
      ensures !old(isPolling) && ok ==> signalled && thread.Waiting? && !stopPolling
    {
      if isPolling {
        return true;
      }
      if !threadOk {
        return false;
      }
      isPolling, stopPolling, thread := true, false, Waiting;
      SchedulePoll();
      return true;
    }

    /** The first half of stopPolling(); a failing interrupt leaves the thread with its stop flag set. */
    method StopPolling(interruptOk: bool)
      requires Valid() && client.Between?
      modifies this`stopPolling, this`signalled, this`client
      ensures Valid()
      ensures !isPolling ==> unchanged(this)
      ensures isPolling ==> stopPolling && signalled && client == (if interruptOk then Joining else Between)
    {
      if !isPolling {
        return;
      }
      stopPolling, signalled := true, true;
      if interruptOk {
        client := Joining;
      }
    }

    /** The second half: the poll thread has left its loop and is joined. */
    method Join()
      requires Valid() && client.Joining? && thread.Exited?
      modifies this`isPolling, this`client
      ensures Valid() && client.Between? && !isPolling
    {
      isPolling := false;
      client := Between;
    }

    /** A buffer is queued, in a task of its own or in the service task, and a poll is scheduled. */
    method QueueBuffer(which: Which)
      requires Valid() && !client.Joining? && (if which.Input? then input.streaming else output.streaming)
      modifies this`input, this`output, this`signalled
      ensures Valid() && signalled == (old(signalled) || isPolling)
      ensures input == if which.Input? then old(input).(queued := old(input).queued + 1) else old(input)
      ensures output == if which.Output? then old(output).(queued := old(output).queued + 1) else old(output)
    {
      match which {
        case Input => input := input.(queued := input.queued + 1);
        case Output => output := output.(queued := output.queued + 1);
      }
      SchedulePoll();
    }

    /** STREAMOFF gives the queued buffers back, STREAMON follows at some point. */
    method SetStreaming(which: Which, on: bool)
      requires Valid() && !client.Joining?
      modifies this`input, this`output
      ensures Valid()
      ensures input == if which.Output? then old(input)
                       else if on then old(input).(streaming := true) else Queue(0, false)
      ensures output == if which.Input? then old(output)
                        else if on then old(output).(streaming := true) else Queue(0, false)
    {
      match which {
        case Input => input := if on then input.(streaming := true) else Queue(0, false);
        case Output => output := if on then output.(streaming := true) else Queue(0, false);
      }
    }

    /** A posted service task starts, and does nothing in the error state. */
    method BeginService()
      requires Valid() && client.Between? && serviceTasks > 0
      modifies this`serviceTasks, this`client
      ensures Valid() && serviceTasks == old(serviceTasks) - 1
      ensures client == if error then Between else Servicing(false, false)
    {
      serviceTasks := serviceTasks - 1;
      if !error {
        client := Servicing(false, false);
      }
    }

    /** One turn of the input loop, then of the output loop. */
    method DequeueTurn(answer: Answer)
      requires Valid() && client.Servicing? && !client.outputDone
      modifies this`input, this`output, this`client, this`signalled, this`error
      ensures Valid()
      ensures input == if old(client).inputDone then old(input) else AfterDequeue(old(input), answer)
      ensures output == if old(client).inputDone then AfterDequeue(old(output), answer) else old(output)
      ensures client.Between? || client.Servicing?
      ensures client.Between? <==> error
      ensures client.Servicing? ==>
                client == if More(if old(client).inputDone then old(output) else old(input), answer) then old(client)
                          else Servicing(true, old(client).inputDone)
      ensures error == (old(error) || Fails(if old(client).inputDone then old(output) else old(input), answer))
      ensures signalled == (|| old(signalled)
                            || (isPolling
                                && Reschedules(if old(client).inputDone then old(output) else old(input), answer)))
    {
      if !client.inputDone {
        var more, q := Dequeue(input, answer);
        input := q;
        if !error && !more {
          client := Servicing(true, false);
        }
      } else {
        var more, q := Dequeue(output, answer);
        output := q;
        if !error && !more {
          client := Servicing(true, true);
        }
      }
      if error {
        client := Between;
      }
    }

    /** dequeueBuffer() and the loop condition: a poll is scheduled while buffers stay queued. */
    method Dequeue(q: Queue, answer: Answer) returns (more: bool, q': Queue)
      requires q.queued > 0 ==> q.streaming
      modifies this`signalled, this`error
      ensures signalled == (old(signalled) || (isPolling && Reschedules(q, answer)))
      ensures error == (old(error) || Fails(q, answer))
      ensures q' == AfterDequeue(q, answer) && more == More(q, answer)
    {
      if q.queued == 0 {
        return false, q;
      }
      match answer {
        case Again =>
          SchedulePoll();
          return false, q;
        case Failed =>
          error := true;
          return false, q;
        case Buffer =>
          q' := q.(queued := q.queued - 1);
          if q'.queued > 0 {
            SchedulePoll();
          }
          return true, q';
      }
    }

    method EndService()
      requires Valid() && client == Servicing(true, true)
      modifies this`client
      ensures Valid() && client.Between?
    {
      client := Between;
    }

    method RunErrorTask()
      requires Valid() && client.Between? && errorTasks > 0
      modifies this`errorTasks, this`error
      ensures Valid() && error && errorTasks == old(errorTasks) - 1
    {
      errorTasks := errorTasks - 1;
      error := true;
    }
  }

  // ----- Every interleaving -----

  datatype Step =
    | PollWait | PollCheck | PollReturn(ok: bool)
    | Start(threadOk: bool) | Stop(interruptOk: bool) | JoinThread
    | Enqueue(which: Which) | Stream(streamWhich: Which, on: bool)
    | ServiceBegins | ServiceTurn(answer: Answer) | ServiceEnds | ErrorTask

  datatype Snapshot =
    Snapshot(signalled: bool, stopPolling: bool, thread: PollThread, isPolling: bool, client: Client, serviceTasks: nat,
             errorTasks: nat, error: bool, input: Queue, output: Queue)

  const INITIAL: Snapshot :=
    Snapshot(false, false, Exited, false, Between, 0, 0, false, Queue(0, false), Queue(0, false))

  /** A step that can be taken now. */
  ghost predicate Enabled(s: Snapshot, step: Step) {
    match step
    case PollWait => s.thread.Waiting? && s.signalled
    case PollCheck => s.thread.Woken?
    case PollReturn(ok) => s.thread.Polling?
    case Start(threadOk) => !s.client.Joining? && !s.isPolling && threadOk
    case Stop(interruptOk) => s.client.Between? && s.isPolling
    case JoinThread => s.client.Joining? && s.thread.Exited?
    case Enqueue(which) => !s.client.Joining? && (if which.Input? then s.input else s.output).streaming
    case Stream(which, on) => !s.client.Joining?
    case ServiceBegins => s.client.Between? && s.serviceTasks > 0
    case ServiceTurn(answer) => s.client.Servicing? && !s.client.outputDone
    case ServiceEnds => s.client == Servicing(true, true)
    case ErrorTask => s.client.Between? && s.errorTasks > 0
  }

  /** The state after a step. */
  ghost function Taken(s: Snapshot, step: Step): Snapshot
    requires Enabled(s, step)
  {
    match step
    case PollWait => s.(signalled := false, thread := Woken)
    case PollCheck => s.(thread := if s.stopPolling then Exited else Polling)
    case PollReturn(ok) =>
      if ok then s.(thread := Waiting, serviceTasks := s.serviceTasks + 1)
      else s.(thread := Exited, errorTasks := s.errorTasks + 1)
    case Start(threadOk) => s.(isPolling := true, stopPolling := false, thread := Waiting, signalled := true)
    case Stop(interruptOk) =>
      s.(stopPolling := true, signalled := true, client := if interruptOk then Joining else Between)
    case JoinThread => s.(isPolling := false, client := Between)
    case Enqueue(Input) =>
      s.(input := s.input.(queued := s.input.queued + 1), signalled := s.signalled || s.isPolling)
    case Enqueue(Output) =>
      s.(output := s.output.(queued := s.output.queued + 1), signalled := s.signalled || s.isPolling)
    case Stream(Input, on) => s.(input := if on then s.input.(streaming := true) else Queue(0, false))
    case Stream(Output, on) => s.(output := if on then s.output.(streaming := true) else Queue(0, false))
    case ServiceBegins =>
      s.(serviceTasks := s.serviceTasks - 1, client := if s.error then Between else Servicing(false, false))
    case ServiceTurn(answer) =>
      var q := if s.client.inputDone then s.output else s.input;
      s.(input := if s.client.inputDone then s.input else AfterDequeue(s.input, answer),
         output := if s.client.inputDone then AfterDequeue(s.output, answer) else s.output,
         signalled := s.signalled || (s.isPolling && Reschedules(q, answer)),
         error := s.error || Fails(q, answer),
         client := if s.error || Fails(q, answer) then Between
                   else if More(q, answer) then s.client else Servicing(true, s.client.inputDone))
    case ServiceEnds => s.(client := Between)
    case ErrorTask => s.(errorTasks := s.errorTasks - 1, error := true)
  }

  /** A step that is not enabled is skipped. */
  ghost function Next(s: Snapshot, step: Step): Snapshot {
    if Enabled(s, step) then Taken(s, step) else s
  }

  /** Any interleaving of client and poll thread. */
  method Run(steps: seq<Step>) returns (p: Poller, ghost history: seq<Snapshot>)
    ensures p.Valid()
    ensures |history| == |steps| + 1 && history[0] == INITIAL && history[|steps|] == p.Snap()
    ensures forall n :: 0 <= n < |steps| ==> history[n + 1] == Next(history[n], steps[n])
  {
    p := new Poller();
    history := [p.Snap()];
    for n := 0 to |steps|
      invariant fresh(p) && p.Valid()
      invariant |history| == n + 1 && history[0] == INITIAL && history[n] == p.Snap()
      invariant forall k :: 0 <= k < n ==> history[k + 1] == Next(history[k], steps[k])
    {
      hide Poller.Valid, Next;
      Handle(p, steps[n]);
      history := history + [p.Snap()];
    }
  }

  method Handle(p: Poller, step: Step)
    requires p.Valid()
    modifies p
    ensures p.Valid() && p.Snap() == Next(old(p.Snap()), step)
  {
    hide Poller.Valid, Poller.Snap, Next;
    if step.PollWait? || step.PollCheck? || step.PollReturn? {
      PollThreadStep(p, step);
    } else if step.Start? || step.Stop? || step.JoinThread? {
      ControlStep(p, step);
    } else if step.Enqueue? || step.Stream? {
      QueueStep(p, step);
    } else {
      ServiceStep(p, step);
    }
  }

  method PollThreadStep(p: Poller, step: Step)
    requires p.Valid() && (step.PollWait? || step.PollCheck? || step.PollReturn?)
    modifies p
    ensures p.Valid() && p.Snap() == Next(old(p.Snap()), step)
  {
    hide Poller.Valid;
    match step {
      case PollWait => if p.thread.Waiting? && p.signalled { p.Wait(); }
      case PollCheck => if p.thread.Woken? { p.CheckStop(); }
      case PollReturn(ok) => if p.thread.Polling? { p.PollReturns(ok); }
    }
  }

  method ControlStep(p: Poller, step: Step)
    requires p.Valid() && (step.Start? || step.Stop? || step.JoinThread?)
    modifies p
    ensures p.Valid() && p.Snap() == Next(old(p.Snap()), step)
  {
    hide Poller.Valid;
    match step {
      case Start(threadOk) => if !p.client.Joining? { var ok := p.StartPolling(threadOk); }
      case Stop(interruptOk) => if p.client.Between? { p.StopPolling(interruptOk); }
      case JoinThread => if p.client.Joining? && p.thread.Exited? { p.Join(); }
    }
  }

  method QueueStep(p: Poller, step: Step)
    requires p.Valid() && (step.Enqueue? || step.Stream?)
    modifies p
    ensures p.Valid() && p.Snap() == Next(old(p.Snap()), step)
  {
    hide Poller.Valid;
    match step {
      case Enqueue(which) =>
        if !p.client.Joining? && (if which.Input? then p.input else p.output).streaming {
          p.QueueBuffer(which);
        }
      case Stream(which, on) => if !p.client.Joining? { p.SetStreaming(which, on); }
    }
  }

  method ServiceStep(p: Poller, step: Step)
    requires p.Valid() && (step.ServiceBegins? || step.ServiceTurn? || step.ServiceEnds? || step.ErrorTask?)
    modifies p
    ensures p.Valid() && p.Snap() == Next(old(p.Snap()), step)
  {
    hide Poller.Valid;
    match step {
      case ServiceBegins => if p.client.Between? && p.serviceTasks > 0 { p.BeginService(); }
      case ServiceTurn(answer) => if p.client.Servicing? && !p.client.outputDone { p.DequeueTurn(answer); }
      case ServiceEnds => if p.client == Servicing(true, true) { p.EndService(); }
      case ErrorTask => if p.client.Between? && p.errorTasks > 0 { p.RunErrorTask(); }
    }
  }

  /**
    When interrupting the poll fails, the stop flag outlives the next start: the thread leaves its loop, and a poll
    scheduled afterwards wakes nobody up. So it is from every state in which the client is between tasks, polls, and
    has neither an error nor a task to run, with a thread that waits.
   */
  method InterruptFailureLosesPolls(p: Poller)
    requires p.Valid() && p.isPolling && p.client.Between? && !p.error && p.serviceTasks == 0 && p.errorTasks == 0
    requires p.thread.Waiting? && p.input.streaming
    modifies p
    ensures p.Valid() && p.isPolling && !p.error && p.input.queued > 0 && p.thread.Exited?
    ensures p.client.Between? && p.serviceTasks == 0 && p.errorTasks == 0
  {
    p.StopPolling(false);
    var ok := p.StartPolling(true);
    p.Wait();
    p.CheckStop();
    p.QueueBuffer(Input);
  }
}
