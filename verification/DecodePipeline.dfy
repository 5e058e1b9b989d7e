/**
  The component and the decoder together: every callback the decoder owes finds its work, and a drain
  is answered only when all earlier decode requests are. Runs are followed up to the first error.
 */
module DecodePipeline {
  import opened DecodeComponent
  import opened DecodeProtocol
  import opened DecoderRequests
  import opened Options

  /** The callbacks that are owed, or will be, are for exactly the works whose input the decoder still has. */
  ghost predicate Linked(pending: map<BitstreamId, nat>, requests: seq<Request>, works: map<BitstreamId, Work>) {
    && (forall id :: id in pending ==> id in works && works[id].inputHeld)
    && Sendable(requests, pending)
    && DrainLast(requests)
    && (forall k :: 0 <= k < |requests| && requests[k].Decode? ==>
          requests[k].id in works && works[requests[k].id].inputHeld)
    && (forall id :: id in works && works[id].inputHeld ==> id in pending || Decode(id) in requests)
  }

  /** While draining there is exactly one drain: waiting, at the device, or answered by a posted reply. */
  ghost predicate OneDrain(state: State, requests: seq<Request>, posted: seq<Status>, isDraining: bool) {
    && (isDraining <==> EndsWithDrain(requests) || state.Draining? || posted != [])
    && (EndsWithDrain(requests) ==> !state.Draining? && posted == [])
    && (state.Draining? ==> requests == [] && posted == [])
    && (posted != [] ==> requests == [] && posted == [Ok] && state.Idle?)
  }

  lemma NothingLinked()
    ensures Linked(map[], [], map[]) && OneDrain(Idle, [], [], false)
  {
  }

  lemma LinkedAfterSend(pending: map<BitstreamId, nat>, requests: seq<Request>, works: map<BitstreamId, Work>, n: nat,
                        pending': map<BitstreamId, nat>)
    requires Linked(pending, requests, works) && n <= |requests| && SentFirst(n, requests, pending, pending')
    ensures Linked(pending', requests[n..], works)
  {
    forall id | id in pending'
      ensures id in works && works[id].inputHeld
    {
      if id !in pending {
        var k :| 0 <= k < n && requests[..n][k] == Decode(id);
        assert requests[k] == Decode(id);
      }
    }
  }

  /** What the decoder has is a prefix of what it will have. */
  lemma LinkedPrefix(pending: map<BitstreamId, nat>, requests: seq<Request>, more: seq<Request>,
                     works: map<BitstreamId, Work>)
    requires Linked(pending, requests + more, works)
    ensures Sendable(requests, pending)
    ensures more != [] ==> !EndsWithDrain(requests)
    ensures more != [] && more[0].Drain? ==> more == [Drain]
  {
    assert forall k :: 0 <= k < |requests| ==> (requests + more)[k] == requests[k];
    assert more != [] ==> (requests + more)[|requests|] == more[0];
  }

  lemma LinkedWithNew(pending: map<BitstreamId, nat>, requests: seq<Request>, works: map<BitstreamId, Work>,
                      commands: seq<Request>, works': map<BitstreamId, Work>)
    requires Linked(pending, requests, works) && Extends(works, works') && ForNewWorks(commands, works, works')
    requires EndsWithDrain(requests) ==> commands == []
    ensures Linked(pending, requests + commands, works')
  {
    var all := requests + commands;
    assert forall k :: 0 <= k < |requests| ==> all[k] == requests[k];
    assert forall k :: |requests| <= k < |all| ==> all[k] == commands[k - |requests|];
  }

  lemma LinkedAfterHeldStay(pending: map<BitstreamId, nat>, requests: seq<Request>, works: map<BitstreamId, Work>,
                            works': map<BitstreamId, Work>)
    requires Linked(pending, requests, works) && HeldStay(works, works')
    ensures Linked(pending, requests, works')
  {
  }

  /** The property the component relies on. */
  lemma CallbackFindsWork(pending: map<BitstreamId, nat>, requests: seq<Request>, works: map<BitstreamId, Work>,
                          id: BitstreamId)
    requires Linked(pending, requests, works) && id in pending
    ensures id in works && works[id].inputHeld
  {
  }

  lemma LinkedAfterAnswer(pending: map<BitstreamId, nat>, requests: seq<Request>, works: map<BitstreamId, Work>,
                          id: BitstreamId, works': map<BitstreamId, Work>)
    requires Linked(pending, requests, works) && id in pending && id in works
    requires OnlyDoneLeft(works[id := works[id].(inputHeld := false)], works')
    ensures Linked(pending - {id}, requests, works')
  {
  }

  /** The decoder, with its first requests, sent n of them; `more` is still to come. */
  lemma JointAfterSend(state: State, pending: map<BitstreamId, nat>, requests: seq<Request>, more: seq<Request>,
                       works: map<BitstreamId, Work>, isDraining: bool, n: nat, state': State,
                       pending': map<BitstreamId, nat>)
    requires Linked(pending, requests + more, works) && OneDrain(state, requests + more, [], isDraining)
    requires n <= |requests| && SentFirst(n, requests, pending, pending') && !state.Draining?
    requires state' == if n > 0 && requests[n - 1].Drain? then Draining else Decoding
    ensures Linked(pending', requests[n..] + more, works) && OneDrain(state', requests[n..] + more, [], isDraining)
  {
    var all := requests + more;
    assert all[..n] == requests[..n] && all[n..] == requests[n..] + more;
    assert n > 0 ==> all[n - 1] == requests[n - 1];
    assert SentFirst(n, all, pending, pending') by {
      assert forall k :: 0 <= k < n ==> all[k] == requests[k];
    }
    LinkedAfterSend(pending, all, works, n, pending');
  }

  /** The component asks for a drain only when none is on its way. */
  lemma OneDrainWithNew(state: State, requests: seq<Request>, posted: seq<Status>, wasDraining: bool,
                        commands: seq<Request>, isDraining: bool)
    requires OneDrain(state, requests, posted, wasDraining)
    requires wasDraining ==> commands == [] && isDraining
    requires !wasDraining ==> isDraining == EndsWithDrain(commands)
    ensures OneDrain(state, requests + commands, posted, isDraining)
  {
    assert wasDraining ==> requests + commands == requests;
    assert commands != [] ==> (requests + commands)[|requests| + |commands| - 1] == commands[|commands| - 1];
  }

  class Pipeline {
    const decoder: V4L2Decoder
    const component: V4L2DecodeComponent

    predicate Healthy()
      reads decoder, component
    {
      !decoder.state.InError? && component.state.Running?
    }

    /** The joint invariant, while `todo` still has to be handed to the decoder. */
    ghost predicate Joint(todo: seq<Request>)
      reads decoder, component
    {
      && decoder.Valid() && component.Valid() && !component.bareDrain
      && Linked(decoder.pendingDecodeCbs, decoder.decodeRequests + todo, component.worksAtDecoder)
      && OneDrain(decoder.state, decoder.decodeRequests + todo, decoder.postedReplies, component.isDraining)
      && (decoder.state.Idle? ==> decoder.decodeRequests == [])
    }

    ghost function Snap(): JointState
      reads decoder, component
    {
      JointState(decoder.state, decoder.decodeRequests, decoder.pendingDecodeCbs, decoder.postedReplies,
                 component.Snap())
    }

    constructor (numInputBuffers: nat, reportsNoShow: bool)
      ensures Healthy() && Joint([]) && fresh(decoder) && fresh(component)
      ensures decoder.numInputBuffers == numInputBuffers
      ensures Snap() == JointState(Idle, [], map[], [], DecodeComponent.Initial(reportsNoShow))
    {
      hide V4L2Decoder.Valid, V4L2DecodeComponent.Valid, Linked, OneDrain;
      decoder := new V4L2Decoder(numInputBuffers);
      component := new V4L2DecodeComponent(reportsNoShow);
      new;
      assert decoder.decodeRequests + [] == [];
      NothingLinked();
    }

    /** Hands one request to the decoder. */
    method SubmitFirst(todo: seq<Request>, failAt: Option<nat>)
      requires Healthy() && Joint(todo) && todo != []
      modifies decoder, component`state
      ensures decoder.Valid() && component.Valid()
      ensures Healthy() ==> Joint(todo[1..])
      ensures failAt.None? ==> Healthy()
    {
      if todo[0].Decode? {
        ghost var n := SubmitDecode(todo, failAt);
      } else {
        SubmitDrain(todo, failAt);
      }
      if decoder.state.InError? {
        component.ReportError();
      }
    }

    method SubmitDecode(todo: seq<Request>, failAt: Option<nat>) returns (ghost n: nat)
      requires Healthy() && Joint(todo) && todo != [] && todo[0].Decode?
      modifies decoder
      ensures decoder.Valid()
      ensures !decoder.state.InError? ==> Joint(todo[1..])
      ensures failAt.None? ==> !decoder.state.InError?
      ensures n <= |old(decoder.decodeRequests)| + 1
      ensures decoder.decodeRequests == (old(decoder.decodeRequests) + [todo[0]])[n..]
      ensures !decoder.state.InError? ==>
                SentFirst(n, old(decoder.decodeRequests) + [todo[0]], old(decoder.pendingDecodeCbs),
                          decoder.pendingDecodeCbs)
      ensures decoder.state.Decoding? ==> decoder.decodeRequests == [] || decoder.Blocked()
      ensures !old(decoder.state).Draining? && !decoder.state.InError?
              && (n == 0 || (old(decoder.decodeRequests) + [todo[0]])[n - 1].Decode?) ==>
                decoder.state.Decoding?
    {
      hide V4L2Decoder.Valid, V4L2DecodeComponent.Valid, SentFirst, Linked, Sendable;
      ghost var pending, was := decoder.pendingDecodeCbs, decoder.state;
      ghost var requests, rest := decoder.decodeRequests + [todo[0]], todo[1..];
      assert decoder.decodeRequests + todo == requests + rest;
      LinkedPrefix(pending, requests, rest, component.worksAtDecoder);
      n := decoder.DecodeBuffer(todo[0].id, failAt);
      if !decoder.state.InError? {
        JointAfterSend(was, pending, requests, rest, component.worksAtDecoder, component.isDraining, n, decoder.state,
                       decoder.pendingDecodeCbs);
      }
    }

    method SubmitDrain(todo: seq<Request>, failAt: Option<nat>)
      requires Healthy() && Joint(todo) && todo != [] && todo[0].Drain?
      modifies decoder
      ensures decoder.Valid()
      ensures !decoder.state.InError? ==> Joint(todo[1..])
      ensures failAt.None? ==> !decoder.state.InError?
      ensures old(decoder.state).Idle? ==> decoder.postedReplies == old(decoder.postedReplies) + [Ok]
      ensures old(decoder.state).Decoding? && old(decoder.decodeRequests) == [] && old(decoder.inputAtDevice) != {}
              && !decoder.state.InError? ==>
                decoder.decodeRequests == [Drain]
    {
      ghost var requests, pending, was := decoder.decodeRequests + todo, decoder.pendingDecodeCbs, decoder.state;
      LinkedPrefix(pending, decoder.decodeRequests, todo, component.worksAtDecoder);
      hide V4L2Decoder.Valid, V4L2DecodeComponent.Valid, SentFirst, Linked;
      ghost var n := decoder.DrainBuffers(failAt);
      if was.Decoding? && !decoder.state.InError? {
        assert requests + [] == requests && requests[n..] + [] == decoder.decodeRequests + todo[1..];
        JointAfterSend(was, pending, requests, [], component.worksAtDecoder, component.isDraining, n, decoder.state,
                       decoder.pendingDecodeCbs);
      }
    }

    /** Hands the component's requests to the decoder, until one fails. */
    method Submit(commands: seq<Request>, fails: nat -> Option<nat>)
      requires Healthy() && Joint(commands)
      modifies decoder, component`state
      ensures decoder.Valid() && component.Valid()
      ensures Healthy() ==> Joint([])
      ensures NoneFails(fails) ==> Healthy()
    {
      for k := 0 to |commands|
        invariant decoder.Valid() && component.Valid()
        invariant Healthy() && Joint(commands[k..])
      {
        SubmitFirst(commands[k..], fails(k));
        if !Healthy() {
          return;
        }
        assert commands[k..][1..] == commands[k + 1..];
      }
      assert commands[|commands|..] == [];
    }

    /** The client queues a work: the component takes it, and has requests for the decoder. */
    method TakeInput(input: Input, configFailsAt: Option<nat>) returns (commands: seq<Request>)
      requires Healthy() && Joint([]) && !component.HasId(ToBitstreamId(input.frameIndex))
      modifies component
      ensures decoder.Valid() && component.Valid()
      ensures old(component.reported) <= component.reported
      ensures Queued(old(component.Snap()), input, configFailsAt, component.Snap())
      ensures Healthy() ==> Joint(commands)
      ensures Healthy() && IsTaken(input) ==>
                TakenInOrder(old(component.pendingWorks) + [Accepted(old(component.accepted), input)],
                             component.pendingWorks, commands)
      ensures Healthy() ==> component.isDraining == (old(component.isDraining) || EndsWithDrain(commands))
      ensures Healthy() && IsTaken(input) ==> component.pendingWorks == [] || component.isDraining
      ensures IsTaken(input) && configFailsAt.None? ==> Healthy()
    {
      ghost var works, wasDraining := component.worksAtDecoder, component.isDraining;
      assert decoder.decodeRequests + [] == decoder.decodeRequests;
      hide V4L2Decoder.Valid, V4L2DecodeComponent.Valid, Linked, ForNewWorks, Extends, TakenInOrder, OnlyFrom, Accepted;
      var taken;
      taken, commands := component.QueueTask(input, configFailsAt);
      if Healthy() {
        LinkedWithNew(decoder.pendingDecodeCbs, decoder.decodeRequests, works, commands, component.worksAtDecoder);
        OneDrainWithNew(decoder.state, decoder.decodeRequests, decoder.postedReplies, wasDraining, commands,
                        component.isDraining);
      }
    }

    /** The client queues a work. */
    method QueueWork(input: Input, configFailsAt: Option<nat>, fails: nat -> Option<nat>)
      requires Healthy() && Joint([]) && !component.HasId(ToBitstreamId(input.frameIndex))
      modifies decoder, component
      ensures decoder.Valid() && component.Valid() && old(component.reported) <= component.reported
      ensures Healthy() ==> Joint([]) && Queued(old(component.Snap()), input, configFailsAt, component.Snap())
      ensures IsTaken(input) && configFailsAt.None? && NoneFails(fails) ==> Healthy()
    {
      hide Joint, V4L2Decoder.Valid, V4L2DecodeComponent.Valid;
      var commands := TakeInput(input, configFailsAt);
      if Healthy() {
        Submit(commands, fails);
      }
    }

    /** The component's posted pump. */
    method TakeWaiting(configFailsAt: Option<nat>) returns (commands: seq<Request>)
      requires Healthy() && Joint([])
      modifies component
      ensures decoder.Valid() && component.Valid()
      ensures old(component.reported) <= component.reported && component.accepted == old(component.accepted)
      ensures Sent(old(component.Snap()), old(component.pendingWorks), configFailsAt, component.Snap())
      ensures Healthy() ==> Joint(commands)
    {
      ghost var works, wasDraining := component.worksAtDecoder, component.isDraining;
      assert decoder.decodeRequests + [] == decoder.decodeRequests;
      hide V4L2Decoder.Valid, V4L2DecodeComponent.Valid, Linked, ForNewWorks, Extends, TakenInOrder, OnlyFrom;
      commands := component.PumpPendingWorks(configFailsAt);
      if Healthy() {
        LinkedWithNew(decoder.pendingDecodeCbs, decoder.decodeRequests, works, commands, component.worksAtDecoder);
        OneDrainWithNew(decoder.state, decoder.decodeRequests, decoder.postedReplies, wasDraining, commands,
                        component.isDraining);
      }
    }

    method PumpWorks(configFailsAt: Option<nat>, fails: nat -> Option<nat>)
      requires Healthy() && Joint([])
      modifies decoder, component
      ensures decoder.Valid() && component.Valid()
      ensures old(component.reported) <= component.reported && component.accepted == old(component.accepted)
      ensures Healthy() ==>
                && Joint([]) && (component.pendingWorks == [] || component.isDraining)
                && Sent(old(component.Snap()), old(component.pendingWorks), configFailsAt, component.Snap())
      ensures configFailsAt.None? && NoneFails(fails) ==> Healthy()
    {
      hide Joint, V4L2Decoder.Valid, V4L2DecodeComponent.Valid, Extends, OnlyFrom, TakenInOrder, ForNewWorks;
      var commands := TakeWaiting(configFailsAt);
      if Healthy() {
        Submit(commands, fails);
      }
    }

    /** The decoder's posted pump. */
    method PumpRequests(failAt: Option<nat>)
      requires Healthy() && Joint([])
      modifies decoder, component`state
      ensures decoder.Valid() && component.Valid()
      ensures Healthy() ==> Joint([])
      ensures IsTail(decoder.decodeRequests, old(decoder.decodeRequests))
      ensures decoder.postedReplies == old(decoder.postedReplies)
      ensures failAt.None? ==> Healthy()
    {
      hide V4L2Decoder.Valid, V4L2DecodeComponent.Valid, Linked, SentFirst, OneDrain, Sendable;
      ghost var pending, requests, was := decoder.pendingDecodeCbs, decoder.decodeRequests, decoder.state;
      assert requests + [] == requests;
      if was.Decoding? {
        DecodingFacts();
      }
      LinkedPrefix(pending, requests, [], component.worksAtDecoder);
      ghost var n := decoder.PumpDecodeRequest(failAt);
      assert |requests| - |decoder.decodeRequests| == n;
      if decoder.state.InError? {
        component.ReportError();
      } else if was.Decoding? {
        JointAfterSend(was, pending, requests, [], component.worksAtDecoder, component.isDraining, n, decoder.state,
                       decoder.pendingDecodeCbs);
      }
    }

    /** DQBUF of an input buffer: the decode callback always finds its work. */
    method ServiceInput(id: BitstreamId)
      requires Healthy() && Joint([]) && id in decoder.inputAtDevice
      modifies decoder, component
      ensures Healthy() && Joint([]) && old(component.reported) <= component.reported
      ensures id in old(component.worksAtDecoder) && old(component.worksAtDecoder)[id].inputHeld
      ensures Released(old(component.Snap()), id, Ok, component.Snap())
      ensures decoder.pendingDecodeCbs == old(decoder.pendingDecodeCbs) - {id} && decoder.state == old(decoder.state)
      ensures decoder.decodeRequests == old(decoder.decodeRequests)
      ensures decoder.postedReplies == old(decoder.postedReplies)
    {
      hide V4L2Decoder.Valid, V4L2DecodeComponent.Valid, Linked, OneDrain, OnlyDoneLeft, DealtWith,
           DecodeComponent.Snapshot.Settled;
      ghost var pending, works := decoder.pendingDecodeCbs, component.worksAtDecoder;
      decoder.DequeueInput(id);
      CallbackFindsWork(pending, decoder.decodeRequests + [], works, id);
      component.OnDecodeDone(id, Ok);
      LinkedAfterAnswer(pending, decoder.decodeRequests + [], works, id, component.worksAtDecoder);
    }

    /** A frame comes out. */
    method ShowFrame(id: BitstreamId)
      requires Healthy() && Joint([])
      modifies component
      ensures decoder.Valid() && component.Valid() && old(component.reported) <= component.reported
      ensures Healthy() ==> Joint([])
      ensures Healthy() <==> id in old(component.worksAtDecoder)
      ensures Shown(old(component.Snap()), id, component.Snap())
    {
      hide V4L2DecodeComponent.Valid, V4L2Decoder.Valid, Linked, HeldStay, OneDrain, OnlyDoneLeft, AfterOutput,
           DealtWith, DecodeComponent.Snapshot.Settled;
      ghost var works := component.worksAtDecoder;
      component.OnOutputFrameReady(id);
      LinkedAfterHeldStay(decoder.pendingDecodeCbs, decoder.decodeRequests + [], works, component.worksAtDecoder);
    }

    /** DQBUF of an output buffer: a frame may come out, and the drain may be over. */
    method ServiceOutput(frame: Option<BitstreamId>, isLast: bool)
      requires Healthy() && Joint([])
      modifies decoder, component
      ensures decoder.Valid() && component.Valid() && old(component.reported) <= component.reported
      ensures Healthy() ==> Joint([])
      ensures Healthy() <==> frame.None? || frame.value in old(component.worksAtDecoder)
      ensures Healthy() ==> OutputServed(old(Snap()), frame, isLast, Snap())
    {
      hide V4L2DecodeComponent.Valid, V4L2Decoder.Valid, Joint, Shown, Drained;
      JointValid();
      if frame.Some? {
        ShowFrame(frame.value);
        if !Healthy() {
          return;
        }
      }
      ghost var shown := component.Snap();
      DrainingFacts();
      if decoder.drainCb && isLast {
        decoder.FinishDrain();
        AnswerDrain();
      }
      assert ServedWith(old(Snap()), shown, frame, isLast, Snap());
      JointValid();
    }

    lemma SnapHealthy()
      ensures Snap().Healthy() <==> Healthy()
    {
    }

    lemma JointValid()
      requires Joint([])
      ensures decoder.Valid() && component.Valid()
    {
    }

    lemma OwedForDevice()
      requires Healthy() && Joint([])
      ensures decoder.pendingDecodeCbs.Keys == decoder.inputAtDevice
    {
    }

    lemma DecodingFacts()
      requires Healthy() && Joint([]) && decoder.state.Decoding?
      ensures decoder.postedReplies == []
    {
    }

    lemma DrainingFacts()
      requires Healthy() && Joint([])
      ensures decoder.drainCb <==> decoder.state.Draining?
      ensures decoder.drainCb ==>
                && decoder.decodeRequests == [] && decoder.postedReplies == []
                && component.isDraining && !component.bareDrain
    {
      assert decoder.decodeRequests + [] == decoder.decodeRequests;
    }

    /** The component hears that its drain is over: nothing is left at the decoder, and nothing is owed. */
    method AnswerDrain()
      requires decoder.Valid() && decoder.state.Idle? && decoder.decodeRequests == [] && decoder.postedReplies == []
      requires component.Valid() && component.state.Running? && component.isDraining && !component.bareDrain
      modifies component
      ensures Healthy() && Joint([]) && component.worksAtDecoder == map[] && !component.isDraining
      ensures old(component.reported) <= component.reported
      ensures |component.reported| > |old(component.reported)|
      ensures component.reported[|component.reported| - 1].result.EndOfStream?
      ensures Drained(old(component.Snap()), Ok, component.Snap()) && component.accepted == old(component.accepted)
    {
      hide V4L2DecodeComponent.Kept;
      component.OnDrainDone(Ok);
    }

    /** The posted reply to a drain of an idle decoder. */
    method RunPostedReply()
      requires Healthy() && Joint([]) && decoder.postedReplies != []
      modifies decoder, component
      ensures Healthy() && Joint([]) && component.worksAtDecoder == map[] && !component.isDraining
      ensures old(component.reported) <= component.reported
      ensures Drained(old(component.Snap()), Ok, component.Snap()) && component.accepted == old(component.accepted)
      ensures decoder.postedReplies == old(decoder.postedReplies)[1..] && decoder.state == old(decoder.state)
      ensures decoder.decodeRequests == old(decoder.decodeRequests)
      ensures decoder.pendingDecodeCbs == old(decoder.pendingDecodeCbs)
    {
      hide V4L2DecodeComponent.Valid, Linked;
      decoder.postedReplies := decoder.postedReplies[1..];
      AnswerDrain();
    }

    /** The callbacks a flush aborts, one by one; each finds its work. */
    method AbortCallbacks(aborted: set<BitstreamId>)
      requires component.Valid()
      requires forall id :: id in aborted ==> id in component.worksAtDecoder && component.worksAtDecoder[id].inputHeld
      modifies component
      ensures component.Valid() && component.bareDrain == old(component.bareDrain)
      ensures component.state == old(component.state)
      ensures old(component.reported) <= component.reported && component.accepted == old(component.accepted)
    {
      hide V4L2DecodeComponent.Valid;
      var left := aborted;
      while left != {}
        invariant component.Valid() && component.bareDrain == old(component.bareDrain)
        invariant component.state == old(component.state)
        invariant old(component.reported) <= component.reported && component.accepted == old(component.accepted)
        invariant forall id :: id in left ==> id in component.worksAtDecoder && component.worksAtDecoder[id].inputHeld
        decreases |left|
      {
        var id :| id in left;
        left := left - {id};
        component.OnDecodeDone(id, Aborted);
      }
    }

    /**
      A flush abandons every work in flight. The requests still waiting at the decoder, and a posted drain
      reply, survive it; the pipeline is in order afterwards if and only if there were none.
     */
    method Flush(pollOk: bool)
      requires Healthy() && Joint([])
      modifies decoder, component
      ensures decoder.Valid() && component.Valid() && old(component.reported) <= component.reported
      ensures component.pendingWorks == [] && component.worksAtDecoder == map[] && !component.isDraining
      ensures decoder.decodeRequests == old(decoder.decodeRequests)
      ensures decoder.postedReplies == old(decoder.postedReplies)
      ensures Healthy() <==> pollOk || old(decoder.state).Idle?
      ensures Healthy() ==> decoder.state.Idle? && decoder.pendingDecodeCbs == map[]
      ensures component.accepted == old(component.accepted) && !component.bareDrain
      ensures Healthy() ==> (Joint([]) <==> old(decoder.decodeRequests) == [] && old(decoder.postedReplies) == [])
    {
      hide V4L2DecodeComponent.Valid, V4L2Decoder.Valid, Linked, OneDrain;
      ghost var pending := decoder.pendingDecodeCbs;
      if decoder.state.Idle? {
        IdleFacts();
      }
      forall id | id in pending
        ensures id in component.worksAtDecoder && component.worksAtDecoder[id].inputHeld
      {
        CallbackFindsWork(pending, decoder.decodeRequests + [], component.worksAtDecoder, id);
      }
      var aborted, drainAborted := decoder.FlushRequests(pollOk);
      FlushComponent(aborted, drainAborted);
      FlushedFacts();
    }

    /** The client drains while a work is waiting: that work will end the stream. */
    method MarkLastPending()
      requires Healthy() && Joint([]) && component.pendingWorks != []
      modifies component
      ensures Healthy() && Joint([]) && DrainAsked(old(component.Snap()), component.Snap())
    {
      hide V4L2DecodeComponent.Valid, V4L2Decoder.Valid, Linked, OneDrain;
      var commands := component.DrainTask();
    }

    method FlushComponent(aborted: set<BitstreamId>, drainAborted: bool)
      requires component.Valid() && component.state.Running?
      requires forall id :: id in aborted ==> id in component.worksAtDecoder && component.worksAtDecoder[id].inputHeld
      modifies component
      ensures component.Valid() && old(component.reported) <= component.reported
      ensures component.pendingWorks == [] && component.worksAtDecoder == map[]
      ensures !component.isDraining && !component.bareDrain && component.accepted == old(component.accepted)
      ensures component.state.Running? == !decoder.state.InError?
    {
      hide V4L2DecodeComponent.Valid;
      AbortCallbacks(aborted);
      if drainAborted {
        component.OnDrainDone(Aborted);
      }
      if decoder.state.InError? {
        component.ReportError();
      }
      component.FlushTask();
    }

    lemma IdleFacts()
      requires Joint([]) && decoder.state.Idle?
      ensures decoder.pendingDecodeCbs == map[]
    {
    }

    lemma FlushedFacts()
      requires decoder.Valid() && component.Valid()
      requires component.worksAtDecoder == map[] && !component.isDraining && !component.bareDrain
      ensures decoder.state.Idle? ==>
                (Joint([]) <==> decoder.decodeRequests == [] && decoder.postedReplies == [])
    {
      assert decoder.decodeRequests + [] == decoder.decodeRequests;
    }
  }

  // ----- Every run -----

  datatype Event =
    | QueueInput(input: Input, configFailsAt: Option<nat>, fails: nat -> Option<nat>)
    | PumpWorksTask(pumpConfigFailsAt: Option<nat>, pumpFails: nat -> Option<nat>)
    | PumpRequestsTask(failAt: Option<nat>)
    | InputDone(id: BitstreamId)
    | OutputDone(frame: Option<BitstreamId>, isLast: bool)
    | PostedReply
    | DrainPending
    | FlushAll(pollOk: bool)

  /** Decoder and component as values. */
  datatype JointState =
    JointState(state: State, requests: seq<Request>, pending: map<BitstreamId, nat>, posted: seq<Status>,
               component: DecodeComponent.Snapshot)
  {
    predicate Healthy() {
      !state.InError? && component.state.Running?
    }
  }

  ghost predicate NoneFails(fails: nat -> Option<nat>) {
    forall k: nat :: fails(k).None?
  }

  ghost predicate IsTail<T>(s: seq<T>, of: seq<T>) {
    |s| <= |of| && s == of[|of| - |s|..]
  }

  /** What an event does to a healthy pipeline. */
  ghost predicate Step(s: JointState, event: Event, t: JointState) {
    match event
    case QueueInput(input, configFailsAt, fails) =>
      if s.component.HasId(ToBitstreamId(input.frameIndex)) then t == s
      else
        && (t.Healthy() ==> Queued(s.component, input, configFailsAt, t.component))
        && (IsTaken(input) && configFailsAt.None? && NoneFails(fails) ==> t.Healthy())
    case PumpWorksTask(configFailsAt, fails) =>
      && t.component.accepted == s.component.accepted
      && (t.Healthy() ==> Sent(s.component, s.component.pendingWorks, configFailsAt, t.component))
      && (configFailsAt.None? && NoneFails(fails) ==> t.Healthy())
    case PumpRequestsTask(failAt) =>
      && IsTail(t.requests, s.requests) && t.posted == s.posted
      && t.component == s.component.(state := t.component.state)
      && (failAt.None? ==> t.Healthy())
    case InputDone(id) =>
      if id !in s.pending then t == s
      else
        && t.Healthy() && id in s.component.worksAtDecoder && s.component.worksAtDecoder[id].inputHeld
        && Released(s.component, id, Ok, t.component)
        && t == s.(pending := s.pending - {id}, component := t.component)
    case OutputDone(frame, isLast) =>
      && (t.Healthy() <==> frame.None? || frame.value in s.component.worksAtDecoder)
      && (t.Healthy() ==> OutputServed(s, frame, isLast, t))
    case PostedReply =>
      if s.posted == [] then t == s
      else
        && t.Healthy() && Drained(s.component, Ok, t.component)
        && t == s.(posted := s.posted[1..], component := t.component)
    case DrainPending =>
      if s.component.pendingWorks == [] then t == s
      else t.Healthy() && DrainAsked(s.component, t.component) && t == s.(component := t.component)
    case FlushAll(pollOk) =>
      && (t.Healthy() <==> pollOk || s.state.Idle?)
      && (t.Healthy() ==> t.state.Idle? && t.pending == map[])
      && t.requests == s.requests && t.posted == s.posted
      && t.component.accepted == s.component.accepted && t.component.pendingWorks == []
      && t.component.worksAtDecoder == map[] && !t.component.isDraining
  }

  /** An output buffer came back: its frame is shown, and the last one of a drain ends it. */
  ghost predicate OutputServed(s: JointState, frame: Option<BitstreamId>, isLast: bool, t: JointState) {
    exists shown: DecodeComponent.Snapshot :: ServedWith(s, shown, frame, isLast, t)
  }

  ghost predicate ServedWith(s: JointState, shown: DecodeComponent.Snapshot, frame: Option<BitstreamId>, isLast: bool,
                             t: JointState)
  {
    && (if frame.Some? then Shown(s.component, frame.value, shown) else shown == s.component)
    && (if s.state.Draining? && isLast
        then t == s.(state := Idle, component := t.component) && Drained(shown, Ok, t.component)
        else t == s.(component := shown))
  }

  /** A flush that leaves a request in line or a drain reply on its way. */
  ghost predicate LeavesBehind(event: Event, t: JointState) {
    event.FlushAll? && (t.requests != [] || t.posted != [])
  }

  /** The states before and after each event; only the last one may be out of order. */
  ghost predicate Trace(history: seq<JointState>, events: seq<Event>) {
    && 0 < |history| <= |events| + 1
    && (forall n :: 0 <= n < |history| - 1 ==> history[n].Healthy() && Step(history[n], events[n], history[n + 1]))
    && (forall n :: 0 <= n < |history| - 2 ==> !LeavesBehind(events[n], history[n + 1]))
  }

  /** The last state is in order. */
  ghost predicate Unbroken(history: seq<JointState>, events: seq<Event>)
    requires 0 < |history| <= |events| + 1
  {
    && history[|history| - 1].Healthy()
    && (|history| > 1 ==> !LeavesBehind(events[|history| - 2], history[|history| - 1]))
  }

  lemma TraceStarts(history: seq<JointState>, events: seq<Event>)
    requires |history| == 1
    ensures Trace(history, events)
  {
  }

  lemma TraceExtends(history: seq<JointState>, events: seq<Event>, t: JointState)
    requires Trace(history, events) && |history| <= |events| && Unbroken(history, events)
    requires Step(history[|history| - 1], events[|history| - 1], t)
    ensures Trace(history + [t], events)
  {
  }

  /**
    After any sequence of client requests, device events and posted tasks, the joint invariant holds, so every
    decode callback found its work. The run ends early, out of order, exactly at the first error or the first flush
    that finds a request waiting or a drain reply posted.
   */
  method Run(events: seq<Event>, numInputBuffers: nat, reportsNoShow: bool)
    returns (p: Pipeline, inOrder: bool, ghost history: seq<JointState>)
    ensures p.decoder.Valid() && p.component.Valid()
    ensures inOrder ==> p.Healthy() && p.Joint([])
    ensures Trace(history, events) && history[|history| - 1] == p.Snap()
    ensures history[0] == JointState(Idle, [], map[], [], DecodeComponent.Initial(reportsNoShow))
    ensures inOrder <==> Unbroken(history, events)
    ensures inOrder ==> |history| == |events| + 1
  {
    hide Pipeline.Joint, Trace, Step, V4L2Decoder.Valid, V4L2DecodeComponent.Valid, V4L2DecodeComponent.Snap;
    p := new Pipeline(numInputBuffers, reportsNoShow);
    inOrder := true;
    history := [p.Snap()];
    TraceStarts(history, events);
    p.SnapHealthy();
    for n := 0 to |events|
      invariant fresh(p.decoder) && fresh(p.component)
      invariant inOrder && p.Healthy() && p.Joint([])
      invariant |history| == n + 1 && Trace(history, events) && Unbroken(history, events) && history[n] == p.Snap()
      invariant history[0] == JointState(Idle, [], map[], [], DecodeComponent.Initial(reportsNoShow))
    {
      Handle(p, events[n]);
      TraceExtends(history, events, p.Snap());
      p.SnapHealthy();
      history := history + [p.Snap()];
      inOrder := p.Healthy()
                 && !(events[n].FlushAll? && (p.decoder.decodeRequests != [] || p.decoder.postedReplies != []));
      if !inOrder {
        return;
      }
    }
    p.JointValid();
  }

  method Handle(p: Pipeline, event: Event)
    requires p.Healthy() && p.Joint([])
    modifies p.decoder, p.component
    ensures p.decoder.Valid() && p.component.Valid() && Step(old(p.Snap()), event, p.Snap())
    ensures p.Healthy() && !event.FlushAll? ==> p.Joint([])
    ensures p.Healthy() && p.decoder.decodeRequests == [] && p.decoder.postedReplies == [] ==> p.Joint([])
  {
    hide Pipeline.Joint, Pipeline.Snap, Step, V4L2Decoder.Valid, V4L2DecodeComponent.Valid;
    match event {
      case QueueInput(input, configFailsAt, fails) => HandleQueueInput(p, input, configFailsAt, fails);
      case PumpWorksTask(configFailsAt, fails) => HandlePumpWorks(p, configFailsAt, fails);
      case PumpRequestsTask(failAt) => HandlePumpRequests(p, failAt);
      case InputDone(id) => HandleInputDone(p, id);
      case OutputDone(frame, isLast) => HandleOutputDone(p, frame, isLast);
      case PostedReply => HandlePostedReply(p);
      case DrainPending => HandleDrainPending(p);
      case FlushAll(pollOk) => HandleFlushAll(p, pollOk);
    }
  }

  method HandleQueueInput(p: Pipeline, input: Input, configFailsAt: Option<nat>, fails: nat -> Option<nat>)
    requires p.Healthy() && p.Joint([])
    modifies p.decoder, p.component
    ensures p.decoder.Valid() && p.component.Valid() && (p.Healthy() ==> p.Joint([]))
    ensures Step(old(p.Snap()), QueueInput(input, configFailsAt, fails), p.Snap())
  {
    hide Pipeline.Joint, V4L2Decoder.Valid, V4L2DecodeComponent.Valid, Queued, ToBitstreamId;
    p.JointValid();
    if !p.component.HasId(ToBitstreamId(input.frameIndex)) {
      p.QueueWork(input, configFailsAt, fails);
    }
  }

  method HandlePumpWorks(p: Pipeline, configFailsAt: Option<nat>, fails: nat -> Option<nat>)
    requires p.Healthy() && p.Joint([])
    modifies p.decoder, p.component
    ensures p.decoder.Valid() && p.component.Valid() && (p.Healthy() ==> p.Joint([]))
    ensures Step(old(p.Snap()), PumpWorksTask(configFailsAt, fails), p.Snap())
  {
    hide Pipeline.Joint, V4L2Decoder.Valid, V4L2DecodeComponent.Valid, Sent;
    p.PumpWorks(configFailsAt, fails);
  }

  method HandlePumpRequests(p: Pipeline, failAt: Option<nat>)
    requires p.Healthy() && p.Joint([])
    modifies p.decoder, p.component
    ensures p.decoder.Valid() && p.component.Valid() && (p.Healthy() ==> p.Joint([]))
    ensures Step(old(p.Snap()), PumpRequestsTask(failAt), p.Snap())
  {
    hide Pipeline.Joint, V4L2Decoder.Valid, V4L2DecodeComponent.Valid;
    p.PumpRequests(failAt);
  }

  /** The driver gives back only an input buffer that it has. */
  method HandleInputDone(p: Pipeline, id: BitstreamId)
    requires p.Healthy() && p.Joint([])
    modifies p.decoder, p.component
    ensures p.Healthy() && p.Joint([]) && p.decoder.Valid() && p.component.Valid()
    ensures Step(old(p.Snap()), InputDone(id), p.Snap())
  {
    hide Pipeline.Joint, V4L2Decoder.Valid, V4L2DecodeComponent.Valid, Released;
    p.OwedForDevice();
    if id in p.decoder.inputAtDevice {
      p.ServiceInput(id);
    }
    p.JointValid();
  }

  method HandleOutputDone(p: Pipeline, frame: Option<BitstreamId>, isLast: bool)
    requires p.Healthy() && p.Joint([])
    modifies p.decoder, p.component
    ensures p.decoder.Valid() && p.component.Valid() && (p.Healthy() ==> p.Joint([]))
    ensures Step(old(p.Snap()), OutputDone(frame, isLast), p.Snap())
  {
    hide Pipeline.Joint, V4L2Decoder.Valid, V4L2DecodeComponent.Valid, OutputServed;
    p.ServiceOutput(frame, isLast);
  }

  method HandlePostedReply(p: Pipeline)
    requires p.Healthy() && p.Joint([])
    modifies p.decoder, p.component
    ensures p.Healthy() && p.Joint([]) && p.decoder.Valid() && p.component.Valid()
    ensures Step(old(p.Snap()), PostedReply, p.Snap())
  {
    hide Pipeline.Joint, V4L2Decoder.Valid, V4L2DecodeComponent.Valid, Drained;
    if p.decoder.postedReplies != [] {
      p.RunPostedReply();
    }
    p.JointValid();
  }

  method HandleDrainPending(p: Pipeline)
    requires p.Healthy() && p.Joint([])
    modifies p.decoder, p.component
    ensures p.Healthy() && p.Joint([]) && p.decoder.Valid() && p.component.Valid()
    ensures Step(old(p.Snap()), DrainPending, p.Snap())
  {
    hide Pipeline.Joint, V4L2Decoder.Valid, V4L2DecodeComponent.Valid, DrainAsked;
    if p.component.pendingWorks != [] {
      p.MarkLastPending();
    }
    p.JointValid();
  }

  method HandleFlushAll(p: Pipeline, pollOk: bool)
    requires p.Healthy() && p.Joint([])
    modifies p.decoder, p.component
    ensures p.decoder.Valid() && p.component.Valid() && Step(old(p.Snap()), FlushAll(pollOk), p.Snap())
    ensures p.Healthy() && p.decoder.decodeRequests == [] && p.decoder.postedReplies == [] ==> p.Joint([])
  {
    hide Pipeline.Joint, V4L2Decoder.Valid, V4L2DecodeComponent.Valid;
    p.Flush(pollOk);
  }

  // ----- What the code does not keep -----

  lemma OneTaken(work: Work, left: seq<Work>, commands: seq<Request>)
    requires TakenInOrder([work], left, commands)
    ensures commands == if left == [] then Commands(work) else []
  {
    if left == [] {
      assert [work][..1] == [work] && CommandsOf([work][..0]) == [];
      assert commands == CommandsOf([work]) == CommandsOf([]) + Commands(work);
    }
  }

  /** A flush, and then the first new work: it is all that the component has at the decoder. */
  method FlushAndQueue(p: Pipeline, input: Input) returns (commands: seq<Request>)
    requires p.Healthy() && p.Joint([]) && input.wellFormed && input.hasBuffer
    modifies p.decoder, p.component
    ensures p.decoder.Valid() && p.component.Valid() && p.component.state.Running?
    ensures p.decoder.state.Idle? && p.decoder.pendingDecodeCbs == map[] && !p.component.bareDrain
    ensures p.decoder.decodeRequests == old(p.decoder.decodeRequests)
    ensures p.decoder.postedReplies == old(p.decoder.postedReplies)
    ensures commands == Commands(Accepted(old(p.component.accepted), input))
    ensures p.component.isDraining == input.eos
    ensures forall id :: id in p.component.worksAtDecoder ==>
              && id == ToBitstreamId(input.frameIndex)
              && p.component.worksAtDecoder[id] == Accepted(old(p.component.accepted), input)
  {
    hide Pipeline.Joint, V4L2Decoder.Valid, V4L2DecodeComponent.Valid, ToBitstreamId, ForNewWorks, Commands, CommandsOf;
    p.Flush(true);
    var work := Accepted(p.component.accepted, input);
    assert [] + [work] == [work];
    var taken;
    taken, commands := p.component.QueueTask(input, None);
    OneTaken(work, p.component.pendingWorks, commands);
    assert EndsWithDrain(Commands(work)) == input.eos by {
      CommandsEnd(work);
    }
  }

  lemma CommandsEnd(work: Work)
    ensures EndsWithDrain(Commands(work)) == work.eos
  {
  }

  /** A work with an id of its own can be sent behind the requests that wait. */
  lemma NewIdSendable(pending: map<BitstreamId, nat>, requests: seq<Request>, works: map<BitstreamId, Work>,
                      id: BitstreamId)
    requires Linked(pending, requests, works) && id !in works
    ensures Sendable(requests + [Decode(id)], map[])
    ensures requests != [] && requests[0].Decode? ==> requests[0].id in works
  {
    var all := requests + [Decode(id)];
    assert forall k :: 0 <= k < |all| ==> all[k] == if k < |requests| then requests[k] else Decode(id);
  }

  /** The decoder, idle but with a decode request in line, is given another one: it sends the first. */
  method NextSendsFirst(d: V4L2Decoder, id: BitstreamId)
    requires d.Valid() && d.state.Idle? && d.decodeRequests != [] && d.decodeRequests[0].Decode?
    requires d.numInputBuffers > 0
    requires Sendable(d.decodeRequests + [Decode(id)], map[])
    modifies d
    ensures old(d.decodeRequests)[0].id in d.pendingDecodeCbs
  {
    hide Tracked, AllTracked, Sendable;
    ghost var requests := d.decodeRequests + [Decode(id)];
    assert requests[0] == d.decodeRequests[0];
    ghost var n := d.DecodeBuffer(id, None);
    assert n > 0;
  }

  /**
    A decode request that waits at a flush survives it, and the next work sends it to the device: its callback is
    owed although the component has abandoned its work. So it is for every healthy pipeline with such a request.
   */
  method WaitingRequestOutlivesFlush(p: Pipeline, input: Input)
    requires p.Healthy() && p.Joint([]) && p.decoder.numInputBuffers > 0
    requires p.decoder.decodeRequests != [] && p.decoder.decodeRequests[0].Decode?
    requires input.wellFormed && input.hasBuffer && !p.component.HasId(ToBitstreamId(input.frameIndex))
    modifies p.decoder, p.component
    ensures var id := old(p.decoder.decodeRequests)[0].id;
            && id in old(p.component.worksAtDecoder)
            && id in p.decoder.pendingDecodeCbs && id !in p.component.worksAtDecoder
  {
    hide V4L2Decoder.Valid, V4L2DecodeComponent.Valid, Linked, Sendable, OneDrain, ToBitstreamId, Commands, Accepted;
    var id := ToBitstreamId(input.frameIndex);
    assert p.decoder.decodeRequests + [] == p.decoder.decodeRequests;
    NewIdSendable(p.decoder.pendingDecodeCbs, p.decoder.decodeRequests, p.component.worksAtDecoder, id);
    hide Pipeline.Joint;
    var commands := FlushAndQueue(p, input);
    NextSendsFirst(p.decoder, id);
  }

  function Frame(index: nat, eos: bool, hasBuffer: bool): Input {
    Input(index, index, eos, false, hasBuffer, true)
  }

  /** A component with nothing in line takes a work at once. */
  method TakeAtOnce(p: Pipeline, input: Input) returns (commands: seq<Request>)
    requires p.Healthy() && p.Joint([]) && !p.component.isDraining && p.component.pendingWorks == []
    requires IsTaken(input) && !p.component.HasId(ToBitstreamId(input.frameIndex))
    modifies p.component
    ensures p.Healthy() && p.Joint(commands) && p.component.pendingWorks == [] && p.component.isDraining == input.eos
    ensures commands == Commands(Accepted(old(p.component.accepted), input))
    ensures forall id :: id in p.component.worksAtDecoder ==>
              id in old(p.component.worksAtDecoder) || id == ToBitstreamId(input.frameIndex)
  {
    hide Pipeline.Joint, V4L2Decoder.Valid, V4L2DecodeComponent.Valid, Commands, CommandsOf, ToBitstreamId, ForNewWorks;
    var work := Accepted(p.component.accepted, input);
    assert [] + [work] == [work];
    CommandsEnd(work);
    commands := p.TakeInput(input, None);
    OneTaken(work, p.component.pendingWorks, commands);
  }

  /** The decoder is given one request, with nothing in line: it is sent if and only if a buffer is free. */
  method SubmitOne(p: Pipeline, id: BitstreamId, more: seq<Request>)
    requires p.Healthy() && p.Joint([Decode(id)] + more) && p.decoder.decodeRequests == [] && !p.decoder.state.Draining?
    modifies p.decoder
    ensures p.Healthy() && p.Joint(more) && p.decoder.state.Decoding?
    ensures |old(p.decoder.inputAtDevice)| < p.decoder.numInputBuffers ==>
              p.decoder.decodeRequests == [] && id in p.decoder.inputAtDevice
    ensures |old(p.decoder.inputAtDevice)| >= p.decoder.numInputBuffers ==> p.decoder.decodeRequests == [Decode(id)]
  {
    ghost var atDevice := p.decoder.inputAtDevice;
    NotOwed(p, id, more);
    hide Pipeline.Joint, V4L2Decoder.Valid, SentFirst;
    assert ([Decode(id)] + more)[1..] == more;
    assert [] + [Decode(id)] == [Decode(id)];
    ghost var n := p.SubmitDecode([Decode(id)] + more, None);
    OwedIsAtDevice(p, more);
    MoreAtDevice(n, id, old(p.decoder.pendingDecodeCbs), p.decoder.pendingDecodeCbs, atDevice, p.decoder.inputAtDevice);
  }

  lemma NotOwed(p: Pipeline, id: BitstreamId, more: seq<Request>)
    requires p.Healthy() && p.Joint([Decode(id)] + more) && p.decoder.decodeRequests == []
    ensures id !in p.decoder.pendingDecodeCbs && p.decoder.pendingDecodeCbs.Keys == p.decoder.inputAtDevice
  {
    var all := [] + ([Decode(id)] + more);
    assert all[0] == Decode(id);
  }

  lemma OwedIsAtDevice(p: Pipeline, more: seq<Request>)
    requires p.Healthy() && p.Joint(more)
    ensures p.decoder.pendingDecodeCbs.Keys == p.decoder.inputAtDevice
    ensures |p.decoder.inputAtDevice| <= p.decoder.numInputBuffers
  {
  }

  lemma MoreAtDevice(n: nat, id: BitstreamId, pending: map<BitstreamId, nat>, pending': map<BitstreamId, nat>,
                     atDevice: set<BitstreamId>, atDevice': set<BitstreamId>)
    requires n <= 1 && SentFirst(n, [Decode(id)], pending, pending') && id !in pending
    requires pending.Keys == atDevice && pending'.Keys == atDevice'
    ensures atDevice' == if n == 0 then atDevice else atDevice + {id}
    ensures |atDevice'| == |atDevice| + n
  {
    assert [Decode(id)][0] == Decode(id);
    if n == 0 {
      assert [Decode(id)][..0] == [];
      assert atDevice' == atDevice;
    } else {
      assert [Decode(id)][..1] == [Decode(id)];
      assert atDevice' == atDevice + {id};
    }
  }

  lemma Starts(p: Pipeline)
    requires p.component.Snap() == DecodeComponent.Initial(false) && p.Joint([]) && p.decoder.state.Idle?
    ensures p.decoder.inputAtDevice == {}
    ensures !p.component.isDraining && p.component.pendingWorks == [] && p.component.worksAtDecoder == map[]
    ensures p.component.accepted == 0
  {
  }

  /** With one input buffer, a second request waits: a pipeline as WaitingRequestOutlivesFlush speaks of. */
  method OneRequestWaits() returns (p: Pipeline)
    ensures fresh(p) && fresh(p.decoder) && fresh(p.component) && p.Healthy() && p.Joint([])
    ensures p.decoder.numInputBuffers == 1 && p.decoder.decodeRequests == [Decode(1)]
  {
    hide Pipeline.Joint, V4L2DecodeComponent.Valid, V4L2Decoder.Valid, V4L2DecodeComponent.Snap;
    p := new Pipeline(1, false);
    Starts(p);
    var commands := TakeAtOnce(p, Frame(0, false, true));
    assert commands == [Decode(0)] + [];
    SubmitOne(p, 0, []);
    commands := TakeAtOnce(p, Frame(1, false, true));
    assert commands == [Decode(1)] + [];
    SubmitOne(p, 1, []);
  }

  /** The last work, at the device, and behind it its drain: a pipeline as WaitingDrainOutlivesFlush speaks of. */
  method OneDrainWaits() returns (p: Pipeline)
    ensures fresh(p) && fresh(p.decoder) && fresh(p.component) && p.Healthy() && p.Joint([])
    ensures p.decoder.decodeRequests == [Drain]
  {
    hide Pipeline.Joint, V4L2DecodeComponent.Valid, V4L2Decoder.Valid, V4L2DecodeComponent.Snap;
    p := new Pipeline(1, false);
    Starts(p);
    var commands := TakeAtOnce(p, Frame(0, true, true));
    assert commands == [Decode(0)] + [Drain];
    SubmitOne(p, 0, [Drain]);
    assert [Drain][1..] == [];
    p.SubmitDrain([Drain], None);
  }

  /** A drain of an idle decoder: a pipeline as DrainReplyOutlivesFlush speaks of. */
  method OneReplyIsPosted() returns (p: Pipeline)
    ensures fresh(p) && fresh(p.decoder) && fresh(p.component) && p.Healthy() && p.Joint([])
    ensures p.decoder.numInputBuffers == 1 && p.decoder.postedReplies == [Ok]
  {
    hide Pipeline.Joint, V4L2DecodeComponent.Valid, V4L2Decoder.Valid, V4L2DecodeComponent.Snap;
    p := new Pipeline(1, false);
    Starts(p);
    var commands := TakeAtOnce(p, Frame(0, true, false));
    assert commands == [Drain] && commands[1..] == [];
    p.SubmitDrain(commands, None);
  }

  lemma AtLeastTwo<T>(s: set<T>, x: T, y: T)
    requires x in s && y in s && x != y
    ensures |s| >= 2
  {
    assert y in s - {x} && |s| == |s - {x}| + 1;
    assert |s - {x}| == |s - {x} - {y}| + 1;
  }

  /** The decoder, idle but with a drain in line, is given a work: it drains. */
  method NextDrains(d: V4L2Decoder, id: BitstreamId)
    requires d.Valid() && d.state.Idle? && d.decodeRequests == [Drain]
    modifies d
    ensures d.Valid() && d.state.Draining? && d.drainCb && d.decodeRequests == [Decode(id)]
  {
    hide Tracked, AllTracked;
    ghost var requests := d.decodeRequests + [Decode(id)];
    assert requests == [Drain, Decode(id)];
    assert requests[0].Drain?;
    ghost var n := d.DecodeBuffer(id, None);
    assert n == 1;
  }

  /**
    A drain that waits at a flush survives it: the next work starts it, and its end finds no end-of-stream work, which
    is an error. So it is for every healthy pipeline with such a drain.
   */
  method WaitingDrainOutlivesFlush(p: Pipeline, input: Input)
    requires p.Healthy() && p.Joint([]) && p.decoder.decodeRequests == [Drain]
    requires input.wellFormed && input.hasBuffer && !input.eos
    modifies p.decoder, p.component
    ensures p.component.state.Error?
  {
    hide V4L2Decoder.Valid, V4L2DecodeComponent.Valid, Pipeline.Joint, ToBitstreamId, Commands, Accepted;
    var commands := FlushAndQueue(p, input);
    NextDrains(p.decoder, ToBitstreamId(input.frameIndex));
    p.decoder.FinishDrain();
    NotDraining(p.component);
    p.component.OnDrainDone(Ok);
  }

  lemma NotDraining(c: V4L2DecodeComponent)
    requires c.Valid() && c.state.Running? && !c.isDraining
    ensures c.eos.None?
  {
  }

  /** An idle decoder is given a decode request and a drain: the first is at the device, the second waits for it. */
  method DrainWaitsForInput(d: V4L2Decoder, id: BitstreamId)
    requires d.Valid() && d.state.Idle? && d.decodeRequests == [] && d.numInputBuffers > 0
    modifies d
    ensures d.Valid() && id in d.inputAtDevice && d.decodeRequests == [Drain] && d.postedReplies == old(d.postedReplies)
  {
    hide Tracked, AllTracked;
    assert [] + [Decode(id)] == [Decode(id)];
    ghost var n := d.DecodeBuffer(id, None);
    assert n == 1;
    n := d.DrainBuffers(None);
    assert n == 0;
  }

  /**
    The posted reply to a drain of an idle decoder survives a flush as well. It then ends the next drain: the work
    that ends the stream is reported while its input is still at the device, and its callback is owed for nothing.
    So it is for every healthy pipeline with such a reply.
   */
  method DrainReplyOutlivesFlush(p: Pipeline, input: Input)
    requires p.Healthy() && p.Joint([]) && p.decoder.numInputBuffers > 0 && p.decoder.postedReplies != []
    requires input.wellFormed && input.hasBuffer && input.eos
    modifies p.decoder, p.component
    ensures ToBitstreamId(input.frameIndex) in p.decoder.inputAtDevice && p.decoder.decodeRequests == [Drain]
    ensures p.component.worksAtDecoder == map[] && !p.component.isDraining && |p.component.reported| > 0
    ensures p.component.reported[|p.component.reported| - 1] == Report(old(p.component.accepted), EndOfStream)
  {
    hide V4L2Decoder.Valid, V4L2DecodeComponent.Valid, Linked, ToBitstreamId, Commands;
    assert p.decoder.decodeRequests + [] == p.decoder.decodeRequests;
    assert p.decoder.decodeRequests == [] && p.decoder.postedReplies == [Ok];
    hide Pipeline.Joint;
    var commands := FlushAndQueue(p, input);
    DrainWaitsForInput(p.decoder, ToBitstreamId(input.frameIndex));
    p.decoder.postedReplies := p.decoder.postedReplies[1..];
    EndsEarly(p.component, ToBitstreamId(input.frameIndex));
  }

  /** The component, draining with one work at the decoder, hears that the drain is over. */
  method EndsEarly(c: V4L2DecodeComponent, id: BitstreamId)
    requires c.Valid() && c.state.Running? && c.isDraining && !c.bareDrain
    requires forall i :: i in c.worksAtDecoder ==> i == id
    modifies c
    ensures c.worksAtDecoder == map[] && !c.isDraining
    ensures id in old(c.worksAtDecoder) && |c.reported| > 0
    ensures c.reported[|c.reported| - 1] == Report(old(c.worksAtDecoder)[id].ticket, EndOfStream)
  {
    c.EosIsThere();
    hide V4L2DecodeComponent.Kept;
    c.OnDrainDone(Ok);
  }

  /** A drain with no work waiting and no end-of-stream work at the decoder ends in an error. */
  method BareDrainFails(c: V4L2DecodeComponent)
    requires c.Valid() && c.state.Running? && c.eos.None? && c.pendingWorks == [] && c.worksAtDecoder != map[]
    modifies c
    ensures c.state.Error?
  {
    var commands := c.DrainTask();
    assert commands == [Drain];
    c.OnDrainDone(Ok);
  }

  /** A drain that is at the device, or whose reply is posted. */
  lemma DrainUnderWay(p: Pipeline)
    requires p.Healthy() && p.Joint([]) && p.component.isDraining
    requires p.decoder.state.Draining? || p.decoder.postedReplies != []
    ensures p.decoder.Valid() && p.component.Valid() && Sendable(p.decoder.decodeRequests, p.decoder.pendingDecodeCbs)
    ensures p.component.eos.Some? && p.component.worksAtDecoder != map[]
    ensures p.decoder.state.Draining? ==> p.decoder.postedReplies == []
    ensures !p.decoder.state.Draining? ==> p.decoder.postedReplies == [Ok] && p.decoder.state.Idle?
  {
    assert p.decoder.decodeRequests + [] == p.decoder.decodeRequests;
    p.component.EosIsThere();
    hide V4L2DecodeComponent.Kept;
  }

  /**
    A second drain, while the first is at the device or its reply is posted, and no work waits: it is answered by a
    failure, or by a reply that finds no end-of-stream work any more. Either way it ends in an error.
   */
  method SecondDrainFails(p: Pipeline)
    requires p.Healthy() && p.Joint([]) && p.component.isDraining && p.component.pendingWorks == []
    requires p.decoder.state.Draining? || p.decoder.postedReplies != []
    modifies p.decoder, p.component
    ensures old(p.component.eos).Some? && p.component.state.Error?
    ensures old(p.decoder.state).Draining? ==> p.component.reported == old(p.component.reported)
  {
    hide V4L2DecodeComponent.Valid, V4L2Decoder.Valid, Pipeline.Joint, Sendable, SentFirst;
    DrainUnderWay(p);
    var commands := p.component.DrainTask();
    assert commands == [Drain];
    ghost var n := p.decoder.DrainBuffers(None);
    var replies := p.decoder.postedReplies;
    p.decoder.postedReplies := [];
    p.component.OnDrainDone(replies[0]);
    if |replies| > 1 {
      p.component.OnDrainDone(replies[1]);
    }
  }
}
