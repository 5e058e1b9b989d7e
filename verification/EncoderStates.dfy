/**
  The encoder's state machine: encode requests wait in line, a self-posted task hands them to the device, and
  a drain follows a request that is marked as the last. The queues are seen through their queued buffers; the
  buffers that are not queued are free. A failing assertion of the encoder is recorded in `broken`.
 */
module EncoderStates {
  import opened Arithmetic
  import opened Options

  type Frame = nat
  type OutputBlock = nat

  datatype State = WaitingForInputFrame | WaitingForV4L2Buffer | Encoding | Draining | Error

  datatype Request = Request(frame: Frame, endOfStream: bool)

  /** The counter counts the frames since the last key frame was asked for, modulo the period. */
  ghost predicate InPhase(counter: nat, since: nat, period: nat) {
    period > 0 && counter == since % period
  }

  /** Every period-th frame is to be a key frame. */
  ghost predicate DueKeyFrame(since: nat, period: nat) {
    period > 0 && since % period == 0
  }

  /** The changes that setState() asserts. */
  predicate Allowed(from: State, to: State) {
    match to
    case WaitingForInputFrame => !from.Error?
    case WaitingForV4L2Buffer => from.Encoding?
    case Encoding => from.WaitingForInputFrame? || from.WaitingForV4L2Buffer? || from.Draining?
    case Draining => from.Encoding? || from.WaitingForInputFrame?
    case Error => true
  }

  /** From each state, those that may follow; an error is always possible, and is left for itself only. */
  lemma AllowedFrom(from: State, to: State)
    ensures Allowed(from, to) <==>
              || to.Error?
              || (match from
                  case WaitingForInputFrame => to.WaitingForInputFrame? || to.Encoding? || to.Draining?
                  case WaitingForV4L2Buffer => to.WaitingForInputFrame? || to.Encoding?
                  case Encoding => to.WaitingForInputFrame? || to.WaitingForV4L2Buffer? || to.Draining?
                  case Draining => to.WaitingForInputFrame? || to.Encoding?
                  case Error => false)
  {
  }

  /** What state, posted tasks, waiting requests and input buffers have to do with each other between tasks. */
  ghost predicate InOrder(state: State, posted: nat, requests: seq<Request>, inputs: seq<Option<Frame>>,
                          streaming: bool) {
    match state
    case WaitingForInputFrame => posted == 0 && requests == []
    case WaitingForV4L2Buffer => posted == 0 && requests != [] && Full(inputs) && streaming
    case Encoding => posted == 1 && requests != []
    case Draining => posted == 0 && streaming
    case Error => true
  }

  ghost predicate Full<T>(slots: seq<Option<T>>) {
    forall i :: 0 <= i < |slots| ==> slots[i].Some?
  }

  /** A slot is filled exactly while its buffer is queued on the device. */
  ghost predicate SlotsMatch<T>(slots: seq<Option<T>>, queued: set<nat>) {
    && (forall i :: i in queued ==> i < |slots|)
    && (forall i :: 0 <= i < |slots| ==> (slots[i].Some? <==> i in queued))
  }

  /** Slots match, unless a flush emptied them and left buffers queued. */
  ghost predicate Kept<T>(slots: seq<Option<T>>, queued: set<nat>, stranded: bool) {
    && (!stranded ==> SlotsMatch(slots, queued))
    && (stranded ==> queued != {} && (forall i :: i in queued ==> i < |slots| && slots[i].None?))
  }

  lemma MatchIsKept<T>(slots: seq<Option<T>>, queued: set<nat>)
    ensures Kept(slots, queued, false) <==> SlotsMatch(slots, queued)
  {
  }

  lemma KeptInRange<T>(slots: seq<Option<T>>, queued: set<nat>, stranded: bool)
    requires Kept(slots, queued, stranded)
    ensures forall i :: i in queued ==> i < |slots|
  {
  }

  lemma MatchIffNotStranded<T>(slots: seq<Option<T>>, queued: set<nat>, stranded: bool)
    requires Kept(slots, queued, stranded)
    ensures SlotsMatch(slots, queued) <==> !stranded
  {
    if stranded {
      var i :| i in queued;
      assert slots[i].None?;
    }
  }

  /** A value was put into an empty slot. */
  ghost predicate FilledOne<T>(before: seq<Option<T>>, value: T, after: seq<Option<T>>) {
    exists i :: 0 <= i < |before| && before[i] == None && after == before[i := Some(value)]
  }

  function NoSlots<T>(n: nat): (slots: seq<Option<T>>)
    ensures |slots| == n
    ensures forall i :: 0 <= i < n ==> slots[i].None?
  {
    seq(n, _ => None)
  }

  ghost function FramesOf(requests: seq<Request>): (frames: seq<Frame>)
    ensures |frames| == |requests|
    ensures forall i :: 0 <= i < |requests| ==> frames[i] == requests[i].frame
  {
    seq(|requests|, i requires 0 <= i < |requests| => requests[i].frame)
  }

  lemma FirstHandedOver(enqueued: seq<Frame>, requests: seq<Request>)
    requires requests != []
    ensures enqueued + FramesOf(requests) == enqueued + [requests[0].frame] + FramesOf(requests[1..])
  {
    assert FramesOf(requests) == [requests[0].frame] + FramesOf(requests[1..]);
  }

  /** What the device answers while one request is handled. */
  datatype HandleAnswers = HandleAnswers(keyFrameOk: bool, qbufOk: bool, outputOnOk: bool, inputOnOk: bool,
                                         pollOk: bool,
                                         blocks: nat -> Option<OutputBlock>, stopOk: bool)

  /** What the device answers to a flush: the end of polling, and STREAMOFF on the two queues. */
  datatype FlushAnswers = FlushAnswers(pollOk: bool, inputOffOk: bool, outputOffOk: bool)

  /**
    What an output buffer holds: nothing, data to be passed on, or a key frame to be copied behind parameter sets
    into another block, which may not be had or may be too small.
   */
  datatype Data = Nothing | AsIs | Prepend(copy: Option<OutputBlock>, fits: bool)

  /** What a DQBUF call answers. */
  datatype Answer = Buffer(index: nat) | Again | Failed

  class V4L2Encoder {
    const keyFramePeriod: nat
    var state: State
    var requests: seq<Request>
    var posted: nat
    var inputBuffers: seq<Option<Frame>>
    var inputQueued: set<nat>
    var outputBuffers: seq<Option<OutputBlock>>
    var outputQueued: set<nat>
    var inputStreaming: bool
    var outputStreaming: bool
    var keyFrameCounter: nat
    var broken: bool
    // What went wrong without an error state: a flush met a posted task, or polling could not start.
    var stalePost: bool
    var pollFailed: bool
    ghost var submitted: seq<Frame>
    ghost var enqueued: seq<Frame>
    ghost var sinceKeyFrame: nat
    ghost var strandedInput: bool
    ghost var strandedOutput: bool

    /** What the encoder holds, as a value. */
    ghost function Snap(): Snapshot
      reads this
    {
      Snapshot(keyFramePeriod, state, requests, posted, inputBuffers, inputQueued, outputBuffers, outputQueued,
               inputStreaming, outputStreaming, broken, submitted, enqueued, sinceKeyFrame, stalePost, pollFailed,
               strandedInput,
               strandedOutput)
    }

    /** No error so far, and no flush while a task was posted. */
    predicate Clean()
      reads this`state, this`stalePost, this`pollFailed
    {
      !state.Error? && !stalePost && !pollFailed
    }

    ghost predicate Valid()
      reads this
    {
      && Kept(inputBuffers, inputQueued, strandedInput) && |inputBuffers| > 0
      && Kept(outputBuffers, outputQueued, strandedOutput)
      && InPhase(keyFrameCounter, sinceKeyFrame, keyFramePeriod)
      && (!state.Error? ==> !strandedInput && !strandedOutput && inputStreaming == outputStreaming)
      && (!state.Error? ==> submitted == enqueued + FramesOf(requests))
      && (!state.Error? && !inputStreaming ==> inputQueued == {} && outputQueued == {})
      && (Clean() ==> !broken && InOrder(state, posted, requests, inputBuffers, inputStreaming))
      && (Clean() && inputStreaming ==> Full(outputBuffers))
    }

    constructor (keyFramePeriod: nat, numInputs: nat, numOutputs: nat)
      requires keyFramePeriod > 0 && numInputs > 0
      ensures Valid() && Initial(Snap())
    {
      this.keyFramePeriod := keyFramePeriod;
      state, requests, posted, broken := WaitingForInputFrame, [], 0, false;
      inputStreaming, outputStreaming := false, false;
      inputBuffers, inputQueued := NoSlots(numInputs), {};
      outputBuffers, outputQueued := NoSlots(numOutputs), {};
      keyFrameCounter, sinceKeyFrame := 0, 0;
      submitted, enqueued, stalePost, pollFailed, strandedInput, strandedOutput := [], [], false, false, false, false;
    }

    method SetState(to: State)
      modifies this`state, this`broken
      ensures state == to && broken == (old(broken) || !Allowed(old(state), to))
    {
      if !Allowed(state, to) {
        broken := true;
      }
      state := to;
    }

    method PostHandleEncodeRequest()
      modifies this`posted
      ensures posted == old(posted) + 1
    {
      posted := posted + 1;
    }

    /** A frame gets in line; an encoder without work starts again. */
    method Encode(frame: Option<Frame>) returns (accepted: bool)
      requires Valid()
      modifies this`requests, this`state, this`broken, this`posted, this`submitted
      ensures Valid() && accepted == (!old(state).Error? && frame.Some?)
      ensures requests == if accepted then old(requests) + [Request(frame.value, false)] else old(requests)
      ensures submitted == if accepted then old(submitted) + [frame.value] else old(submitted)
      ensures accepted && old(state).WaitingForInputFrame? ==> state.Encoding? && posted == old(posted) + 1
      ensures !(accepted && old(state).WaitingForInputFrame?) ==> state == old(state) && posted == old(posted)
      ensures broken == old(broken)
    {
      if state.Error? || frame.None? {
        return false;
      }
      ghost var before := requests;
      requests := requests + [Request(frame.value, false)];
      submitted := submitted + [frame.value];
      assert FramesOf(requests) == FramesOf(before) + [frame.value];
      if state.WaitingForInputFrame? {
        SetState(Encoding);
        PostHandleEncodeRequest();
      }
      return true;
    }

    /** The last waiting request is marked; with none waiting the device is drained at once. */
    method Drain(stopOk: bool) returns (done: Option<bool>)
      requires Valid()
      modifies this`requests, this`state, this`broken, this`posted
      ensures Valid()
      ensures old(requests) != [] ==>
                && done == None && state == old(state) && posted == old(posted) && broken == old(broken)
                && var last := |old(requests)| - 1;
                   requests == old(requests)[last := old(requests)[last].(endOfStream := true)]
      ensures old(requests) == [] ==> requests == []
      ensures old(requests) == [] && old(Clean()) ==>
                && posted == old(posted) && broken == old(broken)
                && state == (if !inputStreaming then WaitingForInputFrame
                             else if old(state).Draining? || stopOk then Draining else Error)
                && done == (if !inputStreaming then Some(true)
                            else if old(state).Draining? || stopOk then None else Some(false))
      ensures old(requests) == [] && old(state).Error? ==>
                state == old(state) && posted == old(posted) && broken == old(broken) && done == None
      ensures old(requests) == [] && stopOk && !old(state).Error? ==> !state.Error?
    {
      if requests != [] {
        var last := |requests| - 1;
        ghost var before := requests;
        requests := requests[last := requests[last].(endOfStream := true)];
        assert FramesOf(requests) == FramesOf(before);
        return None;
      }
      done := HandleDrainRequest(stopOk);
    }

    /** STOP, unless the device was never started: then the drain is over. */
    method HandleDrainRequest(stopOk: bool) returns (done: Option<bool>)
      modifies this`state, this`broken, this`posted
      ensures old(state).Draining? || old(state).Error? ==>
                state == old(state) && broken == old(broken) && posted == old(posted) && done == None
      ensures !(old(state).Draining? || old(state).Error?) && inputStreaming ==>
                && state == (if stopOk then Draining else Error) && posted == old(posted)
                && broken == (old(broken) || !Allowed(old(state), Draining))
                && done == (if stopOk then None else Some(false))
      ensures !(old(state).Draining? || old(state).Error?) && !inputStreaming ==>
                && state == (if requests != [] then Encoding else WaitingForInputFrame)
                && posted == old(posted) + (if requests != [] then 1 else 0)
                && broken == (old(broken) || !Allowed(old(state), Draining))
                && done == Some(true)
    {
      if state.Draining? || state.Error? {
        return None;
      }
      SetState(Draining);
      if !inputStreaming {
        OnDrainDone();
        return Some(true);
      }
      if !stopOk {
        SetState(Error);
        return Some(false);
      }
      return None;
    }

    /** A drain is over: waiting requests are taken up again. */
    method OnDrainDone()
      modifies this`state, this`broken, this`posted
      requires state.Draining?
      ensures state == if requests != [] then Encoding else WaitingForInputFrame
      ensures posted == old(posted) + if requests != [] then 1 else 0
      ensures broken == old(broken)
    {
      if requests != [] {
        SetState(Encoding);
        PostHandleEncodeRequest();
      } else {
        SetState(WaitingForInputFrame);
      }
    }

    /** QBUF of an input frame, on some free buffer. */
    method EnqueueInputBuffer(frame: Frame, qbufOk: bool) returns (ok: bool)
      requires SlotsMatch(inputBuffers, inputQueued) && !Full(inputBuffers)
      modifies this`inputBuffers, this`inputQueued, this`state
      ensures SlotsMatch(inputBuffers, inputQueued) && ok == qbufOk && |inputBuffers| == |old(inputBuffers)|
      ensures ok ==>
                state == old(state) && inputQueued != {} && FilledOne(old(inputBuffers), frame, inputBuffers)
      ensures !ok ==> state.Error? && inputBuffers == old(inputBuffers)
    {
      var bufferId :| 0 <= bufferId < |inputBuffers| && bufferId !in inputQueued;
      if !qbufOk {
        state := Error;
        return false;
      }
      inputQueued := inputQueued + {bufferId};
      if inputBuffers[bufferId].Some? {
        assert false;  // the slot is taken
      }
      inputBuffers := inputBuffers[bufferId := Some(frame)];
      return true;
    }

    /** QBUF of a block for the encoded data; fetching the block or QBUF may fail. */
    method EnqueueOutputBuffer(block: Option<OutputBlock>) returns (ok: bool)
      requires SlotsMatch(outputBuffers, outputQueued) && !Full(outputBuffers)
      modifies this`outputBuffers, this`outputQueued, this`state
      ensures SlotsMatch(outputBuffers, outputQueued) && ok == block.Some? && |outputBuffers| == |old(outputBuffers)|
      ensures ok ==> state == old(state) && FilledOne(old(outputBuffers), block.value, outputBuffers)
      ensures !ok ==> state.Error? && outputBuffers == old(outputBuffers)
    {
      var bufferId :| 0 <= bufferId < |outputBuffers| && bufferId !in outputQueued;
      if block.None? {
        state := Error;
        return false;
      }
      outputQueued := outputQueued + {bufferId};
      if outputBuffers[bufferId].Some? {
        assert false;  // the slot is taken
      }
      outputBuffers := outputBuffers[bufferId := block];
      return true;
    }

    /** Queues a block on every free output buffer. */
    method FillOutputs(blocks: nat -> Option<OutputBlock>) returns (ok: bool)
      requires SlotsMatch(outputBuffers, outputQueued)
      modifies this`outputBuffers, this`outputQueued, this`state
      ensures SlotsMatch(outputBuffers, outputQueued) && |outputBuffers| == |old(outputBuffers)|
      ensures ok <==> AllFetched(blocks, Empty(old(outputBuffers)))
      ensures ok ==> Full(outputBuffers) && state == old(state)
      ensures !ok ==> !Full(outputBuffers) && state.Error?
    {
      ok := true;
      var n := 0;
      while exists i :: 0 <= i < |outputBuffers| && i !in outputQueued
        invariant SlotsMatch(outputBuffers, outputQueued) && |outputBuffers| == |old(outputBuffers)|
        invariant state == old(state)
        invariant ok && n + Empty(outputBuffers) == Empty(old(outputBuffers)) && AllFetched(blocks, n)
        decreases Empty(outputBuffers)
      {
        ghost var before := outputBuffers;
        EmptyIffNotFull(before);
        ok := EnqueueOutputBuffer(blocks(n));
        if !ok {
          return;
        }
        ghost var i :| 0 <= i < |before| && before[i] == None && outputBuffers == before[i := Some(blocks(n).value)];
        EmptyAfterFill(before, i, blocks(n));
        n := n + 1;
      }
      EmptyIffNotFull(outputBuffers);
    }

    /** A key frame is forced on every keyFramePeriod-th frame since the last one was asked for. */
    method CountKeyFrame(keyFrameOk: bool) returns (ok: bool, forced: bool)
      requires InPhase(keyFrameCounter, sinceKeyFrame, keyFramePeriod)
      modifies this`state, this`keyFrameCounter, this`sinceKeyFrame
      ensures forced == DueKeyFrame(old(sinceKeyFrame), keyFramePeriod) && ok == (!forced || keyFrameOk)
      ensures InPhase(keyFrameCounter, sinceKeyFrame, keyFramePeriod)
      ensures sinceKeyFrame == old(sinceKeyFrame) + if ok then 1 else 0
      ensures state == if ok then old(state) else Error
    {
      forced := keyFrameCounter == 0;
      if forced && !keyFrameOk {
        state := Error;
        return false, forced;
      }
      NextInPeriod(sinceKeyFrame, keyFramePeriod);
      keyFrameCounter := (keyFrameCounter + 1) % keyFramePeriod;
      sinceKeyFrame := sinceKeyFrame + 1;
      return true, forced;
    }

    /** The first request goes to the device. */
    method TakeRequest(qbufOk: bool) returns (ok: bool)
      requires SlotsMatch(inputBuffers, inputQueued) && requests != [] && !Full(inputBuffers)
      requires submitted == enqueued + FramesOf(requests)
      modifies this`inputBuffers, this`inputQueued, this`state, this`requests, this`enqueued
      ensures SlotsMatch(inputBuffers, inputQueued) && |inputBuffers| == |old(inputBuffers)|
      ensures submitted == enqueued + FramesOf(requests) && ok == qbufOk
      ensures ok ==>
                && state == old(state) && requests == old(requests)[1..] && inputQueued != {}
                && FilledOne(old(inputBuffers), old(requests)[0].frame, inputBuffers)
                && enqueued == old(enqueued) + [old(requests)[0].frame]
      ensures !ok ==> state.Error? && requests == old(requests) && enqueued == old(enqueued)
    {
      var frame := requests[0].frame;
      ok := EnqueueInputBuffer(frame, qbufOk);
      if ok {
        FirstHandedOver(enqueued, requests);
        hide FramesOf, SlotsMatch, FilledOne;
        requests := requests[1..];
        enqueued := enqueued + [frame];
      }
    }

    /** Streaming and polling start with the first frame; a failing poll is an error that does not end the handling. */
    method StartStreaming(answers: HandleAnswers) returns (ok: bool)
      requires inputStreaming == outputStreaming
      modifies this`inputStreaming, this`outputStreaming, this`state, this`pollFailed
      ensures ok == (old(inputStreaming) || (answers.outputOnOk && answers.inputOnOk))
      ensures inputStreaming == ok && outputStreaming == (old(outputStreaming) || answers.outputOnOk)
      ensures pollFailed == (old(pollFailed) || (!old(inputStreaming) && ok && !answers.pollOk))
      ensures state == if !ok || (!old(inputStreaming) && !answers.pollOk) then Error else old(state)
    {
      if inputStreaming {
        return true;
      }
      outputStreaming := answers.outputOnOk;
      inputStreaming := answers.outputOnOk && answers.inputOnOk;
      if !inputStreaming {
        state := Error;
        return false;
      }
      if !answers.pollOk {
        pollFailed := true;
        state := Error;
      }
      return true;
    }

    /** After a frame was handed over: drain, wait for the next frame, or go on. */
    method GoOn(endOfStream: bool, stopOk: bool)
      requires inputStreaming
      modifies this`state, this`broken, this`posted
      ensures old(state).Encoding? ==>
                && state == (if endOfStream then (if stopOk then Draining else Error)
                             else if requests == [] then WaitingForInputFrame else Encoding)
                && posted == old(posted) + (if !endOfStream && requests != [] then 1 else 0)
                && broken == old(broken)
      ensures old(state).Error? ==> (broken <==> old(broken) || (!endOfStream && requests == []))
    {
      if endOfStream {
        var done := HandleDrainRequest(stopOk);
      } else if requests == [] {
        SetState(WaitingForInputFrame);
      } else {
        PostHandleEncodeRequest();
      }
    }

    /** The posted task: the first request is handed to the device, if a buffer is free. */
    method HandleEncodeRequest(answers: HandleAnswers) returns (forced: bool)
      requires Valid() && posted > 0
      modifies this`state, this`requests, this`posted, this`inputBuffers, this`inputQueued, this`outputBuffers,
               this`outputQueued, this`inputStreaming, this`outputStreaming, this`keyFrameCounter, this`broken,
               this`enqueued, this`sinceKeyFrame, this`pollFailed
      ensures Valid()
      ensures old(Clean()) && Clean() && Full(old(inputBuffers)) ==>
                && state.WaitingForV4L2Buffer? && requests == old(requests) && enqueued == old(enqueued) && !forced
                && inputBuffers == old(inputBuffers)
      ensures old(Clean()) && Clean() && !Full(old(inputBuffers)) ==>
                && old(requests) != [] && requests == old(requests)[1..]
                && enqueued == old(enqueued) + [old(requests)[0].frame]
                && FilledOne(old(inputBuffers), old(requests)[0].frame, inputBuffers)
                && forced == DueKeyFrame(old(sinceKeyFrame), keyFramePeriod)
                && state == (if old(requests)[0].endOfStream then Draining
                             else if requests == [] then WaitingForInputFrame else Encoding)
      ensures old(Clean()) ==>
                && old(requests) != []
                && (Clean() <==>
                    || Full(old(inputBuffers))
                    || (&& (DueKeyFrame(old(sinceKeyFrame), keyFramePeriod) ==> answers.keyFrameOk) && answers.qbufOk
                        && Proceeds(answers, old(inputStreaming), old(outputBuffers), old(requests)[0].endOfStream)))
      ensures old(Clean()) && FailsToStart(answers) && !old(inputStreaming) ==>
                state.Error? && !inputStreaming && inputQueued != {} && !strandedInput
      ensures old(state).Error? ==> state.Error? && inputBuffers == old(inputBuffers) && inputQueued == old(inputQueued)
    {
      hide SlotsMatch, DueKeyFrame, Proceeds, FilledOne;
      posted := posted - 1;
      forced := false;
      if !state.Encoding? && !state.Error? {
        broken := true;  // handleEncodeRequest() expects to be encoding
      }
      if state.Error? || requests == [] {
        return;
      }
      AllQueuedIsFull();
      NothingQueuedIsNotFull();
      if forall i :: 0 <= i < |inputBuffers| ==> i in inputQueued {
        SetState(WaitingForV4L2Buffer);
        return;
      }
      forced := HandOver(answers);
    }

    /** The part of the posted task that follows when a buffer is free. */
    method HandOver(answers: HandleAnswers) returns (forced: bool)
      requires SlotsMatch(inputBuffers, inputQueued) && |inputBuffers| > 0 && SlotsMatch(outputBuffers, outputQueued)
      requires InPhase(keyFrameCounter, sinceKeyFrame, keyFramePeriod)
      requires !state.Error? && requests != [] && !Full(inputBuffers) && submitted == enqueued + FramesOf(requests)
      requires Clean() ==> !broken && state.Encoding? && posted == 0
      requires inputStreaming == outputStreaming && !strandedInput && !strandedOutput
      modifies this`state, this`requests, this`posted, this`inputBuffers, this`inputQueued, this`outputBuffers,
               this`outputQueued, this`inputStreaming, this`outputStreaming, this`keyFrameCounter, this`broken,
               this`enqueued, this`sinceKeyFrame, this`pollFailed
      ensures Valid()
      ensures old(Clean()) && Clean() ==>
                && requests == old(requests)[1..]
                && enqueued == old(enqueued) + [old(requests)[0].frame]
                && FilledOne(old(inputBuffers), old(requests)[0].frame, inputBuffers)
                && forced == DueKeyFrame(old(sinceKeyFrame), keyFramePeriod)
                && state == (if old(requests)[0].endOfStream then Draining
                             else if requests == [] then WaitingForInputFrame else Encoding)
      ensures old(Clean()) ==>
                (Clean() <==>
                 && (DueKeyFrame(old(sinceKeyFrame), keyFramePeriod) ==> answers.keyFrameOk) && answers.qbufOk
                 && Proceeds(answers, old(inputStreaming), old(outputBuffers), old(requests)[0].endOfStream))
      ensures FailsToStart(answers) && !old(inputStreaming) ==> state.Error? && !inputStreaming && inputQueued != {}
    {
      hide SlotsMatch, Full, FramesOf, InPhase, DueKeyFrame, Proceeds, FilledOne;
      var endOfStream := requests[0].endOfStream;
      var ok;
      ok, forced := CountKeyFrame(answers.keyFrameOk);
      if !ok {
        return;
      }
      ok := TakeRequest(answers.qbufOk);
      if !ok {
        return;
      }
      Proceed(answers, endOfStream);
    }

    /** The frame is at the device: streaming, output buffers, and what comes next. */
    method Proceed(answers: HandleAnswers, endOfStream: bool)
      requires SlotsMatch(inputBuffers, inputQueued) && |inputBuffers| > 0 && SlotsMatch(outputBuffers, outputQueued)
      requires InPhase(keyFrameCounter, sinceKeyFrame, keyFramePeriod)
      requires !state.Error? && submitted == enqueued + FramesOf(requests)
      requires Clean() ==> !broken && state.Encoding? && posted == 0
      requires inputStreaming == outputStreaming && !strandedInput && !strandedOutput
      modifies this`state, this`inputStreaming, this`outputStreaming, this`pollFailed, this`outputBuffers,
               this`outputQueued, this`broken, this`posted
      ensures Valid()
      ensures old(Clean()) && Clean() ==>
                state == if endOfStream then Draining else if requests == [] then WaitingForInputFrame else Encoding
      ensures old(Clean()) ==> (Clean() <==> Proceeds(answers, old(inputStreaming), old(outputBuffers), endOfStream))
      ensures old(Clean()) ==>
                (broken <==>
                 && !old(inputStreaming) && answers.outputOnOk && answers.inputOnOk && !answers.pollOk
                 && AllFetched(answers.blocks, Empty(old(outputBuffers)))
                 && !endOfStream && requests == [])
      ensures !old(inputStreaming) && !(answers.outputOnOk && answers.inputOnOk) ==> state.Error? && !inputStreaming
    {
      hide SlotsMatch, Full, FramesOf, InPhase, DueKeyFrame, AllFetched;
      var ok := StartStreaming(answers);
      if !ok {
        return;
      }
      ok := FillOutputs(answers.blocks);
      if !ok {
        return;
      }
      GoOn(endOfStream, answers.stopOk);
    }

    lemma AllQueuedIsFull()
      requires SlotsMatch(inputBuffers, inputQueued) && |inputBuffers| > 0
      ensures (forall i :: 0 <= i < |inputBuffers| ==> i in inputQueued) <==> Full(inputBuffers)
      ensures Full(inputBuffers) ==> inputQueued != {}
    {
      if Full(inputBuffers) {
        assert 0 in inputQueued;
      }
    }

    lemma NothingQueuedIsNotFull()
      requires SlotsMatch(inputBuffers, inputQueued) && |inputBuffers| > 0
      ensures inputQueued == {} ==> !Full(inputBuffers)
    {
      if Full(inputBuffers) {
        assert 0 in inputQueued;
      }
    }

    /** An encoder that waits for a buffer will get one: the device has some, and it is running. */
    lemma NoDeadlock()
      requires Valid() && Clean() && state.WaitingForV4L2Buffer?
      ensures requests != [] && inputQueued != {} && inputStreaming && posted == 0
    {
      AllQueuedIsFull();
    }

    /** DQBUF of an input frame: it is done, and an encoder that waited for a buffer goes on. */
    method DequeueInputBuffer(answer: Answer) returns (more: bool, frame: Option<Frame>)
      requires Valid() && !state.Error? && (answer.Buffer? ==> answer.index in inputQueued)
      modifies this`inputBuffers, this`inputQueued, this`state, this`broken, this`posted
      ensures Valid() && more == answer.Buffer?
      ensures answer.Buffer? ==>
                && answer.index < |old(inputBuffers)| && frame == old(inputBuffers)[answer.index] && frame.Some?
                && inputBuffers == old(inputBuffers)[answer.index := None]
                && inputQueued == old(inputQueued) - {answer.index}
                && posted == old(posted) + (if old(state).WaitingForV4L2Buffer? && requests != [] then 1 else 0)
                && state == (if old(state).WaitingForV4L2Buffer? && requests != [] then Encoding else old(state))
      ensures !answer.Buffer? ==>
                && frame.None? && inputBuffers == old(inputBuffers) && inputQueued == old(inputQueued)
                && posted == old(posted)
      ensures broken == old(broken)
      ensures answer.Again? ==> state == old(state)
      ensures answer.Failed? ==> state.Error?
    {
      if answer.Failed? {
        state := Error;
        return false, None;
      }
      if answer.Again? {
        return false, None;
      }
      MatchIsKept(inputBuffers, inputQueued);
      frame := inputBuffers[answer.index];
      EmptySlot(inputBuffers, inputQueued, answer.index);
      MatchIsKept(inputBuffers[answer.index := None], inputQueued - {answer.index});
      hide SlotsMatch, Kept, FramesOf, InPhase, Full;
      inputQueued := inputQueued - {answer.index};
      inputBuffers := inputBuffers[answer.index := None];
      if state.WaitingForV4L2Buffer? && requests != [] {
        SetState(Encoding);
        PostHandleEncodeRequest();
      }
      return true, frame;
    }

    /** DQBUF of encoded data: it goes to the client, a drain may be over, and a new block is queued. */
    method DequeueOutputBuffer(answer: Answer, data: Data, isLast: bool, startOk: bool, newBlock: Option<OutputBlock>)
      returns (more: bool, delivered: Option<OutputBlock>, drained: bool)
      requires Valid() && !state.Error? && (answer.Buffer? ==> answer.index in outputQueued)
      modifies this`outputBuffers, this`outputQueued, this`state, this`broken, this`posted
      ensures Valid()
      ensures answer.Buffer? ==>
                && answer.index < |old(outputBuffers)| && old(outputBuffers)[answer.index].Some?
                && delivered == Delivered(old(outputBuffers)[answer.index], data)
                && drained == (old(state).Draining? && isLast && !Refused(data))
                && posted == old(posted) + (if drained && requests != [] then 1 else 0)
                && (state.Error? <==> Refused(data) || (drained && !startOk) || newBlock.None?)
                && (!state.Error? ==>
                      && state == (if !drained then old(state)
                                   else if requests == [] then WaitingForInputFrame else Encoding)
                      && FilledOne(old(outputBuffers)[answer.index := None], newBlock.value, outputBuffers))
      ensures !answer.Buffer? ==>
                && delivered.None? && !drained && !more && posted == old(posted)
                && outputBuffers == old(outputBuffers) && outputQueued == old(outputQueued)
      ensures answer.Again? ==> state == old(state)
      ensures answer.Failed? ==> state.Error?
      ensures broken == old(broken)
    {
      hide Delivered, Refused, Valid, FilledOne;
      if answer.Buffer? {
        more, delivered, drained := TakeOutput(answer.index, data, isLast, startOk, newBlock);
        return;
      }
      if answer.Failed? {
        OnError();
      }
      return false, None, false;
    }

    /** An output buffer came back from the device. */
    method TakeOutput(index: nat, data: Data, isLast: bool, startOk: bool, newBlock: Option<OutputBlock>)
      returns (more: bool, delivered: Option<OutputBlock>, drained: bool)
      requires Valid() && !state.Error? && index in outputQueued
      modifies this`outputBuffers, this`outputQueued, this`state, this`broken, this`posted
      ensures Valid()
      ensures index < |old(outputBuffers)| && old(outputBuffers)[index].Some?
      ensures delivered == Delivered(old(outputBuffers)[index], data)
      ensures drained == (old(state).Draining? && isLast && !Refused(data))
      ensures posted == old(posted) + if drained && requests != [] then 1 else 0
      ensures state.Error? <==> Refused(data) || (drained && !startOk) || newBlock.None?
      ensures !state.Error? ==>
                && state == (if !drained then old(state) else if requests == [] then WaitingForInputFrame else Encoding)
                && FilledOne(old(outputBuffers)[index := None], newBlock.value, outputBuffers)
      ensures broken == old(broken)
    {
      if outputBuffers[index].None? {
        assert false;  // no block for this buffer
      }
      drained := false;
      var block := outputBuffers[index];
      EmptySlot(outputBuffers, outputQueued, index);
      MatchIsKept(outputBuffers[index := None], outputQueued - {index});
      hide SlotsMatch, Kept, FramesOf, InPhase, Full, FilledOne;
      outputQueued := outputQueued - {index};
      outputBuffers := outputBuffers[index := None];
      delivered := Delivered(block, data);
      if Refused(data) {
        state := Error;
        return false, delivered, drained;
      }
      if state.Draining? && isLast {
        OnDrainDone();
        drained := true;
        if !startOk {
          state := Error;
          return false, delivered, drained;
        }
      }
      var ok := EnqueueOutputBuffer(newBlock);
      MatchIsKept(outputBuffers, outputQueued);
      if ok && old(Clean()) && inputStreaming {
        RefillSlot(old(outputBuffers), index, newBlock.value, outputBuffers);
      }
      return true, delivered, drained;
    }

    /** A full set of slots with one emptied and one filled is full. */
    static lemma RefillSlot<T>(full: seq<Option<T>>, i: nat, value: T, filled: seq<Option<T>>)
      requires i < |full| && Full(full) && FilledOne(full[i := None], value, filled)
      ensures Full(filled)
    {
    }

    static lemma EmptySlot<T>(slots: seq<Option<T>>, queued: set<nat>, i: nat)
      requires SlotsMatch(slots, queued) && i < |slots|
      ensures SlotsMatch(slots[i := None], queued - {i}) && !Full(slots[i := None])
    {
      assert slots[i := None][i] == None;
    }

    /** A new key frame is asked for. */
    method RequestKeyframe()
      requires Valid()
      modifies this`keyFrameCounter, this`sinceKeyFrame
      ensures Valid() && keyFrameCounter == 0 && sinceKeyFrame == 0
    {
      keyFrameCounter, sinceKeyFrame := 0, 0;
    }

    /**
      Everything stops and is dropped, except a posted task. The state machine stays in order exactly when no
      task was posted, that is, when the encoder was not encoding. All slots are emptied, but buffers come back
      only from a queue that was streaming and could be stopped: slots and queued buffers agree afterwards exactly
      when it was, or when nothing was queued.
     */
    method Flush(answers: FlushAnswers)
      requires Valid()
      modifies this`requests, this`submitted, this`inputBuffers, this`outputBuffers, this`strandedInput,
               this`strandedOutput, this`inputStreaming, this`outputStreaming, this`inputQueued, this`outputQueued,
               this`state, this`stalePost, this`broken
      ensures Valid() && Flushed(old(Snap()), answers, Snap())
      ensures SlotsMatch(inputBuffers, inputQueued) <==>
                (old(inputStreaming) && answers.inputOffOk) || old(inputQueued) == {}
      ensures SlotsMatch(outputBuffers, outputQueued) <==>
                (old(outputStreaming) && answers.outputOffOk) || old(outputQueued) == {}
      ensures old(Clean()) && !state.Error? ==>
                (InOrder(state, posted, requests, inputBuffers, inputStreaming) <==> !old(state).Encoding?)
      ensures old(Clean()) && !state.Error? ==> (Clean() <==> !old(state).Encoding?)
    {
      if Clean() {
        PostedIffEncoding();
      }
      KeptInRange(inputBuffers, inputQueued, strandedInput);
      KeptInRange(outputBuffers, outputQueued, strandedOutput);
      hide FramesOf, InPhase, SlotsMatch, Kept, Full, InOrder;
      DropAll(answers);
      InOrderWhenIdle(posted, inputBuffers, inputStreaming);
    }

    lemma PostedIffEncoding()
      requires Valid() && Clean()
      ensures posted == if state.Encoding? then 1 else 0
    {
    }

    static lemma InOrderWhenIdle(posted: nat, inputs: seq<Option<Frame>>, streaming: bool)
      ensures InOrder(WaitingForInputFrame, posted, [], inputs, streaming) <==> posted == 0
    {
    }

    /** The device stops and everything but a posted task is dropped. */
    method DropAll(answers: FlushAnswers)
      requires |inputBuffers| > 0 && (forall i :: i in inputQueued ==> i < |inputBuffers|)
      requires forall i :: i in outputQueued ==> i < |outputBuffers|
      modifies this`requests, this`submitted, this`inputBuffers, this`outputBuffers, this`strandedInput,
               this`strandedOutput, this`inputStreaming, this`outputStreaming, this`inputQueued, this`outputQueued,
               this`state, this`stalePost, this`broken
      ensures |inputBuffers| > 0
      ensures requests == [] && submitted == enqueued && submitted == enqueued + FramesOf(requests)
      ensures broken == old(broken)
      ensures Kept(inputBuffers, inputQueued, strandedInput) && Kept(outputBuffers, outputQueued, strandedOutput)
      ensures inputQueued == if old(inputStreaming) && answers.inputOffOk then {} else old(inputQueued)
      ensures outputQueued == if old(outputStreaming) && answers.outputOffOk then {} else old(outputQueued)
      ensures inputStreaming == (old(inputStreaming) && !answers.inputOffOk)
      ensures outputStreaming == (old(outputStreaming) && !answers.outputOffOk)
      ensures strandedInput == (inputQueued != {}) && strandedOutput == (outputQueued != {})
      ensures SlotsMatch(inputBuffers, inputQueued) <==> inputQueued == {}
      ensures SlotsMatch(outputBuffers, outputQueued) <==> outputQueued == {}
      ensures state == if old(state).Error? || !answers.pollOk || inputStreaming || outputStreaming
                       then Error else WaitingForInputFrame
      ensures stalePost == (old(stalePost) || old(state).Encoding?)
    {
      hide SlotsMatch, Kept, FramesOf;
      stalePost := stalePost || state.Encoding?;
      StopDevice(answers);
      EmptySlots();
      if !state.Error? {
        SetState(WaitingForInputFrame);
      }
    }

    /** Polling stops, and so do the queues that are streaming; what was queued there comes back. */
    method StopDevice(answers: FlushAnswers)
      modifies this`inputStreaming, this`outputStreaming, this`inputQueued, this`outputQueued, this`state
      ensures inputQueued == if old(inputStreaming) && answers.inputOffOk then {} else old(inputQueued)
      ensures outputQueued == if old(outputStreaming) && answers.outputOffOk then {} else old(outputQueued)
      ensures inputStreaming == (old(inputStreaming) && !answers.inputOffOk)
      ensures outputStreaming == (old(outputStreaming) && !answers.outputOffOk)
      ensures state == if !answers.pollOk || inputStreaming || outputStreaming then Error else old(state)
    {
      if !answers.pollOk {
        state := Error;
      }
      if inputStreaming {
        if answers.inputOffOk {
          inputStreaming, inputQueued := false, {};
        } else {
          state := Error;
        }
      }
      if outputStreaming {
        if answers.outputOffOk {
          outputStreaming, outputQueued := false, {};
        } else {
          state := Error;
        }
      }
    }

    /** Requests are forgotten, and the slots emptied. */
    method EmptySlots()
      requires |inputBuffers| > 0 && (forall i :: i in inputQueued ==> i < |inputBuffers|)
      requires forall i :: i in outputQueued ==> i < |outputBuffers|
      modifies this`requests, this`submitted, this`inputBuffers, this`outputBuffers, this`strandedInput,
               this`strandedOutput
      ensures requests == [] && submitted == enqueued && submitted == enqueued + FramesOf(requests)
      ensures |inputBuffers| > 0
      ensures Kept(inputBuffers, inputQueued, strandedInput) && Kept(outputBuffers, outputQueued, strandedOutput)
      ensures SlotsMatch(inputBuffers, inputQueued) <==> inputQueued == {}
      ensures SlotsMatch(outputBuffers, outputQueued) <==> outputQueued == {}
      ensures strandedInput == (inputQueued != {}) && strandedOutput == (outputQueued != {})
    {
      requests, submitted := [], enqueued;
      inputBuffers, strandedInput := NoSlots(|inputBuffers|), inputQueued != {};
      outputBuffers, strandedOutput := NoSlots(|outputBuffers|), outputQueued != {};
      MatchIffNotStranded(inputBuffers, inputQueued, strandedInput);
      MatchIffNotStranded(outputBuffers, outputQueued, strandedOutput);
    }

    /** The device failed, or the thread that polls it. */
    method OnError()
      requires Valid()
      modifies this`state
      ensures Valid() && state.Error?
    {
      state := Error;
    }
  }

  /** The copy of a key frame behind parameter sets has no block to go to. */
  predicate Refused(data: Data) {
    data.Prepend? && data.copy.None?
  }

  /** What the client gets of an output buffer's block. */
  function Delivered(block: Option<OutputBlock>, data: Data): Option<OutputBlock> {
    match data
    case Nothing => None
    case AsIs => block
    case Prepend(copy, fits) => if copy.None? then None else if fits then copy else block
  }

  /** With the frame at the device, nothing that follows fails. */
  ghost predicate Proceeds(answers: HandleAnswers, streaming: bool, outputs: seq<Option<OutputBlock>>,
                           endOfStream: bool) {
    && (streaming || (answers.outputOnOk && answers.inputOnOk && answers.pollOk))
    && AllFetched(answers.blocks, Empty(outputs))
    && (endOfStream ==> answers.stopOk)
  }

  /** The frame gets to the device's queue, but streaming cannot start. */
  predicate FailsToStart(answers: HandleAnswers) {
    answers.keyFrameOk && answers.qbufOk && !(answers.outputOnOk && answers.inputOnOk)
  }

  ghost predicate AllFetched(blocks: nat -> Option<OutputBlock>, count: nat) {
    forall n: nat :: n < count ==> blocks(n).Some?
  }

  /**
    A frame whose streaming could not start stays queued through a flush, without its slot: for every encoder in
    order that is not streaming.
   */
  method StrandedByFlush(e: V4L2Encoder, frame: Frame, answers: HandleAnswers, flushAnswers: FlushAnswers)
    requires e.Valid() && e.Clean() && e.state.WaitingForInputFrame? && !e.inputStreaming
    requires answers.keyFrameOk && answers.qbufOk && (!answers.outputOnOk || !answers.inputOnOk)
    modifies e
    ensures e.Valid() && e.state.Error? && e.inputQueued != {} && !SlotsMatch(e.inputBuffers, e.inputQueued)
    ensures forall i :: i in e.inputQueued ==> i < |e.inputBuffers| && e.inputBuffers[i].None?
  {
    var accepted := e.Encode(Some(frame));
    var forced := e.HandleEncodeRequest(answers);
    hide SlotsMatch;
    e.Flush(flushAnswers);
  }

  // ----- Every run -----

  datatype Snapshot =
    Snapshot(period: nat, state: State, requests: seq<Request>, posted: nat, inputBuffers: seq<Option<Frame>>,
             inputQueued: set<nat>, outputBuffers: seq<Option<OutputBlock>>, outputQueued: set<nat>,
             inputStreaming: bool,
             outputStreaming: bool, broken: bool, submitted: seq<Frame>, enqueued: seq<Frame>, sinceKeyFrame: nat,
             stalePost: bool, pollFailed: bool, strandedInput: bool, strandedOutput: bool)
  {
    predicate Clean() {
      !state.Error? && !stalePost && !pollFailed
    }
  }

  datatype Event =
    | EncodeFrame(frame: Option<Frame>)
    | DrainRequest(stopOk: bool)
    | HandleTask(answers: HandleAnswers)
    | InputDone(answer: Answer)
    | OutputDone(outputAnswer: Answer, data: Data, isLast: bool, startOk: bool, newBlock: Option<OutputBlock>)
    | KeyFrameRequest
    | FlushRequest(flushAnswers: FlushAnswers)
    | PollError

  /** What each event does. */
  ghost predicate Step(s: Snapshot, event: Event, t: Snapshot) {
    match event
    case EncodeFrame(frame) => t == if s.state.Error? || frame.None? then s else Encoded(s, frame.value)
    case DrainRequest(stopOk) => s.requests != [] || s.state.Error? || s.Clean() ==> t == DrainCalled(s, stopOk)
    case HandleTask(answers) => if s.posted == 0 then t == s else s.Clean() ==> Handled(s, answers, t)
    case InputDone(answer) =>
      if s.state.Error? || (answer.Buffer? && answer.index !in s.inputQueued) then t == s
      else InputReturned(s, answer, t)
    case OutputDone(answer, data, isLast, startOk, newBlock) =>
      if s.state.Error? || (answer.Buffer? && answer.index !in s.outputQueued) then t == s
      else OutputReturned(s, answer, data, isLast, startOk, newBlock, t)
    case KeyFrameRequest => t == s.(sinceKeyFrame := 0)
    case FlushRequest(answers) => Flushed(s, answers, t)
    case PollError => t == s.(state := Error)
  }

  /** A frame gets in line; an encoder without work starts again. */
  ghost function Encoded(s: Snapshot, frame: Frame): Snapshot {
    var starts := s.state.WaitingForInputFrame?;
    s.(requests := s.requests + [Request(frame, false)], submitted := s.submitted + [frame],
       state := if starts then Encoding else s.state, posted := s.posted + if starts then 1 else 0)
  }

  /** The last request is marked; with none the device is drained, unless it was never started. */
  ghost function DrainCalled(s: Snapshot, stopOk: bool): Snapshot {
    var last := |s.requests| - 1;
    if s.requests != [] then s.(requests := s.requests[last := s.requests[last].(endOfStream := true)])
    else if s.state.Error? then s
    else
      s.(state := if !s.inputStreaming then WaitingForInputFrame
                  else if s.state.Draining? || stopOk then Draining else Error)
  }

  /** The posted task, with a request in line, does not fail. */
  ghost predicate HandlesWell(s: Snapshot, answers: HandleAnswers)
    requires s.requests != []
  {
    || Full(s.inputBuffers)
    || (&& (DueKeyFrame(s.sinceKeyFrame, s.period) ==> answers.keyFrameOk) && answers.qbufOk
        && Proceeds(answers, s.inputStreaming, s.outputBuffers, s.requests[0].endOfStream))
  }

  /** The first request is handed over, or all input buffers are at the device and it waits; or the device failed. */
  ghost predicate Handled(s: Snapshot, answers: HandleAnswers, t: Snapshot) {
    && t.submitted == s.submitted && s.requests != []
    && (t.Clean() <==> HandlesWell(s, answers))
    && (t.Clean() && Full(s.inputBuffers) ==>
          && t.state.WaitingForV4L2Buffer? && t.requests == s.requests && t.enqueued == s.enqueued
          && t.inputBuffers == s.inputBuffers)
    && (t.Clean() && !Full(s.inputBuffers) ==>
          && t.requests == s.requests[1..] && t.enqueued == s.enqueued + [s.requests[0].frame]
          && FilledOne(s.inputBuffers, s.requests[0].frame, t.inputBuffers)
          && t.state == (if s.requests[0].endOfStream then Draining
                         else if t.requests == [] then WaitingForInputFrame else Encoding))
  }

  ghost predicate InputReturned(s: Snapshot, answer: Answer, t: Snapshot) {
    match answer
    case Failed => t == s.(state := Error)
    case Again => t == s
    case Buffer(index) => index < |s.inputBuffers| && s.inputBuffers[index].Some? && t == InputBack(s, index)
  }

  /** A frame came back from the device; an encoder that waited for its buffer goes on. */
  ghost function InputBack(s: Snapshot, index: nat): Snapshot
    requires index < |s.inputBuffers|
  {
    var resumes := s.state.WaitingForV4L2Buffer? && s.requests != [];
    s.(inputBuffers := s.inputBuffers[index := None], inputQueued := s.inputQueued - {index},
       state := if resumes then Encoding else s.state, posted := s.posted + if resumes then 1 else 0)
  }

  ghost predicate OutputReturned(s: Snapshot, answer: Answer, data: Data, isLast: bool, startOk: bool,
                                 newBlock: Option<OutputBlock>, t: Snapshot) {
    match answer
    case Failed => t == s.(state := Error)
    case Again => t == s
    case Buffer(index) =>
      && index < |s.outputBuffers| && s.outputBuffers[index].Some?
      && var drained := s.state.Draining? && isLast && !Refused(data);
      && t == s.(outputBuffers := t.outputBuffers, outputQueued := t.outputQueued, state := t.state,
                 posted := s.posted + if drained && s.requests != [] then 1 else 0)
      && (t.state.Error? <==> Refused(data) || (drained && !startOk) || newBlock.None?)
      && (!t.state.Error? ==>
            && t.state == (if !drained then s.state else if s.requests == [] then WaitingForInputFrame else Encoding)
            && FilledOne(s.outputBuffers[index := None], newBlock.value, t.outputBuffers))
  }

  ghost predicate Flushed(s: Snapshot, answers: FlushAnswers, t: Snapshot) {
    && t.requests == [] && t.posted == s.posted && t.enqueued == s.enqueued && t.submitted == s.enqueued
    && t.inputStreaming == (s.inputStreaming && !answers.inputOffOk)
    && t.outputStreaming == (s.outputStreaming && !answers.outputOffOk)
    && t.inputQueued == (if s.inputStreaming && answers.inputOffOk then {} else s.inputQueued)
    && t.outputQueued == (if s.outputStreaming && answers.outputOffOk then {} else s.outputQueued)
    && t.strandedInput == (t.inputQueued != {}) && t.strandedOutput == (t.outputQueued != {})
    && t.state == (if s.state.Error? || !answers.pollOk || t.inputStreaming || t.outputStreaming
                   then Error else WaitingForInputFrame)
    && t.stalePost == (s.stalePost || s.state.Encoding?) && t.pollFailed == s.pollFailed && t.broken == s.broken
  }

  ghost predicate Initial(s: Snapshot) {
    && s.state.WaitingForInputFrame? && s.requests == [] && s.posted == 0 && s.inputQueued == {} && s.outputQueued == {}
    && !s.inputStreaming && !s.outputStreaming && !s.broken && s.submitted == [] && s.enqueued == []
    && !s.stalePost && !s.pollFailed && !s.strandedInput && !s.strandedOutput
    && (forall i :: 0 <= i < |s.inputBuffers| ==> s.inputBuffers[i].None?)
    && (forall i :: 0 <= i < |s.outputBuffers| ==> s.outputBuffers[i].None?)
  }

  /**
    Any sequence of client calls, posted tasks and device events, with the encoder's state before and after each.
    Slots and queued buffers agree, unless a flush left buffers queued; and as long as no error occurred and no
    flush met a posted task, the state machine is in order.
   */
  method Run(events: seq<Event>, keyFramePeriod: nat, numInputs: nat, numOutputs: nat)
    returns (e: V4L2Encoder, ghost history: seq<Snapshot>)
    requires keyFramePeriod > 0 && numInputs > 0
    ensures e.Valid()
    ensures |history| == |events| + 1 && Initial(history[0]) && history[|events|] == e.Snap()
    ensures forall n :: 0 <= n < |events| ==> Step(history[n], events[n], history[n + 1])
  {
    e := new V4L2Encoder(keyFramePeriod, numInputs, numOutputs);
    history := [e.Snap()];
    for n := 0 to |events|
      invariant fresh(e) && e.Valid()
      invariant |history| == n + 1 && Initial(history[0]) && history[n] == e.Snap()
      invariant forall k :: 0 <= k < n ==> Step(history[k], events[k], history[k + 1])
    {
      hide V4L2Encoder.Valid, Step;
      Handle(e, events[n]);
      history := history + [e.Snap()];
    }
  }

  method Handle(e: V4L2Encoder, event: Event)
    requires e.Valid()
    modifies e
    ensures e.Valid() && Step(old(e.Snap()), event, e.Snap())
  {
    hide V4L2Encoder.Valid, V4L2Encoder.Snap, Step;
    match event {
      case EncodeFrame(frame) => HandleEncode(e, frame);
      case DrainRequest(stopOk) => var done := HandleDrain(e, stopOk);
      case HandleTask(answers) => HandlePosted(e, answers);
      case InputDone(answer) => HandleInput(e, answer);
      case OutputDone(answer, data, isLast, startOk, newBlock) =>
        HandleOutput(e, answer, data, isLast, startOk, newBlock);
      case KeyFrameRequest => HandleKeyFrame(e);
      case FlushRequest(answers) => HandleFlush(e, answers);
      case PollError => HandlePollError(e);
    }
  }

  method HandleEncode(e: V4L2Encoder, frame: Option<Frame>)
    requires e.Valid()
    modifies e
    ensures e.Valid() && Step(old(e.Snap()), EncodeFrame(frame), e.Snap())
  {
    hide V4L2Encoder.Valid;
    var accepted := e.Encode(frame);
  }

  method HandleDrain(e: V4L2Encoder, stopOk: bool) returns (done: Option<bool>)
    requires e.Valid()
    modifies e
    ensures e.Valid() && Step(old(e.Snap()), DrainRequest(stopOk), e.Snap())
    ensures old(e.Clean()) ==> (done == Some(true) <==> old(e.requests) == [] && !old(e.inputStreaming))
  {
    hide V4L2Encoder.Valid;
    done := e.Drain(stopOk);
  }

  method HandleKeyFrame(e: V4L2Encoder)
    requires e.Valid()
    modifies e
    ensures e.Valid() && Step(old(e.Snap()), KeyFrameRequest, e.Snap())
  {
    hide V4L2Encoder.Valid;
    e.RequestKeyframe();
  }

  method HandleFlush(e: V4L2Encoder, answers: FlushAnswers)
    requires e.Valid()
    modifies e
    ensures e.Valid() && Step(old(e.Snap()), FlushRequest(answers), e.Snap())
  {
    hide V4L2Encoder.Valid, V4L2Encoder.Snap, Flushed;
    e.Flush(answers);
  }

  method HandlePollError(e: V4L2Encoder)
    requires e.Valid()
    modifies e
    ensures e.Valid() && Step(old(e.Snap()), PollError, e.Snap())
  {
    hide V4L2Encoder.Valid;
    e.OnError();
  }

  method HandlePosted(e: V4L2Encoder, answers: HandleAnswers)
    requires e.Valid()
    modifies e
    ensures e.Valid() && Step(old(e.Snap()), HandleTask(answers), e.Snap())
  {
    hide V4L2Encoder.Valid, SlotsMatch, Full;
    if e.posted > 0 {
      var forced := e.HandleEncodeRequest(answers);
    }
  }

  method HandleInput(e: V4L2Encoder, answer: Answer)
    requires e.Valid()
    modifies e
    ensures e.Valid() && Step(old(e.Snap()), InputDone(answer), e.Snap())
  {
    hide V4L2Encoder.Valid, SlotsMatch, Full;
    if !e.state.Error? && (answer.Buffer? ==> answer.index in e.inputQueued) {
      var more, frame := e.DequeueInputBuffer(answer);
    }
  }

  method HandleOutput(e: V4L2Encoder, answer: Answer, data: Data, isLast: bool, startOk: bool,
                      newBlock: Option<OutputBlock>)
    requires e.Valid()
    modifies e
    ensures e.Valid() && Step(old(e.Snap()), OutputDone(answer, data, isLast, startOk, newBlock), e.Snap())
  {
    hide V4L2Encoder.Valid, SlotsMatch, Full, FilledOne, Delivered;
    if !e.state.Error? && (answer.Buffer? ==> answer.index in e.outputQueued) {
      var more, delivered, drained := e.DequeueOutputBuffer(answer, data, isLast, startOk, newBlock);
    }
  }

  lemma NextInPeriod(n: nat, period: nat)
    requires period > 0
    ensures (n % period + 1) % period == (n + 1) % period
  {
    var q, r := n / period, n % period;
    assert n == period * q + r;
    if r + 1 < period {
      assert n + 1 == period * q + (r + 1);
      DivMod(n + 1, period, q, r + 1);
    } else {
      assert n + 1 == period * (q + 1);
      DivMod(n + 1, period, q + 1, 0);
      DivMod(r + 1, period, 1, 0);
    }
  }

  /** How many slots are empty. */
  function Empty<T>(slots: seq<Option<T>>): nat {
    if slots == [] then 0 else Empty(slots[1..]) + if slots[0].None? then 1 else 0
  }

  lemma {:induction false} EmptyIffNotFull<T>(slots: seq<Option<T>>)
    ensures Empty(slots) > 0 <==> !Full(slots)
  {
    if slots != [] {
      EmptyIffNotFull(slots[1..]);
      assert forall i :: 1 <= i < |slots| ==> slots[i] == slots[1..][i - 1];
    }
  }

  lemma {:induction false} EmptyAfterFill<T>(slots: seq<Option<T>>, i: nat, value: Option<T>)
    requires i < |slots| && slots[i].None? && value.Some?
    ensures Empty(slots[i := value]) == Empty(slots) - 1
  {
    var filled := slots[i := value];
    if i == 0 {
      assert filled[1..] == slots[1..];
    } else {
      assert filled[1..] == slots[1..][i - 1 := value];
      EmptyAfterFill(slots[1..], i - 1, value);
    }
  }
}
