/**
  The encode component and the encoder together. A frame that the encoder gives back finds the work that waits for it,
  the converter always takes its block back, a drain that ends finds a work that ends the stream, and frames reach the
  device in the order of their works. A run is followed up to the first event that fails, and which events fail is
  stated exactly.
 */
module EncodePipeline {
  import opened Options
  import opened FormatConverters
  import EncodeOrder
  import EncoderStates

  type Work = EncodeOrder.Work
  type Request = EncoderStates.Request
  type Frame = nat

  // ----- Whose frames the encoder has -----

  ghost predicate InLine(f: Frame, requests: seq<Request>) {
    exists j :: 0 <= j < |requests| && requests[j].frame == f
  }

  ghost predicate InSlot(f: Frame, slots: seq<Option<Frame>>) {
    exists k :: 0 <= k < |slots| && slots[k] == Some(f)
  }

  /** No frame is in two places. */
  ghost predicate Apart(requests: seq<Request>, slots: seq<Option<Frame>>) {
    && (forall j, k :: 0 <= j < k < |requests| ==> requests[j].frame != requests[k].frame)
    && (forall j, k :: 0 <= j < k < |slots| && slots[j].Some? ==> slots[j] != slots[k])
    && (forall j, k :: 0 <= j < |requests| && 0 <= k < |slots| ==> slots[k] != Some(requests[j].frame))
  }

  /** Frames wait in line or are on a device buffer, exactly those of `home`. */
  ghost predicate Carried(requests: seq<Request>, slots: seq<Option<Frame>>, home: map<Frame, nat>) {
    && Apart(requests, slots)
    && (forall j :: 0 <= j < |requests| ==> requests[j].frame in home)
    && (forall k :: 0 <= k < |slots| && slots[k].Some? ==> slots[k].value in home)
    && (forall f :: f in home ==> InLine(f, requests) || InSlot(f, slots))
  }

  /** `home` tells the work of each frame at the encoder: of the first `sent` works, those whose input is held. */
  ghost predicate Owned(all: seq<Work>, sent: nat, home: map<Frame, nat>) {
    && sent <= |all|
    && (forall f :: f in home ==> home[f] < sent && all[home[f]].index == f && all[home[f]].inputHeld)
    && (forall t :: 0 <= t < sent && all[t].inputHeld ==> all[t].index in home && home[all[t].index] == t)
  }

  /** Works from a certain one on have different indices. */
  ghost predicate Distinct(all: seq<Work>, first: nat) {
    forall j, k :: first <= j < k < |all| ==> all[j].index != all[k].index
  }

  /** Other progress of works: neither index, buffer nor held input changes. */
  ghost predicate SameHolding(before: seq<Work>, after: seq<Work>) {
    && |before| == |after|
    && (forall k :: 0 <= k < |before| ==>
          && after[k].index == before[k].index && after[k].hasBuffer == before[k].hasBuffer
          && after[k].inputHeld == before[k].inputHeld)
  }

  lemma HoldingStays(before: seq<Work>, after: seq<Work>, sent: nat, home: map<Frame, nat>, first: nat)
    requires SameHolding(before, after) && Owned(before, sent, home) && Distinct(before, first)
    ensures Owned(after, sent, home) && Distinct(after, first)
    ensures WorkFrames(after[..sent]) == WorkFrames(before[..sent])
  {
    SameFrames(before[..sent], after[..sent]);
  }

  /** The frames of works, in order. */
  ghost function WorkFrames(works: seq<Work>): seq<Frame> {
    if works == [] then []
    else
      var last := works[|works| - 1];
      WorkFrames(works[..|works| - 1]) + if last.hasBuffer then [last.index] else []
  }

  lemma {:induction false} SameFrames(a: seq<Work>, b: seq<Work>)
    requires |a| == |b|
    requires forall k :: 0 <= k < |a| ==> a[k].index == b[k].index && a[k].hasBuffer == b[k].hasBuffer
    ensures WorkFrames(a) == WorkFrames(b)
  {
    if a != [] {
      SameFrames(a[..|a| - 1], b[..|b| - 1]);
    }
  }

  /** One more work is sent, with its frame. */
  lemma FrameSent(all: seq<Work>, sent: nat, requests: seq<Request>, slots: seq<Option<Frame>>, home: map<Frame, nat>,
                  eos: bool)
    requires Owned(all, sent, home) && Carried(requests, slots, home) && sent < |all|
    requires all[sent].inputHeld && all[sent].index !in home
    ensures Owned(all, sent + 1, home[all[sent].index := sent])
    ensures Carried(requests + [EncoderStates.Request(all[sent].index, eos)], slots, home[all[sent].index := sent])
  {
    var requests' := requests + [EncoderStates.Request(all[sent].index, eos)];
    var home' := home[all[sent].index := sent];
    assert forall j :: 0 <= j < |requests| ==> requests'[j] == requests[j];
    forall f | f in home'
      ensures InLine(f, requests') || InSlot(f, slots)
    {
      if f == all[sent].index {
        assert requests'[|requests|].frame == f;
      } else if InLine(f, requests) {
        var j :| 0 <= j < |requests| && requests[j].frame == f;
        assert requests'[j].frame == f;
      }
    }
  }

  /** Marking a request does not move its frame. */
  lemma FramesStay(requests: seq<Request>, requests': seq<Request>, slots: seq<Option<Frame>>, home: map<Frame, nat>)
    requires Carried(requests, slots, home) && |requests'| == |requests|
    requires forall j :: 0 <= j < |requests| ==> requests'[j].frame == requests[j].frame
    ensures Carried(requests', slots, home)
  {
    forall f | f in home && InLine(f, requests)
      ensures InLine(f, requests')
    {
      var j :| 0 <= j < |requests| && requests[j].frame == f;
      assert requests'[j].frame == f;
    }
  }

  /** The first frame in line goes to a free buffer. */
  lemma FrameQueued(requests: seq<Request>, slots: seq<Option<Frame>>, home: map<Frame, nat>,
                    slots': seq<Option<Frame>>)
    requires Carried(requests, slots, home) && requests != []
    requires EncoderStates.FilledOne(slots, requests[0].frame, slots')
    ensures Carried(requests[1..], slots', home)
  {
    var frame := requests[0].frame;
    var i :| 0 <= i < |slots| && slots[i] == None && slots' == slots[i := Some(frame)];
    assert forall j :: 0 <= j < |requests[1..]| ==> requests[1..][j] == requests[j + 1];
    forall f | f in home
      ensures InLine(f, requests[1..]) || InSlot(f, slots')
    {
      if f == frame {
        assert slots'[i] == Some(f);
      } else if InLine(f, requests) {
        var j :| 0 <= j < |requests| && requests[j].frame == f;
        assert requests[1..][j - 1].frame == f;
      } else {
        var k :| 0 <= k < |slots| && slots[k] == Some(f);
        assert slots'[k] == Some(f);
      }
    }
  }

  /** The device gives a frame back, and its work does not hold it any longer. */
  lemma FrameReturned(all: seq<Work>, sent: nat, requests: seq<Request>, slots: seq<Option<Frame>>,
                      home: map<Frame, nat>, i: nat)
    requires Owned(all, sent, home) && Carried(requests, slots, home) && i < |slots| && slots[i].Some?
    ensures slots[i].value in home
    ensures var t := home[slots[i].value];
            Owned(all[t := all[t].(inputHeld := false)], sent, home - {slots[i].value})
    ensures Carried(requests, slots[i := None], home - {slots[i].value})
  {
    var frame := slots[i].value;
    forall f | f in home - {frame}
      ensures InLine(f, requests) || InSlot(f, slots[i := None])
    {
      if !InLine(f, requests) {
        var k :| 0 <= k < |slots| && slots[k] == Some(f);
        assert slots[i := None][k] == Some(f);
      }
    }
  }

  // ----- Drains -----

  /** How many works still wait for a drain. */
  ghost function Undone(works: seq<Work>): nat {
    if works == [] then 0
    else Undone(works[..|works| - 1]) + if works[|works| - 1].Undrained() then 1 else 0
  }

  /** How many requests are marked as the last of their stream. */
  ghost function Marked(requests: seq<Request>): nat {
    if requests == [] then 0 else (if requests[0].endOfStream then 1 else 0) + Marked(requests[1..])
  }

  /** The drains that the encoder will end. */
  ghost function Pending(requests: seq<Request>, state: EncoderStates.State): nat {
    Marked(requests) + if state.Draining? then 1 else 0
  }

  lemma {:induction false} MarkedAppend(requests: seq<Request>, request: Request)
    ensures Marked(requests + [request]) == Marked(requests) + if request.endOfStream then 1 else 0
  {
    if requests != [] {
      assert (requests + [request])[1..] == requests[1..] + [request];
      MarkedAppend(requests[1..], request);
    } else {
      assert (requests + [request])[1..] == [];
    }
  }

  /** Marking the last request counts at most once. */
  lemma MarkLast(requests: seq<Request>)
    requires requests != []
    ensures var last := |requests| - 1;
            Marked(requests) <= Marked(requests[last := requests[last].(endOfStream := true)]) <= Marked(requests) + 1
  {
    var last := |requests| - 1;
    var front := requests[..last];
    assert requests == front + [requests[last]];
    assert requests[last := requests[last].(endOfStream := true)] == front + [requests[last].(endOfStream := true)];
    MarkedAppend(front, requests[last]);
    MarkedAppend(front, requests[last].(endOfStream := true));
  }

  lemma OneMoreSent(all: seq<Work>, sent: nat)
    requires sent < |all|
    ensures Undone(all[..sent + 1]) == Undone(all[..sent]) + if all[sent].Undrained() then 1 else 0
    ensures WorkFrames(all[..sent + 1])
            == WorkFrames(all[..sent]) + if all[sent].hasBuffer then [all[sent].index] else []
  {
    assert all[..sent + 1][..sent] == all[..sent];
  }

  lemma {:induction false} UndoneUpdate(works: seq<Work>, i: nat, work: Work)
    requires i < |works|
    ensures Undone(works[i := work]) ==
            Undone(works) + (if work.Undrained() then 1 else 0)
            - (if works[i].Undrained() then 1 else 0)
  {
    var last := |works| - 1;
    if i == last {
      assert works[i := work][..last] == works[..last];
    } else {
      assert works[i := work][..last] == works[..last][i := work];
      UndoneUpdate(works[..last], i, work);
    }
  }

  lemma {:induction false} NoneUndone(works: seq<Work>)
    ensures Undone(works) == 0 <==> forall k :: 0 <= k < |works| ==> !works[k].Undrained()
  {
    if works != [] {
      NoneUndone(works[..|works| - 1]);
    }
  }

  /** A drain that ends marks a work exactly when one waits. */
  lemma MarkCounts(all: seq<Work>, n: nat, all': seq<Work>)
    requires n <= |all| && EncodeOrder.DrainMarked(all, n, all')
    ensures |all'| == |all| && SameHolding(all, all')
    ensures Undone(all'[..n]) == if Undone(all[..n]) > 0 then Undone(all[..n]) - 1 else 0
  {
    NoneUndone(all[..n]);
    if i :| && 0 <= i < n && all[i].Undrained() && (forall k :: 0 <= k < i ==> !all[k].Undrained())
            && all' == all[i := all[i].(eosDone := true)] {
      assert all[..n][i] == all[i];
      assert all'[..n] == all[..n][i := all[i].(eosDone := true)];
      UndoneUpdate(all[..n], i, all[i].(eosDone := true));
    } else {
      assert forall k :: 0 <= k < n ==> !all[k].Undrained();
    }
  }

  /** Progress that has nothing to do with drains. */
  lemma UndoneStays(all: seq<Work>, n: nat, t: nat, work: Work)
    requires n <= |all| && t < |all| && work.Undrained() == all[t].Undrained()
    ensures Undone(all[t := work][..n]) == Undone(all[..n])
  {
    if t < n {
      assert all[t := work][..n] == all[..n][t := work];
      UndoneUpdate(all[..n], t, work);
    } else {
      assert all[t := work][..n] == all[..n];
    }
  }

  /** All but one requests of a line count; the marks are what is left of them. */
  lemma FirstHandled(requests: seq<Request>)
    requires requests != []
    ensures Marked(requests) == Marked(requests[1..]) + if requests[0].endOfStream then 1 else 0
  {
  }

  // ----- One work on its way to the encoder -----

  /** What is answered while a work is sent to the encoder. */
  datatype SendAnswers = SendAnswers(poolOk: bool, conversion: Conversion, frameOk: bool, stopOk: bool)
  {
    function ToComponent(drainedAtOnce: bool): EncodeOrder.Answers {
      EncodeOrder.Answers(poolOk, conversion, frameOk, drainedAtOnce)
    }

    predicate AllOk() {
      poolOk && !conversion.Unsupported? && frameOk && stopOk
    }
  }

  /** The encoder with a work: its frame gets in line, and with the end of the stream a drain is called. */
  ghost function EncoderWith(e: EncoderStates.Snapshot, work: Work, stopOk: bool): EncoderStates.Snapshot {
    var e' := if work.hasBuffer then EncoderStates.Encoded(e, work.index) else e;
    if work.eos then EncoderStates.DrainCalled(e', stopOk) else e'
  }

  /** The drain is over at once: nothing waits, and the device was not started. */
  ghost predicate OverAtOnce(e: EncoderStates.Snapshot, work: Work) {
    work.eos && !work.hasBuffer && e.requests == [] && !e.inputStreaming
  }

  /** The drain is sent to the device, and fails. */
  ghost predicate StopFails(e: EncoderStates.Snapshot, work: Work, stopOk: bool) {
    work.eos && !work.hasBuffer && e.requests == [] && e.inputStreaming && !e.state.Draining? && !stopOk
  }

  /** The requests after a work was handed to the encoder. */
  ghost predicate Handed(requests: seq<Request>, work: Work, requests': seq<Request>) {
    if work.hasBuffer then requests' == requests + [EncoderStates.Request(work.index, work.eos)]
    else |requests'| == |requests| && forall j :: 0 <= j < |requests| ==> requests'[j].frame == requests[j].frame
  }

  /** A frame gets in line, and the drain of the work is one more to end, unless it is over at once. */
  ghost predicate Takes(e: EncoderStates.Snapshot, work: Work, e': EncoderStates.Snapshot) {
    && Handed(e.requests, work, e'.requests) && e'.inputBuffers == e.inputBuffers && !e'.state.Error?
    && e'.enqueued == e.enqueued
    && e'.submitted == e.submitted + (if work.hasBuffer then [work.index] else [])
    && Pending(e'.requests, e'.state)
       <= Pending(e.requests, e.state) + (if work.eos && !OverAtOnce(e, work) then 1 else 0)
  }

  lemma EncoderWithMeans(e: EncoderStates.Snapshot, work: Work, stopOk: bool)
    requires !e.state.Error? && !StopFails(e, work, stopOk)
    ensures Takes(e, work, EncoderWith(e, work, stopOk))
  {
    hide EncoderWith, Takes;
    if work.hasBuffer {
      WithFrameMeans(e, work, stopOk);
    } else {
      WithoutFrameMeans(e, work, stopOk);
    }
  }

  lemma WithFrameMeans(e: EncoderStates.Snapshot, work: Work, stopOk: bool)
    requires !e.state.Error? && work.hasBuffer
    ensures Takes(e, work, EncoderWith(e, work, stopOk))
  {
    var requests := e.requests + [EncoderStates.Request(work.index, false)];
    assert requests[|requests| - 1 := requests[|requests| - 1].(endOfStream := true)]
           == e.requests + [EncoderStates.Request(work.index, true)];
    MarkedAppend(e.requests, EncoderStates.Request(work.index, work.eos));
    hide Marked;
  }

  lemma WithoutFrameMeans(e: EncoderStates.Snapshot, work: Work, stopOk: bool)
    requires !e.state.Error? && !work.hasBuffer && !StopFails(e, work, stopOk)
    ensures Takes(e, work, EncoderWith(e, work, stopOk))
  {
    if work.eos && e.requests != [] {
      MarkLast(e.requests);
    }
    hide Marked;
  }

  lemma CleanEncoded(e: EncoderStates.Snapshot, frame: Frame)
    ensures EncoderStates.Encoded(e, frame).Clean() <==> e.Clean()
  {
  }

  lemma CleanWith(e: EncoderStates.Snapshot, work: Work, stopOk: bool)
    requires e.Clean()
    ensures EncoderWith(e, work, stopOk).Clean() <==> !StopFails(e, work, stopOk)
  {
  }

  ghost function WithHome(home: map<Frame, nat>, work: Work, ticket: nat): map<Frame, nat> {
    if work.hasBuffer then home[work.index := ticket] else home
  }

  /** The reserved index did not get into the converter. */
  ghost predicate Plain(blocks: Option<Blocks>) {
    blocks.Some? ==> !blocks.value.reserved
  }

  /** The converter knows the frames at the encoder, none of which has the reserved index. */
  ghost predicate Known(home: map<Frame, nat>, blocks: Option<Blocks>) {
    Plain(blocks) && (blocks.Some? ==> forall f :: f in home ==> f != NO_FRAME && blocks.value.Knows(f))
  }

  /** The first works hold no input. */
  ghost predicate NoneHeld(all: seq<Work>, first: nat) {
    forall t :: 0 <= t < first && t < |all| ==> !all[t].inputHeld
  }

  /**
    What `all` works, the first `sent` of them sent, have to do with the encoder: their frames are there, and it will
    end no more drains than they wait for, even if `over` of these are over already.
   */
  ghost predicate Tied(all: seq<Work>, sent: nat, first: nat, e: EncoderStates.Snapshot, home: map<Frame, nat>,
                       before: seq<Frame>, over: nat)
  {
    && Owned(all, sent, home) && Carried(e.requests, e.inputBuffers, home) && Distinct(all, first)
    && Pending(e.requests, e.state) + over <= Undone(all[..sent])
    && e.submitted == before + WorkFrames(all[..sent]) && before <= e.enqueued
  }

  /** The end of a drain is told to a work that waits for it. */
  lemma DrainTold(all: seq<Work>, sent: nat, first: nat, e: EncoderStates.Snapshot, home: map<Frame, nat>,
                  before: seq<Frame>, over: nat, all': seq<Work>)
    requires Tied(all, sent, first, e, home, before, over) && over > 0 && EncodeOrder.DrainMarked(all, sent, all')
    ensures Tied(all', sent, first, e, home, before, over - 1)
  {
    MarkCounts(all, sent, all');
    HoldingStays(all, all', sent, home, first);
  }

  lemma TiedLater(all: seq<Work>, sent: nat, first: nat, e: EncoderStates.Snapshot, home: map<Frame, nat>,
                  before: seq<Frame>, over: nat, later: nat)
    requires Tied(all, sent, first, e, home, before, over) && first <= later
    ensures Tied(all, sent, later, e, home, before, over)
  {
  }

  /** The index of a work that is yet to be sent is not that of a frame at the encoder. */
  lemma NotAtEncoder(all: seq<Work>, sent: nat, home: map<Frame, nat>, first: nat)
    requires Owned(all, sent, home) && Distinct(all, first) && NoneHeld(all, first) && sent < |all|
    ensures all[sent].index !in home
  {
    forall f | f in home
      ensures f != all[sent].index
    {
      assert first <= home[f] < sent;
    }
  }

  /** The next work is sent. */
  lemma WorkSent(all: seq<Work>, sent: nat, first: nat, e: EncoderStates.Snapshot, home: map<Frame, nat>,
                 before: seq<Frame>, stopOk: bool)
    requires Tied(all, sent, first, e, home, before, 0) && NoneHeld(all, first) && sent < |all| && !e.state.Error?
    requires EncodeOrder.IsNew(all[sent]) && !StopFails(e, all[sent], stopOk)
    ensures Tied(all, sent + 1, first, EncoderWith(e, all[sent], stopOk), WithHome(home, all[sent], sent), before,
                 if OverAtOnce(e, all[sent]) then 1 else 0)
  {
    hide EncoderWith, Undone, WorkFrames, Pending, StopFails;
    var work := all[sent];
    OneMoreSent(all, sent);
    EncoderWithMeans(e, work, stopOk);
    var e' := EncoderWith(e, work, stopOk);
    if work.hasBuffer {
      NotAtEncoder(all, sent, home, first);
      FrameSent(all, sent, e.requests, e.inputBuffers, home, work.eos);
    } else {
      FramesStay(e.requests, e'.requests, e.inputBuffers, home);
    }
  }

  /** Component and encoder, as values. */
  datatype JointState = JointState(component: EncodeOrder.Snapshot, encoder: EncoderStates.Snapshot)
  {
    /** No error so far, no flush met a posted task, and the reserved index did not get into the converter. */
    ghost predicate Healthy() {
      encoder.Clean() && Plain(component.blocks)
    }

    ghost predicate HasIndex(index: nat) {
      || (exists k :: 0 <= k < |component.workQueue| && component.workQueue[k].index == index)
      || (exists k :: 0 <= k < |component.converterQueue| && component.converterQueue[k].index == index)
    }

    /** The joint invariant, also while works that waited for the converter are taken up. */
    ghost predicate Linked(home: map<Frame, nat>, before: seq<Frame>) {
      && component.BlocksOk() && component.InOrder() && component.Sound()
      && Tied(component.All(), component.SentCount(), |component.reported|, encoder, home, before, 0)
      && Known(home, component.blocks)
    }
  }

  /** Component and encoder once a work was sent; None is an error. */
  ghost function SentBy(j: JointState, c: Option<EncodeOrder.Snapshot>, work: Work, stopOk: bool): Option<JointState> {
    if c.None? || StopFails(j.encoder, work, stopOk) then None
    else Some(JointState(c.value, EncoderWith(j.encoder, work, stopOk)))
  }

  /** The component, but for a work that is to be sent next. */
  ghost predicate TiedBut(u: EncodeOrder.Snapshot, work: Work, e: EncoderStates.Snapshot, home: map<Frame, nat>,
                          before: seq<Frame>)
  {
    && u.BlocksOk() && EncodeOrder.InOrderBut(u, work) && u.Sound() && EncodeOrder.IsNew(work) && Known(home, u.blocks)
    && Tied(u.reported + u.workQueue + [work] + u.converterQueue, u.SentCount(), |u.reported|, e, home, before, 0)
  }

  /** Sending a work keeps the joint invariant, unless its frame has the reserved index and goes to the converter. */
  lemma SendKeeps(u: EncodeOrder.Snapshot, work: Work, a: SendAnswers, e: EncoderStates.Snapshot, home: map<Frame, nat>,
                  before: seq<Frame>)
    requires TiedBut(u, work, e, home, before) && !e.state.Error? && !StopFails(e, work, a.stopOk)
    requires EncodeOrder.Sendable(u, work, a.ToComponent(OverAtOnce(e, work)))
    requires !(work.hasBuffer && u.blocks.Some? && work.index == NO_FRAME)
    ensures var c := EncodeOrder.Sent(u, work, a.ToComponent(OverAtOnce(e, work)));
            && c.Some?
            && JointState(c.value, EncoderWith(e, work, a.stopOk)).Linked(WithHome(home, work, u.SentCount()), before)
  {
    hide Tied, EncodeOrder.DrainMarked, EncodeOrder.Sent, EncoderWith, WithHome, EncodeOrder.InOrderBut, OverAtOnce,
         EncodeOrder.Snapshot.InOrder, EncodeOrder.Snapshot.Sound, StillKnown, Known, StopFails, NoneHeld, Blocks.Ok,
         EncodeOrder.IsNew, Blocks.Knows;
    var answers := a.ToComponent(OverAtOnce(e, work));
    var all, sent, first := u.reported + u.workQueue + [work] + u.converterQueue, u.SentCount(), |u.reported|;
    EncodeOrder.SentMeans(u, work, answers);
    NextInLine(u, work);
    WorkSent(all, sent, first, e, home, before, a.stopOk);
    var c := EncodeOrder.Sent(u, work, answers).value;
    var e', home' := EncoderWith(e, work, a.stopOk), WithHome(home, work, sent);
    OnlyAtTheEnd(e, work);
    if OverAtOnce(e, work) {
      DrainTold(all, sent + 1, first, e', home', before, 1, c.All());
    }
    TiedLater(c.All(), sent + 1, first, e', home', before, 0, |c.reported|);
    KnownAfterSend(u.blocks, c.blocks, home, work, sent);
  }

  lemma NextInLine(u: EncodeOrder.Snapshot, work: Work)
    requires u.Sound()
    ensures var all := u.reported + u.workQueue + [work] + u.converterQueue;
            all[u.SentCount()] == work && NoneHeld(all, |u.reported|)
  {
  }

  lemma OnlyAtTheEnd(e: EncoderStates.Snapshot, work: Work)
    ensures OverAtOnce(e, work) ==> work.eos
  {
  }

  lemma KnownAfterSend(blocks: Option<Blocks>, blocks': Option<Blocks>, home: map<Frame, nat>, work: Work, ticket: nat)
    requires Known(home, blocks) && (blocks.None? ==> blocks'.None?)
    requires blocks.Some? && blocks'.Some? ==>
               && (!blocks.value.reserved ==> !blocks'.value.reserved && StillKnown(blocks.value, blocks'.value))
               && (work.hasBuffer ==> work.index != NO_FRAME && blocks'.value.Knows(work.index))
    ensures Known(WithHome(home, work, ticket), blocks')
  {
  }

  // ----- What an event does, on values -----

  /** queueTask() with the encoder behind it. */
  ghost function Queued(j: JointState, input: EncodeOrder.Input, a: SendAnswers): Option<JointState>
    requires j.component.BlocksOk()
  {
    var work := EncodeOrder.Arrived(j.component.accepted, input);
    var c := EncodeOrder.Queued(j.component, input, a.ToComponent(OverAtOnce(j.encoder, work)));
    if EncodeOrder.IsDiscarded(input) || j.component.Waits() then
      if c.None? then None else Some(j.(component := c.value))
    else SentBy(j, c, work, a.stopOk)
  }

  /** The first work that waited for the converter goes to the encoder. */
  ghost function TakenUp(j: JointState, a: SendAnswers): (r: Option<JointState>)
    requires j.component.BlocksOk() && j.component.converterQueue != []
    ensures r.Some? ==> r.value.component.BlocksOk()
    ensures r.Some? ==> |r.value.component.converterQueue| < |j.component.converterQueue|
  {
    var work := j.component.converterQueue[0];
    SentBy(j, EncodeOrder.TakenUp(j.component, a.ToComponent(OverAtOnce(j.encoder, work))), work, a.stopOk)
  }

  /** So do the others while the converter has a block. */
  ghost function Pumped(j: JointState, answers: nat -> SendAnswers, n: nat): (r: Option<JointState>)
    requires j.component.BlocksOk()
    decreases |j.component.converterQueue|
  {
    if j.component.converterQueue == [] || j.component.blocks.None? || j.component.Waits() then Some(j)
    else
      var r := TakenUp(j, answers(n));
      if r.None? then None else Pumped(r.value, answers, n + 1)
  }

  /** DQBUF of an input buffer: its frame is done. */
  ghost function InputGiven(j: JointState, index: nat, answers: nat -> SendAnswers): Option<JointState>
    requires j.component.BlocksOk() && index < |j.encoder.inputBuffers| && j.encoder.inputBuffers[index].Some?
  {
    var c := EncodeOrder.Released(j.component, j.encoder.inputBuffers[index].value);
    if c.None? then None
    else
      var r := Pumped(JointState(c.value, EncoderStates.InputBack(j.encoder, index)), answers, 0);
      if r.None? then None else Some(r.value.(component := EncodeOrder.ReportFront(r.value.component)))
  }

  /** The component hears of the data in an output buffer, and of the end of a drain. */
  ghost function OutputHeard(c: EncodeOrder.Snapshot, delivered: bool, timestamp: nat, csdOk: bool, drained: bool)
    : Option<EncodeOrder.Snapshot>
  {
    var r := if delivered then EncodeOrder.OutputGiven(c, timestamp, csdOk) else Some(c);
    if r.None? then None else Some(if drained then EncodeOrder.DrainEnds(r.value) else r.value)
  }

  /** What comes with an output buffer, and the answers to what the encoder does next. */
  datatype OutputAnswers =
    OutputAnswers(data: EncoderStates.Data, timestamp: nat, csdOk: bool, isLast: bool, startOk: bool,
                  newBlock: Option<EncoderStates.OutputBlock>)

  /** The buffer is the last one of a drain. */
  ghost predicate EndsDrain(e: EncoderStates.Snapshot, o: OutputAnswers) {
    e.state.Draining? && o.isLast && !EncoderStates.Refused(o.data)
  }

  /** The component after an output buffer. */
  ghost function Heard(j: JointState, index: nat, o: OutputAnswers): Option<EncodeOrder.Snapshot>
    requires index < |j.encoder.outputBuffers|
  {
    OutputHeard(j.component, EncoderStates.Delivered(j.encoder.outputBuffers[index], o.data).Some?, o.timestamp,
                o.csdOk, EndsDrain(j.encoder, o))
  }

  ghost predicate OutputFails(j: JointState, index: nat, o: OutputAnswers)
    requires index < |j.encoder.outputBuffers|
  {
    || EncoderStates.Refused(o.data) || (EndsDrain(j.encoder, o) && !o.startOk) || o.newBlock.None?
    || Heard(j, index, o).None?
  }

  ghost predicate OutputTaken(e: EncoderStates.Snapshot, index: nat, o: OutputAnswers, e': EncoderStates.Snapshot) {
    EncoderStates.OutputReturned(e, EncoderStates.Buffer(index), o.data, o.isLast, o.startOk, o.newBlock, e')
  }

  /** A flush finds a posted task, cannot stop the device, or gives back a work with the reserved index. */
  ghost predicate FlushFails(j: JointState, answers: EncoderStates.FlushAnswers)
    requires j.component.BlocksOk()
  {
    || j.encoder.state.Encoding? || !answers.pollOk || (j.encoder.inputStreaming && !answers.inputOffOk)
    || (j.encoder.outputStreaming && !answers.outputOffOk) || !Plain(EncodeOrder.Flushed(j.component).blocks)
  }

  // ----- The joint invariant is kept -----

  /** No work in flight has the index. */
  ghost predicate NewIndex(all: seq<Work>, first: nat, index: nat) {
    forall t :: first <= t < |all| ==> all[t].index != index
  }

  lemma IndexIsNew(j: JointState, index: nat)
    requires !j.HasIndex(index)
    ensures NewIndex(j.component.All(), |j.component.reported|, index)
  {
  }

  lemma OneMoreWork(all: seq<Work>, sent: nat, first: nat, e: EncoderStates.Snapshot, home: map<Frame, nat>,
                    before: seq<Frame>, work: Work)
    requires Tied(all, sent, first, e, home, before, 0) && NewIndex(all, first, work.index)
    ensures Tied(all + [work], sent, first, e, home, before, 0)
  {
    assert (all + [work])[..sent] == all[..sent];
    hide Carried, Pending, Undone, WorkFrames;
  }

  /** A new work can follow all others, or wait behind them. */
  lemma NewWorkFits(j: JointState, home: map<Frame, nat>, before: seq<Frame>, work: Work)
    requires j.Linked(home, before) && !j.HasIndex(work.index)
    requires work.ticket == j.component.accepted && EncodeOrder.IsNew(work)
    ensures var c := j.component;
            && (c.converterQueue == [] ==> TiedBut(c.(accepted := c.accepted + 1), work, j.encoder, home, before))
            && var d := c.(accepted := c.accepted + 1, converterQueue := c.converterQueue + [work]);
               j.(component := d).Linked(home, before)
  {
    var c := j.component;
    IndexIsNew(j, work.index);
    OneMoreWork(c.All(), c.SentCount(), |c.reported|, j.encoder, home, before, work);
    assert c.All() + [work] == c.reported + c.workQueue + (c.converterQueue + [work]);
    assert c.converterQueue == [] ==> c.All() + [work] == c.reported + c.workQueue + [work] + c.converterQueue;
    hide Tied, Known, Blocks.Ok;
  }

  /** A frame that goes to the converter has the reserved index. */
  ghost predicate Reserved(blocks: Option<Blocks>, work: Work) {
    work.hasBuffer && blocks.Some? && work.index == NO_FRAME
  }

  ghost function HomeAfter(j: JointState, home: map<Frame, nat>, input: EncodeOrder.Input): map<Frame, nat> {
    if EncodeOrder.IsDiscarded(input) || j.component.Waits() then home
    else WithHome(home, EncodeOrder.Arrived(j.component.accepted, input), j.component.SentCount())
  }

  /** Without a failing answer there is no error. */
  lemma QueuedSucceeds(j: JointState, input: EncodeOrder.Input, a: SendAnswers)
    requires j.component.Kept() && a.AllOk()
    ensures Queued(j, input, a).Some?
  {
    var work := EncodeOrder.Arrived(j.component.accepted, input);
    EncodeOrder.QueuedMeans(j.component, input, a.ToComponent(OverAtOnce(j.encoder, work)));
    hide EncodeOrder.Queued, EncodeOrder.DrainMarked;
  }

  /** Queueing fails exactly for a missing pool, a frame that cannot be converted or encoded, or a failing STOP. */
  lemma QueuedFailsIff(j: JointState, input: EncodeOrder.Input, a: SendAnswers)
    requires j.component.Kept()
    ensures Queued(j, input, a).None? <==>
              && (input.hasBuffer || input.eos)
              && (|| !a.poolOk
                  || (&& !j.component.Waits()
                      && (|| (input.hasBuffer && !a.frameOk)
                          || (input.hasBuffer && j.component.blocks.Some? && a.conversion.Unsupported?)
                          || (&& input.eos && !input.hasBuffer && j.encoder.requests == [] && j.encoder.inputStreaming
                              && !j.encoder.state.Draining? && !a.stopOk))))
  {
    var work := EncodeOrder.Arrived(j.component.accepted, input);
    EncodeOrder.QueuedMeans(j.component, input, a.ToComponent(OverAtOnce(j.encoder, work)));
    hide EncodeOrder.Queued, EncodeOrder.DrainMarked;
  }

  /** After a work is queued, the frames at the encoder are exactly those of the works that hold their input. */
  lemma QueuedKeeps(j: JointState, home: map<Frame, nat>, before: seq<Frame>, input: EncodeOrder.Input, a: SendAnswers)
    requires j.Linked(home, before) && j.component.Kept() && !j.encoder.state.Error? && !j.HasIndex(input.index)
    ensures Queued(j, input, a).Some? && Plain(Queued(j, input, a).value.component.blocks) ==>
              Queued(j, input, a).value.Linked(HomeAfter(j, home, input), before)
  {
    if !EncodeOrder.IsDiscarded(input) {
      var work := EncodeOrder.Arrived(j.component.accepted, input);
      NewWorkFits(j, home, before, work);
      if !j.component.Waits() {
        SentKeeps(j, home, before, input, work, a);
      }
    }
  }

  lemma SentKeeps(j: JointState, home: map<Frame, nat>, before: seq<Frame>, input: EncodeOrder.Input, work: Work,
                  a: SendAnswers)
    requires j.component.Kept() && !j.encoder.state.Error? && !EncodeOrder.IsDiscarded(input) && !j.component.Waits()
    requires work == EncodeOrder.Arrived(j.component.accepted, input)
    requires TiedBut(j.component.(accepted := j.component.accepted + 1), work, j.encoder, home, before)
    ensures Queued(j, input, a).Some? && Plain(Queued(j, input, a).value.component.blocks) ==>
              Queued(j, input, a).value.Linked(WithHome(home, work, j.component.SentCount()), before)
  {
    hide JointState.Linked, TiedBut, EncodeOrder.Snapshot.Kept, EncoderWith, EncodeOrder.Sent, StopFails, OverAtOnce,
         WithHome, Plain, EncodeOrder.Sendable, Blocks.Ok;
    var u, answers := j.component.(accepted := j.component.accepted + 1), a.ToComponent(OverAtOnce(j.encoder, work));
    SendableIfSent(u, work, answers, j.encoder, home, before);
    if Queued(j, input, a).Some? {
      if Reserved(u.blocks, work) {
        ReservedGetsIn(u, work, answers);
      } else {
        SendKeeps(u, work, a, j.encoder, home, before);
      }
    }
  }

  lemma SendableIfSent(u: EncodeOrder.Snapshot, work: Work, answers: EncodeOrder.Answers, e: EncoderStates.Snapshot,
                       home: map<Frame, nat>, before: seq<Frame>)
    requires TiedBut(u, work, e, home, before)
    ensures u.BlocksOk()
    ensures EncodeOrder.Sent(u, work, answers).Some? ==> EncodeOrder.Sendable(u, work, answers)
  {
    hide Tied, EncodeOrder.Sent, EncodeOrder.DrainMarked, StillKnown, Known, Blocks.Ok;
    EncodeOrder.SentMeans(u, work, answers);
  }

  lemma ReservedGetsIn(u: EncodeOrder.Snapshot, work: Work, answers: EncodeOrder.Answers)
    requires u.BlocksOk() && Reserved(u.blocks, work)
    ensures EncodeOrder.Sent(u, work, answers).Some? ==> !Plain(EncodeOrder.Sent(u, work, answers).value.blocks)
  {
  }

  /** Taking up a work that waited keeps the joint invariant; all works keep their places. */
  lemma TakenUpKeeps(j: JointState, home: map<Frame, nat>, before: seq<Frame>, a: SendAnswers)
    requires j.Linked(home, before) && !j.encoder.state.Error? && j.component.converterQueue != []
    ensures TakenUp(j, a).Some? ==>
              var k := TakenUp(j, a).value;
              && !k.encoder.state.Error? && (j.component.blocks.Some? ==> k.component.blocks.Some?)
              && k.component.accepted == j.component.accepted
              && EncodeOrder.OnlyDrained(j.component.All(), k.component.All())
              && (Plain(k.component.blocks) ==>
                    k.Linked(WithHome(home, j.component.converterQueue[0], j.component.SentCount()), before))
  {
    hide JointState.Linked, TiedBut, EncodeOrder.Snapshot.InOrder, EncodeOrder.Snapshot.Sound, EncodeOrder.DrainMarked,
         EncodeOrder.OnlyDrained, EncoderWith, EncodeOrder.Sent, EncodeOrder.Snapshot.All, Plain, WithHome, Blocks.Ok,
         StopFails, OverAtOnce, Takes;
    var c, work := j.component, j.component.converterQueue[0];
    var answers := a.ToComponent(OverAtOnce(j.encoder, work));
    LinkedParts(j, home, before);
    EncodeOrder.TakenUpMeans(c, answers);
    var r := EncodeOrder.TakenUp(c, answers);
    if r.Some? && !StopFails(j.encoder, work, a.stopOk) {
      EncodeOrder.BlocksStay(c, answers);
      DrainsNone(c.All());
      EncodeOrder.DrainedOnce(c.All(), c.All(), r.value.SentCount(), r.value.All());
      NoErrorWith(j.encoder, work, a.stopOk);
      WaitingWorkFits(j, home, before);
      if Reserved(c.blocks, work) {
        ReservedGetsIn(c.(converterQueue := c.converterQueue[1..]), work, answers);
      } else {
        SendKeeps(c.(converterQueue := c.converterQueue[1..]), work, a, j.encoder, home, before);
      }
    }
  }

  lemma NoErrorWith(e: EncoderStates.Snapshot, work: Work, stopOk: bool)
    requires !e.state.Error? && !StopFails(e, work, stopOk)
    ensures !EncoderWith(e, work, stopOk).state.Error?
  {
    hide EncoderWith, Handed, Pending, OverAtOnce, StopFails;
    EncoderWithMeans(e, work, stopOk);
  }

  lemma LinkedParts(j: JointState, home: map<Frame, nat>, before: seq<Frame>)
    requires j.Linked(home, before)
    ensures j.component.BlocksOk() && j.component.InOrder() && j.component.Sound() && Known(home, j.component.blocks)
    ensures Plain(j.component.blocks)
    ensures Tied(j.component.All(), j.component.SentCount(), |j.component.reported|, j.encoder, home, before, 0)
  {
  }

  lemma WaitingWorkFits(j: JointState, home: map<Frame, nat>, before: seq<Frame>)
    requires j.Linked(home, before) && j.component.converterQueue != []
    ensures var c := j.component;
            TiedBut(c.(converterQueue := c.converterQueue[1..]), c.converterQueue[0], j.encoder, home, before)
  {
    var c := j.component;
    assert c.reported + c.workQueue + [c.converterQueue[0]] + c.converterQueue[1..] == c.All();
  }

  lemma DrainsNone(all: seq<Work>)
    ensures EncodeOrder.OnlyDrained(all, all)
  {
  }

  /** Once the reserved index is in the converter, it stays there. */
  lemma {:induction false} ReservedStays(j: JointState, answers: nat -> SendAnswers, n: nat)
    requires j.component.BlocksOk() && !Plain(j.component.blocks)
    ensures Pumped(j, answers, n).Some? ==> !Plain(Pumped(j, answers, n).value.component.blocks)
    decreases |j.component.converterQueue|
  {
    if j.component.converterQueue != [] && !j.component.Waits() {
      var r := TakenUp(j, answers(n));
      if r.Some? {
        ReservedStays(r.value, answers, n + 1);
      }
    }
  }

  ghost predicate AllOk(answers: nat -> SendAnswers) {
    forall n: nat :: answers(n).AllOk()
  }

  /** Without a failing answer there is no error. */
  lemma {:induction false} PumpedSucceeds(j: JointState, answers: nat -> SendAnswers, n: nat)
    requires j.component.BlocksOk() && j.component.InOrder() && j.component.Sound() && AllOk(answers)
    ensures Pumped(j, answers, n).Some?
    decreases |j.component.converterQueue|
  {
    if j.component.converterQueue != [] && j.component.blocks.Some? && !j.component.Waits() {
      var work := j.component.converterQueue[0];
      EncodeOrder.TakenUpMeans(j.component, answers(n).ToComponent(OverAtOnce(j.encoder, work)));
      hide EncodeOrder.TakenUp, EncodeOrder.DrainMarked;
      assert TakenUp(j, answers(n)).Some?;
      PumpedSucceeds(TakenUp(j, answers(n)).value, answers, n + 1);
    }
  }

  /** So does taking up all that can be. */
  lemma {:induction false} PumpedKeeps(j: JointState, home: map<Frame, nat>, before: seq<Frame>,
                                       answers: nat -> SendAnswers, n: nat) returns (home': map<Frame, nat>)
    requires j.Linked(home, before) && !j.encoder.state.Error?
    requires j.component.converterQueue != [] ==> j.component.blocks.Some?
    ensures Pumped(j, answers, n).Some? && Plain(Pumped(j, answers, n).value.component.blocks) ==>
              var k := Pumped(j, answers, n).value;
              && k.Linked(home', before) && !k.encoder.state.Error? && k.component.accepted == j.component.accepted
              && EncodeOrder.OnlyDrained(j.component.All(), k.component.All())
              && (k.component.converterQueue != [] ==> k.component.Waits())
    decreases |j.component.converterQueue|
  {
    home' := home;
    DrainsNone(j.component.All());
    if j.component.converterQueue != [] && !j.component.Waits() {
      TakenUpKeeps(j, home, before, answers(n));
      hide JointState.Linked, EncodeOrder.OnlyDrained, TakenUp;
      var r := TakenUp(j, answers(n));
      if r.Some? {
        if Plain(r.value.component.blocks) {
          home' := PumpedKeeps(r.value, WithHome(home, j.component.converterQueue[0], j.component.SentCount()), before,
                               answers, n + 1);
          var k := Pumped(r.value, answers, n + 1);
          if k.Some? && Plain(k.value.component.blocks) {
            EncodeOrder.DrainsAddUp(j.component.All(), r.value.component.All(), k.value.component.All());
          }
        } else {
          ReservedStays(r.value, answers, n + 1);
        }
      }
    }
  }

  /**
    A frame that comes back is that of a work that holds it: the first one with its index, and the only one. The
    component finds it, and the converter takes its block back.
   */
  lemma HolderIsFound(j: JointState, home: map<Frame, nat>, before: seq<Frame>, frame: Frame)
    requires j.Linked(home, before) && frame in home
    ensures var c, k := j.component, EncodeOrder.FirstByIndex(j.component.workQueue, frame);
            && EncodeOrder.Releasable(c, frame) && c.workQueue[k].inputHeld && home[frame] == |c.reported| + k
            && forall i :: 0 <= i < |c.workQueue| && c.workQueue[i].index == frame ==> i == k
  {
    hide JointState.Linked, EncodeOrder.Snapshot.InOrder, Tied, Known, Plain, Blocks.Ok, Blocks.Knows;
    LinkedParts(j, home, before);
    FrameIsKnown(home, j.component.blocks, frame);
    OwnedAndDistinct(j.component.All(), j.component.SentCount(), |j.component.reported|, j.encoder, home, before);
    HolderIsFirst(j.component.reported, j.component.workQueue, j.component.converterQueue, home, frame);
  }

  lemma OwnedAndDistinct(all: seq<Work>, sent: nat, first: nat, e: EncoderStates.Snapshot, home: map<Frame, nat>,
                         before: seq<Frame>)
    requires Tied(all, sent, first, e, home, before, 0)
    ensures Owned(all, sent, home) && Distinct(all, first)
  {
  }

  lemma FrameIsKnown(home: map<Frame, nat>, blocks: Option<Blocks>, frame: Frame)
    requires Known(home, blocks) && frame in home
    ensures blocks.Some? ==> frame != NO_FRAME && blocks.value.Knows(frame)
  {
  }

  lemma HolderIsFirst(reported: seq<Work>, works: seq<Work>, waiting: seq<Work>, home: map<Frame, nat>, frame: Frame)
    requires Owned(reported + works + waiting, |reported| + |works|, home) && frame in home
    requires Distinct(reported + works + waiting, |reported|)
    requires forall k :: 0 <= k < |reported| ==> !reported[k].inputHeld
    ensures var k := EncodeOrder.FirstByIndex(works, frame);
            && k < |works| && works[k].inputHeld && home[frame] == |reported| + k
            && forall i :: 0 <= i < |works| && works[i].index == frame ==> i == k
  {
    hide EncodeOrder.FirstByIndex;
    var all, first, t := reported + works + waiting, |reported|, home[frame];
    HeldIsUnderWay(reported, works, waiting, t);
    hide Owned;
    forall i | 0 <= i < |works| && works[i].index == frame
      ensures first + i == t
    {
      assert all[first + i] == works[i] && all[t] == works[t - first];
    }
  }

  lemma HeldIsUnderWay(reported: seq<Work>, works: seq<Work>, waiting: seq<Work>, t: nat)
    requires t < |reported| + |works| && (reported + works + waiting)[t].inputHeld
    requires forall k :: 0 <= k < |reported| ==> !reported[k].inputHeld
    ensures |reported| <= t && (reported + works + waiting)[t] == works[t - |reported|]
  {
  }

  lemma SameIndices(all: seq<Work>, first: nat, t: nat, work: Work)
    requires Distinct(all, first) && t < |all| && work.index == all[t].index
    ensures Distinct(all[t := work], first)
  {
  }

  /** A frame leaves the encoder, and its work gives it up. */
  lemma FrameGivenUp(all: seq<Work>, sent: nat, first: nat, e: EncoderStates.Snapshot, home: map<Frame, nat>,
                     before: seq<Frame>, i: nat)
    requires Tied(all, sent, first, e, home, before, 0) && i < |e.inputBuffers| && e.inputBuffers[i].Some?
    ensures e.inputBuffers[i].value in home
    ensures var frame := e.inputBuffers[i].value;
            && home[frame] < |all|
            && Tied(EncodeOrder.WithoutInput(all, home[frame]), sent, first, EncoderStates.InputBack(e, i),
                    home - {frame}, before, 0)
  {
    FrameReturned(all, sent, e.requests, e.inputBuffers, home, i);
    var t := home[e.inputBuffers[i].value];
    var work := all[t].(inputHeld := false);
    UndoneStays(all, sent, t, work);
    SameIndices(all, first, t, work);
    SameFrames(all[..sent], all[t := work][..sent]);
    hide Owned, Carried, Distinct, Undone, WorkFrames, Marked;
  }

  /** The frame is returned, and all others are still known. */
  lemma KnownAfterReturn(home: map<Frame, nat>, blocks: Option<Blocks>, blocks': Option<Blocks>, frame: Frame)
    requires Known(home, blocks) && (blocks.None? ==> blocks'.None?)
    requires blocks.Some? && blocks'.Some? ==>
               KnownBut(frame, blocks.value, blocks'.value) && !blocks'.value.reserved
    ensures Known(home - {frame}, blocks')
  {
  }

  /** Component and encoder once an input buffer has come back. */
  lemma ReleasedKeeps(j: JointState, home: map<Frame, nat>, before: seq<Frame>, i: nat)
    requires j.Linked(home, before) && i < |j.encoder.inputBuffers| && j.encoder.inputBuffers[i].Some?
    ensures var frame := j.encoder.inputBuffers[i].value;
            var c := EncodeOrder.Released(j.component, frame);
            && frame in home && EncodeOrder.Releasable(j.component, frame) && c.Some?
            && JointState(c.value, EncoderStates.InputBack(j.encoder, i)).Linked(home - {frame}, before)
            && c.value.converterQueue == j.component.converterQueue && c.value.accepted == j.component.accepted
            && (j.component.blocks.Some? ==> c.value.blocks.Some?)
  {
    hide JointState.Linked, Tied, EncodeOrder.Snapshot.InOrder, EncodeOrder.Snapshot.Sound, EncodeOrder.Snapshot.All,
         EncodeOrder.Releasable, EncoderStates.InputBack, KnownBut, Known, Plain, Blocks.Ok, EncodeOrder.WithoutInput;
    var c, frame := j.component, j.encoder.inputBuffers[i].value;
    LinkedParts(j, home, before);
    FrameGivenUp(c.All(), c.SentCount(), |c.reported|, j.encoder, home, before, i);
    HolderIsFound(j, home, before, frame);
    FrameIsKnown(home, c.blocks, frame);
    EncodeOrder.ReleasedMeans(c, frame);
    var d := EncodeOrder.Released(c, frame).value;
    NotReserved(home, c.blocks);
    KnownAfterReturn(home, c.blocks, d.blocks, frame);
    JoinParts(JointState(d, EncoderStates.InputBack(j.encoder, i)), home - {frame}, before);
  }

  lemma NotReserved(home: map<Frame, nat>, blocks: Option<Blocks>)
    requires Known(home, blocks)
    ensures blocks.Some? ==> !blocks.value.reserved
  {
  }

  lemma JoinParts(j: JointState, home: map<Frame, nat>, before: seq<Frame>)
    requires j.component.BlocksOk() && j.component.InOrder() && j.component.Sound() && Known(home, j.component.blocks)
    requires Tied(j.component.All(), j.component.SentCount(), |j.component.reported|, j.encoder, home, before, 0)
    ensures j.Linked(home, before)
  {
  }

  /** Reporting finished works changes nothing about frames and drains. */
  lemma ReportKeeps(j: JointState, home: map<Frame, nat>, before: seq<Frame>)
    requires j.Linked(home, before)
    ensures var c := EncodeOrder.ReportFront(j.component);
            && j.(component := c).Linked(home, before) && c.All() == j.component.All()
            && c == j.component.(reported := c.reported, workQueue := c.workQueue)
            && (c.workQueue == [] || !c.workQueue[0].Done())
  {
    EncodeOrder.ReportFrontMeans(j.component);
    hide EncodeOrder.ReportFront, Tied, EncodeOrder.Snapshot.InOrder, EncodeOrder.Snapshot.Sound,
         EncodeOrder.Snapshot.All;
    var c := EncodeOrder.ReportFront(j.component);
    TiedLater(c.All(), c.SentCount(), |j.component.reported|, j.encoder, home, before, 0, |c.reported|);
  }

  /**
    A frame comes back from the device: exactly the work that holds it gives it up, others may get the converter's
    block, and finished works are reported. Without a failing answer there is no error.
   */
  lemma InputGivenKeeps(j: JointState, home: map<Frame, nat>, before: seq<Frame>, i: nat, answers: nat -> SendAnswers)
    returns (home': map<Frame, nat>)
    requires j.Linked(home, before) && j.component.Kept() && !j.encoder.state.Error?
    requires i < |j.encoder.inputBuffers| && j.encoder.inputBuffers[i].Some?
    ensures AllOk(answers) ==> InputGiven(j, i, answers).Some?
    ensures InputGiven(j, i, answers).Some? && Plain(InputGiven(j, i, answers).value.component.blocks) ==>
              var k := InputGiven(j, i, answers).value;
              && k.Linked(home', before) && k.component.Kept() && !k.encoder.state.Error?
              && ReleasedIn(j.component, j.encoder.inputBuffers[i].value, k.component)
  {
    hide JointState.Linked, EncodeOrder.Released, EncodeOrder.Releasable, EncodeOrder.OnlyDrained,
         EncodeOrder.Snapshot.All, Known, Tied, EncodeOrder.Snapshot.InOrder, EncodeOrder.Snapshot.Sound, Blocks.Ok,
         EncodeOrder.ReportFront, EncodeOrder.WithoutInput, EncoderStates.InputBack;
    var frame := j.encoder.inputBuffers[i].value;
    ReleasedKeeps(j, home, before, i);
    EncodeOrder.ReleasedMeans(j.component, frame);
    var u := JointState(EncodeOrder.Released(j.component, frame).value, EncoderStates.InputBack(j.encoder, i));
    NoErrorBack(j.encoder, i);
    LinkedParts(u, home - {frame}, before);
    if AllOk(answers) {
      PumpedSucceeds(u, answers, 0);
    }
    home' := PumpedKeeps(u, home - {frame}, before, answers, 0);
    var r := Pumped(u, answers, 0);
    if r.Some? && Plain(r.value.component.blocks) {
      ReportKeeps(r.value, home', before);
      LinkedParts(r.value.(component := EncodeOrder.ReportFront(r.value.component)), home', before);
    }
  }

  lemma NoErrorBack(e: EncoderStates.Snapshot, i: nat)
    requires i < |e.inputBuffers|
    ensures EncoderStates.InputBack(e, i).state.Error? <==> e.state.Error?
  {
  }

  /** Exactly the first work with this index gave its input up, and no finished work is left at the front. */
  ghost predicate ReleasedIn(c: EncodeOrder.Snapshot, frame: Frame, d: EncodeOrder.Snapshot) {
    var k := |c.reported| + EncodeOrder.FirstByIndex(c.workQueue, frame);
    && k < |c.All()| && EncodeOrder.OnlyDrained(EncodeOrder.WithoutInput(c.All(), k), d.All())
    && d.accepted == c.accepted && (d.workQueue == [] || !d.workQueue[0].Done())
  }

  // ----- Output, posted tasks and flushes -----

  /** Progress of one work that touches neither index, buffer, input nor drain. */
  lemma OneWorkChanges(all: seq<Work>, sent: nat, first: nat, e: EncoderStates.Snapshot, home: map<Frame, nat>,
                       before: seq<Frame>, t: nat, work: Work)
    requires Tied(all, sent, first, e, home, before, 0) && t < |all|
    requires work.index == all[t].index && work.hasBuffer == all[t].hasBuffer && work.inputHeld == all[t].inputHeld
    requires work.Undrained() == all[t].Undrained()
    ensures Tied(all[t := work], sent, first, e, home, before, 0)
  {
    UndoneStays(all, sent, t, work);
    HoldingStays(all, all[t := work], sent, home, first);
    hide Carried, Pending, Undone, WorkFrames;
  }

  /** Output for a work changes nothing about frames and drains. */
  lemma OutputKeeps(j: JointState, home: map<Frame, nat>, before: seq<Frame>, timestamp: nat, csdOk: bool)
    requires j.Linked(home, before) && j.component.Kept()
    ensures EncodeOrder.OutputGiven(j.component, timestamp, csdOk).Some? ==>
              var c := EncodeOrder.OutputGiven(j.component, timestamp, csdOk).value;
              j.(component := c).Linked(home, before) && c.Kept()
  {
    hide JointState.Linked, Tied, Known, EncodeOrder.OutputGiven, EncodeOrder.Snapshot.InOrder,
         EncodeOrder.Snapshot.Sound, EncodeOrder.FirstByTimestamp, Blocks.Ok;
    var c, r := j.component, EncodeOrder.OutputGiven(j.component, timestamp, csdOk);
    EncodeOrder.OutputGivenMeans(c, timestamp, csdOk);
    if r.Some? {
      LinkedParts(j, home, before);
      var i := EncodeOrder.FirstByTimestamp(c.workQueue, timestamp);
      if i < |c.workQueue| {
        assert c.All()[|c.reported| + i] == c.workQueue[i];
        OneWorkChanges(c.All(), c.SentCount(), |c.reported|, j.encoder, home, before, |c.reported| + i,
                       c.workQueue[i].(hasOutput := true));
      }
      TiedLater(r.value.All(), c.SentCount(), |c.reported|, j.encoder, home, before, 0, |r.value.reported|);
      JoinParts(j.(component := r.value), home, before);
    }
  }

  /** What the encoder does with an output buffer leaves its frames alone; a drain may be over. */
  ghost predicate OnlyOutput(e: EncoderStates.Snapshot, e': EncoderStates.Snapshot, drained: bool) {
    && e'.requests == e.requests && e'.inputBuffers == e.inputBuffers && e'.submitted == e.submitted
    && e'.enqueued == e.enqueued
    && (if drained then e.state.Draining? && !e'.state.Draining? else e'.state.Draining? ==> e.state.Draining?)
  }

  lemma OutputOnly(e: EncoderStates.Snapshot, index: nat, o: OutputAnswers, e': EncoderStates.Snapshot)
    requires OutputTaken(e, index, o, e') && !e'.state.Error?
    ensures OnlyOutput(e, e', EndsDrain(e, o))
  {
    hide EncoderStates.FilledOne, EncoderStates.Refused;
  }

  lemma TiedAfterOutput(all: seq<Work>, sent: nat, first: nat, e: EncoderStates.Snapshot, home: map<Frame, nat>,
                        before: seq<Frame>, e': EncoderStates.Snapshot, drained: bool)
    requires Tied(all, sent, first, e, home, before, 0) && OnlyOutput(e, e', drained)
    ensures Tied(all, sent, first, e', home, before, if drained then 1 else 0)
  {
    hide Owned, Carried, Distinct, Undone, WorkFrames, Marked;
  }

  /** The component hears of output and of the end of a drain, for which a work waits. */
  lemma OutputHeardKeeps(j: JointState, home: map<Frame, nat>, before: seq<Frame>, delivered: bool, timestamp: nat,
                         csdOk: bool, drained: bool, e': EncoderStates.Snapshot)
    requires j.Linked(home, before) && j.component.Kept() && OnlyOutput(j.encoder, e', drained)
    ensures OutputHeard(j.component, delivered, timestamp, csdOk, drained).Some? ==>
              var c := OutputHeard(j.component, delivered, timestamp, csdOk, drained).value;
              JointState(c, e').Linked(home, before) && c.Kept()
  {
    hide JointState.Linked, Tied, Known, EncodeOrder.OutputGiven, EncodeOrder.DrainEnds, EncodeOrder.Snapshot.InOrder,
         EncodeOrder.Snapshot.Sound, EncodeOrder.Snapshot.All, EncodeOrder.DrainMarked, Blocks.Ok, OnlyOutput;
    OutputKeeps(j, home, before, timestamp, csdOk);
    var r := if delivered then EncodeOrder.OutputGiven(j.component, timestamp, csdOk) else Some(j.component);
    if r.Some? {
      var c := r.value;
      LinkedParts(j.(component := c), home, before);
      TiedAfterOutput(c.All(), c.SentCount(), |c.reported|, j.encoder, home, before, e', drained);
      if drained {
        EncodeOrder.DrainEndsMeans(c);
        var d := EncodeOrder.DrainEnds(c);
        DrainTold(c.All(), c.SentCount(), |c.reported|, e', home, before, 1, d.All());
        TiedLater(d.All(), d.SentCount(), |c.reported|, e', home, before, 0, |d.reported|);
        JoinParts(JointState(d, e'), home, before);
      } else {
        JoinParts(JointState(c, e'), home, before);
      }
    }
  }

  /** While the encoder drains, a work waits for the drain. */
  lemma DrainHasWork(j: JointState, home: map<Frame, nat>, before: seq<Frame>)
    requires j.Linked(home, before) && j.encoder.state.Draining?
    ensures EncodeOrder.FirstUndrained(j.component.workQueue) < |j.component.workQueue|
  {
    var c := j.component;
    var works := c.All()[..c.SentCount()];
    assert works == c.reported + c.workQueue;
    NoneUndone(works);
    var t :| 0 <= t < |works| && works[t].Undrained();
    assert forall k :: 0 <= k < |c.reported| ==> works[k] == c.reported[k];
    assert works[t] == c.workQueue[t - |c.reported|];
  }

  /** The posted task: the first frame in line goes to the device, or the encoder waits. */
  lemma HandledKeeps(j: JointState, home: map<Frame, nat>, before: seq<Frame>, answers: EncoderStates.HandleAnswers,
                     e': EncoderStates.Snapshot)
    requires j.Linked(home, before) && j.encoder.state.Encoding? && e'.Clean()
    requires EncoderStates.Handled(j.encoder, answers, e')
    ensures j.(encoder := e').Linked(home, before)
  {
    hide JointState.Linked, Owned, Carried, Distinct, Undone, WorkFrames, Known, EncodeOrder.Snapshot.InOrder,
         EncodeOrder.Snapshot.Sound, EncodeOrder.Snapshot.All, EncoderStates.FilledOne, EncoderStates.Full,
         EncoderStates.HandlesWell, Blocks.Ok;
    LinkedParts(j, home, before);
    FirstHandled(j.encoder.requests);
    if !EncoderStates.Full(j.encoder.inputBuffers) {
      FrameQueued(j.encoder.requests, j.encoder.inputBuffers, home, e'.inputBuffers);
    }
    JoinParts(j.(encoder := e'), home, before);
  }

  /** Everything starts again. */
  lemma FlushedKeeps(c: EncodeOrder.Snapshot, e: EncoderStates.Snapshot)
    requires c.Kept() && e.requests == [] && e.submitted == e.enqueued && !e.state.Draining?
    requires forall i :: 0 <= i < |e.inputBuffers| ==> e.inputBuffers[i].None?
    ensures EncodeOrder.Flushed(c).Kept()
    ensures Plain(EncodeOrder.Flushed(c).blocks) ==> JointState(EncodeOrder.Flushed(c), e).Linked(map[], e.enqueued)
  {
    hide JointState.Linked, Tied, Blocks.Ok, EncodeOrder.FlushedBlocks;
    var d := EncodeOrder.Flushed(c);
    NothingTied(e);
    assert d.All() == [] && d.InOrder() && d.Sound();
    if Plain(d.blocks) {
      JoinParts(JointState(d, e), map[], e.enqueued);
    }
  }

  lemma StartsLinked(c: EncodeOrder.Snapshot, e: EncoderStates.Snapshot)
    requires c == EncodeOrder.Initial(c.blocks) && c.BlocksOk() && Plain(c.blocks) && EncoderStates.Initial(e)
    ensures JointState(c, e).Linked(map[], [])
  {
    hide Tied, Blocks.Ok;
    assert c.All() == [];
    NothingTied(e);
  }

  lemma NothingTied(e: EncoderStates.Snapshot)
    requires e.requests == [] && e.submitted == e.enqueued && !e.state.Draining?
    requires forall i :: 0 <= i < |e.inputBuffers| ==> e.inputBuffers[i].None?
    ensures Tied([], 0, 0, e, map[], e.enqueued, 0)
  {
  }

  lemma SameTail(before: seq<Frame>, enqueued: seq<Frame>, waiting: seq<Frame>, frames: seq<Frame>)
    requires before <= enqueued && enqueued + waiting == before + frames
    ensures enqueued[|before|..] + waiting == frames
  {
    assert enqueued[|before|..] + waiting == (enqueued + waiting)[|before|..];
    assert frames == (before + frames)[|before|..];
  }

  // ----- The objects -----

  class Pipeline {
    const component: EncodeOrder.EncodeComponent
    const encoder: EncoderStates.V4L2Encoder
    ghost var home: map<Frame, nat>
    ghost var before: seq<Frame>

    ghost function Snap(): JointState
      reads component, component.converter, encoder
    {
      JointState(component.Snap(), encoder.Snap())
    }

    predicate Healthy()
      reads component, component.converter, encoder
    {
      !component.error && encoder.Clean() && (component.converter != null ==> !component.converter.reserved)
    }

    ghost predicate Joint()
      reads this, component, component.converter, encoder
    {
      && !component.error && component.Valid() && encoder.Valid() && encoder.Clean()
      && Snap().Linked(home, before)
    }

    predicate HasIndex(index: nat)
      reads component
    {
      || (exists k :: 0 <= k < |component.workQueue| && component.workQueue[k].index == index)
      || (exists k :: 0 <= k < |component.converterQueue| && component.converterQueue[k].index == index)
    }

    constructor (numBlocks: Option<nat>, keyFramePeriod: nat, numInputs: nat, numOutputs: nat)
      requires keyFramePeriod > 0 && numInputs > 0
      ensures Healthy() && Joint() && fresh(component) && fresh(encoder)
      ensures component.converter != null ==> fresh(component.converter)
      ensures component.Snap() == EncodeOrder.Initial(if numBlocks.None? then None else Some(AllFree(numBlocks.value)))
      ensures EncoderStates.Initial(encoder.Snap())
    {
      var converter: FormatConverter? := null;
      if numBlocks.Some? {
        converter := new FormatConverter(numBlocks.value);
      }
      component := new EncodeOrder.EncodeComponent(converter);
      encoder := new EncoderStates.V4L2Encoder(keyFramePeriod, numInputs, numOutputs);
      home, before := map[], [];
      new;
      StartsLinked(component.Snap(), encoder.Snap());
      hide EncoderStates.V4L2Encoder.Valid, JointState.Linked;
    }

    /** The drains that the encoder was asked for are over at once. */
    predicate IsOverAtOnce(work: Work)
      reads encoder
    {
      work.eos && !work.hasBuffer && encoder.requests == [] && !encoder.inputStreaming
    }

    /** A work goes to the encoder, and with the end of the stream a drain, which may be over at once. */
    method ToEncoder(work: Work, stopOk: bool) returns (over: bool)
      requires encoder.Valid() && encoder.Clean()
      modifies encoder
      ensures encoder.Valid() && encoder.Snap() == EncoderWith(old(encoder.Snap()), work, stopOk)
      ensures encoder.Clean() <==> !StopFails(old(encoder.Snap()), work, stopOk)
      ensures over <==> OverAtOnce(old(encoder.Snap()), work)
    {
      over := false;
      CleanWith(encoder.Snap(), work, stopOk);
      hide EncoderStates.V4L2Encoder.Valid, EncoderStates.Encoded, EncoderStates.DrainCalled, StopFails;
      if work.hasBuffer {
        CleanEncoded(encoder.Snap(), work.index);
        EncoderStates.HandleEncode(encoder, Some(work.index));
      }
      if work.eos {
        var done := EncoderStates.HandleDrain(encoder, stopOk);
        over := done == Some(true);
      }
    }

    lemma SnapHealthy()
      requires !component.error
      ensures Healthy() <==> Snap().Healthy()
    {
    }

    /**
      The client queues a work. It goes to the encoder, or waits for the converter. It fails exactly when an answer
      does, or when the reserved index gets into the converter.
     */
    method QueueWork(input: EncodeOrder.Input, a: SendAnswers)
      requires Joint() && !HasIndex(input.index)
      modifies this`home, component, component.converter, encoder
      ensures encoder.Valid() && (Healthy() ==> Joint())
      ensures Healthy() <==> GoesWell(Queued(old(Snap()), input, a))
      ensures Healthy() ==> Some(Snap()) == Queued(old(Snap()), input, a)
    {
      hide JointState.Linked, EncoderWith, EncodeOrder.Queued, EncodeOrder.Snapshot.Kept, EncodeOrder.DrainMarked,
           EncoderStates.V4L2Encoder.Valid, EncoderStates.V4L2Encoder.Snap, EncodeOrder.Sendable, StopFails;
      ghost var s := Snap();
      var work := EncodeOrder.Arrived(component.accepted, input);
      var sends := !EncodeOrder.IsDiscarded(input) && !component.Waits();
      SnapParts();
      QueuedKeeps(s, home, before, input, a);
      component.QueueTask(input, a.ToComponent(IsOverAtOnce(work)));
      if !component.error && sends {
        var over := ToEncoder(work, a.stopOk);
      }
      home := HomeAfter(s, home, input);
      if !component.error {
        SnapHealthy();
      }
    }

    lemma JointParts()
      requires Joint()
      ensures Upright() && Healthy() && component.Valid() && Snap().Linked(home, before)
    {
    }

    lemma JointAgain()
      requires Healthy() && component.Snap().Kept() && encoder.Valid() && Snap().Linked(home, before)
      ensures Joint()
    {
    }

    lemma IsReady()
      requires Joint()
      ensures Healthy() && Ready(Snap()) && Snap().component.BlocksOk() && encoder.Valid()
      ensures forall index :: HasIndex(index) <==> Snap().HasIndex(index)
      ensures Snap().encoder.state == encoder.state && Snap().encoder.posted == encoder.posted && Snap().encoder.Clean()
      ensures encoder.posted == 0 <==> !encoder.state.Encoding?
    {
      InputSlots();
      encoder.PostedIffEncoding();
      SnapHealthy();
      hide JointState.Linked;
    }

    lemma SnapParts()
      requires Joint()
      ensures component.Snap().Kept() && !encoder.Snap().state.Error? && encoder.Snap().Clean()
      ensures encoder.Snap().inputBuffers == encoder.inputBuffers
      ensures forall index :: HasIndex(index) <==> Snap().HasIndex(index)
      ensures forall work :: IsOverAtOnce(work) <==> OverAtOnce(encoder.Snap(), work)
    {
    }

    /** The first work that waited for the converter goes to the encoder. */
    method TakeUp(a: SendAnswers)
      requires Upright() && component.converterQueue != []
      modifies component, component.converter, encoder
      ensures component.Snap().BlocksOk() && encoder.Valid() && (Upright() <==> TakenUp(old(Snap()), a).Some?)
      ensures Upright() ==> Some(Snap()) == TakenUp(old(Snap()), a)
    {
      hide EncoderWith, EncodeOrder.TakenUp, EncoderStates.V4L2Encoder.Valid, EncoderStates.V4L2Encoder.Snap, StopFails,
           Blocks.Ok;
      var work := component.converterQueue[0];
      SnapOver(work);
      component.TakeUp(a.ToComponent(IsOverAtOnce(work)));
      if !component.error {
        var over := ToEncoder(work, a.stopOk);
      }
    }

    lemma SnapOver(work: Work)
      ensures IsOverAtOnce(work) <==> OverAtOnce(encoder.Snap(), work)
    {
    }

    /** There was no error, and the encoder is in order. */
    ghost predicate Upright()
      reads component, component.converter, encoder
    {
      !component.error && component.Snap().BlocksOk() && encoder.Valid() && encoder.Clean()
    }

    /** So do the others, while the converter has a block. */
    method TakeUpAll(answers: nat -> SendAnswers)
      requires Upright()
      modifies component, component.converter, encoder
      ensures component.Snap().BlocksOk() && encoder.Valid() && (Upright() <==> Pumped(old(Snap()), answers, 0).Some?)
      ensures Upright() ==> Some(Snap()) == Pumped(old(Snap()), answers, 0)
    {
      hide TakenUp, EncoderStates.V4L2Encoder.Valid, EncoderStates.V4L2Encoder.Snap, Blocks.Ok;
      if component.converter == null {
        return;
      }
      ghost var goal := Pumped(Snap(), answers, 0);
      var n := 0;
      while component.converterQueue != [] && component.converter.IsReady()
        invariant Upright() && Pumped(Snap(), answers, n) == goal
        decreases |component.converterQueue|
      {
        TakeUp(answers(n));
        if component.error || !encoder.Clean() {
          return;
        }
        n := n + 1;
      }
    }

    /** The device gives an input frame back. */
    method TakeBack(index: nat) returns (frame: Frame)
      requires encoder.Valid() && encoder.Clean() && index in encoder.inputQueued
      modifies encoder
      ensures encoder.Valid() && encoder.Clean()
      ensures index < |old(encoder.inputBuffers)| && old(encoder.inputBuffers)[index] == Some(frame)
      ensures encoder.Snap() == EncoderStates.InputBack(old(encoder.Snap()), index)
    {
      hide EncoderStates.V4L2Encoder.Valid;
      var more, returned := encoder.DequeueInputBuffer(EncoderStates.Buffer(index));
      return returned.value;
    }

    lemma InputSlots()
      requires encoder.Valid() && encoder.Clean()
      ensures forall i :: i in encoder.inputQueued ==> i < |encoder.inputBuffers| && encoder.inputBuffers[i].Some?
      ensures forall i :: i in encoder.outputQueued ==> i < |encoder.outputBuffers| && encoder.outputBuffers[i].Some?
    {
    }

    /**
      A service task for one input buffer: the work that holds its frame gives it up, others may get the converter's
      block, and finished works are reported. It fails exactly when an answer does, or when the reserved index gets into
      the converter.
     */
    method ServiceInput(index: nat, answers: nat -> SendAnswers)
      requires Joint() && index in encoder.inputQueued
      modifies this`home, component, component.converter, encoder
      ensures encoder.Valid() && (Healthy() ==> Joint())
      ensures index < |old(encoder.inputBuffers)| && old(encoder.inputBuffers)[index].Some?
      ensures Healthy() <==> GoesWell(InputGiven(old(Snap()), index, answers))
      ensures Healthy() ==> Some(Snap()) == InputGiven(old(Snap()), index, answers)
    {
      hide JointState.Linked, EncodeOrder.Snapshot.Kept, EncoderStates.V4L2Encoder.Valid,
           EncoderStates.V4L2Encoder.Snap, EncodeOrder.Released, Pumped, EncodeOrder.ReportFront,
           EncoderStates.InputBack, EncodeOrder.Snapshot.BlocksOk, ReleasedIn, JointState.Healthy, Joint;
      JointParts();
      InputSlots();
      SnapParts();
      ghost var home' := InputGivenKeeps(Snap(), home, before, index, answers);
      var frame := TakeBack(index);
      component.Release(frame);
      if component.error {
        return;
      }
      TakeUpAll(answers);
      if component.error || !encoder.Clean() {
        return;
      }
      component.ReportFinished();
      home := home';
      SnapHealthy();
      if Healthy() {
        JointAgain();
      }
    }

    /**
      DQBUF of an output buffer. The component hears of its data before the encoder goes on; a drain that ends finds a
      work that waits for it.
     */
    method ServiceOutput(index: nat, o: OutputAnswers)
      requires Joint() && index in encoder.outputQueued
      modifies component, encoder
      ensures encoder.Valid() && (Healthy() ==> Joint()) && index < |old(encoder.outputBuffers)|
      ensures Healthy() <==> !OutputFails(old(Snap()), index, o)
      ensures Healthy() ==>
                && Heard(old(Snap()), index, o) == Some(component.Snap())
                && OutputTaken(old(encoder.Snap()), index, o, encoder.Snap())
      ensures old(encoder.state).Draining? ==>
                EncodeOrder.FirstUndrained(old(component.workQueue)) < |old(component.workQueue)|
    {
      hide JointState.Linked, EncodeOrder.Snapshot.Kept, EncoderStates.V4L2Encoder.Valid,
           EncoderStates.V4L2Encoder.Snap, EncodeOrder.OutputGiven, EncodeOrder.DrainEnds,
           EncodeOrder.Snapshot.BlocksOk, OutputTaken, OnlyOutput, EncoderStates.Delivered, EncoderStates.Refused,
           EncodeOrder.FirstUndrained, Joint;
      ghost var s := Snap();
      JointParts();
      InputSlots();
      SnapOutput();
      if encoder.state.Draining? {
        DrainHasWork(s, home, before);
      }
      var delivers := EncoderStates.Delivered(encoder.outputBuffers[index], o.data).Some?;
      if delivers {
        component.OnOutputBufferDone(o.timestamp, o.csdOk);
        if component.error {
          return;
        }
      }
      var drained := GoOnWithOutput(index, o);
      if drained {
        component.OnDrainDone();
      }
      if Healthy() {
        SnapOutput();
        OutputOnly(s.encoder, index, o, encoder.Snap());
        OutputHeardKeeps(s, home, before, delivers, o.timestamp, o.csdOk, drained, encoder.Snap());
        JointAgain();
      }
    }

    lemma SnapOutput()
      ensures encoder.Snap().outputBuffers == encoder.outputBuffers && encoder.Snap().state == encoder.state
    {
    }

    /** The encoder's part: the buffer is queued again, and a drain may be over. */
    method GoOnWithOutput(index: nat, o: OutputAnswers) returns (drained: bool)
      requires encoder.Valid() && encoder.Clean() && index in encoder.outputQueued
      modifies encoder
      ensures encoder.Valid() && OutputTaken(old(encoder.Snap()), index, o, encoder.Snap())
      ensures drained == EndsDrain(old(encoder.Snap()), o)
      ensures encoder.Clean() <==> !EncoderStates.Refused(o.data) && (drained ==> o.startOk) && o.newBlock.Some?
    {
      hide EncoderStates.V4L2Encoder.Valid, EncoderStates.FilledOne, EncoderStates.Delivered, EncoderStates.Refused;
      var more, delivered;
      more, delivered, drained :=
        encoder.DequeueOutputBuffer(EncoderStates.Buffer(index), o.data, o.isLast, o.startOk, o.newBlock);
    }

    /** The posted task of the encoder: the first frame in line goes to the device. */
    method HandlePosted(answers: EncoderStates.HandleAnswers)
      requires Joint()
      modifies encoder
      ensures encoder.Valid() && (Healthy() ==> Joint())
      ensures Healthy() <==> (old(encoder.state).Encoding? ==> EncoderStates.HandlesWell(old(encoder.Snap()), answers))
      ensures EncoderStates.Step(old(encoder.Snap()), EncoderStates.HandleTask(answers), encoder.Snap())
    {
      hide JointState.Linked, EncoderStates.V4L2Encoder.Valid, EncoderStates.HandlesWell, Joint;
      JointParts();
      encoder.PostedIffEncoding();
      ghost var s := Snap();
      EncoderStates.HandlePosted(encoder, answers);
      if Healthy() {
        if s.encoder.state.Encoding? {
          HandledKeeps(s, home, before, answers, encoder.Snap());
        }
        JointAgain();
      }
    }

    /**
      Encoder and component start again. They are in order if and only if the encoder was not encoding, its device
      could be stopped, and no work with the reserved index was given back.
     */
    method Flush(answers: EncoderStates.FlushAnswers)
      requires Joint()
      modifies this, component, component.converter, encoder
      ensures encoder.Valid() && (Healthy() ==> Joint()) && (Healthy() <==> !FlushFails(old(Snap()), answers))
      ensures component.Snap() == EncodeOrder.Flushed(old(component.Snap()))
      ensures EncoderStates.Flushed(old(encoder.Snap()), answers, encoder.Snap()) && before == old(encoder.enqueued)
    {
      hide JointState.Linked, EncoderStates.V4L2Encoder.Valid, EncodeOrder.Flushed, EncodeOrder.Snapshot.Kept, Joint,
           Blocks.Ok;
      JointParts();
      ghost var s := Snap();
      encoder.Flush(answers);
      var aborted := component.Flush();
      home, before := map[], encoder.enqueued;
      SnapHealthy();
      if Healthy() {
        IdleSlots();
        FlushedKeeps(s.component, encoder.Snap());
        JointAgain();
      }
    }

    lemma IdleSlots()
      requires encoder.Valid() && !encoder.state.Error? && !encoder.inputStreaming
      ensures forall i :: 0 <= i < |encoder.inputBuffers| ==> encoder.inputBuffers[i].None?
    {
    }

    /**
      Since the last flush, frames reached the device in the order of the works they belong to, and those in line are to
      follow in that order.
     */
    lemma FramesInOrder()
      requires Joint()
      ensures before <= encoder.enqueued
      ensures encoder.enqueued[|before|..] + EncoderStates.FramesOf(encoder.requests)
              == WorkFrames(component.reported + component.workQueue)
    {
      var c := component.Snap();
      assert c.All()[..c.SentCount()] == component.reported + component.workQueue;
      hide Owned, Carried, Distinct, Pending, Undone, WorkFrames, EncoderStates.FramesOf;
      SameTail(before, encoder.enqueued, EncoderStates.FramesOf(encoder.requests),
               WorkFrames(component.reported + component.workQueue));
    }
  }

  /** There is no error. */
  ghost predicate GoesWell(r: Option<JointState>) {
    r.Some? && r.value.Healthy()
  }

  // ----- Every run -----

  datatype Event =
    | Queue(input: EncodeOrder.Input, answers: SendAnswers)
    | HandleTask(handleAnswers: EncoderStates.HandleAnswers)
    | InputDone(answer: EncoderStates.Answer, waitingAnswers: nat -> SendAnswers)
    | OutputDone(outputAnswer: EncoderStates.Answer, output: OutputAnswers)
    | FlushAll(flushAnswers: EncoderStates.FlushAnswers)

  /** A work with the index of one in flight, or a buffer that the device does not have. */
  ghost predicate Skipped(s: JointState, event: Event) {
    match event
    case Queue(input, answers) => s.HasIndex(input.index)
    case HandleTask(answers) => !s.encoder.state.Encoding?
    case InputDone(answer, answers) => answer.Again? || (answer.Buffer? && answer.index !in s.encoder.inputQueued)
    case OutputDone(answer, output) => answer.Again? || (answer.Buffer? && answer.index !in s.encoder.outputQueued)
    case FlushAll(answers) => false
  }

  /** What is queued at the device is in a slot. */
  ghost predicate Slotted<T>(queued: set<nat>, slots: seq<Option<T>>) {
    forall i :: i in queued ==> i < |slots| && slots[i].Some?
  }

  /** The state between two events, as far as needed to say what comes next. */
  ghost predicate Ready(s: JointState) {
    && s.Healthy() && s.component.Kept()
    && Slotted(s.encoder.inputQueued, s.encoder.inputBuffers)
    && Slotted(s.encoder.outputQueued, s.encoder.outputBuffers)
    && (s.encoder.state.Encoding? ==> s.encoder.requests != [])
  }

  /** The event ends in an error, or in a state that is not healthy. */
  ghost predicate Fails(s: JointState, event: Event)
    requires Ready(s) && !Skipped(s, event)
  {
    match event
    case Queue(input, answers) => !GoesWell(Queued(s, input, answers))
    case HandleTask(answers) => !EncoderStates.HandlesWell(s.encoder, answers)
    case InputDone(answer, answers) => answer.Failed? || !GoesWell(InputGiven(s, answer.index, answers))
    case OutputDone(answer, output) => answer.Failed? || OutputFails(s, answer.index, output)
    case FlushAll(answers) => FlushFails(s, answers)
  }

  /** What an event that does not fail does. */
  ghost predicate Does(s: JointState, event: Event, t: JointState)
    requires Ready(s) && !Skipped(s, event) && !Fails(s, event)
  {
    match event
    case Queue(input, answers) => Queued(s, input, answers) == Some(t)
    case HandleTask(answers) =>
      t.component == s.component && EncoderStates.Handled(s.encoder, answers, t.encoder)
    case InputDone(answer, answers) => InputGiven(s, answer.index, answers) == Some(t)
    case OutputDone(answer, output) =>
      Heard(s, answer.index, output) == Some(t.component) && OutputTaken(s.encoder, answer.index, output, t.encoder)
    case FlushAll(answers) =>
      t.component == EncodeOrder.Flushed(s.component) && EncoderStates.Flushed(s.encoder, answers, t.encoder)
  }

  /** From one state between events, an event leads to the next. */
  ghost predicate Step(s: JointState, event: Event, t: JointState) {
    Ready(s) && if Skipped(s, event) then t == s else !Fails(s, event) && Does(s, event, t)
  }

  /** At this event the run ends. */
  ghost predicate Ends(s: JointState, event: Event) {
    Ready(s) && !Skipped(s, event) && Fails(s, event)
  }

  /**
    No answer fails, no frame for the converter has the reserved index, the device's data belongs to a work or has no
    time, and a flush meets neither a posted task nor a work without a buffer that has the reserved index.
   */
  ghost predicate Faultless(s: JointState, event: Event)
    requires s.component.BlocksOk()
  {
    var c := s.component;
    match event
    case Queue(input, answers) =>
      answers.AllOk() && !Reserved(c.blocks, EncodeOrder.Arrived(c.accepted, input))
    case HandleTask(answers) =>
      && answers.keyFrameOk && answers.qbufOk && answers.outputOnOk && answers.inputOnOk && answers.pollOk
      && answers.stopOk
      && forall n: nat :: answers.blocks(n).Some?
    case InputDone(answer, answers) => !answer.Failed? && AllOk(answers) && NoneReserved(c.blocks, c.converterQueue)
    case OutputDone(answer, o) =>
      && !answer.Failed? && !EncoderStates.Refused(o.data) && o.startOk && o.newBlock.Some? && o.csdOk
      && (o.timestamp == 0 || EncodeOrder.FirstByTimestamp(c.workQueue, o.timestamp) < |c.workQueue|)
    case FlushAll(answers) =>
      && answers.pollOk && answers.inputOffOk && answers.outputOffOk && !s.encoder.state.Encoding?
      && (c.blocks.Some? ==> NoEosReserved(c.workQueue))
  }

  ghost predicate NoEosReserved(works: seq<Work>) {
    forall k :: 0 <= k < |works| && !works[k].hasBuffer ==> works[k].index != NO_FRAME
  }

  lemma {:induction false} FlushStaysPlain(b: Blocks, works: seq<Work>)
    requires b.Ok() && !b.reserved && NoEosReserved(works)
    ensures !EncodeOrder.FlushedBlocks(b, works).reserved
    decreases |works|
  {
    if works != [] {
      ReturnedMeans(b, works[0].index);
      var r := Returned(b, works[0].index);
      FlushStaysPlain(if works[0].hasBuffer || r.None? then b else r.value, works[1..]);
    }
  }

  /** Component and encoder fail only by others' fault: no bookkeeping error arises between them. */
  lemma OnlyOthersFail(s: JointState, home: map<Frame, nat>, before: seq<Frame>, event: Event)
    requires Ready(s) && s.Linked(home, before) && !Skipped(s, event) && Faultless(s, event)
    ensures !Fails(s, event)
  {
    hide JointState.Linked, EncodeOrder.Snapshot.Kept, Blocks.Ok, InputGiven, Queued, EncodeOrder.OutputGiven,
         EncodeOrder.DrainEnds, EncodeOrder.FlushedBlocks, NoEosReserved, EncoderStates.Empty, AllOk,
         NoneReserved, Reserved;
    KeptParts(s.component);
    match event
    case Queue(input, answers) => QueuedWell(s, input, answers);
    case HandleTask(answers) =>
    case InputDone(answer, answers) => InputGivenWell(s, home, before, answer.index, answers);
    case OutputDone(answer, o) => EncodeOrder.OutputGivenMeans(s.component, o.timestamp, o.csdOk);
    case FlushAll(answers) =>
      if s.component.blocks.Some? {
        FlushStaysPlain(s.component.blocks.value, s.component.workQueue);
      }
  }

  ghost predicate NoneReserved(blocks: Option<Blocks>, works: seq<Work>) {
    forall k :: 0 <= k < |works| ==> !Reserved(blocks, works[k])
  }

  lemma StaysPlain(u: EncodeOrder.Snapshot, work: Work, answers: EncodeOrder.Answers)
    requires u.BlocksOk() && Plain(u.blocks) && !Reserved(u.blocks, work)
    ensures var r := EncodeOrder.Sent(u, work, answers);
            r.Some? ==> Plain(r.value.blocks) && (u.blocks.None? ==> r.value.blocks.None?)
  {
  }

  lemma QueuedWell(s: JointState, input: EncodeOrder.Input, a: SendAnswers)
    requires Ready(s) && a.AllOk() && !Reserved(s.component.blocks, EncodeOrder.Arrived(s.component.accepted, input))
    ensures GoesWell(Queued(s, input, a))
  {
    hide EncodeOrder.Sent, EncoderWith, Reserved, Blocks.Ok;
    QueuedSucceeds(s, input, a);
    var c, work := s.component, EncodeOrder.Arrived(s.component.accepted, input);
    StaysPlain(c.(accepted := c.accepted + 1), work, a.ToComponent(OverAtOnce(s.encoder, work)));
    CleanWith(s.encoder, work, a.stopOk);
  }

  lemma {:induction false} PumpedWell(j: JointState, answers: nat -> SendAnswers, n: nat)
    requires j.component.BlocksOk() && j.Healthy() && NoneReserved(j.component.blocks, j.component.converterQueue)
    ensures Pumped(j, answers, n).Some? ==> Pumped(j, answers, n).value.Healthy()
    decreases |j.component.converterQueue|
  {
    hide EncodeOrder.Sent, EncoderWith, Blocks.Ok, StopFails;
    var c := j.component;
    if c.converterQueue != [] && c.blocks.Some? && !c.Waits() {
      var r, work := TakenUp(j, answers(n)), c.converterQueue[0];
      if r.Some? {
        StaysPlain(c.(converterQueue := c.converterQueue[1..]), work,
                   answers(n).ToComponent(OverAtOnce(j.encoder, work)));
        CleanWith(j.encoder, work, answers(n).stopOk);
        PumpedWell(r.value, answers, n + 1);
      }
    }
  }

  lemma InputGivenWell(s: JointState, home: map<Frame, nat>, before: seq<Frame>, i: nat, answers: nat -> SendAnswers)
    requires Ready(s) && s.Linked(home, before) && i in s.encoder.inputQueued && AllOk(answers)
    requires NoneReserved(s.component.blocks, s.component.converterQueue)
    ensures GoesWell(InputGiven(s, i, answers))
  {
    hide JointState.Linked, EncodeOrder.Snapshot.Kept, Blocks.Ok, EncodeOrder.Released, Pumped, EncodeOrder.ReportFront,
         AllOk, EncodeOrder.Releasable, Reserved, ReleasedIn;
    KeptParts(s.component);
    var frame := s.encoder.inputBuffers[i].value;
    var home' := InputGivenKeeps(s, home, before, i, answers);
    ReleasedKeeps(s, home, before, i);
    var u := JointState(EncodeOrder.Released(s.component, frame).value, EncoderStates.InputBack(s.encoder, i));
    LinkedParts(u, home - {frame}, before);
    NoneReservedStill(s.component.blocks, u.component.blocks, s.component.converterQueue);
    PumpedWell(u, answers, 0);
  }

  lemma KeptParts(c: EncodeOrder.Snapshot)
    requires c.Kept()
    ensures c.BlocksOk() && (c.converterQueue != [] ==> c.blocks.Some?)
  {
  }

  lemma NoneReservedStill(blocks: Option<Blocks>, blocks': Option<Blocks>, works: seq<Work>)
    requires NoneReserved(blocks, works) && (works != [] ==> blocks.Some?)
    ensures NoneReserved(blocks', works)
  {
  }

  /**
    After any sequence of works, posted tasks and device events, up to the first error: the joint invariant holds. The
    history has one entry for each event up to that error.
   */
  method Run(events: seq<Event>, numBlocks: Option<nat>, keyFramePeriod: nat, numInputs: nat, numOutputs: nat)
    returns (p: Pipeline, ghost history: seq<JointState>)
    requires keyFramePeriod > 0 && numInputs > 0
    ensures 0 < |history| <= |events| + 1
    ensures history[0].component
            == EncodeOrder.Initial(if numBlocks.None? then None else Some(AllFree(numBlocks.value)))
    ensures EncoderStates.Initial(history[0].encoder)
    ensures forall n :: 0 <= n < |history| - 1 ==> Step(history[n], events[n], history[n + 1])
    ensures p.Healthy() ==> p.Joint() && |history| == |events| + 1 && history[|events|] == p.Snap()
    ensures !p.Healthy() ==> |history| <= |events| && Ends(history[|history| - 1], events[|history| - 1])
  {
    hide Pipeline.Joint, Step, Ends, EncoderStates.Initial, EncodeOrder.EncodeComponent.Snap,
         EncoderStates.V4L2Encoder.Snap;
    p := new Pipeline(numBlocks, keyFramePeriod, numInputs, numOutputs);
    history := [p.Snap()];
    for n := 0 to |events|
      invariant fresh(p) && fresh(p.component) && fresh(p.encoder)
      invariant p.component.converter != null ==> fresh(p.component.converter)
      invariant p.Healthy() && p.Joint() && |history| == n + 1 && history[n] == p.Snap()
      invariant history[0].component
                == EncodeOrder.Initial(if numBlocks.None? then None else Some(AllFree(numBlocks.value)))
      invariant EncoderStates.Initial(history[0].encoder)
      invariant forall k :: 0 <= k < n ==> Step(history[k], events[k], history[k + 1])
    {
      Handle(p, events[n]);
      if !p.Healthy() {
        return;
      }
      history := history + [p.Snap()];
    }
  }

  method Handle(p: Pipeline, event: Event)
    requires p.Joint()
    modifies p, p.component, p.component.converter, p.encoder
    ensures p.Healthy() ==> p.Joint() && Step(old(p.Snap()), event, p.Snap())
    ensures !p.Healthy() ==> Ends(old(p.Snap()), event)
  {
    hide Pipeline.Joint, Pipeline.Snap, Step, Ends, Pipeline.Healthy;
    match event {
      case Queue(input, answers) => HandleQueue(p, input, answers);
      case HandleTask(answers) => HandlePostedTask(p, answers);
      case InputDone(answer, answers) => HandleInputDone(p, answer, answers);
      case OutputDone(answer, output) => HandleOutputDone(p, answer, output);
      case FlushAll(answers) => HandleFlush(p, answers);
    }
  }

  method HandleQueue(p: Pipeline, input: EncodeOrder.Input, answers: SendAnswers)
    requires p.Joint()
    modifies p, p.component, p.component.converter, p.encoder
    ensures p.Healthy() ==> p.Joint() && Step(old(p.Snap()), Queue(input, answers), p.Snap())
    ensures !p.Healthy() ==> Ends(old(p.Snap()), Queue(input, answers))
  {
    hide Pipeline.Joint, Pipeline.Healthy, Ready, Queued, EncoderStates.V4L2Encoder.Valid, GoesWell;
    p.IsReady();
    if !p.HasIndex(input.index) {
      p.QueueWork(input, answers);
    }
  }

  method HandlePostedTask(p: Pipeline, answers: EncoderStates.HandleAnswers)
    requires p.Joint()
    modifies p, p.component, p.component.converter, p.encoder
    ensures p.Healthy() ==> p.Joint() && Step(old(p.Snap()), HandleTask(answers), p.Snap())
    ensures !p.Healthy() ==> Ends(old(p.Snap()), HandleTask(answers))
  {
    hide Pipeline.Joint, Pipeline.Healthy, Ready, EncoderStates.Handled, EncoderStates.V4L2Encoder.Valid;
    p.IsReady();
    p.HandlePosted(answers);
  }

  method HandleInputDone(p: Pipeline, answer: EncoderStates.Answer, answers: nat -> SendAnswers)
    requires p.Joint()
    modifies p, p.component, p.component.converter, p.encoder
    ensures p.Healthy() ==> p.Joint() && Step(old(p.Snap()), InputDone(answer, answers), p.Snap())
    ensures !p.Healthy() ==> Ends(old(p.Snap()), InputDone(answer, answers))
  {
    hide Pipeline.Joint, Ready, InputGiven, EncoderStates.V4L2Encoder.Valid, GoesWell;
    p.IsReady();
    match answer {
      case Again =>
      case Failed => p.encoder.OnError();
      case Buffer(index) =>
        if index in p.encoder.inputQueued {
          p.ServiceInput(index, answers);
        }
    }
  }

  method HandleOutputDone(p: Pipeline, answer: EncoderStates.Answer, output: OutputAnswers)
    requires p.Joint()
    modifies p, p.component, p.component.converter, p.encoder
    ensures p.Healthy() ==> p.Joint() && Step(old(p.Snap()), OutputDone(answer, output), p.Snap())
    ensures !p.Healthy() ==> Ends(old(p.Snap()), OutputDone(answer, output))
  {
    hide Pipeline.Joint, Ready, OutputFails, Heard, OutputTaken, EncoderStates.V4L2Encoder.Valid;
    p.IsReady();
    match answer {
      case Again =>
      case Failed => p.encoder.OnError();
      case Buffer(index) =>
        if index in p.encoder.outputQueued {
          p.ServiceOutput(index, output);
        }
    }
  }

  method HandleFlush(p: Pipeline, answers: EncoderStates.FlushAnswers)
    requires p.Joint()
    modifies p, p.component, p.component.converter, p.encoder
    ensures p.Healthy() ==> p.Joint() && Step(old(p.Snap()), FlushAll(answers), p.Snap())
    ensures !p.Healthy() ==> Ends(old(p.Snap()), FlushAll(answers))
  {
    hide Pipeline.Joint, Pipeline.Healthy, Ready, FlushFails, EncodeOrder.Flushed, EncoderStates.Flushed,
         EncoderStates.V4L2Encoder.Valid;
    p.IsReady();
    p.Flush(answers);
  }
}
