/**
  The encode component: works go through the format converter and the encoder, and are reported in the order
  in which they arrived. What each call does is a function on values; the component is proved to compute it, and what
  it means is proved about the function. A flush starts the count of works again.
 */
module EncodeOrder {
  import opened Options
  import opened FormatConverters

  /** What the client queues. */
  datatype Input = Input(index: nat, timestamp: nat, eos: bool, hasBuffer: bool)

  /** An empty configuration request is reported at once and takes no part in the order. */
  predicate IsDiscarded(input: Input) {
    !input.hasBuffer && !input.eos
  }

  /**
    A work under way; `ticket` is its place in the order of arrival. `late` says that it was made the end of the stream
    when it had its output.
   */
  datatype Work = Work(ticket: nat, index: nat, timestamp: nat, eos: bool, hasBuffer: bool,
                       inputHeld: bool, hasOutput: bool, eosDone: bool, late: bool)
  {
    predicate Done() {
      && (eos ==> eosDone)
      && (hasBuffer ==> !inputHeld && hasOutput)
    }

    /** Ending the stream excludes later output. */
    predicate Usable() {
      && (eos && hasOutput ==> late)
      && (inputHeld ==> hasBuffer)
    }

    /** It ends the stream, and its drain is not over. */
    predicate Undrained() {
      eos && !eosDone
    }
  }

  function Arrived(ticket: nat, input: Input): Work {
    Work(ticket, input.index, input.timestamp, input.eos, input.hasBuffer, input.hasBuffer, false, false, false)
  }

  /** The work is to end the stream. */
  function EndOfStream(work: Work): Work {
    work.(eos := true, late := work.late || (!work.eos && work.hasOutput))
  }

  /** What converter and encoder answer to one work; draining an idle encoder is over at once. */
  datatype Answers = Answers(poolOk: bool, conversion: Conversion, encodeOk: bool, drainedAtOnce: bool)
  {
    predicate AllOk() {
      poolOk && !conversion.Unsupported? && encodeOk
    }
  }

  /** Tickets in a row. */
  ghost predicate Consecutive(works: seq<Work>, first: nat) {
    forall k :: 0 <= k < |works| ==> works[k].ticket == first + k
  }

  /** The component, up to an error. */
  datatype Snapshot =
    Snapshot(workQueue: seq<Work>, converterQueue: seq<Work>, accepted: nat, reported: seq<Work>,
             blocks: Option<Blocks>)
  {
    /** All works that arrived, in order: the n-th has ticket n. */
    ghost function All(): seq<Work> {
      reported + workQueue + converterQueue
    }

    /** How many of them went to the encoder. */
    ghost function SentCount(): nat {
      |reported| + |workQueue|
    }

    /** A new work has to wait for the converter. */
    predicate Waits() {
      blocks.Some? && !blocks.value.IsReady()
    }

    ghost predicate BlocksOk() {
      blocks.Some? ==> blocks.value.Ok()
    }

    /** Works were reported in order of arrival; those under way follow, and those waiting to be converted come last. */
    ghost predicate InOrder() {
      && Consecutive(reported, 0)
      && Consecutive(workQueue, |reported|)
      && Consecutive(converterQueue, |reported| + |workQueue|)
      && accepted == |reported| + |workQueue| + |converterQueue|
    }

    /** Only finished works are reported, and those under way are usable. */
    ghost predicate Sound() {
      && (forall k :: 0 <= k < |reported| ==> reported[k].Done() && reported[k].Usable())
      && (forall k :: 0 <= k < |workQueue| ==> workQueue[k].Usable())
      && (forall k :: 0 <= k < |converterQueue| ==> IsNew(converterQueue[k]))
    }

    /** Between calls, works wait for the converter only while it has no block. */
    ghost predicate Kept() {
      BlocksOk() && InOrder() && Sound() && (converterQueue != [] ==> Waits())
    }
  }

  /** The work was not sent yet. */
  predicate IsNew(work: Work) {
    work.Usable() && work.inputHeld == work.hasBuffer && !work.eosDone && (work.hasBuffer || work.eos)
  }

  function Initial(blocks: Option<Blocks>): Snapshot {
    Snapshot([], [], 0, [], blocks)
  }

  // ----- What the component does, on values -----

  /** Finished works leave from the front. */
  ghost function ReportFront(s: Snapshot): (t: Snapshot)
    ensures t.blocks == s.blocks
    decreases |s.workQueue|
  {
    if s.workQueue != [] && s.workQueue[0].Done() then
      ReportFront(s.(reported := s.reported + [s.workQueue[0]], workQueue := s.workQueue[1..]))
    else s
  }

  ghost function FirstUndrained(works: seq<Work>): (i: nat)
    ensures i <= |works| && (i < |works| ==> works[i].Undrained())
    ensures forall k :: 0 <= k < i ==> !works[k].Undrained()
  {
    if works == [] || works[0].Undrained() then 0 else 1 + FirstUndrained(works[1..])
  }

  /** onDrainDone(): the first undrained work is marked, and reported if it is at the front and finished. */
  ghost function DrainEnds(s: Snapshot): Snapshot {
    var i := FirstUndrained(s.workQueue);
    if i == |s.workQueue| then s
    else
      var works := s.workQueue[i := s.workQueue[i].(eosDone := true)];
      if i == 0 && works[0].Done() then s.(reported := s.reported + [works[0]], workQueue := works[1..])
      else s.(workQueue := works)
  }

  /** The converter with the work's frame, if the work has one and is to be converted. */
  ghost function WithFrame(blocks: Option<Blocks>, work: Work, conversion: Conversion): (r: Option<Option<Blocks>>)
    requires blocks.Some? ==> blocks.value.Ok()
    ensures r.Some? && r.value.Some? ==> r.value.value.Ok()
  {
    if !work.hasBuffer || blocks.None? then Some(blocks)
    else
      ConvertedMeans(blocks.value, work.index, conversion);
      var r := Converted(blocks.value, work.index, conversion);
      if r.None? then None else Some(r)
  }

  /** A work goes to the encoder, behind all earlier ones; None is an error. */
  ghost function Sent(s: Snapshot, work: Work, answers: Answers): (r: Option<Snapshot>)
    requires s.BlocksOk()
    ensures r.Some? ==>
              r.value.BlocksOk() && r.value.converterQueue == s.converterQueue && r.value.accepted == s.accepted
  {
    var blocks := WithFrame(s.blocks, work, answers.conversion);
    if blocks.None? || (work.hasBuffer && !answers.encodeOk) then None
    else
      var t := s.(workQueue := s.workQueue + [work], blocks := blocks.value);
      Some(if work.eos && answers.drainedAtOnce then DrainEnds(t) else t)
  }

  /** queueTask(). */
  ghost function Queued(s: Snapshot, input: Input, answers: Answers): Option<Snapshot>
    requires s.BlocksOk()
  {
    var work := Arrived(s.accepted, input);
    if IsDiscarded(input) then Some(s)
    else if !answers.poolOk then None
    else if s.Waits() then Some(s.(accepted := s.accepted + 1, converterQueue := s.converterQueue + [work]))
    else Sent(s.(accepted := s.accepted + 1), work, answers)
  }

  /** The first work that waited for the converter is queued again. */
  ghost function TakenUp(s: Snapshot, answers: Answers): (r: Option<Snapshot>)
    requires s.BlocksOk() && s.converterQueue != []
    ensures r.Some? ==> r.value.BlocksOk() && |r.value.converterQueue| < |s.converterQueue|
  {
    if !answers.poolOk then None
    else Sent(s.(converterQueue := s.converterQueue[1..]), s.converterQueue[0], answers)
  }

  /** So are the others while the converter has a block; the n-th answers are for the next one. */
  ghost function Pumped(s: Snapshot, answers: nat -> Answers, n: nat): (r: Option<Snapshot>)
    requires s.BlocksOk()
    ensures r.Some? ==> r.value.BlocksOk()
    decreases |s.converterQueue|
  {
    if s.converterQueue == [] || s.blocks.None? || s.Waits() then Some(s)
    else
      var r := TakenUp(s, answers(n));
      if r.None? then None else Pumped(r.value, answers, n + 1)
  }

  ghost function FirstByIndex(works: seq<Work>, index: nat): (i: nat)
    ensures i <= |works| && (i < |works| ==> works[i].index == index)
    ensures forall k :: 0 <= k < i ==> works[k].index != index
  {
    if works == [] || works[0].index == index then 0 else 1 + FirstByIndex(works[1..], index)
  }

  /** The first work with the index gives its input up, and the converter takes the frame back. */
  ghost function Released(s: Snapshot, index: nat): (r: Option<Snapshot>)
    requires s.BlocksOk()
    ensures r.Some? ==> r.value.BlocksOk()
  {
    var i := FirstByIndex(s.workQueue, index);
    if i == |s.workQueue| || !s.workQueue[i].hasBuffer then None
    else
      var t := s.(workQueue := s.workQueue[i := s.workQueue[i].(inputHeld := false)]);
      if s.blocks.None? then Some(t)
      else
        ReturnedMeans(s.blocks.value, index);
        var b := Returned(s.blocks.value, index);
        if b.None? then None else Some(t.(blocks := b))
  }

  /** onInputBufferDone(). */
  ghost function InputGiven(s: Snapshot, index: nat, answers: nat -> Answers): Option<Snapshot>
    requires s.BlocksOk()
  {
    var r := Released(s, index);
    if r.None? then None
    else
      var pumped := Pumped(r.value, answers, 0);
      if pumped.None? then None else Some(ReportFront(pumped.value))
  }

  ghost function FirstByTimestamp(works: seq<Work>, timestamp: nat): (i: nat)
    ensures i <= |works| && (i < |works| ==> !works[i].eos && works[i].timestamp == timestamp)
    ensures forall k :: 0 <= k < i ==> works[k].eos || works[k].timestamp != timestamp
  {
    if works == [] || (!works[0].eos && works[0].timestamp == timestamp) then 0
    else 1 + FirstByTimestamp(works[1..], timestamp)
  }

  /** onOutputBufferDone(). */
  ghost function OutputGiven(s: Snapshot, timestamp: nat, csdOk: bool): Option<Snapshot> {
    var i := FirstByTimestamp(s.workQueue, timestamp);
    if !csdOk then None
    else if i == |s.workQueue| then if timestamp == 0 then Some(s) else None
    else Some(ReportFront(s.(workQueue := s.workQueue[i := s.workQueue[i].(hasOutput := true)])))
  }

  /** The last work is to end the stream. */
  ghost function WithLastEnding(works: seq<Work>): seq<Work>
    requires works != []
  {
    works[|works| - 1 := EndOfStream(works[|works| - 1])]
  }

  /** drainTask(). */
  ghost function DrainAsked(s: Snapshot, drainedAtOnce: bool): Snapshot {
    if s.converterQueue != [] then s.(converterQueue := WithLastEnding(s.converterQueue))
    else if s.workQueue == [] then s
    else
      var t := s.(workQueue := WithLastEnding(s.workQueue));
      if drainedAtOnce then DrainEnds(t) else t
  }

  /** The converter after a flush: blocks are returned for works without a buffer. */
  ghost function FlushedBlocks(b: Blocks, works: seq<Work>): (c: Blocks)
    requires b.Ok()
    ensures c.Ok()
    decreases |works|
  {
    if works == [] then b
    else
      ReturnedMeans(b, works[0].index);
      var r := Returned(b, works[0].index);
      FlushedBlocks(if works[0].hasBuffer || r.None? then b else r.value, works[1..])
  }

  /** flush(). */
  ghost function Flushed(s: Snapshot): Snapshot
    requires s.BlocksOk()
  {
    Initial(if s.blocks.None? then None else Some(FlushedBlocks(s.blocks.value, s.workQueue)))
  }

  // ----- What that means -----

  /** The same works, except that a drain may have ended for some that end the stream. */
  ghost predicate OnlyDrained(before: seq<Work>, after: seq<Work>) {
    && |before| == |after|
    && (forall k :: 0 <= k < |before| ==>
          || after[k] == before[k]
          || (before[k].eos && after[k] == before[k].(eosDone := true)))
  }

  /** The first undrained of the first n works is marked, if there is one. */
  ghost predicate DrainMarked(before: seq<Work>, n: nat, after: seq<Work>)
    requires n <= |before|
  {
    || (&& (forall k :: 0 <= k < n ==> !before[k].Undrained())
        && after == before)
    || exists i :: && 0 <= i < n && before[i].Undrained() && (forall k :: 0 <= k < i ==> !before[k].Undrained())
                   && after == before[i := before[i].(eosDone := true)]
  }

  lemma DrainedOnce(first: seq<Work>, before: seq<Work>, n: nat, after: seq<Work>)
    requires OnlyDrained(first, before)
    requires after == before || (n <= |before| && DrainMarked(before, n, after))
    ensures OnlyDrained(first, after)
  {
  }

  /** Works are reported from the front, up to the first that is not finished. */
  lemma {:induction false} ReportFrontMeans(s: Snapshot)
    requires s.InOrder() && s.Sound()
    ensures var t := ReportFront(s);
            && t == s.(reported := t.reported, workQueue := t.workQueue) && t.InOrder() && t.Sound()
            && t.All() == s.All() && t.SentCount() == s.SentCount() && s.reported <= t.reported
            && (t.workQueue == [] || !t.workQueue[0].Done())
    decreases |s.workQueue|
  {
    hide Snapshot.InOrder, Snapshot.Sound, Snapshot.All;
    if s.workQueue != [] && s.workQueue[0].Done() {
      FrontLeaves(s);
      ReportFrontMeans(s.(reported := s.reported + [s.workQueue[0]], workQueue := s.workQueue[1..]));
    }
  }

  lemma FrontLeaves(s: Snapshot)
    requires s.InOrder() && s.Sound() && s.workQueue != [] && s.workQueue[0].Done()
    ensures var t := s.(reported := s.reported + [s.workQueue[0]], workQueue := s.workQueue[1..]);
            t.InOrder() && t.Sound() && t.All() == s.All()
  {
    assert s.workQueue == [s.workQueue[0]] + s.workQueue[1..];
  }

  /** The search for the first undrained work among those under way ends at place i. */
  lemma MarksFirst(reported: seq<Work>, works: seq<Work>, waiting: seq<Work>, i: nat)
    requires i <= |works| && (i < |works| ==> works[i].Undrained())
    requires forall k :: 0 <= k < |reported| ==> !reported[k].Undrained()
    requires forall k :: 0 <= k < i ==> !works[k].Undrained()
    ensures DrainMarked(reported + works + waiting, |reported| + |works|,
                        reported + (if i < |works| then works[i := works[i].(eosDone := true)] else works) + waiting)
  {
    var all, place := reported + works + waiting, |reported| + i;
    assert forall k :: 0 <= k < place ==> all[k] == if k < |reported| then reported[k] else works[k - |reported|];
    if i < |works| {
      assert all[place] == works[i];
      assert all[place := all[place].(eosDone := true)] == reported + works[i := works[i].(eosDone := true)] + waiting;
    }
  }

  /**
    The end of a drain marks the first undrained work and nothing else. A work is reported exactly when it is the first
    of the queue, was undrained and is finished now.
   */
  lemma DrainEndsMeans(s: Snapshot)
    requires s.InOrder() && s.Sound()
    ensures var t := DrainEnds(s);
            && t == s.(reported := t.reported, workQueue := t.workQueue) && t.InOrder() && t.Sound()
            && DrainMarked(s.All(), s.SentCount(), t.All()) && t.SentCount() == s.SentCount()
            && s.reported <= t.reported
            && (t.reported != s.reported <==>
                s.workQueue != [] && s.workQueue[0].Undrained() && s.workQueue[0].(eosDone := true).Done())
  {
    var i := FirstUndrained(s.workQueue);
    MarksFirst(s.reported, s.workQueue, s.converterQueue, i);
    hide DrainMarked;
    if i < |s.workQueue| {
      var t := s.(workQueue := s.workQueue[i := s.workQueue[i].(eosDone := true)]);
      assert t.InOrder() && t.Sound();
      if i == 0 && t.workQueue[0].Done() {
        FrontLeaves(t);
      }
    }
  }

  /** The frame of a work can be converted and encoded, if it has one. */
  ghost predicate Sendable(s: Snapshot, work: Work, answers: Answers) {
    work.hasBuffer ==>
      && (s.blocks.Some? ==> s.blocks.value.IsReady() && !answers.conversion.Unsupported?)
      && answers.encodeOk
  }

  /** Every order but for a work that is to be put at the end of the work queue. */
  ghost predicate InOrderBut(s: Snapshot, work: Work) {
    && Consecutive(s.reported, 0)
    && Consecutive(s.workQueue, |s.reported|)
    && work.ticket == |s.reported| + |s.workQueue|
    && Consecutive(s.converterQueue, |s.reported| + |s.workQueue| + 1)
    && s.accepted == |s.reported| + |s.workQueue| + 1 + |s.converterQueue|
  }

  /** A work follows all earlier ones, if and only if its frame can be converted and encoded. */
  lemma SentMeans(s: Snapshot, work: Work, answers: Answers)
    requires s.BlocksOk() && InOrderBut(s, work) && s.Sound() && IsNew(work)
    ensures Sent(s, work, answers).Some? <==> Sendable(s, work, answers)
    ensures Sendable(s, work, answers) ==>
              var t := Sent(s, work, answers).value;
              var all := s.reported + s.workQueue + [work] + s.converterQueue;
              && t.InOrder() && t.Sound() && s.reported <= t.reported && t.SentCount() == s.SentCount() + 1
              && |all| == |s.All()| + 1
              && (if work.eos && answers.drainedAtOnce then DrainMarked(all, t.SentCount(), t.All())
                  else t.All() == all)
              && (s.blocks.Some? ==>
                    && t.blocks.Some? && (work.hasBuffer ==> t.blocks.value.Knows(work.index))
                    && (!s.blocks.value.reserved ==> StillKnown(s.blocks.value, t.blocks.value))
                    && (t.blocks.value.reserved <==>
                        s.blocks.value.reserved || (work.hasBuffer && work.index == NO_FRAME)))
              && (s.blocks.None? ==> t.blocks.None?)
  {
    if s.blocks.Some? {
      ConvertedMeans(s.blocks.value, work.index, answers.conversion);
    }
    hide Matches, StillKnown;
    if Sendable(s, work, answers) {
      var t := s.(workQueue := s.workQueue + [work], blocks := WithFrame(s.blocks, work, answers.conversion).value);
      assert t.InOrder() && t.Sound();
      assert t.All() == s.reported + s.workQueue + [work] + s.converterQueue;
      DrainEndsMeans(t);
    }
  }

  /**
    A work arrives behind all others; it waits when the converter has no block, and cannot overtake one that waits. The
    errors are a missing pool, and a frame of a work that need not wait and cannot be converted or encoded.
   */
  lemma QueuedMeans(s: Snapshot, input: Input, answers: Answers)
    requires s.Kept()
    ensures Queued(s, input, answers).None? <==>
              && !IsDiscarded(input)
              && (!answers.poolOk || (!s.Waits() && !Sendable(s, Arrived(s.accepted, input), answers)))
    ensures Queued(s, input, answers).Some? ==>
              var t := Queued(s, input, answers).value;
              && t.Kept() && s.reported <= t.reported
              && (IsDiscarded(input) ==> t == s)
              && (!IsDiscarded(input) ==>
                    var all := s.All() + [Arrived(s.accepted, input)];
                    && t.accepted == s.accepted + 1 && t.SentCount() == s.SentCount() + (if s.Waits() then 0 else 1)
                    && (if !s.Waits() && input.eos && answers.drainedAtOnce then DrainMarked(all, |all|, t.All())
                        else t.All() == all))
  {
    var work := Arrived(s.accepted, input);
    if !IsDiscarded(input) && answers.poolOk {
      if s.Waits() {
        assert s.All() + [work] == s.reported + s.workQueue + (s.converterQueue + [work]);
      } else {
        QueuedAtOnce(s, work, answers);
      }
    }
  }

  lemma QueuedAtOnce(s: Snapshot, work: Work, answers: Answers)
    requires s.Kept() && !s.Waits() && IsNew(work) && work.ticket == s.accepted
    ensures var u := s.(accepted := s.accepted + 1);
            && (Sent(u, work, answers).Some? <==> Sendable(s, work, answers))
            && (Sendable(s, work, answers) ==>
                  var t, all := Sent(u, work, answers).value, s.All() + [work];
                  && t.Kept() && s.reported <= t.reported && t.accepted == s.accepted + 1
                  && t.SentCount() == s.SentCount() + 1
                  && (if work.eos && answers.drainedAtOnce then DrainMarked(all, |all|, t.All()) else t.All() == all))
  {
    SentMeans(s.(accepted := s.accepted + 1), work, answers);
    hide Sent, DrainMarked;
    assert s.All() + [work] == s.reported + s.workQueue + [work] + s.converterQueue;
  }

  /** The first work that waited is sent; all works keep their places. */
  lemma TakenUpMeans(s: Snapshot, answers: Answers)
    requires s.BlocksOk() && s.InOrder() && s.Sound() && s.converterQueue != []
    ensures TakenUp(s, answers).None? <==> !answers.poolOk || !Sendable(s, s.converterQueue[0], answers)
    ensures TakenUp(s, answers).Some? ==>
              var t := TakenUp(s, answers).value;
              && t.BlocksOk() && t.InOrder() && t.Sound() && s.reported <= t.reported
              && t.SentCount() == s.SentCount() + 1
              && t.accepted == s.accepted && t.converterQueue == s.converterQueue[1..]
              && t.SentCount() <= |s.All()| == |t.All()|
              && (if s.converterQueue[0].eos && answers.drainedAtOnce then DrainMarked(s.All(), t.SentCount(), t.All())
                  else t.All() == s.All())
  {
    var u := s.(converterQueue := s.converterQueue[1..]);
    assert s.reported + s.workQueue + [s.converterQueue[0]] + s.converterQueue[1..] == s.All();
    SentMeans(u, s.converterQueue[0], answers);
  }

  /** Works are taken up in order, while the converter has a block; without a failing answer there is no error. */
  lemma {:induction false} PumpedMeans(s: Snapshot, answers: nat -> Answers, n: nat)
    requires s.BlocksOk() && s.InOrder() && s.Sound() && (s.converterQueue != [] ==> s.blocks.Some?)
    ensures (forall k: nat :: answers(k).AllOk()) ==> Pumped(s, answers, n).Some?
    ensures Pumped(s, answers, n).Some? ==>
              var t := Pumped(s, answers, n).value;
              t.Kept() && s.reported <= t.reported && OnlyDrained(s.All(), t.All()) && t.accepted == s.accepted
    decreases |s.converterQueue|
  {
    if s.converterQueue != [] && !s.Waits() {
      TakenUpMeans(s, answers(n));
      var r := TakenUp(s, answers(n));
      if r.Some? {
        BlocksStay(s, answers(n));
        hide DrainMarked;
        DrainedOnce(s.All(), s.All(), r.value.SentCount(), r.value.All());
        PumpedMeans(r.value, answers, n + 1);
        var t := Pumped(r.value, answers, n + 1);
        if t.Some? {
          DrainsAddUp(s.All(), r.value.All(), t.value.All());
        }
      }
    }
  }

  lemma BlocksStay(s: Snapshot, answers: Answers)
    requires s.BlocksOk() && s.converterQueue != [] && TakenUp(s, answers).Some?
    ensures s.blocks.Some? ==> TakenUp(s, answers).value.blocks.Some?
  {
  }

  lemma DrainsAddUp(a: seq<Work>, b: seq<Work>, c: seq<Work>)
    requires OnlyDrained(a, b) && OnlyDrained(b, c)
    ensures OnlyDrained(a, c)
  {
  }

  /** A work gives its input up. */
  ghost function WithoutInput(all: seq<Work>, t: nat): seq<Work>
    requires t < |all|
  {
    all[t := all[t].(inputHeld := false)]
  }

  /** The encoder's frame can be released: the first work with its index has a buffer, and the converter knows it. */
  ghost predicate Releasable(s: Snapshot, index: nat) {
    var i := FirstByIndex(s.workQueue, index);
    i < |s.workQueue| && s.workQueue[i].hasBuffer && (s.blocks.Some? ==> s.blocks.value.Knows(index))
  }

  lemma ReleasedMeans(s: Snapshot, index: nat)
    requires s.BlocksOk() && s.InOrder() && s.Sound()
    ensures Released(s, index).Some? <==> Releasable(s, index)
    ensures Releasable(s, index) ==>
              var t, i := Released(s, index).value, FirstByIndex(s.workQueue, index);
              && t == s.(workQueue := t.workQueue, blocks := t.blocks) && t.InOrder() && t.Sound()
              && |t.workQueue| == |s.workQueue| && |s.reported| + i < |s.All()|
              && t.All() == WithoutInput(s.All(), |s.reported| + i)
              && (s.blocks.Some? ==>
                    && t.blocks.Some? && KnownBut(index, s.blocks.value, t.blocks.value)
                    && t.blocks.value.reserved == (s.blocks.value.reserved || index == NO_FRAME))
              && (s.blocks.None? ==> t.blocks.None?)
  {
    if s.blocks.Some? {
      ReturnedMeans(s.blocks.value, index);
    }
    hide Matches, KnownBut, Blocks.Ok, Blocks.Knows, Snapshot.InOrder, Snapshot.Sound, Snapshot.All;
    var i := FirstByIndex(s.workQueue, index);
    if i < |s.workQueue| {
      InputGone(s, i, if Released(s, index).Some? then Released(s, index).value.blocks else s.blocks);
    }
  }

  lemma InputGone(s: Snapshot, i: nat, blocks: Option<Blocks>)
    requires s.InOrder() && s.Sound() && i < |s.workQueue|
    ensures var t := s.(workQueue := s.workQueue[i := s.workQueue[i].(inputHeld := false)], blocks := blocks);
            && t.InOrder() && t.Sound() && |s.reported| + i < |s.All()|
            && t.All() == WithoutInput(s.All(), |s.reported| + i)
  {
    assert s.All()[|s.reported| + i] == s.workQueue[i];
  }

  /**
    Exactly the first work with the index loses its input, and finished works leave from the front. Without a failing
    answer the only errors are a frame without such a work, or one that the converter does not know.
   */
  lemma InputGivenMeans(s: Snapshot, index: nat, answers: nat -> Answers)
    requires s.Kept()
    ensures !Releasable(s, index) ==> InputGiven(s, index, answers).None?
    ensures Releasable(s, index) && (forall k: nat :: answers(k).AllOk()) ==> InputGiven(s, index, answers).Some?
    ensures InputGiven(s, index, answers).Some? ==>
              var t, i := InputGiven(s, index, answers).value, FirstByIndex(s.workQueue, index);
              && t.Kept() && s.reported <= t.reported && t.accepted == s.accepted
              && |s.reported| + i < |s.All()| && OnlyDrained(WithoutInput(s.All(), |s.reported| + i), t.All())
              && (t.workQueue == [] || !t.workQueue[0].Done())
  {
    ReleasedMeans(s, index);
    hide OnlyDrained, Releasable;
    var r := Released(s, index);
    if r.Some? {
      PumpedMeans(r.value, answers, 0);
      var p := Pumped(r.value, answers, 0);
      if p.Some? {
        ReportFrontMeans(p.value);
      }
    }
  }

  /**
    The first work with the timestamp that does not end the stream gets its output, and finished works leave from the
    front. With no such work, a timestamp other than 0 is an error.
   */
  lemma OutputGivenMeans(s: Snapshot, timestamp: nat, csdOk: bool)
    requires s.Kept()
    ensures OutputGiven(s, timestamp, csdOk).None? <==>
              || !csdOk
              || (timestamp != 0 && forall k :: 0 <= k < |s.workQueue| ==>
                    s.workQueue[k].eos || s.workQueue[k].timestamp != timestamp)
    ensures OutputGiven(s, timestamp, csdOk).Some? ==>
              var t, i := OutputGiven(s, timestamp, csdOk).value, FirstByTimestamp(s.workQueue, timestamp);
              && t.Kept() && s.reported <= t.reported && t.SentCount() == s.SentCount()
              && t == s.(reported := t.reported, workQueue := t.workQueue)
              && (i == |s.workQueue| ==> t == s)
              && (i < |s.workQueue| ==>
                    && |s.reported| + i < |s.All()|
                    && t.All() == s.All()[|s.reported| + i := s.workQueue[i].(hasOutput := true)]
                    && (t.workQueue == [] || !t.workQueue[0].Done()))
  {
    var i := FirstByTimestamp(s.workQueue, timestamp);
    if i < |s.workQueue| {
      var u := s.(workQueue := s.workQueue[i := s.workQueue[i].(hasOutput := true)]);
      assert u.All() == s.All()[|s.reported| + i := s.workQueue[i].(hasOutput := true)];
      assert u.InOrder() && u.Sound();
      ReportFrontMeans(u);
    }
  }

  // ----- A work is found by what the client gave -----

  /** The work is what the client queued, in its place. */
  ghost predicate IsFor(work: Work, ticket: nat, input: Input) {
    && work.ticket == ticket && work.index == input.index && work.timestamp == input.timestamp && work.eos == input.eos
    && work.hasBuffer == input.hasBuffer && work.inputHeld == input.hasBuffer && !work.hasOutput && !work.late
  }

  lemma QueuedIsFor(s: Snapshot, input: Input, answers: Answers)
    requires s.Kept() && (input.hasBuffer || input.eos) && Queued(s, input, answers).Some?
    ensures var t := Queued(s, input, answers).value;
            t.accepted == |t.All()| == s.accepted + 1 && IsFor(t.All()[s.accepted], s.accepted, input)
  {
    QueuedMeans(s, input, answers);
    hide Queued;
  }

  /** A frame that is sent at once is the last work under way. */
  lemma SentIsLast(s: Snapshot, input: Input, answers: Answers)
    requires s.Kept() && !s.Waits() && input.hasBuffer && !input.eos && Queued(s, input, answers).Some?
    ensures var t := Queued(s, input, answers).value;
            && |t.workQueue| == |s.workQueue| + 1 && t.workQueue[..|s.workQueue|] == s.workQueue
            && t.reported == s.reported && t.converterQueue == [] && s.accepted == |s.reported| + |s.workQueue|
            && IsFor(t.workQueue[|s.workQueue|], s.accepted, input)
            && (t.blocks.Some? ==> t.blocks.value.Knows(input.index))
  {
    SentMeans(s.(accepted := s.accepted + 1), Arrived(s.accepted, input), answers);
  }

  /** Output with the timestamp of a frame goes to exactly its work, if no other work under way has the timestamp. */
  lemma OutputFindsItsWork(s: Snapshot, input: Input, answers: Answers)
    requires s.Kept() && !s.Waits() && input.hasBuffer && !input.eos && Queued(s, input, answers).Some?
    requires forall k :: 0 <= k < |s.workQueue| ==> s.workQueue[k].timestamp != input.timestamp
    ensures var t := Queued(s, input, answers).value;
            var u := OutputGiven(t, input.timestamp, true);
            && |t.All()| == s.accepted + 1 && u.Some?
            && u.value.All() == t.All()[s.accepted := t.All()[s.accepted].(hasOutput := true)]
  {
    SentIsLast(s, input, answers);
    QueuedMeans(s, input, answers);
    hide Queued;
    var t := Queued(s, input, answers).value;
    assert forall k :: 0 <= k < |s.workQueue| ==> t.workQueue[k] == t.workQueue[..|s.workQueue|][k];
    assert FirstByTimestamp(t.workQueue, input.timestamp) == |s.workQueue|;
    OutputGivenMeans(t, input.timestamp, true);
    assert t.All()[s.accepted] == t.workQueue[|s.workQueue|];
  }

  /** So does the frame when it comes back, and the converter takes it, if no other work under way has its index. */
  lemma FrameFindsItsWork(s: Snapshot, input: Input, answers: Answers)
    requires s.Kept() && !s.Waits() && input.hasBuffer && !input.eos && Queued(s, input, answers).Some?
    requires forall k :: 0 <= k < |s.workQueue| ==> s.workQueue[k].index != input.index
    ensures var t := Queued(s, input, answers).value;
            && |t.All()| == s.accepted + 1 && t.BlocksOk() && Releasable(t, input.index)
            && FirstByIndex(t.workQueue, input.index) == |s.workQueue|
            && Released(t, input.index).value.All() == WithoutInput(t.All(), s.accepted)
  {
    SentIsLast(s, input, answers);
    QueuedMeans(s, input, answers);
    hide Queued;
    var t := Queued(s, input, answers).value;
    assert forall k :: 0 <= k < |s.workQueue| ==> t.workQueue[k] == t.workQueue[..|s.workQueue|][k];
    assert FirstByIndex(t.workQueue, input.index) == |s.workQueue|;
    ReleasedMeans(t, input.index);
  }

  /** What was reported has ended its drain, given its input back and got its output. */
  lemma ReportedAreFinished(s: Snapshot, k: nat)
    requires s.Kept() && k < |s.reported|
    ensures s.reported[k].eos ==> s.reported[k].eosDone
    ensures s.reported[k].hasBuffer ==> !s.reported[k].inputHeld && s.reported[k].hasOutput
  {
  }

  /** With no other work under way, the end of the stream without a frame is reported when the drain ends. */
  lemma EndGoesThrough(s: Snapshot, input: Input, answers: Answers)
    requires s.Kept() && !s.Waits() && s.workQueue == [] && input.eos && !input.hasBuffer && answers.poolOk
    ensures var t := Queued(s, input, answers.(drainedAtOnce := false));
            && t.Some? && t.value.reported == s.reported && |t.value.workQueue| == 1
            && DrainEnds(t.value).workQueue == [] && |DrainEnds(t.value).reported| == |s.reported| + 1
            && DrainEnds(t.value).reported[|s.reported|].ticket == s.accepted
            && Queued(s, input, answers.(drainedAtOnce := true)) == Some(DrainEnds(t.value))
  {
    QueuedMeans(s, input, answers.(drainedAtOnce := false));
    var t := Queued(s, input, answers.(drainedAtOnce := false)).value;
    assert t.workQueue == [Arrived(s.accepted, input)];
    assert FirstUndrained(t.workQueue) == 0;
  }

  /** A flush gives a block back for a work without a buffer whose index the converter knows. */
  lemma FlushReturnsOne(b: Blocks, work: Work)
    requires b.Ok() && !work.hasBuffer && b.Knows(work.index)
    ensures Some(FlushedBlocks(b, [work])) == Returned(b, work.index)
  {
    ReturnedMeans(b, work.index);
    var r := Returned(b, work.index).value;
    assert [work][1..] == [] && FlushedBlocks(r, []) == r;
  }

  /** With no other work under way, a frame that came back and has its output is reported, whichever comes first. */
  lemma FrameGoesThrough(s: Snapshot, input: Input, answers: Answers, requeue: nat -> Answers)
    requires s.Kept() && !s.Waits() && s.workQueue == [] && input.hasBuffer && !input.eos
    requires Queued(s, input, answers).Some?
    ensures var t := Queued(s, input, answers).value;
            && t.Kept()
            && var back := InputGiven(t, input.index, requeue); var out := OutputGiven(t, input.timestamp, true);
               && back.Some? && out.Some? && out.value.Kept()
               && Reports(s, input, OutputGiven(back.value, input.timestamp, true))
               && Reports(s, input, InputGiven(out.value, input.index, requeue))
  {
    SentIsLast(s, input, answers);
    QueuedMeans(s, input, answers);
    FrameFindsItsWork(s, input, answers);
    OutputFindsItsWork(s, input, answers);
    hide Queued;
    var t := Queued(s, input, answers).value;
    OneBack(t, input.index, requeue);
    OneOut(InputGiven(t, input.index, requeue).value, input.timestamp);
    OneOut(t, input.timestamp);
    OutputGivenMeans(t, input.timestamp, true);
    var out := OutputGiven(t, input.timestamp, true).value;
    assert FirstByIndex(out.workQueue, input.index) == 0;
    OneBack(out, input.index, requeue);
  }

  /** The frame was reported last, with the client's index and timestamp. */
  ghost predicate Reports(s: Snapshot, input: Input, outcome: Option<Snapshot>) {
    && outcome.Some? && outcome.value.workQueue == [] && |outcome.value.reported| == |s.reported| + 1
    && s.reported <= outcome.value.reported
    && var work := outcome.value.reported[|s.reported|];
       && work.ticket == s.accepted && work.index == input.index && work.timestamp == input.timestamp
       && work.hasOutput && !work.inputHeld
  }

  lemma ReportOne(t: Snapshot)
    requires |t.workQueue| == 1
    ensures ReportFront(t) ==
            if t.workQueue[0].Done() then t.(workQueue := [], reported := t.reported + [t.workQueue[0]]) else t
  {
    assert t.workQueue[1..] == [];
  }

  lemma OneBack(t: Snapshot, index: nat, requeue: nat -> Answers)
    requires t.BlocksOk() && t.converterQueue == [] && |t.workQueue| == 1 && t.workQueue[0].index == index
    requires Releasable(t, index)
    ensures var w := t.workQueue[0].(inputHeld := false);
            var back := InputGiven(t, index, requeue);
            && back.Some? && back.value.workQueue == (if w.Done() then [] else [w])
            && back.value.reported == t.reported + (if w.Done() then [w] else [])
            && back.value.blocks.Some? == t.blocks.Some?
  {
    if t.blocks.Some? {
      ReturnedMeans(t.blocks.value, index);
    }
    hide Returned, Blocks.Ok, Blocks.Knows;
    assert FirstByIndex(t.workQueue, index) == 0;
    var r := Released(t, index).value;
    assert r.workQueue == [t.workQueue[0].(inputHeld := false)];
    assert Pumped(r, requeue, 0) == Some(r);
    ReportOne(r);
  }

  lemma OneOut(t: Snapshot, timestamp: nat)
    requires |t.workQueue| == 1 && t.workQueue[0].timestamp == timestamp && !t.workQueue[0].eos
    ensures var w := t.workQueue[0].(hasOutput := true);
            OutputGiven(t, timestamp, true)
            == Some(if w.Done() then t.(workQueue := [], reported := t.reported + [w]) else t.(workQueue := [w]))
  {
    assert FirstByTimestamp(t.workQueue, timestamp) == 0;
    var w := t.workQueue[0].(hasOutput := true);
    assert t.workQueue[0 := w] == [w];
    ReportOne(t.(workQueue := [w]));
  }

  /** The same work, but for the end of the stream and its drain. */
  ghost predicate SameButEnd(before: Work, after: Work) {
    after == before.(eos := after.eos, eosDone := after.eosDone, late := after.late)
  }

  /** Exactly the last work was made the end of the stream. */
  ghost predicate LastEnds(before: seq<Work>, after: seq<Work>) {
    && |after| == |before| > 0 && after[|after| - 1].eos
    && (forall k :: 0 <= k < |before| - 1 ==> after[k].eos == before[k].eos)
    && (forall k :: 0 <= k < |before| ==> SameButEnd(before[k], after[k]))
  }

  /** A drain makes exactly the last of all works end the stream; with no work under way it does nothing. */
  lemma DrainAskedMeans(s: Snapshot, drainedAtOnce: bool)
    requires s.Kept()
    ensures var t := DrainAsked(s, drainedAtOnce);
            && (s.workQueue == [] && s.converterQueue == [] ==> t == s)
            && (s.workQueue != [] || s.converterQueue != [] ==> LastEnds(s.All(), t.All()))
            && (!drainedAtOnce || s.converterQueue != [] ==> t.reported == s.reported)
  {
    if s.converterQueue != [] {
      LastOfAll(s.reported + s.workQueue, s.converterQueue, []);
    } else if s.workQueue != [] {
      var u := s.(workQueue := WithLastEnding(s.workQueue));
      LastOfAll(s.reported, s.workQueue, s.converterQueue);
      assert u.InOrder() && u.Sound();
      DrainEndsMeans(u);
      hide Snapshot.InOrder, Snapshot.Sound, WithLastEnding, DrainEnds;
      if drainedAtOnce {
        StillLastEnds(s.All(), u.All(), u.SentCount(), DrainEnds(u).All());
      }
    }
  }

  lemma LastOfAll(front: seq<Work>, works: seq<Work>, rest: seq<Work>)
    requires works != [] && rest == []
    ensures LastEnds(front + works + rest, front + WithLastEnding(works) + rest)
    ensures LastEnds(front + works, front + WithLastEnding(works))
  {
    assert front + works + rest == front + works;
    assert front + WithLastEnding(works) + rest == front + WithLastEnding(works);
  }

  lemma StillLastEnds(first: seq<Work>, before: seq<Work>, n: nat, after: seq<Work>)
    requires LastEnds(first, before) && n <= |before| && DrainMarked(before, n, after)
    ensures LastEnds(first, after)
  {
  }

  lemma DrainAskedKeeps(s: Snapshot, drainedAtOnce: bool)
    requires s.Kept()
    ensures DrainAsked(s, drainedAtOnce).Kept() && s.reported <= DrainAsked(s, drainedAtOnce).reported
  {
    if s.converterQueue == [] && s.workQueue != [] {
      var t := s.(workQueue := WithLastEnding(s.workQueue));
      assert t.InOrder() && t.Sound();
      DrainEndsMeans(t);
    }
  }

  /** No work without a buffer has the index of a frame that the converter knows. */
  ghost predicate EosUnknown(b: Blocks, works: seq<Work>) {
    forall k :: 0 <= k < |works| && !works[k].hasBuffer ==> !b.Knows(works[k].index)
  }

  /**
    Works without a buffer have no block to return. As long as the converter does not know their indices, a flush gives
    no block back, and all blocks are available afterwards if and only if none was in use.
   */
  lemma {:induction false} FlushReturnsNothing(b: Blocks, works: seq<Work>)
    requires b.Ok() && EosUnknown(b, works)
    ensures FlushedBlocks(b, works) == b
    ensures !b.reserved ==> (|b.available| == |b.frames| <==> InUse(b.frames) == 0)
  {
    if works != [] {
      ReturnedMeans(b, works[0].index);
      FlushReturnsNothing(b, works[1..]);
    }
    if !b.reserved {
      BlocksAddUp(b);
    }
  }

  /**
    A frame that ends the stream before its output came is never reported: its output is not looked for among such
    works. With it in the queue, no later work is reported either.
   */
  lemma FrameAtEndOfStreamIsStuck(s: Snapshot, k: nat)
    requires s.Kept() && k < |s.workQueue| && s.workQueue[k].eos && s.workQueue[k].hasBuffer && !s.workQueue[k].late
    ensures !s.workQueue[k].Done()
    ensures forall j :: 0 <= j < |s.reported| ==>
              && s.reported[j].ticket < s.workQueue[k].ticket
              && !(s.reported[j].eos && s.reported[j].hasBuffer && !s.reported[j].late)
  {
  }

  // ----- The object -----

  class EncodeComponent {
    const converter: FormatConverter?
    var workQueue: seq<Work>
    var converterQueue: seq<Work>
    var accepted: nat
    var reported: seq<Work>
    var error: bool

    ghost function Snap(): Snapshot
      reads this, converter
    {
      Snapshot(workQueue, converterQueue, accepted, reported,
               if converter == null then None else Some(converter.Value()))
    }

    ghost predicate Valid()
      reads this, converter
    {
      Snap().BlocksOk() && (!error ==> Snap().Kept())
    }

    predicate Waits()
      reads this, converter
    {
      converter != null && !converter.IsReady()
    }

    constructor (converter: FormatConverter?)
      requires converter != null ==> converter.Valid()
      ensures Valid() && !error && Snap() == Initial(Snap().blocks) && this.converter == converter
    {
      this.converter := converter;
      workQueue, converterQueue, accepted, reported, error := [], [], 0, [], false;
    }

    /** Finished works leave from the front only. */
    method ReportFinished()
      modifies this`workQueue, this`reported
      ensures Snap() == ReportFront(old(Snap()))
    {
      while workQueue != [] && workQueue[0].Done()
        invariant ReportFront(Snap()) == ReportFront(old(Snap()))
        decreases |workQueue|
      {
        reported, workQueue := reported + [workQueue[0]], workQueue[1..];
      }
    }

    /** The drain is over: the first work that waits for one may be finished now. */
    method OnDrainDone()
      modifies this`workQueue, this`reported
      ensures Snap() == DrainEnds(old(Snap()))
    {
      var i := 0;
      while i < |workQueue| && !workQueue[i].Undrained()
        invariant i <= |workQueue|
        invariant forall k :: 0 <= k < i ==> !workQueue[k].Undrained()
      {
        i := i + 1;
      }
      assert i == FirstUndrained(workQueue);
      if i == |workQueue| {
        return;
      }
      workQueue := workQueue[i := workQueue[i].(eosDone := true)];
      if i == 0 && workQueue[0].Done() {
        reported, workQueue := reported + [workQueue[0]], workQueue[1..];
      }
    }

    /** Sends a work to the encoder. */
    method Send(work: Work, answers: Answers)
      requires Snap().BlocksOk() && !error
      modifies this`workQueue, this`error, this`reported, converter
      ensures Snap().BlocksOk() && (error <==> Sent(old(Snap()), work, answers).None?)
      ensures !error ==> Some(Snap()) == Sent(old(Snap()), work, answers)
    {
      if work.hasBuffer {
        if converter != null {
          ConvertedMeans(converter.Value(), work.index, answers.conversion);
          var ok := converter.ConvertBlock(work.index, answers.conversion);
          if !ok {
            error := true;
            return;
          }
        }
        if !answers.encodeOk {
          error := true;
          return;
        }
      }
      workQueue := workQueue + [work];
      hide DrainEnds, Converted;
      if work.eos && answers.drainedAtOnce {
        OnDrainDone();
      }
    }

    /** A work arrives. */
    method QueueTask(input: Input, answers: Answers)
      requires Valid() && !error
      modifies this`workQueue, this`converterQueue, this`accepted, this`error, this`reported, converter
      ensures Valid() && (error <==> Queued(old(Snap()), input, answers).None?)
      ensures !error ==> Some(Snap()) == Queued(old(Snap()), input, answers)
    {
      QueuedMeans(Snap(), input, answers);
      hide Sent, Snapshot.Kept, Sendable;
      if IsDiscarded(input) {
        return;
      }
      if !answers.poolOk {
        error := true;
        return;
      }
      var work := Arrived(accepted, input);
      accepted := accepted + 1;
      if converter != null && !converter.IsReady() {
        converterQueue := converterQueue + [work];
        return;
      }
      Send(work, answers);
    }

    /** The first work that waited for the converter is taken up. */
    method TakeUp(answers: Answers)
      requires Snap().BlocksOk() && !error && converterQueue != []
      modifies this`workQueue, this`converterQueue, this`error, this`reported, converter
      ensures Snap().BlocksOk() && (error <==> TakenUp(old(Snap()), answers).None?)
      ensures !error ==> Some(Snap()) == TakenUp(old(Snap()), answers)
    {
      hide Sent;
      var work := converterQueue[0];
      converterQueue := converterQueue[1..];
      if !answers.poolOk {
        error := true;
        return;
      }
      Send(work, answers);
    }

    /** Works that waited for the converter are taken up while it has a block. */
    method PumpConverterQueue(answers: nat -> Answers)
      requires Snap().BlocksOk() && !error && converter != null
      modifies this`workQueue, this`converterQueue, this`error, this`reported, converter
      ensures Snap().BlocksOk() && (error <==> Pumped(old(Snap()), answers, 0).None?)
      ensures !error ==> Some(Snap()) == Pumped(old(Snap()), answers, 0)
    {
      hide TakenUp;
      ghost var goal := Pumped(Snap(), answers, 0);
      var n := 0;
      while converterQueue != [] && converter.IsReady()
        invariant Snap().BlocksOk() && !error && Pumped(Snap(), answers, n) == goal
        decreases |converterQueue|
      {
        TakeUp(answers(n));
        if error {
          return;
        }
        n := n + 1;
      }
    }

    /** The place of the first work with this index, or the length of the queue. */
    method GetWorkByIndex(index: nat) returns (i: nat)
      ensures i == FirstByIndex(workQueue, index)
    {
      i := 0;
      while i < |workQueue| && workQueue[i].index != index
        invariant i <= |workQueue|
        invariant forall k :: 0 <= k < i ==> workQueue[k].index != index
      {
        i := i + 1;
      }
    }

    /** The work of an input frame gives it up, and the converter's block is returned. */
    method Release(index: nat)
      requires Snap().BlocksOk() && !error
      modifies this`workQueue, this`error, converter
      ensures Snap().BlocksOk() && (error <==> Released(old(Snap()), index).None?)
      ensures !error ==> Some(Snap()) == Released(old(Snap()), index)
    {
      var i := GetWorkByIndex(index);
      if i == |workQueue| || !workQueue[i].hasBuffer {
        error := true;
        return;
      }
      workQueue := workQueue[i := workQueue[i].(inputHeld := false)];
      if converter != null {
        ReturnedMeans(converter.Value(), index);
        hide Returned;
        var ok := converter.ReturnBlock(index);
        error := !ok;
      }
    }

    /** The encoder gives an input frame back, not necessarily in order. */
    method OnInputBufferDone(index: nat, answers: nat -> Answers)
      requires Valid() && !error
      modifies this`workQueue, this`converterQueue, this`error, this`reported, converter
      ensures Valid() && (error <==> InputGiven(old(Snap()), index, answers).None?)
      ensures !error ==> Some(Snap()) == InputGiven(old(Snap()), index, answers)
    {
      InputGivenMeans(Snap(), index, answers);
      ReleasedMeans(Snap(), index);
      hide Released, Pumped, ReportFront, Snapshot.Kept, Releasable;
      Release(index);
      if error {
        return;
      }
      if converter != null {
        PumpConverterQueue(answers);
        if error {
          return;
        }
      } else {
        NothingToPump(Snap(), answers);
      }
      ReportFinished();
    }

    /** The client drains. */
    method DrainTask(drainedAtOnce: bool) returns (drains: bool)
      requires Valid() && !error
      modifies this`workQueue, this`converterQueue, this`reported
      ensures Valid() && Snap() == DrainAsked(old(Snap()), drainedAtOnce)
      ensures drains == (old(converterQueue) == [] && old(workQueue) != [])
    {
      DrainAskedKeeps(Snap(), drainedAtOnce);
      hide DrainEnds, Snapshot.Kept;
      if converterQueue != [] {
        var last := |converterQueue| - 1;
        converterQueue := converterQueue[last := EndOfStream(converterQueue[last])];
        return false;
      }
      if workQueue == [] {
        return false;
      }
      var last := |workQueue| - 1;
      workQueue := workQueue[last := EndOfStream(workQueue[last])];
      if drainedAtOnce {
        OnDrainDone();
      }
      return true;
    }

    /** All works are aborted, those that wait for the converter first, and the component starts again. */
    method Flush() returns (aborted: seq<Work>)
      requires Valid() && !error
      modifies this`workQueue, this`converterQueue, this`accepted, this`reported, converter
      ensures Valid() && Snap() == Flushed(old(Snap())) && aborted == old(converterQueue) + old(workQueue)
    {
      hide Blocks.Ok, FlushedBlocks, Snapshot.Kept;
      aborted, converterQueue := converterQueue, [];
      while workQueue != []
        invariant aborted + workQueue == old(converterQueue + workQueue) && converterQueue == []
        invariant Snap().BlocksOk() && BlocksAfter() == old(BlocksAfter())
        decreases |workQueue|
      {
        assert aborted + workQueue == aborted + [workQueue[0]] + workQueue[1..];
        aborted := aborted + [workQueue[0]];
        AbortFirst();
      }
      NoneAborted(Snap());
      accepted, reported := 0, [];
      StartsKept(Snap());
    }

    /** The converter once all works under way are aborted. */
    ghost function BlocksAfter(): Option<Blocks>
      requires Snap().BlocksOk()
      reads this, converter
    {
      if converter == null then None else Some(FlushedBlocks(converter.Value(), workQueue))
    }

    method AbortFirst()
      requires Snap().BlocksOk() && workQueue != []
      modifies this`workQueue, converter
      ensures Snap().BlocksOk() && workQueue == old(workQueue)[1..] && BlocksAfter() == old(BlocksAfter())
    {
      if converter != null {
        FlushOne(converter.Value(), workQueue);
      }
      hide Returned, FlushedBlocks, Blocks.Ok;
      if converter != null && !workQueue[0].hasBuffer {
        var ok := converter.ReturnBlock(workQueue[0].index);
      }
      workQueue := workQueue[1..];
    }

    /** The encoder gives encoded data out. */
    method OnOutputBufferDone(timestamp: nat, csdOk: bool)
      requires Valid() && !error
      modifies this`workQueue, this`error, this`reported
      ensures Valid() && (error <==> OutputGiven(old(Snap()), timestamp, csdOk).None?)
      ensures !error ==> Some(Snap()) == OutputGiven(old(Snap()), timestamp, csdOk)
    {
      OutputGivenMeans(Snap(), timestamp, csdOk);
      hide ReportFront, Snapshot.Kept;
      if !csdOk {
        error := true;
        return;
      }
      var i := 0;
      while i < |workQueue| && (workQueue[i].eos || workQueue[i].timestamp != timestamp)
        invariant i <= |workQueue|
        invariant forall k :: 0 <= k < i ==> workQueue[k].eos || workQueue[k].timestamp != timestamp
      {
        i := i + 1;
      }
      assert i == FirstByTimestamp(workQueue, timestamp);
      if i == |workQueue| {
        error := timestamp != 0;
        return;
      }
      workQueue := workQueue[i := workQueue[i].(hasOutput := true)];
      ReportFinished();
    }
  }

  lemma StartsKept(s: Snapshot)
    requires s.BlocksOk() && s == Initial(s.blocks)
    ensures s.Kept()
  {
  }

  lemma NoneAborted(s: Snapshot)
    requires s.BlocksOk()
    ensures s.blocks.Some? ==> FlushedBlocks(s.blocks.value, []) == s.blocks.value
  {
  }

  lemma FlushOne(b: Blocks, works: seq<Work>)
    requires b.Ok() && works != []
    ensures var r := Returned(b, works[0].index);
            && (r.Some? ==> r.value.Ok()) && (r.Some? <==> b.Knows(works[0].index))
            && FlushedBlocks(b, works)
               == FlushedBlocks(if works[0].hasBuffer || r.None? then b else r.value, works[1..])
  {
    ReturnedMeans(b, works[0].index);
  }

  lemma NothingToPump(s: Snapshot, answers: nat -> Answers)
    requires s.blocks.None?
    ensures Pumped(s, answers, 0) == Some(s)
  {
  }

  // ----- Every run -----

  datatype Event =
    | Queue(input: Input, answers: Answers)
    | InputDone(index: nat, requeueAnswers: nat -> Answers)
    | OutputDone(timestamp: nat, csdOk: bool)
    | DrainDone
    | DrainRequest(drainedAtOnce: bool)
    | FlushAll

  /** The component after an event; None is an error. */
  ghost function After(s: Snapshot, event: Event): Option<Snapshot>
    requires s.BlocksOk()
  {
    match event
    case Queue(input, answers) => Queued(s, input, answers)
    case InputDone(index, answers) => InputGiven(s, index, answers)
    case OutputDone(timestamp, csdOk) => OutputGiven(s, timestamp, csdOk)
    case DrainDone => Some(DrainEnds(s))
    case DrainRequest(drainedAtOnce) => Some(DrainAsked(s, drainedAtOnce))
    case FlushAll => Some(Flushed(s))
  }

  /** From a state that is kept, the event leads to this outcome. */
  ghost predicate Leads(s: Snapshot, event: Event, outcome: Option<Snapshot>) {
    s.Kept() && After(s, event) == outcome
  }

  /** No event loses or reorders works, or reports one that is not finished. */
  lemma AfterKeeps(s: Snapshot, event: Event)
    requires s.Kept()
    ensures After(s, event).Some? ==> After(s, event).value.Kept()
    ensures After(s, event).Some? && !event.FlushAll? ==> s.reported <= After(s, event).value.reported
  {
    match event
    case Queue(input, answers) => QueuedMeans(s, input, answers);
    case InputDone(index, answers) => InputGivenMeans(s, index, answers);
    case OutputDone(timestamp, csdOk) => OutputGivenMeans(s, timestamp, csdOk);
    case DrainDone => DrainEndsMeans(s);
    case DrainRequest(drainedAtOnce) => DrainAskedKeeps(s, drainedAtOnce);
    case FlushAll =>
  }

  /**
    After any sequence of works, encoder callbacks, drains and flushes: the state after each event is a function of the
    one before, up to the first event that is an error; and since the last flush works were reported as they arrived.
   */
  method Run(events: seq<Event>, numBlocks: Option<nat>) returns (c: EncodeComponent, ghost history: seq<Snapshot>)
    ensures c.Valid() && 0 < |history| <= |events| + 1
    ensures history[0] == Initial(if numBlocks.None? then None else Some(AllFree(numBlocks.value)))
    ensures forall n :: 0 <= n < |history| - 1 ==> Leads(history[n], events[n], Some(history[n + 1]))
    ensures !c.error ==> |history| == |events| + 1 && history[|events|] == c.Snap()
    ensures c.error ==> |history| <= |events| && Leads(history[|history| - 1], events[|history| - 1], None)
    ensures !c.error ==> forall k :: 0 <= k < |c.reported| ==> c.reported[k].ticket == k && c.reported[k].Done()
  {
    var converter: FormatConverter? := null;
    if numBlocks.Some? {
      converter := new FormatConverter(numBlocks.value);
    }
    c := new EncodeComponent(converter);
    history := [c.Snap()];
    for n := 0 to |events|
      invariant fresh(c) && (c.converter != null ==> fresh(c.converter)) && c.Valid() && !c.error
      invariant |history| == n + 1 && history[n] == c.Snap()
      invariant history[0] == Initial(if numBlocks.None? then None else Some(AllFree(numBlocks.value)))
      invariant forall k :: 0 <= k < n ==> Leads(history[k], events[k], Some(history[k + 1]))
    {
      hide Leads, Snapshot.InOrder, Snapshot.Sound;
      Handle(c, events[n]);
      if c.error {
        return;
      }
      history := history + [c.Snap()];
    }
  }

  method Handle(c: EncodeComponent, event: Event)
    requires c.Valid() && !c.error
    modifies c, c.converter
    ensures c.Valid() && Leads(old(c.Snap()), event, if c.error then None else Some(c.Snap()))
  {
    AfterKeeps(c.Snap(), event);
    hide Snapshot.Kept, Queued, InputGiven, OutputGiven, DrainEnds, DrainAsked, Flushed;
    match event {
      case Queue(input, answers) => c.QueueTask(input, answers);
      case InputDone(index, answers) => c.OnInputBufferDone(index, answers);
      case OutputDone(timestamp, csdOk) => c.OnOutputBufferDone(timestamp, csdOk);
      case DrainDone => c.OnDrainDone();
      case DrainRequest(drainedAtOnce) => var drains := c.DrainTask(drainedAtOnce);
      case FlushAll => var aborted := c.Flush();
    }
  }

  // ----- What the code does not keep -----

  /** With all blocks of the converter in use and no work without a buffer, a flush leaves no block to come back. */
  lemma {:induction false} StarvedByFlush(s: Snapshot, inputs: seq<Input>, answers: Answers)
    requires s.Kept() && s.Waits() && EosUnknown(s.blocks.value, s.workQueue) && answers.poolOk
    requires forall k :: 0 <= k < |inputs| ==> !IsDiscarded(inputs[k])
    ensures var t := QueueAll(Flushed(s), inputs, answers);
            && t.Some? && t.value.Kept() && t.value.workQueue == []
            && |t.value.converterQueue| == |inputs| && t.value.Waits()
  {
    FlushReturnsNothing(s.blocks.value, s.workQueue);
    WaitingWorksWait(Flushed(s), inputs, answers);
  }

  /** Works are queued one after the other. */
  ghost function QueueAll(s: Snapshot, inputs: seq<Input>, answers: Answers): Option<Snapshot>
    requires s.Kept()
    decreases |inputs|
  {
    if inputs == [] then Some(s)
    else
      QueuedMeans(s, inputs[0], answers);
      var r := Queued(s, inputs[0], answers);
      if r.None? then None else QueueAll(r.value, inputs[1..], answers)
  }

  lemma {:induction false} WaitingWorksWait(s: Snapshot, inputs: seq<Input>, answers: Answers)
    requires s.Kept() && s.Waits() && answers.poolOk && s.workQueue == []
    requires forall k :: 0 <= k < |inputs| ==> !IsDiscarded(inputs[k])
    ensures var t := QueueAll(s, inputs, answers);
            && t.Some? && t.value.Kept() && t.value.workQueue == [] && t.value.Waits()
            && |t.value.converterQueue| == |s.converterQueue| + |inputs|
    decreases |inputs|
  {
    if inputs != [] {
      QueuedMeans(s, inputs[0], answers);
      WaitingWorksWait(Queued(s, inputs[0], answers).value, inputs[1..], answers);
    }
  }

  /**
    A drain while the last work waits for its output: the output, when it comes, is an error, as it is not looked for
    among works that end the stream. So it is for every component in which no other work has the timestamp.
   */
  lemma OutputAfterDrainFails(s: Snapshot, timestamp: nat)
    requires s.Kept() && s.converterQueue == [] && s.workQueue != [] && timestamp != 0
    requires forall k :: 0 <= k < |s.workQueue| - 1 ==> s.workQueue[k].eos || s.workQueue[k].timestamp != timestamp
    ensures OutputGiven(DrainAsked(s, false), timestamp, true) == None
  {
    DrainAskedKeeps(s, false);
    OutputGivenMeans(DrainAsked(s, false), timestamp, true);
  }
}
