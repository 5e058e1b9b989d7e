/**
  The decode component: every work the client queues is waiting, at the decoder or reported, and the
  end-of-stream work is reported after all works that went to the decoder before it. The decoder is an
  environment here: its callbacks may come in any order, with any status.
 */
module DecodeComponent {
  import opened Arithmetic
  import opened DecodeProtocol
  import opened Options

  /** Frame indices are masked to 30 bits. */
  function ToBitstreamId(frameIndex: nat): (id: BitstreamId)
    ensures id < 0x4000_0000
  {
    frameIndex % 0x4000_0000
  }

  /** C2's wrap-around order on 64-bit counters. */
  predicate Before(a: nat, b: nat) {
    (a - b) % 0x1_0000_0000_0000_0000 >= 0x8000_0000_0000_0000
  }

  /** Indices less than 2^30 apart have different ids. */
  lemma IdsDiffer(a: nat, b: nat)
    requires a < b < a + 0x4000_0000
    ensures ToBitstreamId(a) != ToBitstreamId(b)
  {
  }

  /** Counters less than 2^63 apart are in their natural order, also where one has wrapped around. */
  lemma BeforeMeans(a: nat, b: nat)
    requires a < b < a + 0x8000_0000_0000_0000
    ensures Before(a, b) && !Before(b, a) && !Before(a, a)
    ensures Before(a, b % 0x1_0000_0000_0000_0000) && !Before(b % 0x1_0000_0000_0000_0000, a)
  {
    var m := 0x1_0000_0000_0000_0000;
    DivMod(a - b, m, -1, m - (b - a));
    DivMod(b - a, m, 0, b - a);
    var q, r := b / m, b % m;
    DivMod(a - r, m, q - 1, m - (b - a));
    DivMod(r - a, m, -q, b - a);
  }

  /** What the client queues. */
  datatype Input = Input(frameIndex: nat, timestamp: nat, eos: bool, csd: bool, hasBuffer: bool, wellFormed: bool)

  /** An accepted work; `ticket` is its identity. */
  datatype Work = Work(ticket: nat, id: BitstreamId, frameIndex: nat, timestamp: nat, eos: bool, csd: bool,
                       inputHeld: bool, hasOutput: bool, dropped: bool)
  {
    /** The end-of-stream work never counts as done: it has its own report. */
    predicate Done() {
      !eos && !inputHeld && (hasOutput || csd || dropped)
    }

    predicate NoShow(current: Work) {
      && Before(timestamp, current.timestamp) && Before(frameIndex, current.frameIndex)
      && !hasOutput
      && !eos && !csd && !dropped
    }
  }

  /** A work the component accepts: it has a buffer, or needs none. */
  predicate IsTaken(input: Input) {
    input.wellFormed && (input.hasBuffer || input.eos || input.csd)
  }

  function Accepted(ticket: nat, input: Input): Work {
    Work(ticket, ToBitstreamId(input.frameIndex), input.frameIndex, input.timestamp, input.eos, input.csd,
         input.hasBuffer, false, false)
  }

  datatype Result = Finished | EndOfStream | Abandoned

  datatype Report = Report(ticket: nat, result: Result)

  datatype ComponentState = Running | Error | Stopped

  /** Where a work that left the waiting queue is now. */
  datatype Place = AtDecoder(id: BitstreamId) | Reported(index: nat)

  /** Every work that left the queue is in exactly one place: at the decoder or reported, once. */
  ghost predicate Conserved(works: map<BitstreamId, Work>, reported: seq<Report>, place: seq<Place>) {
    && (forall t :: 0 <= t < |place| && place[t].AtDecoder? ==>
          place[t].id in works && works[place[t].id].ticket == t)
    && (forall t :: 0 <= t < |place| && place[t].Reported? ==>
          place[t].index < |reported| && reported[place[t].index].ticket == t)
    && (forall id :: id in works ==>
          works[id].id == id && works[id].ticket < |place| && place[works[id].ticket] == AtDecoder(id))
    && (forall j :: 0 <= j < |reported| ==>
          reported[j].ticket < |place| && place[reported[j].ticket] == Reported(j))
  }

  /** Waiting works are the latest accepted ones, in order of arrival. */
  ghost predicate InOrder(pending: seq<Work>, taken: nat) {
    forall k :: 0 <= k < |pending| ==> pending[k].ticket == taken + k
  }

  /** Everything accepted before an end-of-stream work was reported before it. */
  ghost predicate EosAfterEarlier(reported: seq<Report>, place: seq<Place>) {
    forall j, t :: 0 <= j < |reported| && reported[j].result.EndOfStream? && 0 <= t < reported[j].ticket < |place| ==>
      place[t].Reported? && place[t].index < j
  }

  /** eos names the end-of-stream work at the decoder, if any: there is one at most, and it is the newest. */
  ghost predicate EosNewest(works: map<BitstreamId, Work>, eos: Option<BitstreamId>) {
    && (eos.Some? ==> eos.value in works)
    && (forall id :: id in works ==> (works[id].eos <==> eos == Some(id)))
    && (eos.Some? ==> forall id :: id in works ==> works[id].ticket <= works[eos.value].ticket)
  }

  // ----- What an observer of the callbacks knows -----

  /**
    The inputs of the works, by ticket; the works whose decode callback gave their input back, those for which a frame
    came out, those that were passed over, and those that the client's drains made the end of the stream.
   */
  datatype Seen = Seen(inputs: seq<Input>, decoded: set<nat>, shown: set<nat>, skipped: set<nat>, ended: set<nat>)
  {
    /** The input was given back, if there was one, and the output came or is not to be waited for. */
    ghost predicate Earned(ticket: nat) {
      && ticket < |inputs| && (inputs[ticket].hasBuffer ==> ticket in decoded)
      && (inputs[ticket].csd || ticket in shown || ticket in skipped)
    }
  }

  /** The other input is earlier in both orders. */
  predicate Earlier(a: Input, b: Input) {
    Before(a.timestamp, b.timestamp) && Before(a.frameIndex, b.frameIndex)
  }

  /** The frame of a work came out: works at the decoder that are earlier and have no output are passed over. */
  ghost predicate PassedOver(works: map<BitstreamId, Work>, seen: Seen, current: nat, ticket: nat) {
    && ticket < |seen.inputs| && current < |seen.inputs| && !seen.inputs[ticket].csd && ticket !in seen.shown
    && Earlier(seen.inputs[ticket], seen.inputs[current])
    && exists id :: id in works && works[id].ticket == ticket && !works[id].eos
  }

  /** A work is what its input and the callbacks make of it. */
  ghost predicate Agrees(w: Work, seen: Seen) {
    && w.ticket < |seen.inputs|
    && var input := seen.inputs[w.ticket];
       && w.id == ToBitstreamId(input.frameIndex) && w.frameIndex == input.frameIndex && w.timestamp == input.timestamp
       && w.csd == input.csd && (w.eos <==> input.eos || w.ticket in seen.ended)
       && (w.inputHeld <==> input.hasBuffer && w.ticket !in seen.decoded)
       && (w.hasOutput <==> w.ticket in seen.shown) && (w.dropped <==> w.ticket in seen.skipped)
  }

  /** So are all works in flight, of which `taken` left the queue; and what was reported as finished had earned it. */
  ghost predicate Explained(pending: seq<Work>, works: map<BitstreamId, Work>, reported: seq<Report>, taken: nat,
                            seen: Seen)
  {
    && (forall k :: 0 <= k < |pending| ==> Agrees(pending[k], seen))
    && (forall id :: id in works ==> Agrees(works[id], seen))
    && (forall t :: t in seen.decoded || t in seen.shown || t in seen.skipped ==> t < taken)
    && (forall t :: t in seen.ended ==> t < |seen.inputs|)
    && Truthful(reported, seen)
  }

  ghost predicate Truthful(reported: seq<Report>, seen: Seen) {
    forall j :: 0 <= j < |reported| && reported[j].result.Finished? ==> seen.Earned(reported[j].ticket)
  }

  /** The order of a work is that of its input. */
  ghost predicate Timed(w: Work, seen: Seen) {
    && w.ticket < |seen.inputs|
    && w.timestamp == seen.inputs[w.ticket].timestamp && w.frameIndex == seen.inputs[w.ticket].frameIndex
  }

  /** Nothing is known about other works than before. */
  ghost predicate OnlyAbout(ticket: nat, before: Seen, after: Seen) {
    && after.inputs == before.inputs
    && (forall t :: t != ticket ==>
          && (t in after.decoded <==> t in before.decoded) && (t in after.shown <==> t in before.shown)
          && (t in after.skipped <==> t in before.skipped))
    && before.decoded <= after.decoded && before.shown <= after.shown && before.skipped <= after.skipped
    && after.ended == before.ended
  }

  /** A work counts as done exactly when it has earned it and does not end the stream. */
  lemma DoneIffEarned(w: Work, seen: Seen)
    requires Agrees(w, seen)
    ensures w.Done() <==> !w.eos && seen.Earned(w.ticket)
  {
  }

  lemma ProgressAgrees(w: Work, seen: Seen)
    requires Agrees(w, seen)
    ensures Agrees(w.(inputHeld := false), Decoded(seen, w.ticket))
    ensures OnlyAbout(w.ticket, seen, Decoded(seen, w.ticket))
    ensures Agrees(w.(hasOutput := true), Shows(seen, w.ticket)) && OnlyAbout(w.ticket, seen, Shows(seen, w.ticket))
    ensures Agrees(w.(dropped := true), Skips(seen, w.ticket)) && OnlyAbout(w.ticket, seen, Skips(seen, w.ticket))
    ensures Timed(w, seen)
  {
  }

  lemma StillTimed(w: Work, seen: Seen)
    requires Timed(w, seen)
    ensures Timed(w, Shows(seen, w.ticket))
  {
  }

  lemma ExplainedUpdate(pending: seq<Work>, works: map<BitstreamId, Work>, reported: seq<Report>, place: seq<Place>,
                        seen: Seen, id: BitstreamId, work: Work, seen': Seen)
    requires Explained(pending, works, reported, |place|, seen) && Conserved(works, reported, place)
    requires InOrder(pending, |place|) && id in works && work.ticket == works[id].ticket
    requires Agrees(work, seen') && OnlyAbout(work.ticket, seen, seen')
    ensures Explained(pending, works[id := work], reported, |place|, seen') && seen'.inputs == seen.inputs
  {
    forall x | x in works && x != id
      ensures Agrees(works[x], seen')
    {
      assert works[x].ticket != works[id].ticket;
    }
  }

  lemma ExplainedReport(pending: seq<Work>, works: map<BitstreamId, Work>, reported: seq<Report>, taken: nat,
                        seen: Seen, id: BitstreamId, result: Result)
    requires Explained(pending, works, reported, taken, seen) && id in works && (result.Finished? ==> works[id].Done())
    ensures Explained(pending, works - {id}, reported + [Report(works[id].ticket, result)], taken, seen)
  {
    DoneIffEarned(works[id], seen);
  }

  lemma ExplainedAtEnd(pending: seq<Work>, works: map<BitstreamId, Work>, reported: seq<Report>, taken: nat, seen: Seen,
                       k: nat)
    requires Explained(pending, works, reported, taken, seen) && InOrder(pending, taken) && k < |pending|
    requires forall id :: id in works ==> works[id].ticket < taken
    ensures Explained(pending[k := pending[k].(eos := true)], works, reported, taken, Ends(seen, pending[k].ticket))
  {
  }

  /** A drain of the client makes this work the end of the stream. */
  ghost function Ends(seen: Seen, ticket: nat): Seen {
    seen.(ended := seen.ended + {ticket})
  }

  /** Works that left the decoder were reported as finished. */
  ghost predicate LeftReported(before: map<BitstreamId, Work>, after: map<BitstreamId, Work>, reported: seq<Report>) {
    forall id :: id in before && id !in after ==> Report(before[id].ticket, Finished) in reported
  }

  /** Works left the decoder only because they were done, and were reported; the others did not change. */
  ghost predicate OnlyFinishedLeft(before: map<BitstreamId, Work>, after: map<BitstreamId, Work>, reported: seq<Report>)
  {
    OnlyDoneLeft(before, after) && LeftReported(before, after, reported)
  }

  ghost function InputBack(r: Reporting, id: BitstreamId, outputDue: bool): Reporting
    requires id in r.works
  {
    r.(works := r.works[id := r.works[id].(inputHeld := false)], line := r.line + if outputDue then [id] else [])
  }

  /** With the output recorded, and works that were passed over reported first, works leave in output order. */
  ghost predicate OutputPumped(r: Reporting, seen: Seen, id: BitstreamId, noShow: bool, isDraining: bool, r': Reporting,
                               seen': Seen)
    requires id in r.works
  {
    exists works, reported :: PumpedFrom(r, seen, id, noShow, isDraining, works, reported, r', seen')
  }

  /** These works were left, and these reports made, before works left in output order. */
  ghost predicate PumpedFrom(r: Reporting, seen: Seen, id: BitstreamId, noShow: bool, isDraining: bool,
                             works: map<BitstreamId, Work>, reported: seq<Report>, r': Reporting, seen': Seen)
    requires id in r.works
  {
    && OnlyFinishedLeft(AfterOutput(r.works, id, noShow), works, reported) && r.reported <= reported
    && (!noShow ==> works == AfterOutput(r.works, id, noShow) && reported == r.reported)
    && (forall x :: x in r.works && x !in works ==>
          r.works[x].ticket in seen'.skipped && r.works[x].ticket !in seen.skipped)
    && r' == InOutputOrder(Reporting(works, r.line + [id], reported), isDraining)
  }

  /** The works at the decoder, the ids whose output is due, and what was reported. */
  datatype Reporting = Reporting(works: map<BitstreamId, Work>, line: seq<BitstreamId>, reported: seq<Report>)

  /** The work of the first id in line is reported. */
  ghost function WithFirstReported(r: Reporting): Reporting
    requires r.line != [] && r.line[0] in r.works
  {
    var id := r.line[0];
    Reporting(r.works - {id}, r.line[1..], r.reported + [Report(r.works[id].ticket, Finished)])
  }

  /** Works are reported in the order of the line, up to the first that is not done; the last one of a drain is not. */
  ghost function InOutputOrder(r: Reporting, isDraining: bool): Reporting
    decreases |r.line|
  {
    if r.line == [] || (isDraining && |r.works| == 1) then r
    else
      var id := r.line[0];
      if id !in r.works then InOutputOrder(r.(line := r.line[1..]), isDraining)
      else if !r.works[id].Done() then r
      else
        InOutputOrder(WithFirstReported(r), isDraining)
  }

  /** Nothing that is done is left at the front of the line; only what left was reported, and it was done. */
  lemma {:induction false} InOrderMeans(r: Reporting, isDraining: bool)
    ensures var t := InOutputOrder(r, isDraining);
            && OnlyFinishedLeft(r.works, t.works, t.reported) && r.reported <= t.reported
            && DealtWith(r.line, t.works, t.line) && NothingDue(t.line, t.works, isDraining)
    decreases |r.line|
  {
    NoneLeft(r.works);
    NoneLeftReported(r.works, r.reported);
    if r.line != [] && !(isDraining && |r.works| == 1) && (r.line[0] in r.works ==> r.works[r.line[0]].Done()) {
      var id := r.line[0];
      var u := if id in r.works then WithFirstReported(r) else r.(line := r.line[1..]);
      InOrderMeans(u, isDraining);
      var t := InOutputOrder(u, isDraining);
      assert InOutputOrder(r, isDraining) == t;
      FirstLeft(r);
      hide LeftReported, NothingDue, OnlyDoneLeft, DealtWith, InOutputOrder, WithFirstReported;
      LeftInTwoSteps(r.works, u.works, t.works);
      LeftReportedInTwoSteps(r.works, u.works, t.works, u.reported, t.reported);
      NotThere(u.works, t.works, id);
      DealtLater(r.line, t.works, t.line);
    }
  }

  lemma FirstLeft(r: Reporting)
    requires r.line != [] && (r.line[0] in r.works ==> r.works[r.line[0]].Done())
    ensures var u := if r.line[0] in r.works then WithFirstReported(r) else r.(line := r.line[1..]);
            && OnlyDoneLeft(r.works, u.works) && LeftReported(r.works, u.works, u.reported)
            && r.reported <= u.reported && u.line == r.line[1..] && r.line[0] !in u.works
  {
    if r.line[0] in r.works {
      var u := WithFirstReported(r);
      assert u.reported[|r.reported|] == Report(r.works[r.line[0]].ticket, Finished);
    }
  }

  lemma NotThere(before: map<BitstreamId, Work>, after: map<BitstreamId, Work>, id: BitstreamId)
    requires OnlyDoneLeft(before, after) && id !in before
    ensures id !in after
  {
  }

  lemma DealtLater(line: seq<BitstreamId>, works: map<BitstreamId, Work>, after: seq<BitstreamId>)
    requires line != [] && DealtWith(line[1..], works, after) && line[0] !in works
    ensures DealtWith(line, works, after)
  {
    var n := |line| - |after|;
    forall k | 0 <= k < n
      ensures line[k] !in works
    {
      if k > 0 {
        assert line[k] == line[1..][k - 1];
      }
    }
  }

  /** The first id in line has a work that is not done, or only one work is left of a drain. */
  ghost predicate NothingDue(line: seq<BitstreamId>, works: map<BitstreamId, Work>, isDraining: bool) {
    || line == [] || (isDraining && |works| == 1)
    || (line[0] in works && !works[line[0]].Done())
  }

  lemma EarnedNothing(t: Snapshot)
    requires AllAgree(t.worksAtDecoder, t.seen) && NothingDue(t.outputIds, t.worksAtDecoder, t.isDraining)
    ensures t.Settled()
  {
    if t.outputIds != [] && t.outputIds[0] in t.worksAtDecoder {
      DoneIffEarned(t.worksAtDecoder[t.outputIds[0]], t.seen);
    }
  }

  lemma LeftReportedInTwoSteps(a: map<BitstreamId, Work>, b: map<BitstreamId, Work>, c: map<BitstreamId, Work>,
                               reported: seq<Report>, reported': seq<Report>)
    requires OnlyDoneLeft(a, b) && LeftReported(a, b, reported) && LeftReported(b, c, reported')
    requires reported <= reported'
    ensures LeftReported(a, c, reported')
  {
    assert forall r :: r in reported ==> r in reported';
  }

  ghost function Decoded(seen: Seen, ticket: nat): Seen {
    seen.(decoded := seen.decoded + {ticket})
  }

  ghost function Shows(seen: Seen, ticket: nat): Seen {
    seen.(shown := seen.shown + {ticket})
  }

  ghost function Skips(seen: Seen, ticket: nat): Seen {
    seen.(skipped := seen.skipped + {ticket})
  }

  /** Exactly the works that a frame passed over are skipped. */
  ghost predicate SkippedBy(works: map<BitstreamId, Work>, seen: Seen, current: Work, seen': Seen) {
    forall t :: t in seen'.skipped <==> t in seen.skipped || PassedOver(works, seen, current.ticket, t)
  }

  /** The work with this ticket is one of those looked at, and its frame will not be shown. */
  ghost predicate NoShowTicket(works: map<BitstreamId, Work>, left: set<BitstreamId>, current: Work, ticket: nat) {
    exists id :: id in works && id !in left && works[id].ticket == ticket && works[id].NoShow(current)
  }

  ghost predicate AllAgree(works: map<BitstreamId, Work>, seen: Seen) {
    forall id :: id in works ==> Agrees(works[id], seen)
  }

  /** The works that were looked at are marked, and listed, if their frames will not be shown. */
  ghost predicate MarkedSoFar(first: map<BitstreamId, Work>, works: map<BitstreamId, Work>, left: set<BitstreamId>,
                              noShow: seq<BitstreamId>, current: Work)
  {
    && left <= works.Keys == first.Keys
    && (forall id :: id in works ==> works[id] == if id in left then first[id] else Marked(first, current)[id])
    && (forall id :: id in works ==> (id in noShow <==> id !in left && first[id].NoShow(current)))
  }

  lemma MarkStarts(works: map<BitstreamId, Work>, current: Work)
    ensures MarkedSoFar(works, works, works.Keys, [], current)
    ensures forall t :: !NoShowTicket(works, works.Keys, current, t)
  {
  }

  lemma MarkStep(first: map<BitstreamId, Work>, works: map<BitstreamId, Work>, left: set<BitstreamId>,
                 noShow: seq<BitstreamId>, current: Work, id: BitstreamId)
    requires MarkedSoFar(first, works, left, noShow, current) && id in left
    ensures id in works && id in first && works[id] == first[id]
    ensures if works[id].NoShow(current)
            then MarkedSoFar(first, works[id := works[id].(dropped := true)], left - {id}, noShow + [id], current)
            else MarkedSoFar(first, works, left - {id}, noShow, current)
  {
  }

  lemma MarkEnds(first: map<BitstreamId, Work>, works: map<BitstreamId, Work>, noShow: seq<BitstreamId>, current: Work)
    requires MarkedSoFar(first, works, {}, noShow, current)
    ensures works == Marked(first, current) && works.Keys == first.Keys
    ensures forall id :: id in first ==> (id in noShow <==> first[id].NoShow(current))
  {
  }

  lemma OneTicketMore(works: map<BitstreamId, Work>, left: set<BitstreamId>, current: Work, id: BitstreamId)
    requires id in works && id in left
    ensures forall t :: NoShowTicket(works, left - {id}, current, t) <==>
              NoShowTicket(works, left, current, t) || (works[id].ticket == t && works[id].NoShow(current))
  {
  }

  lemma OneReported(before: map<BitstreamId, Work>, after: map<BitstreamId, Work>, reported: seq<Report>)
    requires after == before || exists id :: id in before && after == before - {id}
                                             && reported != []
                                             && reported[|reported| - 1] == Report(before[id].ticket, Finished)
    ensures LeftReported(before, after, reported)
  {
  }

  /** None of the first ids has a work that is done, unless only one is left of a drain. */
  ghost predicate NoneDue(ids: seq<BitstreamId>, n: nat, works: map<BitstreamId, Work>, isDraining: bool) {
    forall k :: 0 <= k < n && k < |ids| && ids[k] in works ==> !works[ids[k]].Done() || (isDraining && |works| == 1)
  }

  lemma NothingDueYet(ids: seq<BitstreamId>, works: map<BitstreamId, Work>, isDraining: bool)
    ensures NoneDue(ids, 0, works, isDraining)
  {
  }

  lemma MarkedIsHeld(works: map<BitstreamId, Work>, current: Work)
    ensures HeldStay(works, Marked(works, current)) && OnlyDoneLeft(Marked(works, current), Marked(works, current))
  {
  }

  /** With the marked works looked at, none that was passed over and has earned its report is left. */
  lemma NoneDueLeft(works: map<BitstreamId, Work>, seen: Seen, current: Work, noShow: seq<BitstreamId>,
                    works': map<BitstreamId, Work>, seen': Seen, isDraining: bool)
    requires AllAgree(works, seen) && AllAgree(works', seen') && OnlyDoneLeft(Marked(works, current), works')
    requires forall id :: id in works ==> (id in noShow <==> works[id].NoShow(current))
    requires NoneDue(noShow, |noShow|, works', isDraining)
    ensures SkippedLeft(seen, seen', works', isDraining)
  {
    forall id | id in works' && works'[id].ticket in seen'.skipped && works'[id].ticket !in seen.skipped
                && seen'.Earned(works'[id].ticket)
      ensures isDraining && |works'| == 1
    {
      assert id in works && works'[id] == Marked(works, current)[id];
      assert Agrees(works[id], seen) && Agrees(works'[id], seen');
      assert works[id].NoShow(current);
      DoneIffEarned(works'[id], seen');
    }
  }

  /** A frame that will not be shown was not passed over before, and is now. */
  lemma NewlySkipped(works: map<BitstreamId, Work>, seen: Seen, current: Work, seen': Seen)
    requires AllAgree(works, seen) && Timed(current, seen) && SkippedBy(works, seen, current, seen')
    ensures forall id :: id in works && works[id].NoShow(current) ==>
              works[id].ticket in seen'.skipped && works[id].ticket !in seen.skipped
  {
    forall id | id in works && works[id].NoShow(current)
      ensures works[id].ticket in seen'.skipped && works[id].ticket !in seen.skipped
    {
      assert Agrees(works[id], seen);
      assert PassedOver(works, seen, current.ticket, works[id].ticket);
    }
  }

  lemma SkippedMeans(works: map<BitstreamId, Work>, seen: Seen, current: Work, seen': Seen)
    requires Timed(current, seen) && AllAgree(works, seen)
    requires forall t :: t in seen'.skipped <==> t in seen.skipped || NoShowTicket(works, {}, current, t)
    ensures SkippedBy(works, seen, current, seen')
  {
    forall t | PassedOver(works, seen, current.ticket, t)
      ensures t in seen.skipped || NoShowTicket(works, {}, current, t)
    {
      var id :| id in works && works[id].ticket == t && !works[id].eos;
    }
  }

  lemma StillLeft(before: Seen, after: Seen, works: map<BitstreamId, Work>, works': map<BitstreamId, Work>,
                  isDraining: bool)
    requires SkippedLeft(before, after, works, isDraining) && OnlyDoneLeft(works, works')
    ensures SkippedLeft(before, after, works', isDraining)
  {
    forall id | id in works' && |works| == 1
      ensures |works'| == 1
    {
      OnlyKey(works.Keys, id);
      assert works'.Keys == {id};
    }
  }

  lemma SameSkipped(works: map<BitstreamId, Work>, id: BitstreamId, seen: Seen, seen': Seen)
    requires id in works && SkippedBy(works[id := works[id].(hasOutput := true)], seen, works[id], seen')
    ensures SkippedBy(works, seen, works[id], seen')
  {
    var works' := works[id := works[id].(hasOutput := true)];
    forall t
      ensures PassedOver(works, seen, works[id].ticket, t) <==> PassedOver(works', seen, works[id].ticket, t)
    {
      if x :| x in works && works[x].ticket == t && !works[x].eos {
        assert works'[x].ticket == t && !works'[x].eos;
      }
      if x :| x in works' && works'[x].ticket == t && !works'[x].eos {
        assert works[x].ticket == t && !works[x].eos;
      }
    }
  }

  lemma NoneSkipped(seen: Seen, shown: Seen, works: map<BitstreamId, Work>, isDraining: bool)
    requires shown.skipped == seen.skipped
    ensures SkippedLeft(seen, shown, works, isDraining)
    ensures forall after, works' :: SkippedLeft(shown, after, works', isDraining) ==>
              SkippedLeft(seen, after, works', isDraining)
  {
  }

  /** What is known once a frame came out for a work. */
  ghost predicate SeenAfterOutput(works: map<BitstreamId, Work>, seen: Seen, id: BitstreamId, noShow: bool, seen': Seen)
    requires id in works
  {
    && seen' == Shows(seen, works[id].ticket).(skipped := seen'.skipped)
    && (if noShow then SkippedBy(works, Shows(seen, works[id].ticket), works[id], seen')
        else seen'.skipped == seen.skipped)
  }

  /** A work that was passed over now is not left at the decoder when it has earned its report. */
  ghost predicate SkippedLeft(before: Seen, after: Seen, works: map<BitstreamId, Work>, isDraining: bool) {
    forall id :: id in works && works[id].ticket in after.skipped && works[id].ticket !in before.skipped
                 && after.Earned(works[id].ticket) ==>
      isDraining && |works| == 1
  }

  lemma NoneLeftReported(works: map<BitstreamId, Work>, reported: seq<Report>)
    ensures LeftReported(works, works, reported)
  {
  }

  /** Works left the decoder only because they were done; the others did not change. */
  ghost predicate OnlyDoneLeft(before: map<BitstreamId, Work>, after: map<BitstreamId, Work>) {
    && (forall id :: id in after ==> id in before && after[id] == before[id])
    && (forall id :: id in before && id !in after ==> before[id].Done())
  }

  /** The works whose input the decoder still has are the same. */
  ghost predicate HeldStay(before: map<BitstreamId, Work>, after: map<BitstreamId, Work>) {
    && (forall id :: id in before && before[id].inputHeld ==> id in after && after[id].inputHeld)
    && (forall id :: id in after && after[id].inputHeld ==> id in before && before[id].inputHeld)
  }

  lemma DoneOnesWereNotHeld(works: map<BitstreamId, Work>, before: map<BitstreamId, Work>,
                            after: map<BitstreamId, Work>)
    requires HeldStay(works, before) && OnlyDoneLeft(before, after)
    ensures HeldStay(works, after)
  {
  }

  /** The works at the decoder, with the frames that will not be shown marked as dropped. */
  ghost function Marked(works: map<BitstreamId, Work>, current: Work): map<BitstreamId, Work> {
    map id | id in works :: if works[id].NoShow(current) then works[id].(dropped := true) else works[id]
  }

  /** The works at the decoder once a frame came out for one of them. */
  ghost function AfterOutput(works: map<BitstreamId, Work>, id: BitstreamId, noShow: bool): map<BitstreamId, Work>
    requires id in works
  {
    var shown := works[id := works[id].(hasOutput := true)];
    if noShow then Marked(shown, works[id]) else shown
  }

  lemma AfterOutputMeans(works: map<BitstreamId, Work>, id: BitstreamId)
    requires id in works
    ensures var works' := works[id := works[id].(hasOutput := true)];
            && HeldStay(works, works') && works'.Keys == works.Keys
            && AfterOutput(works, id, false) == works' && AfterOutput(works, id, true) == Marked(works', works[id])
            && (forall x :: x in works' && works'[x].NoShow(works[id]) ==> works[x].NoShow(works[id]))
  {
  }

  lemma HeldStayStill(a: map<BitstreamId, Work>, b: map<BitstreamId, Work>, c: map<BitstreamId, Work>)
    requires HeldStay(a, b) && HeldStay(b, c)
    ensures HeldStay(a, c)
  {
  }

  lemma NoneLeft(works: map<BitstreamId, Work>)
    ensures OnlyDoneLeft(works, works)
  {
  }

  lemma LeftInTwoSteps(a: map<BitstreamId, Work>, b: map<BitstreamId, Work>, c: map<BitstreamId, Work>)
    requires OnlyDoneLeft(a, b) && OnlyDoneLeft(b, c)
    ensures OnlyDoneLeft(a, c)
  {
  }

  /** The first ids were dealt with: their works are not at the decoder any more. */
  ghost predicate DealtWith(before: seq<BitstreamId>, works: map<BitstreamId, Work>, after: seq<BitstreamId>) {
    && |after| <= |before|
    && var n := |before| - |after|;
       after == before[n..] && forall k :: 0 <= k < n ==> before[k] !in works
  }

  /** Reporting a work that is at the decoder; an end-of-stream work must be the last one there. */
  lemma MoveToReported(works: map<BitstreamId, Work>, reported: seq<Report>, place: seq<Place>, id: BitstreamId,
                       result: Result, works': map<BitstreamId, Work>, reported': seq<Report>, place': seq<Place>)
    requires Conserved(works, reported, place) && EosAfterEarlier(reported, place) && id in works
    requires result.EndOfStream? ==> works.Keys == {id}
    requires works[id].ticket < |place|
    requires works' == works - {id} && reported' == reported + [Report(works[id].ticket, result)]
    requires place' == place[works[id].ticket := Reported(|reported|)]
    ensures Conserved(works', reported', place') && EosAfterEarlier(reported', place')
  {
    MoveConserves(works, reported, place, id, result);
    forall j, t | 0 <= j < |reported'| && reported'[j].result.EndOfStream? && 0 <= t < reported'[j].ticket < |place'|
      ensures place'[t].Reported? && place'[t].index < j
    {
      if j < |reported| {
        assert reported'[j] == reported[j];
        assert place[t].Reported?;
      }
    }
  }

  lemma MoveConserves(works: map<BitstreamId, Work>, reported: seq<Report>, place: seq<Place>, id: BitstreamId,
                      result: Result)
    requires Conserved(works, reported, place) && id in works && works[id].ticket < |place|
    ensures Conserved(works - {id}, reported + [Report(works[id].ticket, result)],
                      place[works[id].ticket := Reported(|reported|)])
  {
    assert forall x :: x in works - {id} ==> x in works && (works - {id})[x] == works[x];
  }

  lemma AllTaken(works: map<BitstreamId, Work>, reported: seq<Report>, place: seq<Place>)
    requires Conserved(works, reported, place)
    ensures forall id :: id in works ==> works[id].ticket < |place|
  {
  }

  lemma TicketTaken(works: map<BitstreamId, Work>, reported: seq<Report>, place: seq<Place>, id: BitstreamId)
    requires Conserved(works, reported, place) && id in works
    ensures works[id].ticket < |place| && works[id].id == id
  {
  }

  /** Progress on a work changes neither its place nor its role. */
  lemma UpdateKeeps(works: map<BitstreamId, Work>, id: BitstreamId, work: Work, reported: seq<Report>,
                    place: seq<Place>, eos: Option<BitstreamId>)
    requires Conserved(works, reported, place) && EosNewest(works, eos) && id in works
    requires work.ticket == works[id].ticket && work.id == id && work.eos == works[id].eos
    ensures Conserved(works[id := work], reported, place) && EosNewest(works[id := work], eos)
  {
  }

  /** A work that never went to the decoder is reported. */
  lemma AppendReported(works: map<BitstreamId, Work>, reported: seq<Report>, place: seq<Place>, ticket: nat)
    requires Conserved(works, reported, place) && EosAfterEarlier(reported, place) && ticket == |place|
    ensures Conserved(works, reported + [Report(ticket, Abandoned)], place + [Reported(|reported|)])
    ensures EosAfterEarlier(reported + [Report(ticket, Abandoned)], place + [Reported(|reported|)])
  {
    assert forall j :: 0 <= j < |reported| ==> reported[j].ticket < |place|;
  }

  lemma OnlyKey<T>(s: set<T>, x: T)
    requires x in s && |s| == 1
    ensures s == {x}
  {
    assert |s - {x}| == 0;
  }

  /** A waiting work with an id of its own goes to the decoder. */
  lemma EnterKeeps(works: map<BitstreamId, Work>, work: Work, reported: seq<Report>, place: seq<Place>)
    requires Conserved(works, reported, place) && EosAfterEarlier(reported, place) && EosNewest(works, None)
    requires work.ticket == |place| && work.id !in works
    ensures Conserved(works[work.id := work], reported, place + [AtDecoder(work.id)])
    ensures EosAfterEarlier(reported, place + [AtDecoder(work.id)])
    ensures EosNewest(works[work.id := work], if work.eos then Some(work.id) else None)
  {
    assert forall j :: 0 <= j < |reported| ==> reported[j].ticket < |place|;
  }

  // ----- What the component asks of the decoder -----

  function Commands(work: Work): (commands: seq<Request>) {
    (if work.inputHeld then [Decode(work.id)] else []) + (if work.eos then [Drain] else [])
  }

  /** The requests for some works, in order. */
  function CommandsOf(works: seq<Work>): (commands: seq<Request>) {
    if works == [] then [] else CommandsOf(works[..|works| - 1]) + Commands(works[|works| - 1])
  }

  /** The first works of `before` were taken, with their requests. */
  ghost predicate TakenInOrder(before: seq<Work>, after: seq<Work>, commands: seq<Request>) {
    && |after| <= |before|
    && var n := |before| - |after|;
       after == before[n..] && commands == CommandsOf(before[..n])
  }

  /** No work at the decoder was touched; others may have come. */
  ghost predicate Extends(before: map<BitstreamId, Work>, after: map<BitstreamId, Work>) {
    forall id :: id in before ==> id in after && after[id] == before[id]
  }

  /** A work at the decoder was there before, or is one of those that waited. */
  ghost predicate OnlyFrom(before: map<BitstreamId, Work>, waiting: seq<Work>, after: map<BitstreamId, Work>) {
    forall id :: id in after ==>
      id in before || exists k :: 0 <= k < |waiting| && waiting[k].id == id && waiting[k] == after[id]
  }

  lemma OnlyFromOneMore(first: map<BitstreamId, Work>, waiting: seq<Work>, before: map<BitstreamId, Work>, n: nat,
                        after: map<BitstreamId, Work>)
    requires OnlyFrom(first, waiting, before) && n < |waiting|
    requires after == before || after == before[waiting[n].id := waiting[n]]
    ensures OnlyFrom(first, waiting, after)
  {
  }

  /** The requests ask to decode exactly the works that are new at the decoder, and to drain only at the end. */
  ghost predicate ForNewWorks(requests: seq<Request>, before: map<BitstreamId, Work>, after: map<BitstreamId, Work>) {
    && DrainLast(requests)
    && DistinctIds(requests)
    && (forall k :: 0 <= k < |requests| && requests[k].Decode? ==>
          requests[k].id !in before && requests[k].id in after && after[requests[k].id].inputHeld)
    && (forall id :: id in after && id !in before && after[id].inputHeld ==> Decode(id) in requests)
  }

  lemma ExtendsByOne(first: map<BitstreamId, Work>, before: map<BitstreamId, Work>, work: Work,
                     after: map<BitstreamId, Work>)
    requires Extends(first, before) && work.id !in before
    requires after == before || after == before[work.id := work]
    ensures Extends(first, after)
  {
  }

  lemma NothingNew(works: map<BitstreamId, Work>, waiting: seq<Work>)
    ensures OnlyFrom(works, waiting, works)
  {
  }

  lemma NoCommands(works: map<BitstreamId, Work>)
    ensures ForNewWorks([], works, works) && Extends(works, works)
  {
  }

  lemma ExtendCommands(sent: seq<Request>, first: map<BitstreamId, Work>, before: map<BitstreamId, Work>, work: Work,
                       after: map<BitstreamId, Work>, more: seq<Request>)
    requires ForNewWorks(sent, first, before) && !EndsWithDrain(sent) && Extends(first, before)
    requires work.id !in before
    requires more == Commands(work) && (work.inputHeld ==> after == before[work.id := work])
    requires after == before || after == before[work.id := work]
    ensures ForNewWorks(sent + more, first, after)
    ensures EndsWithDrain(sent + more) == work.eos
  {
    ExtendRequests(sent, work, more);
    hide DrainLast, DistinctIds, EndsWithDrain;
    var all := sent + more;
    forall k | 0 <= k < |all| && all[k].Decode?
      ensures all[k].id !in first && all[k].id in after && after[all[k].id].inputHeld
    {
      if k < |sent| {
        assert all[k] == sent[k];
      } else {
        assert all[k] == more[k - |sent|];
      }
    }
    forall id | id in after && id !in first && after[id].inputHeld
      ensures Decode(id) in all
    {
      if id in before {
        assert Decode(id) in sent;
      } else {
        assert more[0] == Decode(id);
      }
    }
  }

  /** The requests of a new work, behind requests for others. */
  lemma ExtendRequests(sent: seq<Request>, work: Work, more: seq<Request>)
    requires DrainLast(sent) && DistinctIds(sent) && !EndsWithDrain(sent) && more == Commands(work)
    requires forall k :: 0 <= k < |sent| && sent[k].Decode? ==> sent[k].id != work.id
    ensures DrainLast(sent + more) && DistinctIds(sent + more) && EndsWithDrain(sent + more) == work.eos
  {
    assert forall k :: 0 <= k < |sent| ==> sent[k].Decode?;
    assert forall k :: 0 <= k < |sent + more| ==> (sent + more)[k] == if k < |sent| then sent[k] else more[k - |sent|];
  }

  class V4L2DecodeComponent {
    var state: ComponentState
    var pendingWorks: seq<Work>
    var worksAtDecoder: map<BitstreamId, Work>
    var outputBitstreamIds: seq<BitstreamId>
    var isDraining: bool
    var accepted: nat
    var reported: seq<Report>
    const reportsNoShow: bool
    ghost var place: seq<Place>
    ghost var eos: Option<BitstreamId>
    ghost var bareDrain: bool
    ghost var seen: Seen

    ghost function Snap(): Snapshot
      reads this
    {
      Snapshot(state, pendingWorks, worksAtDecoder, isDraining, accepted, reported, eos, bareDrain, reportsNoShow,
               outputBitstreamIds, seen)
    }

    /** Conservation and end-of-stream order; bitstream ids are distinct among the works in flight. */
    ghost predicate Kept()
      reads this`pendingWorks, this`worksAtDecoder, this`accepted, this`reported, this`place, this`eos, this`seen
    {
      && |place| + |pendingWorks| == accepted == |seen.inputs|
      && Explained(pendingWorks, worksAtDecoder, reported, |place|, seen)
      && InOrder(pendingWorks, |place|)
      && Conserved(worksAtDecoder, reported, place)
      && EosAfterEarlier(reported, place)
      && EosNewest(worksAtDecoder, eos)
      && (forall k :: 0 <= k < |pendingWorks| ==> pendingWorks[k].id !in worksAtDecoder)
      && (forall j, k :: 0 <= j < k < |pendingWorks| ==> pendingWorks[j].id != pendingWorks[k].id)
    }

    /** Between tasks: draining exactly while an end-of-stream work is at the decoder. */
    ghost predicate Valid()
      reads this`pendingWorks, this`worksAtDecoder, this`accepted, this`reported, this`place, this`eos, this`seen
      reads this`state, this`isDraining, this`bareDrain
    {
      Kept() && (state.Running? ==> (isDraining <==> eos.Some? || bareDrain))
    }

    constructor (reportsNoShow: bool)
      ensures Valid() && Snap() == Initial(reportsNoShow)
    {
      this.reportsNoShow := reportsNoShow;
      state, pendingWorks, worksAtDecoder, outputBitstreamIds := Running, [], map[], [];
      isDraining, accepted, reported := false, 0, [];
      place, eos, bareDrain, seen := [], None, false, Seen([], {}, {}, {}, {});
    }

    method ReportError()
      requires Valid()
      modifies this`state
      ensures Valid() && state == if old(state).Running? then Error else old(state)
    {
      if state.Running? {
        state := Error;
      }
    }

    /** Takes a work away from the decoder and reports it. */
    method ReportFromDecoder(id: BitstreamId, result: Result)
      requires Kept() && id in worksAtDecoder
      requires result.EndOfStream? ==> worksAtDecoder.Keys == {id}
      requires result.Finished? ==> worksAtDecoder[id].Done()
      modifies this`worksAtDecoder, this`reported, this`place, this`eos
      ensures Kept()
      ensures worksAtDecoder == old(worksAtDecoder) - {id}
      ensures reported == old(reported) + [Report(old(worksAtDecoder)[id].ticket, result)]
      ensures eos == if old(eos) == Some(id) then None else old(eos)
      ensures |place| == |old(place)|
    {
      hide Explained, Conserved, EosAfterEarlier, InOrder;
      TicketTaken(worksAtDecoder, reported, place, id);
      var work := worksAtDecoder[id];
      ExplainedReport(pendingWorks, worksAtDecoder, reported, |place|, seen, id, result);
      MoveToReported(worksAtDecoder, reported, place, id, result, worksAtDecoder - {id},
                     reported + [Report(work.ticket, result)], place[work.ticket := Reported(|reported|)]);
      worksAtDecoder := worksAtDecoder - {id};
      place := place[work.ticket := Reported(|reported|)];
      reported := reported + [Report(work.ticket, result)];
      if eos == Some(id) {
        eos := None;
      }
    }

    /** Reports a work that is done; the answer says whether its id is dealt with. */
    method ReportWorkIfFinished(id: BitstreamId) returns (handled: bool)
      requires Valid()
      modifies this`worksAtDecoder, this`reported, this`place, this`eos
      ensures Valid() && eos == old(eos)
      ensures var last := isDraining && |old(worksAtDecoder)| == 1;
              var finished := !last && id in old(worksAtDecoder) && old(worksAtDecoder)[id].Done();
              && handled == (finished || (!last && id !in old(worksAtDecoder)))
              && (if finished then
                    && worksAtDecoder == old(worksAtDecoder) - {id}
                    && reported == old(reported) + [Report(old(worksAtDecoder)[id].ticket, Finished)]
                  else
                    worksAtDecoder == old(worksAtDecoder) && reported == old(reported))
    {
      if isDraining && |worksAtDecoder| == 1 {
        return false;
      }
      if id !in worksAtDecoder {
        return true;
      }
      if !worksAtDecoder[id].Done() {
        return false;
      }
      ReportFromDecoder(id, Finished);
      return true;
    }

    /** The only work left while draining is the end-of-stream work, so no finished work is held back. */
    lemma LastWhileDrainingIsEos(id: BitstreamId)
      requires Valid() && state.Running? && isDraining && !bareDrain
      requires |worksAtDecoder| == 1 && id in worksAtDecoder
      ensures worksAtDecoder[id].eos && !worksAtDecoder[id].Done()
    {
      assert |worksAtDecoder.Keys - {id}| == 0;
      assert eos.value !in worksAtDecoder.Keys - {id};
    }

    ghost function Line(): Reporting
      reads this`worksAtDecoder, this`outputBitstreamIds, this`reported
    {
      Reporting(worksAtDecoder, outputBitstreamIds, reported)
    }

    /** Reports works in the order in which their output came, as far as they are done. */
    method PumpReportWork()
      requires Valid()
      modifies this`worksAtDecoder, this`reported, this`place, this`eos, this`outputBitstreamIds
      ensures Valid() && eos == old(eos) && old(reported) <= reported
      ensures OnlyFinishedLeft(old(worksAtDecoder), worksAtDecoder, reported)
      ensures Snap().Settled() && DealtWith(old(outputBitstreamIds), worksAtDecoder, outputBitstreamIds)
      ensures Line() == InOutputOrder(old(Line()), isDraining)
    {
      hide Kept, OnlyFinishedLeft, DealtWith, Snapshot.Settled;
      InOrderMeans(Line(), isDraining);
      while outputBitstreamIds != []
        invariant Valid() && eos == old(eos)
        invariant InOutputOrder(Line(), isDraining) == InOutputOrder(old(Line()), isDraining)
        decreases |outputBitstreamIds|
      {
        var handled := ReportWorkIfFinished(outputBitstreamIds[0]);
        if !handled {
          break;
        }
        outputBitstreamIds := outputBitstreamIds[1..];
      }
      WorksAgree();
      EarnedNothing(Snap());
    }

    /** Records progress on a work at the decoder, and what is known of it. */
    method Update(id: BitstreamId, work: Work, ghost known: Seen)
      requires Valid() && id in worksAtDecoder
      requires var was := worksAtDecoder[id]; work.ticket == was.ticket && work.id == was.id && work.eos == was.eos
      requires Agrees(work, known) && OnlyAbout(work.ticket, seen, known)
      modifies this`worksAtDecoder, this`seen
      ensures Valid() && worksAtDecoder == old(worksAtDecoder)[id := work] && seen == known
    {
      hide Explained, Agrees, OnlyAbout, Conserved, EosAfterEarlier, EosNewest;
      TicketTaken(worksAtDecoder, reported, place, id);
      ExplainedUpdate(pendingWorks, worksAtDecoder, reported, place, seen, id, work, known);
      UpdateKeeps(worksAtDecoder, id, work, reported, place, eos);
      worksAtDecoder := worksAtDecoder[id := work];
      seen := known;
    }

    /** The work agrees with what is known of it. */
    lemma WorkAgrees(id: BitstreamId)
      requires Valid() && id in worksAtDecoder
      ensures Agrees(worksAtDecoder[id], seen)
    {
    }

    /** The decoder gave the input of a work back; its output may be due. */
    method ReleaseInput(id: BitstreamId, outputDue: bool)
      requires Valid() && id in worksAtDecoder
      modifies this`worksAtDecoder, this`reported, this`place, this`eos, this`outputBitstreamIds, this`seen
      ensures Valid() && eos == old(eos) && old(reported) <= reported
      ensures OnlyFinishedLeft(old(worksAtDecoder)[id := old(worksAtDecoder)[id].(inputHeld := false)], worksAtDecoder,
                               reported)
      ensures seen == Decoded(old(seen), old(worksAtDecoder)[id].ticket)
      ensures Line() == InOutputOrder(InputBack(old(Line()), id, outputDue), isDraining)
      ensures Snap().Settled()
      ensures DealtWith(old(outputBitstreamIds) + if outputDue then [id] else [], worksAtDecoder, outputBitstreamIds)
    {
      hide Kept, OnlyDoneLeft, LeftReported, Agrees, OnlyAbout;
      WorkAgrees(id);
      ProgressAgrees(worksAtDecoder[id], seen);
      Update(id, worksAtDecoder[id].(inputHeld := false), Decoded(seen, worksAtDecoder[id].ticket));
      if outputDue {
        outputBitstreamIds := outputBitstreamIds + [id];
      }
      assert Line() == InputBack(old(Line()), id, outputDue);
      assert outputBitstreamIds == old(outputBitstreamIds) + if outputDue then [id] else [];
      hide InOutputOrder;
      PumpReportWork();
    }

    /** The decoder answers a decode request; the work is expected to be there. */
    method OnDecodeDone(id: BitstreamId, status: Status)
      requires Valid() && id in worksAtDecoder
      modifies this`state, this`worksAtDecoder, this`reported, this`place, this`eos, this`outputBitstreamIds, this`seen
      ensures Valid() && eos == old(eos) && old(reported) <= reported
      ensures status.Failed? ==>
                && worksAtDecoder == old(worksAtDecoder) && reported == old(reported)
                && outputBitstreamIds == old(outputBitstreamIds) && seen == old(seen)
      ensures !status.Failed? ==>
                && OnlyFinishedLeft(old(worksAtDecoder)[id := old(worksAtDecoder)[id].(inputHeld := false)],
                                    worksAtDecoder, reported)
                && Snap().Settled() && seen == Decoded(old(seen), old(worksAtDecoder)[id].ticket)
                && DealtWith(old(outputBitstreamIds)
                             + if status.Aborted? || old(worksAtDecoder)[id].csd then [id] else [],
                             worksAtDecoder, outputBitstreamIds)
                && Line() == InOutputOrder(InputBack(old(Line()), id, status.Aborted? || old(worksAtDecoder)[id].csd),
                                           isDraining)
      ensures state == if status.Failed? && old(state).Running? then Error else old(state)
    {
      hide Kept, OnlyDoneLeft, DealtWith, Snapshot.Settled, LeftReported;
      match status {
        case Aborted => ReleaseInput(id, true);
        case Failed => ReportError();
        case Ok => ReleaseInput(id, worksAtDecoder[id].csd);
      }
    }

    /** A frame came out for a work: it is recorded, earlier frames may turn out not to be shown. */
    method OnOutputFrameReady(id: BitstreamId)
      requires Valid()
      modifies this`state, this`worksAtDecoder, this`reported, this`place, this`eos, this`outputBitstreamIds, this`seen
      ensures Valid() && eos == old(eos) && old(reported) <= reported
      ensures id !in old(worksAtDecoder) ==>
                && worksAtDecoder == old(worksAtDecoder) && reported == old(reported) && !state.Running?
                && outputBitstreamIds == old(outputBitstreamIds) && seen == old(seen)
      ensures id in old(worksAtDecoder) ==>
                && state == old(state) && Snap().Settled()
                && OnlyFinishedLeft(AfterOutput(old(worksAtDecoder), id, reportsNoShow), worksAtDecoder, reported)
                && SeenAfterOutput(old(worksAtDecoder), old(seen), id, reportsNoShow, seen)
                && SkippedLeft(old(seen), seen, worksAtDecoder, isDraining)
                && DealtWith(old(outputBitstreamIds) + [id], worksAtDecoder, outputBitstreamIds)
                && OutputPumped(old(Line()), old(seen), id, reportsNoShow, isDraining, Line(), seen)
      ensures HeldStay(old(worksAtDecoder), worksAtDecoder)
    {
      hide Kept, OnlyDoneLeft, AfterOutput, DealtWith, Snapshot.Settled, LeftReported, SkippedLeft, SeenAfterOutput,
           InOutputOrder;
      if id !in worksAtDecoder {
        ReportError();
        return;
      }
      ghost var expected := AfterOutput(worksAtDecoder, id, reportsNoShow);
      RecordOutput(id);
      outputBitstreamIds := outputBitstreamIds + [id];
      ghost var before, was := worksAtDecoder, reported;
      PumpReportWork();
      DoneOnesWereNotHeld(old(worksAtDecoder), before, worksAtDecoder);
      LeftInTwoSteps(expected, before, worksAtDecoder);
      LeftReportedInTwoSteps(expected, before, worksAtDecoder, was, reported);
      StillLeft(old(seen), seen, before, worksAtDecoder, isDraining);
      assert PumpedFrom(old(Line()), old(seen), id, reportsNoShow, isDraining, before, was, Line(), seen);
      assert OutputPumped(old(Line()), old(seen), id, reportsNoShow, isDraining, Line(), seen);
    }

    /** The frame is recorded, and earlier ones that are not to be shown are reported if they are done. */
    method RecordOutput(id: BitstreamId)
      requires Valid() && id in worksAtDecoder
      modifies this`worksAtDecoder, this`reported, this`place, this`eos, this`seen
      ensures Valid() && eos == old(eos) && old(reported) <= reported
      ensures OnlyFinishedLeft(AfterOutput(old(worksAtDecoder), id, reportsNoShow), worksAtDecoder, reported)
      ensures SeenAfterOutput(old(worksAtDecoder), old(seen), id, reportsNoShow, seen)
      ensures HeldStay(old(worksAtDecoder), worksAtDecoder)
      ensures SkippedLeft(old(seen), seen, worksAtDecoder, isDraining)
      ensures !reportsNoShow ==>
                worksAtDecoder == AfterOutput(old(worksAtDecoder), id, reportsNoShow) && reported == old(reported)
      ensures forall x :: x in old(worksAtDecoder) && x !in worksAtDecoder ==>
                old(worksAtDecoder)[x].ticket in seen.skipped && old(worksAtDecoder)[x].ticket !in old(seen).skipped
    {
      hide Kept, OnlyDoneLeft, Marked, LeftReported, SkippedLeft, Agrees, OnlyAbout, SkippedBy, Timed, HeldStay,
           AfterOutput, Work.NoShow;
      WorkAgrees(id);
      ProgressAgrees(worksAtDecoder[id], seen);
      StillTimed(worksAtDecoder[id], seen);
      AfterOutputMeans(worksAtDecoder, id);
      var work := worksAtDecoder[id];
      ghost var shown := Shows(seen, work.ticket);
      Update(id, work.(hasOutput := true), shown);
      ghost var works := worksAtDecoder;
      NoneLeft(worksAtDecoder);
      NoneLeftReported(worksAtDecoder, reported);
      NoneSkipped(old(seen), seen, worksAtDecoder, isDraining);
      if reportsNoShow {
        DetectNoShowFrameWorks(work);
        SameSkipped(old(worksAtDecoder), id, shown, seen);
        HeldStayStill(old(worksAtDecoder), works, worksAtDecoder);
      }
    }

    /** Marks every work whose frame was skipped, then reports those that are done. */
    method DetectNoShowFrameWorks(current: Work)
      requires Valid() && Timed(current, seen)
      modifies this`worksAtDecoder, this`reported, this`place, this`eos, this`seen
      ensures Valid() && eos == old(eos) && old(reported) <= reported
      ensures OnlyDoneLeft(Marked(old(worksAtDecoder), current), worksAtDecoder)
      ensures LeftReported(Marked(old(worksAtDecoder), current), worksAtDecoder, reported)
      ensures seen == old(seen).(skipped := seen.skipped) && SkippedBy(old(worksAtDecoder), old(seen), current, seen)
      ensures SkippedLeft(old(seen), seen, worksAtDecoder, isDraining)
      ensures HeldStay(old(worksAtDecoder), worksAtDecoder)
      ensures forall x :: x in old(worksAtDecoder) && x !in worksAtDecoder ==>
                old(worksAtDecoder)[x].ticket in seen.skipped && old(worksAtDecoder)[x].ticket !in old(seen).skipped
    {
      hide Kept, SkippedBy, Timed, LeftReported, SkippedLeft, OnlyDoneLeft, HeldStay, Marked, NoneDue, AllAgree;
      ghost var works, was := worksAtDecoder, seen;
      WorksAgree();
      MarkedIsHeld(worksAtDecoder, current);
      var noShow := MarkNoShow(current);
      ghost var marked, known := worksAtDecoder, seen;
      NothingDueYet(noShow, worksAtDecoder, isDraining);
      NoneLeftReported(marked, reported);
      var i := 0;
      while i < |noShow|
        invariant i <= |noShow| && Valid() && eos == old(eos) && old(reported) <= reported && seen == known
        invariant OnlyDoneLeft(marked, worksAtDecoder) && LeftReported(marked, worksAtDecoder, reported)
        invariant NoneDue(noShow, i, worksAtDecoder, isDraining)
        invariant forall x :: x in marked && x !in worksAtDecoder ==> x in noShow
      {
        i := ReportNoShow(noShow, i, marked);
      }
      DoneOnesWereNotHeld(old(worksAtDecoder), marked, worksAtDecoder);
      WorksAgree();
      NoneDueLeft(works, was, current, noShow, worksAtDecoder, seen, isDraining);
      NewlySkipped(works, was, current, seen);
    }

    /** One of the marked works is reported if it is done. */
    method ReportNoShow(noShow: seq<BitstreamId>, i: nat, ghost marked: map<BitstreamId, Work>) returns (next: nat)
      requires Valid() && i < |noShow|
      requires OnlyDoneLeft(marked, worksAtDecoder) && LeftReported(marked, worksAtDecoder, reported)
      requires NoneDue(noShow, i, worksAtDecoder, isDraining)
      modifies this`worksAtDecoder, this`reported, this`place, this`eos
      ensures Valid() && eos == old(eos) && old(reported) <= reported && next == i + 1
      ensures OnlyDoneLeft(marked, worksAtDecoder) && LeftReported(marked, worksAtDecoder, reported)
      ensures NoneDue(noShow, next, worksAtDecoder, isDraining)
      ensures forall x :: x in old(worksAtDecoder) && x !in worksAtDecoder ==> x == noShow[i]
    {
      hide Kept, LeftReported;
      ghost var works, was := worksAtDecoder, reported;
      var _ := ReportWorkIfFinished(noShow[i]);
      OneReported(works, worksAtDecoder, reported);
      LeftReportedInTwoSteps(marked, works, worksAtDecoder, was, reported);
      next := i + 1;
    }

    method MarkNoShow(current: Work) returns (noShow: seq<BitstreamId>)
      requires Valid() && Timed(current, seen)
      modifies this`worksAtDecoder, this`seen
      ensures Valid() && worksAtDecoder == Marked(old(worksAtDecoder), current)
      ensures worksAtDecoder.Keys == old(worksAtDecoder).Keys
      ensures forall id :: id in old(worksAtDecoder) ==> (id in noShow <==> old(worksAtDecoder)[id].NoShow(current))
      ensures seen == old(seen).(skipped := seen.skipped) && SkippedBy(old(worksAtDecoder), old(seen), current, seen)
    {
      hide Kept, Agrees, OnlyAbout, NoShowTicket, SkippedBy, Marked, MarkedSoFar, Work.NoShow, AllAgree;
      WorksAgree();
      noShow := [];
      var left := worksAtDecoder.Keys;
      MarkStarts(worksAtDecoder, current);
      while left != {}
        invariant Valid() && MarkedSoFar(old(worksAtDecoder), worksAtDecoder, left, noShow, current)
        invariant seen == old(seen).(skipped := seen.skipped)
        invariant forall t :: t in seen.skipped <==>
                    t in old(seen).skipped || NoShowTicket(old(worksAtDecoder), left, current, t)
        decreases |left|
      {
        var id :| id in left;
        MarkStep(old(worksAtDecoder), worksAtDecoder, left, noShow, current, id);
        OneTicketMore(old(worksAtDecoder), left, current, id);
        left := left - {id};
        if worksAtDecoder[id].NoShow(current) {
          WorkAgrees(id);
          ProgressAgrees(worksAtDecoder[id], seen);
          Update(id, worksAtDecoder[id].(dropped := true), Skips(seen, worksAtDecoder[id].ticket));
          noShow := noShow + [id];
        }
      }
      MarkEnds(old(worksAtDecoder), worksAtDecoder, noShow, current);
      SkippedMeans(old(worksAtDecoder), old(seen), current, seen);
    }

    lemma WorksAgree()
      requires Valid()
      ensures AllAgree(worksAtDecoder, seen)
    {
    }

    lemma IsObserved()
      requires Valid()
      ensures Observed(Snap())
    {
    }

    /** A waiting work is abandoned: it is reported without having been at the decoder. */
    method AbandonFirstPending()
      requires Kept() && pendingWorks != []
      modifies this`pendingWorks, this`reported, this`place
      ensures Kept() && pendingWorks == old(pendingWorks)[1..]
      ensures reported == old(reported) + [Report(old(pendingWorks)[0].ticket, Abandoned)]
    {
      AppendReported(worksAtDecoder, reported, place, pendingWorks[0].ticket);
      place := place + [Reported(|reported|)];
      reported := reported + [Report(pendingWorks[0].ticket, Abandoned)];
      pendingWorks := pendingWorks[1..];
    }

    method AbandonPending()
      requires Kept()
      modifies this`pendingWorks, this`reported, this`place
      ensures Kept() && pendingWorks == [] && old(reported) <= reported
      ensures forall j :: |old(reported)| <= j < |reported| ==> reported[j].result.Abandoned?
    {
      hide Kept;
      while pendingWorks != []
        invariant Kept() && old(reported) <= reported
        invariant forall j :: |old(reported)| <= j < |reported| ==> reported[j].result.Abandoned?
        decreases |pendingWorks|
      {
        AbandonFirstPending();
      }
    }

    /** Abandons the works at the decoder, except those that are kept aside. */
    method AbandonAtDecoder(aside: set<BitstreamId>)
      requires Kept()
      modifies this`worksAtDecoder, this`reported, this`place, this`eos
      ensures Kept() && old(reported) <= reported
      ensures worksAtDecoder.Keys == old(worksAtDecoder).Keys * aside
      ensures forall id :: id in worksAtDecoder ==> worksAtDecoder[id] == old(worksAtDecoder)[id]
      ensures forall j :: |old(reported)| <= j < |reported| ==> reported[j].result.Abandoned?
    {
      hide Kept;
      while exists id :: id in worksAtDecoder && id !in aside
        invariant Kept() && old(reported) <= reported
        invariant forall id :: id in worksAtDecoder ==>
                    id in old(worksAtDecoder) && worksAtDecoder[id] == old(worksAtDecoder)[id]
        invariant forall id :: id in old(worksAtDecoder) && id in aside ==> id in worksAtDecoder
        invariant forall j :: |old(reported)| <= j < |reported| ==> reported[j].result.Abandoned?
        decreases |worksAtDecoder|
      {
        var id :| id in worksAtDecoder && id !in aside;
        ReportFromDecoder(id, Abandoned);
      }
    }

    /** Abandons the waiting works and those at the decoder, except those that are kept aside. */
    method ReportAbandonedWorks(aside: set<BitstreamId>)
      requires Kept()
      modifies this`pendingWorks, this`worksAtDecoder, this`reported, this`place, this`eos
      ensures Kept() && pendingWorks == [] && old(reported) <= reported
      ensures worksAtDecoder.Keys == old(worksAtDecoder).Keys * aside
      ensures forall id :: id in worksAtDecoder ==> worksAtDecoder[id] == old(worksAtDecoder)[id]
      ensures forall j :: |old(reported)| <= j < |reported| ==> reported[j].result.Abandoned?
    {
      hide Kept;
      AbandonPending();
      AbandonAtDecoder(aside);
    }

    lemma EosIsThere()
      requires Kept()
      ensures eos.Some? ==> eos.value in worksAtDecoder && worksAtDecoder[eos.value].eos
      ensures forall id :: id in worksAtDecoder && worksAtDecoder[id].eos ==> eos == Some(id)
    {
    }

    /** Reports the end-of-stream work, after everything else that is left. */
    method ReportEOSWork() returns (found: bool)
      requires Kept()
      modifies this`pendingWorks, this`worksAtDecoder, this`reported, this`place, this`eos
      ensures Kept() && found == old(eos).Some? && eos == None && old(reported) <= reported
      ensures found ==> |reported| > |old(reported)|
      ensures !found ==>
                worksAtDecoder == old(worksAtDecoder) && pendingWorks == old(pendingWorks) && reported == old(reported)
      ensures found ==>
                && worksAtDecoder == map[]
                && old(eos).value in old(worksAtDecoder)
                && |reported| > 0
                && reported[|reported| - 1] == Report(old(worksAtDecoder)[old(eos).value].ticket, EndOfStream)
                && (pendingWorks == if |old(worksAtDecoder)| == 1 then old(pendingWorks) else [])
                && forall j :: |old(reported)| <= j < |reported| - 1 ==> reported[j].result.Abandoned?
    {
      hide Kept;
      EosIsThere();
      if id :| id in worksAtDecoder && worksAtDecoder[id].eos {
        assert eos == Some(id);
        LeaveOnly(id);
        ReportFromDecoder(id, EndOfStream);
        EosIsThere();
        return true;
      }
      return false;
    }

    /** What else is left is abandoned; if there is anything, so are the works that wait. */
    method LeaveOnly(id: BitstreamId)
      requires Kept() && id in worksAtDecoder
      modifies this`pendingWorks, this`worksAtDecoder, this`reported, this`place, this`eos
      ensures Kept() && worksAtDecoder == map[id := old(worksAtDecoder)[id]] && old(reported) <= reported
      ensures pendingWorks == if |old(worksAtDecoder)| == 1 then old(pendingWorks) else []
      ensures forall j :: |old(reported)| <= j < |reported| ==> reported[j].result.Abandoned?
    {
      hide Kept;
      if |worksAtDecoder| != 1 {
        ReportAbandonedWorks({id});
      } else {
        OnlyKey(worksAtDecoder.Keys, id);
      }
    }

    /** The oldest waiting work goes to the decoder. */
    method EnterDecoder() returns (work: Work)
      requires Kept() && pendingWorks != [] && eos == None
      modifies this`pendingWorks, this`worksAtDecoder, this`place, this`eos
      ensures Kept() && work == old(pendingWorks)[0] && pendingWorks == old(pendingWorks)[1..]
      ensures work.id !in old(worksAtDecoder) && worksAtDecoder == old(worksAtDecoder)[work.id := work]
      ensures eos == if work.eos then Some(work.id) else None
    {
      work := pendingWorks[0];
      if work.id in worksAtDecoder {
        assert false;  // the id is already at the decoder
      }
      EnterKeeps(worksAtDecoder, work, reported, place);
      place := place + [AtDecoder(work.id)];
      pendingWorks := pendingWorks[1..];
      worksAtDecoder := worksAtDecoder[work.id := work];
      eos := if work.eos then Some(work.id) else None;
    }

    /** Sends one work to the decoder; configuring parsed colour aspects may fail. */
    method SendNextWork(configOk: bool) returns (commands: seq<Request>)
      requires Valid() && state.Running? && pendingWorks != [] && !isDraining
      modifies this`state, this`pendingWorks, this`worksAtDecoder, this`isDraining, this`reported, this`place, this`eos
      ensures Valid() && pendingWorks == old(pendingWorks)[1..]
      ensures var work := old(pendingWorks)[0];
              && work.id !in old(worksAtDecoder)
              && (if work.inputHeld && work.csd && !configOk then
                    && state.Error? && commands == [] && worksAtDecoder == old(worksAtDecoder)[work.id := work]
                  else
                    && state.Running? && isDraining == work.eos
                    && commands == Commands(work)
                    && (if work.csd && !work.inputHeld && !work.eos then worksAtDecoder == old(worksAtDecoder)
                        else worksAtDecoder == old(worksAtDecoder)[work.id := work]))
      ensures reported == old(reported) || reported == old(reported) + [Report(old(pendingWorks)[0].ticket, Finished)]
    {
      hide Kept;
      var work := EnterDecoder();
      commands := [];
      if work.inputHeld {
        if work.csd && !configOk {
          state := Error;
          return;
        }
        commands := [Decode(work.id)];
      }
      if work.eos {
        commands := commands + [Drain];
        isDraining := true;
      }
      if work.csd && !work.inputHeld {
        var _ := ReportWorkIfFinished(work.id);
      }
    }

    /** Sends waiting works to the decoder until one of them ends the stream. */
    method PumpPendingWorks(configFailsAt: Option<nat>) returns (commands: seq<Request>)
      requires Valid()
      modifies this`state, this`pendingWorks, this`worksAtDecoder, this`isDraining, this`reported, this`place, this`eos
      ensures Valid() && old(reported) <= reported
      ensures Sent(old(Snap()), old(pendingWorks), configFailsAt, Snap())
      ensures !old(state).Running? || old(isDraining) ==> commands == []
      ensures state.Running? && !old(isDraining) ==> isDraining == EndsWithDrain(commands)
      ensures state.Running? ==> ForNewWorks(commands, old(worksAtDecoder), worksAtDecoder)
      ensures state.Running? ==> TakenInOrder(old(pendingWorks), pendingWorks, commands)
    {
      hide Kept, ForNewWorks, Extends, Commands, OnlyFrom;
      commands := [];
      NoCommands(worksAtDecoder);
      NothingNew(worksAtDecoder, pendingWorks);
      if !state.Running? {
        return;
      }
      var n := 0;
      while pendingWorks != [] && !isDraining
        invariant Valid() && state.Running? && old(reported) <= reported
        invariant old(isDraining) ==>
                    && isDraining && commands == []
                    && worksAtDecoder == old(worksAtDecoder) && pendingWorks == old(pendingWorks)
        invariant Extends(old(worksAtDecoder), worksAtDecoder)
        invariant ForNewWorks(commands, old(worksAtDecoder), worksAtDecoder)
        invariant OnlyFrom(old(worksAtDecoder), old(pendingWorks), worksAtDecoder)
        invariant !old(isDraining) ==> isDraining == EndsWithDrain(commands)
        invariant n == |old(pendingWorks)| - |pendingWorks| && pendingWorks == old(pendingWorks)[n..]
        invariant commands == CommandsOf(old(pendingWorks)[..n])
        invariant configFailsAt.None? ==> state == old(state)
        decreases |pendingWorks|
      {
        assert old(pendingWorks)[..n + 1][..n] == old(pendingWorks)[..n];
        ghost var before, sent, work := worksAtDecoder, commands, pendingWorks[0];
        var more := SendNextWork(configFailsAt != Some(n));
        ExtendsByOne(old(worksAtDecoder), before, work, worksAtDecoder);
        OnlyFromOneMore(old(worksAtDecoder), old(pendingWorks), before, n, worksAtDecoder);
        if !state.Running? {
          return;
        }
        ExtendCommands(sent, old(worksAtDecoder), before, work, worksAtDecoder, more);
        commands := commands + more;
        n := n + 1;
      }
    }

    /** The client queues a work, whose bitstream id no work in flight has. */
    method QueueTask(input: Input, configFailsAt: Option<nat>) returns (taken: bool, commands: seq<Request>)
      requires Valid() && !HasId(ToBitstreamId(input.frameIndex))
      modifies this`state, this`pendingWorks, this`worksAtDecoder, this`isDraining, this`accepted, this`reported,
               this`place, this`eos, this`seen
      ensures Valid() && old(reported) <= reported && taken == IsTaken(input)
      ensures Queued(old(Snap()), input, configFailsAt, Snap())
      ensures !taken || old(isDraining) ==> commands == []
      ensures state.Running? && !old(isDraining) ==> isDraining == EndsWithDrain(commands)
      ensures state.Running? ==> ForNewWorks(commands, old(worksAtDecoder), worksAtDecoder)
      ensures taken && state.Running? ==>
                TakenInOrder(old(pendingWorks) + [Accepted(old(accepted), input)], pendingWorks, commands)
    {
      commands := [];
      if !input.wellFormed {
        return false, [];  // reported at once as corrupted
      }
      if !input.hasBuffer && !input.eos && !input.csd {
        ReportError();
        return false, [];
      }
      hide Kept, ToBitstreamId, ForNewWorks, TakenInOrder, Extends, OnlyFrom;
      Accept(input);
      commands := PumpPendingWorks(configFailsAt);
      return true, commands;
    }

    /** A work in flight has this id. */
    predicate HasId(id: BitstreamId)
      reads this`pendingWorks, this`worksAtDecoder
    {
      id in worksAtDecoder || exists k :: 0 <= k < |pendingWorks| && pendingWorks[k].id == id
    }

    method Accept(input: Input)
      requires Valid() && !HasId(ToBitstreamId(input.frameIndex))
      modifies this`pendingWorks, this`accepted, this`seen
      ensures Valid() && accepted == old(accepted) + 1 && seen == old(seen).(inputs := old(seen).inputs + [input])
      ensures pendingWorks == old(pendingWorks) + [Accepted(old(accepted), input)]
    {
      hide ToBitstreamId;
      pendingWorks := pendingWorks + [Accepted(accepted, input)];
      accepted := accepted + 1;
      seen := seen.(inputs := seen.inputs + [input]);
    }

    /**
      The client drains: the last waiting work becomes the end of the stream. With none waiting, the
      decoder is drained although no end-of-stream work may be there: a bare drain.
     */
    method DrainTask() returns (commands: seq<Request>)
      requires Valid()
      modifies this`pendingWorks, this`isDraining, this`bareDrain, this`seen
      ensures Valid() && seen == AfterDrain(old(Snap()))
      ensures commands == if pendingWorks == [] && worksAtDecoder != map[] then [Drain] else []
      ensures bareDrain == (old(bareDrain) || (commands != [] && eos.None?))
      ensures isDraining == (old(isDraining) || commands != [])
      ensures |pendingWorks| == |old(pendingWorks)|
      ensures forall k :: 0 <= k < |pendingWorks| ==>
                pendingWorks[k] == old(pendingWorks)[k].(eos := old(pendingWorks)[k].eos || k == |pendingWorks| - 1)
    {
      hide Explained, Conserved, EosAfterEarlier, EosNewest;
      if pendingWorks != [] {
        var last := |pendingWorks| - 1;
        AllTaken(worksAtDecoder, reported, place);
        ExplainedAtEnd(pendingWorks, worksAtDecoder, reported, |place|, seen, last);
        seen := Ends(seen, pendingWorks[last].ticket);
        pendingWorks := pendingWorks[last := pendingWorks[last].(eos := true)];
        return [];
      }
      if worksAtDecoder != map[] {
        isDraining := true;
        bareDrain := bareDrain || eos.None?;
        return [Drain];
      }
      return [];
    }

    /** The decoder answers a drain request. */
    method OnDrainDone(status: Status)
      requires Valid()
      modifies this`state, this`pendingWorks, this`worksAtDecoder, this`isDraining, this`reported, this`place, this`eos,
               this`bareDrain
      ensures Valid() && old(reported) <= reported && Drained(old(Snap()), status, Snap())
    {
      hide Kept, DrainEnded;
      match status {
        case Aborted =>
        case Failed => ReportError();
        case Ok => EndDrain();
      }
    }

    /**
      The end-of-stream work is reported; it is an error if there is none. Works that wait behind it stay in line if and
      only if no other work is left at the decoder.
     */
    method EndDrain()
      requires Valid()
      modifies this`state, this`pendingWorks, this`worksAtDecoder, this`isDraining, this`reported, this`place, this`eos,
               this`bareDrain
      ensures Valid() && old(reported) <= reported && DrainEnded(old(Snap()), Snap())
    {
      hide Kept;
      isDraining, bareDrain := false, false;
      var found := ReportEOSWork();
      if !found {
        ReportError();
      }
    }

    /** The end of a flush, once the decoder has aborted its requests. */
    method FlushTask()
      requires Valid()
      modifies this`pendingWorks, this`worksAtDecoder, this`isDraining, this`reported, this`place, this`eos,
               this`bareDrain
      ensures Valid() && pendingWorks == [] && worksAtDecoder == map[] && !isDraining && !bareDrain
      ensures old(reported) <= reported
      ensures forall j :: |old(reported)| <= j < |reported| ==> reported[j].result.Abandoned?
    {
      hide Kept;
      ReportAbandonedWorks({});
      EosIsThere();
      isDraining, bareDrain := false, false;
    }

    method StopTask()
      requires Valid()
      modifies this`state, this`pendingWorks, this`worksAtDecoder, this`isDraining, this`reported, this`place, this`eos,
               this`bareDrain
      ensures Valid() && pendingWorks == [] && worksAtDecoder == map[] && !isDraining && !bareDrain && state.Stopped?
      ensures old(reported) <= reported
      ensures forall j :: |old(reported)| <= j < |reported| ==> reported[j].result.Abandoned?
    {
      hide Kept;
      FlushTask();
      state := Stopped;
    }

    ghost predicate IsPending(t: nat)
      reads this
    {
      exists k :: 0 <= k < |pendingWorks| && pendingWorks[k].ticket == t
    }

    ghost predicate IsAtDecoder(t: nat)
      reads this
    {
      exists id :: id in worksAtDecoder && worksAtDecoder[id].ticket == t
    }

    ghost predicate IsReported(t: nat)
      reads this
    {
      exists j :: 0 <= j < |reported| && reported[j].ticket == t
    }

    /** Every accepted work is waiting, at the decoder, or reported: in exactly one of the three. */
    lemma EachWorkInOnePlace(t: nat)
      requires Valid() && t < accepted
      ensures IsPending(t) || IsAtDecoder(t) || IsReported(t)
      ensures !(IsPending(t) && IsAtDecoder(t)) && !(IsPending(t) && IsReported(t))
      ensures !(IsAtDecoder(t) && IsReported(t))
    {
      if t >= |place| {
        assert pendingWorks[t - |place|].ticket == t;
      } else if place[t].AtDecoder? {
        assert worksAtDecoder[place[t].id].ticket == t;
      } else {
        assert reported[place[t].index].ticket == t;
      }
    }

    /** No work is reported twice, and an end of stream comes after every work accepted before it. */
    lemma ReportedOnceAndInTime(i: nat, j: nat)
      requires Valid() && i < |reported| && j < |reported|
      ensures reported[i].ticket == reported[j].ticket ==> i == j
      ensures reported[j].result.EndOfStream? && reported[i].ticket < reported[j].ticket ==> i < j
      ensures reported[j].result.EndOfStream? ==> forall t :: 0 <= t < reported[j].ticket ==> IsReported(t)
    {
      if reported[j].result.EndOfStream? {
        forall t | 0 <= t < reported[j].ticket
          ensures IsReported(t)
        {
          assert place[t].Reported?;
          assert reported[place[t].index].ticket == t;
        }
      }
    }
  }

  // ----- Every run -----

  datatype Event =
    | Queue(input: Input, configFailsAt: Option<nat>)
    | Pump(pumpConfigFailsAt: Option<nat>)
    | DecodeDone(id: BitstreamId, status: Status)
    | OutputFrame(frameId: BitstreamId)
    | DrainDone(drainStatus: Status)
    | DrainRequest
    | Flush
    | Stop

  datatype Snapshot =
    Snapshot(state: ComponentState, pendingWorks: seq<Work>, worksAtDecoder: map<BitstreamId, Work>, isDraining: bool,
             accepted: nat, reported: seq<Report>, eos: Option<BitstreamId>, bareDrain: bool, reportsNoShow: bool,
             outputIds: seq<BitstreamId>, seen: Seen)
  {
    ghost predicate HasId(id: BitstreamId) {
      id in worksAtDecoder || exists k :: 0 <= k < |pendingWorks| && pendingWorks[k].id == id
    }

    ghost function Line(): Reporting {
      Reporting(worksAtDecoder, outputIds, reported)
    }

    /** Nothing more can be reported in output order: the first work has not earned it, or only one work is left. */
    ghost predicate Settled() {
      || outputIds == []
      || (isDraining && |worksAtDecoder| == 1)
      || (outputIds[0] in worksAtDecoder
          && var work := worksAtDecoder[outputIds[0]]; work.eos || !seen.Earned(work.ticket))
    }
  }

  ghost function Initial(reportsNoShow: bool): Snapshot {
    Snapshot(Running, [], map[], false, 0, [], None, false, reportsNoShow, [], Seen([], {}, {}, {}, {}))
  }

  /** What an event does. */
  ghost predicate Next(s: Snapshot, event: Event, t: Snapshot) {
    && s.reported <= t.reported && t.reportsNoShow == s.reportsNoShow
    && (event.DecodeDone? || event.OutputFrame? || t.outputIds == s.outputIds)
    && (event.Queue? || event.DecodeDone? || event.OutputFrame? || event.DrainRequest? || t.seen == s.seen)
    && match event
       case Queue(input, configFailsAt) =>
         if s.HasId(ToBitstreamId(input.frameIndex)) then t == s else Queued(s, input, configFailsAt, t)
       case Pump(configFailsAt) => t.accepted == s.accepted && Sent(s, s.pendingWorks, configFailsAt, t)
       case DecodeDone(id, status) => if id !in s.worksAtDecoder then t == s else Released(s, id, status, t)
       case OutputFrame(id) => Shown(s, id, t)
       case DrainDone(status) => t.accepted == s.accepted && Drained(s, status, t)
       case DrainRequest => DrainAsked(s, t)
       case Flush => t.state == s.state && Emptied(s, t)
       case Stop => t.state.Stopped? && Emptied(s, t)
  }

  /** An input is accepted and gets in line, or is refused. */
  ghost predicate Queued(s: Snapshot, input: Input, configFailsAt: Option<nat>, t: Snapshot) {
    if IsTaken(input) then
      && t.accepted == s.accepted + 1 && t.seen == s.seen.(inputs := s.seen.inputs + [input])
      && Sent(s, s.pendingWorks + [Accepted(s.accepted, input)], configFailsAt, t)
    else
      t == s.(state := if input.wellFormed && s.state.Running? then Error else s.state)
  }

  /** Works of the line went to the decoder in order, unless the component drains, and until one ends the stream. */
  ghost predicate Sent(s: Snapshot, line: seq<Work>, configFailsAt: Option<nat>, t: Snapshot) {
    && t.bareDrain == s.bareDrain
    && Extends(s.worksAtDecoder, t.worksAtDecoder) && OnlyFrom(s.worksAtDecoder, line, t.worksAtDecoder)
    && (configFailsAt.None? ==> t.state == s.state)
    && (!s.state.Running? || s.isDraining ==>
          && t.state == s.state && t.isDraining == s.isDraining
          && t.pendingWorks == line && t.worksAtDecoder == s.worksAtDecoder)
    && (t.state.Running? ==>
          && (t.pendingWorks == [] || t.isDraining)
          && exists commands ::
               && TakenInOrder(line, t.pendingWorks, commands)
               && ForNewWorks(commands, s.worksAtDecoder, t.worksAtDecoder))
  }

  /** The decoder is done with the input of a work; works that are done and due are reported. */
  ghost predicate Released(s: Snapshot, id: BitstreamId, status: Status, t: Snapshot)
    requires id in s.worksAtDecoder
  {
    && t == s.(state := t.state, worksAtDecoder := t.worksAtDecoder, reported := t.reported, outputIds := t.outputIds,
               seen := t.seen)
    && t.state == (if status.Failed? && s.state.Running? then Error else s.state)
    && (if status.Failed? then
          && t.worksAtDecoder == s.worksAtDecoder && t.outputIds == s.outputIds && t.reported == s.reported
          && t.seen == s.seen
        else
          && OnlyFinishedLeft(s.worksAtDecoder[id := s.worksAtDecoder[id].(inputHeld := false)], t.worksAtDecoder,
                              t.reported)
          && t.Settled() && t.seen == Decoded(s.seen, s.worksAtDecoder[id].ticket)
          && t.Line() == InOutputOrder(InputBack(s.Line(), id, status.Aborted? || s.worksAtDecoder[id].csd),
                                       s.isDraining)
          && DealtWith(s.outputIds + if status.Aborted? || s.worksAtDecoder[id].csd then [id] else [], t.worksAtDecoder,
                       t.outputIds))
  }

  /** A frame came out for a work; works that are done and due are reported. */
  ghost predicate Shown(s: Snapshot, id: BitstreamId, t: Snapshot) {
    && t == s.(state := t.state, worksAtDecoder := t.worksAtDecoder, reported := t.reported, outputIds := t.outputIds,
               seen := t.seen)
    && (if id in s.worksAtDecoder then
          && t.state == s.state
          && OnlyFinishedLeft(AfterOutput(s.worksAtDecoder, id, s.reportsNoShow), t.worksAtDecoder, t.reported)
          && SeenAfterOutput(s.worksAtDecoder, s.seen, id, s.reportsNoShow, t.seen)
          && SkippedLeft(s.seen, t.seen, t.worksAtDecoder, t.isDraining)
          && t.Settled() && DealtWith(s.outputIds + [id], t.worksAtDecoder, t.outputIds)
          && OutputPumped(s.Line(), s.seen, id, s.reportsNoShow, s.isDraining, t.Line(), t.seen)
        else
          && !t.state.Running? && t.worksAtDecoder == s.worksAtDecoder && t.reported == s.reported
          && t.outputIds == s.outputIds && t.seen == s.seen)
  }

  /** A drain was answered: the end-of-stream work is reported last, or there is none and that is an error. */
  ghost predicate Drained(s: Snapshot, status: Status, t: Snapshot) {
    match status
    case Aborted => t == s
    case Failed => t == s.(state := if s.state.Running? then Error else s.state)
    case Ok => DrainEnded(s, t)
  }

  /** Works that wait behind the end of the stream stay in line, unless other works were left at the decoder. */
  ghost predicate DrainEnded(s: Snapshot, t: Snapshot) {
    if s.eos.None? then
      t == s.(state := if s.state.Running? then Error else s.state, isDraining := false, bareDrain := false)
    else
      && s.eos.value in s.worksAtDecoder && |t.reported| > |s.reported|
      && t == s.(isDraining := false, bareDrain := false, eos := None, worksAtDecoder := map[], reported := t.reported,
                 pendingWorks := if |s.worksAtDecoder| == 1 then s.pendingWorks else [])
      && t.reported[|t.reported| - 1] == Report(s.worksAtDecoder[s.eos.value].ticket, EndOfStream)
      && (forall j :: |s.reported| <= j < |t.reported| - 1 ==> t.reported[j].result.Abandoned?)
  }

  ghost function AfterDrain(s: Snapshot): Seen {
    if s.pendingWorks == [] then s.seen else Ends(s.seen, s.pendingWorks[|s.pendingWorks| - 1].ticket)
  }

  ghost predicate DrainAsked(s: Snapshot, t: Snapshot) {
    var bare := s.pendingWorks == [] && s.worksAtDecoder != map[];
    && t == s.(pendingWorks := t.pendingWorks, seen := AfterDrain(s), isDraining := s.isDraining || bare,
               bareDrain := s.bareDrain || (bare && s.eos.None?))
    && |t.pendingWorks| == |s.pendingWorks|
    && (forall k :: 0 <= k < |s.pendingWorks| ==>
          t.pendingWorks[k] == s.pendingWorks[k].(eos := s.pendingWorks[k].eos || k == |s.pendingWorks| - 1))
  }

  /** Every work in flight was abandoned. */
  ghost predicate Emptied(s: Snapshot, t: Snapshot) {
    && t.accepted == s.accepted && t.pendingWorks == [] && t.worksAtDecoder == map[] && !t.isDraining && !t.bareDrain
    && (forall j :: |s.reported| <= j < |t.reported| ==> t.reported[j].result.Abandoned?)
  }

  /**
    After any sequence of client requests and decoder callbacks, no work is lost or reported twice. An
    input with the id of a work in flight, or a callback for a work that is not there, is skipped.
   */
  method Run(events: seq<Event>, reportsNoShow: bool) returns (c: V4L2DecodeComponent, ghost history: seq<Snapshot>)
    ensures c.Valid()
    ensures Chain(history, events, reportsNoShow) && history[|events|] == c.Snap()
  {
    hide V4L2DecodeComponent.Valid, V4L2DecodeComponent.Snap, Next, Observed;
    c := new V4L2DecodeComponent(reportsNoShow);
    history := [c.Snap()];
    c.IsObserved();
    for n := 0 to |events|
      invariant fresh(c) && c.Valid()
      invariant |history| == n + 1 && history[0] == Initial(reportsNoShow) && history[n] == c.Snap()
      invariant forall k :: 0 <= k < n ==> Next(history[k], events[k], history[k + 1])
      invariant forall k :: 0 <= k <= n ==> Observed(history[k])
    {
      Handle(c, events[n]);
      c.IsObserved();
      history := history + [c.Snap()];
    }
  }

  // ----- When works are reported, by the callbacks -----

  /** What was reported as finished had earned it, and works at the decoder are what their callbacks make of them. */
  ghost predicate Observed(s: Snapshot) {
    Truthful(s.reported, s.seen) && AllAgree(s.worksAtDecoder, s.seen)
  }

  /** The n-th event leads to the next state, and the state before it is observed. */
  ghost predicate LinkAt(history: seq<Snapshot>, events: seq<Event>, n: nat)
    requires n < |events| && |history| == |events| + 1
  {
    Next(history[n], events[n], history[n + 1]) && Observed(history[n])
  }

  ghost predicate Chain(history: seq<Snapshot>, events: seq<Event>, reportsNoShow: bool) {
    && |history| == |events| + 1 && history[0] == Initial(reportsNoShow) && Observed(history[|events|])
    && (forall n: nat :: n < |events| ==> LinkAt(history, events, n))
  }

  /** At this event the decoder gives back the input of the work with this ticket. */
  ghost predicate GivesBack(s: Snapshot, event: Event, ticket: nat) {
    && event.DecodeDone? && !event.status.Failed?
    && event.id in s.worksAtDecoder && s.worksAtDecoder[event.id].ticket == ticket
  }

  /** At this event a frame comes out for the work with this ticket. */
  ghost predicate ComesOut(s: Snapshot, event: Event, ticket: nat) {
    event.OutputFrame? && event.frameId in s.worksAtDecoder && s.worksAtDecoder[event.frameId].ticket == ticket
  }

  lemma {:induction false} SeenGrows(history: seq<Snapshot>, events: seq<Event>, noShow: bool, i: nat, j: nat)
    requires Chain(history, events, noShow) && i <= j <= |events|
    ensures history[i].seen.decoded <= history[j].seen.decoded && history[i].seen.shown <= history[j].seen.shown
    ensures history[i].seen.inputs <= history[j].seen.inputs
    decreases j
  {
    if i < j {
      SeenGrows(history, events, noShow, i, j - 1);
      var s, t := history[j - 1], history[j];
      assert LinkAt(history, events, j - 1);
      hide OnlyFinishedLeft, SkippedLeft, SkippedBy, DealtWith, Snapshot.Settled, Sent;
      assert s.seen.decoded <= t.seen.decoded && s.seen.shown <= t.seen.shown && s.seen.inputs <= t.seen.inputs;
    }
  }

  /** What follows when a callback for a work was the last thing it waited for. */
  lemma DueIsReported(s: Snapshot, event: Event, t: Snapshot, id: BitstreamId)
    requires Next(s, event, t) && (event == DecodeDone(id, Ok) || event == OutputFrame(id))
    requires id in s.worksAtDecoder && !s.worksAtDecoder[id].eos && t.seen.Earned(s.worksAtDecoder[id].ticket)
    requires FirstInLine(s, event, id) && !(t.isDraining && |t.worksAtDecoder| == 1)
    ensures Report(s.worksAtDecoder[id].ticket, Finished) in t.reported
  {
    var works := if event.DecodeDone? then s.worksAtDecoder[id := s.worksAtDecoder[id].(inputHeld := false)]
                 else AfterOutput(s.worksAtDecoder, id, s.reportsNoShow);
    assert OnlyFinishedLeft(works, t.worksAtDecoder, t.reported);
    assert id in works && works[id].ticket == s.worksAtDecoder[id].ticket && !works[id].eos;
    var line := s.outputIds + if event.OutputFrame? || s.worksAtDecoder[id].csd then [id] else [];
    assert line != [] && line[0] == id && DealtWith(line, t.worksAtDecoder, t.outputIds) && t.Settled();
    hide AfterOutput, Next;
    if id in t.worksAtDecoder {
      assert false;
    }
  }

  lemma TicketKnown(s: Snapshot, id: BitstreamId)
    requires Observed(s) && id in s.worksAtDecoder
    ensures s.worksAtDecoder[id].ticket < |s.seen.inputs|
  {
    assert Agrees(s.worksAtDecoder[id], s.seen);
  }

  lemma ChainAt(history: seq<Snapshot>, events: seq<Event>, noShow: bool, n: nat)
    requires Chain(history, events, noShow) && n < |events|
    ensures |history| == |events| + 1 && Next(history[n], events[n], history[n + 1]) && Observed(history[n])
  {
    assert LinkAt(history, events, n);
  }

  lemma KnownAfter(s: Snapshot, event: Event, t: Snapshot, id: BitstreamId)
    requires Next(s, event, t) && id in s.worksAtDecoder
    ensures event == DecodeDone(id, Ok) ==> s.worksAtDecoder[id].ticket in t.seen.decoded
    ensures event == OutputFrame(id) ==> s.worksAtDecoder[id].ticket in t.seen.shown
  {
  }

  /** No earlier output waits: the id is the first in line, now or with this event. */
  ghost predicate FirstInLine(s: Snapshot, event: Event, id: BitstreamId) {
    if s.outputIds == [] then event.OutputFrame? || (id in s.worksAtDecoder && s.worksAtDecoder[id].csd)
    else s.outputIds[0] == id
  }

  /**
    A frame whose decode callback and whose output have come, in either order and with anything in between, is
    reported as finished with the later of the two, if no earlier output waits and it is not the last work of a drain.
   */
  lemma FrameIsReported(history: seq<Snapshot>, events: seq<Event>, noShow: bool, d: nat, o: nat, id: BitstreamId)
    requires Chain(history, events, noShow) && d < |events| && o < |events|
    requires events[d] == DecodeDone(id, Ok) && events[o] == OutputFrame(id)
    requires id in history[d].worksAtDecoder && id in history[o].worksAtDecoder
    requires history[d].worksAtDecoder[id].ticket == history[o].worksAtDecoder[id].ticket
    requires var last := if d < o then o else d;
             && !history[last].worksAtDecoder[id].eos && FirstInLine(history[last], events[last], id)
             && !(history[last + 1].isDraining && |history[last + 1].worksAtDecoder| == 1)
    ensures var last := if d < o then o else d;
            Report(history[d].worksAtDecoder[id].ticket, Finished) in history[last + 1].reported
  {
    hide Next, Observed, FirstInLine, Chain;
    ChainAt(history, events, noShow, d);
    ChainAt(history, events, noShow, o);
    var last := if d < o then o else d;
    TicketKnown(history[d], id);
    KnownAfter(history[d], events[d], history[d + 1], id);
    KnownAfter(history[o], events[o], history[o + 1], id);
    SeenGrows(history, events, noShow, d + 1, last + 1);
    SeenGrows(history, events, noShow, o + 1, last + 1);
    SeenGrows(history, events, noShow, d, last + 1);
    DueIsReported(history[last], events[last], history[last + 1], id);
  }

  /** Only works in line leave in output order, and nothing gets in line. */
  lemma {:induction false} OnlyLineLeaves(r: Reporting, isDraining: bool, id: BitstreamId)
    requires id in r.works && id !in r.line
    ensures var t := InOutputOrder(r, isDraining); id in t.works && id !in t.line && t.works[id] == r.works[id]
    decreases |r.line|
  {
    if r.line != [] && !(isDraining && |r.works| == 1) && (r.line[0] in r.works ==> r.works[r.line[0]].Done()) {
      var first := r.line[0];
      var u := if first in r.works then WithFirstReported(r) else r.(line := r.line[1..]);
      OnlyLineLeaves(u, isDraining, id);
    }
  }

  /**
    A frame that was passed over before its input came back is not reported when it does, nor with any later frame: its
    id never gets in line.
   */
  lemma PassedOverTooEarlyIsStuck(s: Snapshot, event: Event, t: Snapshot, id: BitstreamId)
    requires Next(s, event, t) && Observed(s) && id in s.worksAtDecoder && id !in s.outputIds
    requires !s.worksAtDecoder[id].csd && s.worksAtDecoder[id].ticket in s.seen.skipped
    requires (event.DecodeDone? && event.status.Ok?) || (event.OutputFrame? && event.frameId != id)
    ensures id in t.worksAtDecoder && id !in t.outputIds && t.worksAtDecoder[id].ticket == s.worksAtDecoder[id].ticket
    ensures t.worksAtDecoder[id].ticket in t.seen.skipped && !t.worksAtDecoder[id].csd
  {
    hide Released, Shown;
    if event.DecodeDone? && event.id in s.worksAtDecoder {
      StuckAfterInput(s, event.id, t, id);
    } else if event.OutputFrame? {
      StuckAfterOutput(s, event.frameId, t, id);
    }
  }

  lemma StuckAfterInput(s: Snapshot, x: BitstreamId, t: Snapshot, id: BitstreamId)
    requires x in s.worksAtDecoder && Released(s, x, Ok, t) && id in s.worksAtDecoder && id !in s.outputIds
    requires !s.worksAtDecoder[id].csd
    ensures id in t.worksAtDecoder && id !in t.outputIds && t.worksAtDecoder[id].ticket == s.worksAtDecoder[id].ticket
    ensures t.seen.skipped == s.seen.skipped && !t.worksAtDecoder[id].csd
  {
    var r := InputBack(s.Line(), x, s.worksAtDecoder[x].csd);
    OnlyLineLeaves(r, s.isDraining, id);
    assert t.Line() == InOutputOrder(r, s.isDraining);
  }

  lemma StuckAfterOutput(s: Snapshot, x: BitstreamId, t: Snapshot, id: BitstreamId)
    requires Shown(s, x, t) && id in s.worksAtDecoder && id !in s.outputIds && x != id
    requires !s.worksAtDecoder[id].csd && s.worksAtDecoder[id].ticket in s.seen.skipped
    ensures id in t.worksAtDecoder && id !in t.outputIds && t.worksAtDecoder[id].ticket == s.worksAtDecoder[id].ticket
    ensures t.worksAtDecoder[id].ticket in t.seen.skipped && !t.worksAtDecoder[id].csd
  {
    if x in s.worksAtDecoder {
      assert OutputPumped(s.Line(), s.seen, x, s.reportsNoShow, s.isDraining, t.Line(), t.seen);
      StillSkipped(s, x, t, s.worksAtDecoder[id].ticket);
      hide Shown;
      var works, reported :|
        PumpedFrom(s.Line(), s.seen, x, s.reportsNoShow, s.isDraining, works, reported, t.Line(), t.seen);
      SameWork(s.worksAtDecoder, x, s.reportsNoShow, id);
      hide AfterOutput, LeftReported;
      assert works[id] == AfterOutput(s.worksAtDecoder, x, s.reportsNoShow)[id];
      OnlyLineLeaves(Reporting(works, s.outputIds + [x], reported), s.isDraining, id);
    }
  }

  lemma StillSkipped(s: Snapshot, x: BitstreamId, t: Snapshot, ticket: nat)
    requires Shown(s, x, t) && x in s.worksAtDecoder && ticket in s.seen.skipped
    ensures ticket in t.seen.skipped
  {
    hide OnlyFinishedLeft, OutputPumped, DealtWith, SkippedLeft;
  }

  lemma SameWork(works: map<BitstreamId, Work>, x: BitstreamId, noShow: bool, id: BitstreamId)
    requires x in works && id in works
    ensures var after := AfterOutput(works, x, noShow);
            id in after && after[id].ticket == works[id].ticket && after[id].csd == works[id].csd
  {
  }

  /** An input that is known to be back was given back by a callback. */
  lemma {:induction false} DecodedBy(history: seq<Snapshot>, events: seq<Event>, noShow: bool, n: nat, ticket: nat)
    returns (d: nat)
    requires Chain(history, events, noShow) && n <= |events| && ticket in history[n].seen.decoded
    ensures d < n && GivesBack(history[d], events[d], ticket)
    decreases n
  {
    var s := history[n - 1];
    assert LinkAt(history, events, n - 1);
    if ticket in s.seen.decoded {
      d := DecodedBy(history, events, noShow, n - 1, ticket);
    } else {
      d := n - 1;
    }
  }

  lemma {:induction false} ShownBy(history: seq<Snapshot>, events: seq<Event>, noShow: bool, n: nat, ticket: nat)
    returns (o: nat)
    requires Chain(history, events, noShow) && n <= |events| && ticket in history[n].seen.shown
    ensures o < n && ComesOut(history[o], events[o], ticket)
    decreases n
  {
    var s := history[n - 1];
    assert LinkAt(history, events, n - 1);
    if ticket in s.seen.shown {
      o := ShownBy(history, events, noShow, n - 1, ticket);
    } else {
      o := n - 1;
    }
  }

  /**
    Conversely, a work is not reported as finished before its input came back and, unless it is configuration data or
    was passed over, a frame came out for it.
   */
  lemma FinishedAfterCallbacks(history: seq<Snapshot>, events: seq<Event>, noShow: bool, n: nat, ticket: nat)
    returns (d: nat, o: nat)
    requires Chain(history, events, noShow) && n <= |events| && Report(ticket, Finished) in history[n].reported
    ensures ticket < |history[n].seen.inputs|
    ensures history[n].seen.inputs[ticket].hasBuffer ==> d < n && GivesBack(history[d], events[d], ticket)
    ensures !history[n].seen.inputs[ticket].csd && ticket !in history[n].seen.skipped ==>
              o < n && ComesOut(history[o], events[o], ticket)
  {
    d, o := 0, 0;
    assert n < |events| ==> LinkAt(history, events, n);
    assert Observed(history[n]) && history[n].seen.Earned(ticket);
    hide Next;
    if ticket in history[n].seen.decoded {
      d := DecodedBy(history, events, noShow, n, ticket);
    }
    if ticket in history[n].seen.shown {
      o := ShownBy(history, events, noShow, n, ticket);
    }
  }

  method Handle(c: V4L2DecodeComponent, event: Event)
    requires c.Valid()
    modifies c
    ensures c.Valid() && Next(old(c.Snap()), event, c.Snap())
  {
    hide V4L2DecodeComponent.Valid, V4L2DecodeComponent.Snap, Next;
    match event {
      case Queue(input, configFailsAt) => HandleQueue(c, input, configFailsAt);
      case Pump(configFailsAt) => HandlePump(c, configFailsAt);
      case DecodeDone(id, status) => HandleDecodeDone(c, id, status);
      case OutputFrame(id) => HandleOutputFrame(c, id);
      case _ => HandleDrainOrFlush(c, event);
    }
  }

  method HandleQueue(c: V4L2DecodeComponent, input: Input, configFailsAt: Option<nat>)
    requires c.Valid()
    modifies c
    ensures c.Valid() && Next(old(c.Snap()), Queue(input, configFailsAt), c.Snap())
  {
    hide V4L2DecodeComponent.Valid, ToBitstreamId, Accepted, TakenInOrder, ForNewWorks, Extends, OnlyFrom;
    if c.HasId(ToBitstreamId(input.frameIndex)) {
      return;
    }
    var taken, commands := c.QueueTask(input, configFailsAt);
  }

  method HandlePump(c: V4L2DecodeComponent, configFailsAt: Option<nat>)
    requires c.Valid()
    modifies c
    ensures c.Valid() && Next(old(c.Snap()), Pump(configFailsAt), c.Snap())
  {
    hide V4L2DecodeComponent.Valid, TakenInOrder, ForNewWorks, Extends, OnlyFrom;
    var commands := c.PumpPendingWorks(configFailsAt);
  }

  method HandleDecodeDone(c: V4L2DecodeComponent, id: BitstreamId, status: Status)
    requires c.Valid()
    modifies c
    ensures c.Valid() && Next(old(c.Snap()), DecodeDone(id, status), c.Snap())
  {
    hide V4L2DecodeComponent.Valid, OnlyDoneLeft, DealtWith, Snapshot.Settled;
    if id in c.worksAtDecoder {
      c.OnDecodeDone(id, status);
    }
  }

  method HandleOutputFrame(c: V4L2DecodeComponent, id: BitstreamId)
    requires c.Valid()
    modifies c
    ensures c.Valid() && Next(old(c.Snap()), OutputFrame(id), c.Snap())
  {
    hide V4L2DecodeComponent.Valid, OnlyDoneLeft, AfterOutput, HeldStay, DealtWith, Snapshot.Settled;
    c.OnOutputFrameReady(id);
  }

  method HandleDrainOrFlush(c: V4L2DecodeComponent, event: Event)
    requires c.Valid() && (event.DrainDone? || event.DrainRequest? || event.Flush? || event.Stop?)
    modifies c
    ensures c.Valid() && Next(old(c.Snap()), event, c.Snap())
  {
    hide V4L2DecodeComponent.Valid;
    match event {
      case DrainDone(status) => c.OnDrainDone(status);
      case DrainRequest => var commands := c.DrainTask();
      case Flush => c.FlushTask();
      case Stop => c.StopTask();
    }
  }
}
