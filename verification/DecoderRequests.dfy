/**
  The input half of the decoder. Decode requests wait in line, go to the device and are answered; a drain request is a
  barrier between them. The callbacks of the component never call back into the decoder, so here the caller runs them
  after the decoder's step.
 */
module DecoderRequests {
  import opened DecodeProtocol
  import opened Options

  datatype State = Idle | Decoding | Draining | InError

  /** Requests that can be sent: for different works, none of which is waiting for an answer already. */
  ghost predicate Sendable(requests: seq<Request>, pending: map<BitstreamId, nat>) {
    && DistinctIds(requests)
    && (forall k :: 0 <= k < |requests| && requests[k].Decode? ==> requests[k].id !in pending)
  }

  /** The callbacks after the first n requests were sent as well. */
  ghost predicate SentFirst(n: nat, requests: seq<Request>, before: map<BitstreamId, nat>, after: map<BitstreamId, nat>)
    requires n <= |requests|
  {
    && (forall id :: id in before ==> id in after && after[id] == before[id])
    && (forall k :: 0 <= k < n && requests[k].Decode? ==> requests[k].id in after)
    && (forall id :: id in after ==> id in before || Decode(id) in requests[..n])
  }

  lemma SendNone(requests: seq<Request>, pending: map<BitstreamId, nat>)
    ensures SentFirst(0, requests, pending, pending)
  {
  }

  lemma SendOneMore(n: nat, requests: seq<Request>, before: map<BitstreamId, nat>, after: map<BitstreamId, nat>,
                    at: nat)
    requires n < |requests| && SentFirst(n, requests, before, after) && Sendable(requests, before)
    ensures requests[n].Decode? ==>
              requests[n].id !in after && SentFirst(n + 1, requests, before, after[requests[n].id := at])
    ensures requests[n].Drain? ==> SentFirst(n + 1, requests, before, after)
  {
    assert requests[..n + 1] == requests[..n] + [requests[n]];
  }

  /** position tells, for each callback that has not run, which of the requests sent it belongs to. */
  ghost predicate Tracked(sent: seq<Request>, answered: set<nat>, position: map<BitstreamId, nat>) {
    && (forall i :: i in answered ==> i < |sent|)
    && (forall id :: id in position ==>
          position[id] < |sent| && sent[position[id]] == Decode(id) && position[id] !in answered)
  }

  /** Every decode request sent is answered or still has its callback. */
  ghost predicate AllTracked(sent: seq<Request>, answered: set<nat>, position: map<BitstreamId, nat>) {
    forall i :: 0 <= i < |sent| && sent[i].Decode? && i !in answered ==>
      sent[i].id in position && position[sent[i].id] == i
  }

  lemma TrackSent(sent: seq<Request>, answered: set<nat>, position: map<BitstreamId, nat>, request: Request)
    requires Tracked(sent, answered, position) && (request.Decode? ==> request.id !in position)
    ensures Tracked(sent + [request], answered, position)
    ensures request.Decode? ==> Tracked(sent + [request], answered, position[request.id := |sent|])
    ensures AllTracked(sent, answered, position) && request.Decode? ==>
              AllTracked(sent + [request], answered, position[request.id := |sent|])
    ensures AllTracked(sent, answered, position) && request.Drain? ==> AllTracked(sent + [request], answered, position)
  {
    assert forall i :: 0 <= i < |sent| ==> (sent + [request])[i] == sent[i];
  }

  lemma TrackAnswered(sent: seq<Request>, answered: set<nat>, position: map<BitstreamId, nat>, id: BitstreamId)
    requires Tracked(sent, answered, position) && id in position
    ensures Tracked(sent, answered + {position[id]}, position - {id})
    ensures AllTracked(sent, answered, position) ==> AllTracked(sent, answered + {position[id]}, position - {id})
  {
  }

  lemma KeysWithOneMore(pending: map<BitstreamId, nat>, atDevice: set<BitstreamId>, id: BitstreamId, position: nat)
    requires pending.Keys == atDevice
    ensures pending[id := position].Keys == atDevice + {id} && |atDevice + {id}| <= |atDevice| + 1
  {
  }

  lemma TrackAborted(sent: seq<Request>, answered: set<nat>, position: map<BitstreamId, nat>)
    requires Tracked(sent, answered, position) && AllTracked(sent, answered, position)
    ensures Tracked(sent, answered + position.Values, map[]) && AllTracked(sent, answered + position.Values, map[])
  {
    forall i | 0 <= i < |sent| && sent[i].Decode? && i !in answered
      ensures i in position.Values
    {
      assert sent[i].id in position.Keys && position[sent[i].id] == i;
    }
  }

  class V4L2Decoder {
    const numInputBuffers: nat
    var state: State
    var decodeRequests: seq<Request>
    var pendingDecodeCbs: map<BitstreamId, nat>
    var inputAtDevice: set<BitstreamId>
    var drainCb: bool
    var postedReplies: seq<Status>
    var postedErrors: seq<BitstreamId>
    var sent: seq<Request>
    ghost var answered: set<nat>

    ghost predicate Valid()
      reads this`state, this`pendingDecodeCbs, this`inputAtDevice, this`drainCb, this`sent, this`answered
    {
      && |inputAtDevice| <= numInputBuffers
      && Tracked(sent, answered, pendingDecodeCbs)
      && (!state.InError? ==>
            && pendingDecodeCbs.Keys == inputAtDevice
            && (drainCb <==> state.Draining?)
            && AllTracked(sent, answered, pendingDecodeCbs))
      && (state.Draining? ==> EndsWithDrain(sent))
      && (state.Draining? || state.Idle? ==> pendingDecodeCbs == map[])
    }

    /**
      The drain barrier: once STOP is sent, every decode request sent before has been answered, and
      nothing was sent after.
     */
    lemma DrainBarrier()
      requires Valid() && state.Draining?
      ensures |sent| > 0 && sent[|sent| - 1].Drain?
      ensures forall i :: 0 <= i < |sent| && sent[i].Decode? ==> i in answered
    {
    }

    constructor (numInputBuffers: nat)
      ensures Valid() && state.Idle? && this.numInputBuffers == numInputBuffers
      ensures decodeRequests == [] && postedReplies == [] && sent == [] && pendingDecodeCbs == map[]
    {
      this.numInputBuffers := numInputBuffers;
      state, decodeRequests, pendingDecodeCbs, inputAtDevice := Idle, [], map[], {};
      drainCb, postedReplies, postedErrors := false, [], [];
      sent, answered := [], {};
    }

    /** What keeps the first request waiting. */
    predicate Blocked()
      reads this
      requires decodeRequests != []
    {
      if decodeRequests[0].Drain? then |inputAtDevice| > 0 else |inputAtDevice| >= numInputBuffers
    }

    /** Sends the first request; the device call behind it may fail. */
    method SendFirst(ok: bool)
      requires Valid() && state.Decoding? && decodeRequests != [] && !Blocked()
      requires decodeRequests[0].Decode? ==> decodeRequests[0].id !in pendingDecodeCbs
      modifies this`state, this`decodeRequests, this`pendingDecodeCbs, this`inputAtDevice, this`drainCb, this`sent
      ensures Valid() && decodeRequests == old(decodeRequests)[1..] && sent == old(sent) + [old(decodeRequests)[0]]
      ensures var request := old(decodeRequests)[0];
              && state == (if !ok then InError else if request.Drain? then Draining else Decoding)
              && pendingDecodeCbs ==
                 if ok && request.Decode? then old(pendingDecodeCbs)[request.id := |old(sent)|]
                 else old(pendingDecodeCbs)
    {
      if !ok {
        FailFirst();
      } else if decodeRequests[0].Drain? {
        SendDrain();
      } else {
        SendDecode();
      }
    }

    /** The device call for the first request failed: the request is gone. */
    method FailFirst()
      requires Valid() && state.Decoding? && decodeRequests != []
      modifies this`state, this`decodeRequests, this`sent
      ensures Valid() && decodeRequests == old(decodeRequests)[1..] && sent == old(sent) + [old(decodeRequests)[0]]
      ensures state.InError?
    {
      sent := sent + [decodeRequests[0]];
      decodeRequests := decodeRequests[1..];
      state := InError;
    }

    /** STOP, once the device has given all input buffers back. */
    method SendDrain()
      requires Valid() && state.Decoding? && decodeRequests != [] && decodeRequests[0].Drain? && |inputAtDevice| == 0
      modifies this`state, this`decodeRequests, this`drainCb, this`sent
      ensures Valid() && decodeRequests == old(decodeRequests)[1..] && sent == old(sent) + [Drain]
      ensures state.Draining?
    {
      TrackSent(sent, answered, pendingDecodeCbs, Drain);
      hide Tracked, AllTracked;
      decodeRequests := decodeRequests[1..];
      sent := sent + [Drain];
      drainCb := true;
      state := Draining;
    }

    /** QBUF of an input buffer. */
    method SendDecode()
      requires Valid() && state.Decoding? && decodeRequests != [] && decodeRequests[0].Decode?
      requires |inputAtDevice| < numInputBuffers && decodeRequests[0].id !in pendingDecodeCbs
      modifies this`decodeRequests, this`pendingDecodeCbs, this`inputAtDevice, this`sent
      ensures Valid() && decodeRequests == old(decodeRequests)[1..] && sent == old(sent) + [old(decodeRequests)[0]]
      ensures pendingDecodeCbs == old(pendingDecodeCbs)[old(decodeRequests)[0].id := |old(sent)|]
    {
      var id := decodeRequests[0].id;
      TrackSent(sent, answered, pendingDecodeCbs, Decode(id));
      KeysWithOneMore(pendingDecodeCbs, inputAtDevice, id, |sent|);
      hide Tracked, AllTracked, EndsWithDrain;
      decodeRequests, inputAtDevice, pendingDecodeCbs, sent :=
        decodeRequests[1..], inputAtDevice + {id}, pendingDecodeCbs[id := |sent|], sent + [Decode(id)];
    }

    /** Sends requests as long as the device takes them; failAt is the number of a call that fails. */
    method PumpDecodeRequest(failAt: Option<nat>) returns (ghost n: nat)
      requires Valid() && Sendable(decodeRequests, pendingDecodeCbs)
      modifies this`state, this`decodeRequests, this`pendingDecodeCbs, this`inputAtDevice, this`drainCb, this`sent
      ensures Valid() && n <= |old(decodeRequests)|
      ensures decodeRequests == old(decodeRequests)[n..] && sent == old(sent) + old(decodeRequests)[..n]
      ensures !old(state).Decoding? ==> n == 0 && state == old(state) && pendingDecodeCbs == old(pendingDecodeCbs)
      ensures !state.InError? ==> SentFirst(n, old(decodeRequests), old(pendingDecodeCbs), pendingDecodeCbs)
      ensures old(state).Decoding? && !state.InError? ==>
                state == if n > 0 && old(decodeRequests)[n - 1].Drain? then Draining else Decoding
      ensures forall k :: 0 <= k < n - 1 ==> old(decodeRequests)[k].Decode?
      ensures state.Decoding? ==> decodeRequests == [] || Blocked()
      ensures state.Decoding? && decodeRequests != [] ==>
                if decodeRequests[0].Drain? then inputAtDevice != {} else |inputAtDevice| == numInputBuffers
      ensures failAt.None? && !old(state).InError? ==> !state.InError?
    {
      hide Valid, SentFirst, Sendable;
      SendNone(decodeRequests, pendingDecodeCbs);
      n := 0;
      var calls := 0;
      while state.Decoding? && decodeRequests != [] && !Blocked()
        invariant Valid() && calls == n <= |old(decodeRequests)|
        invariant decodeRequests == old(decodeRequests)[n..] && sent == old(sent) + old(decodeRequests)[..n]
        invariant !state.InError? ==> SentFirst(n, old(decodeRequests), old(pendingDecodeCbs), pendingDecodeCbs)
        invariant !old(state).Decoding? ==> n == 0 && state == old(state) && pendingDecodeCbs == old(pendingDecodeCbs)
        invariant old(state).Decoding? && !state.InError? ==>
                    state == if n > 0 && old(decodeRequests)[n - 1].Drain? then Draining else Decoding
        invariant forall k :: 0 <= k < n - 1 ==> old(decodeRequests)[k].Decode?
        invariant failAt.None? && !old(state).InError? ==> !state.InError?
        decreases |decodeRequests|
      {
        SendOneMore(n, old(decodeRequests), old(pendingDecodeCbs), pendingDecodeCbs, |sent|);
        SendFirst(failAt != Some(calls));
        assert old(decodeRequests)[..n + 1] == old(decodeRequests)[..n] + [old(decodeRequests)[n]];
        n := n + 1;
        calls := calls + 1;
      }
      WithinBuffers();
    }

    lemma WithinBuffers()
      requires Valid()
      ensures |inputAtDevice| <= numInputBuffers
    {
    }

    /** A work to decode; the first one wakes the decoder up. */
    method DecodeBuffer(id: BitstreamId, failAt: Option<nat>) returns (ghost n: nat)
      requires Valid() && Sendable(decodeRequests + [Decode(id)], pendingDecodeCbs)
      modifies this`state, this`decodeRequests, this`pendingDecodeCbs, this`inputAtDevice, this`drainCb, this`sent,
               this`postedErrors
      ensures Valid() && n <= |old(decodeRequests)| + 1
      ensures old(state).InError? ==>
                state.InError? && decodeRequests == old(decodeRequests) && postedErrors == old(postedErrors) + [id]
      ensures !old(state).InError? ==>
                && decodeRequests == (old(decodeRequests) + [Decode(id)])[n..]
                && sent == old(sent) + (old(decodeRequests) + [Decode(id)])[..n]
      ensures !state.InError? ==>
                SentFirst(n, old(decodeRequests) + [Decode(id)], old(pendingDecodeCbs), pendingDecodeCbs)
      ensures old(state).Draining? ==> n == 0 && state.Draining?
      ensures !old(state).Draining? && !state.InError? ==>
                state == if n > 0 && (old(decodeRequests) + [Decode(id)])[n - 1].Drain? then Draining else Decoding
      ensures forall k :: 0 <= k < n - 1 ==> (old(decodeRequests) + [Decode(id)])[k].Decode?
      ensures state.Decoding? ==> decodeRequests == [] || Blocked()
      ensures failAt.None? && !old(state).InError? ==> !state.InError?
    {
      if state.InError? {
        postedErrors := postedErrors + [id];
        return 0;
      }
      hide Valid, SentFirst, Sendable, Blocked;
      n := PushAndPump(Decode(id), failAt);
    }

    /** Puts a request in line; an idle decoder starts decoding. */
    method Push(request: Request)
      requires Valid() && !state.InError?
      modifies this`state, this`decodeRequests
      ensures Valid() && decodeRequests == old(decodeRequests) + [request]
      ensures state == if old(state).Idle? then Decoding else old(state)
    {
      hide Tracked, AllTracked, EndsWithDrain;
      if state.Idle? {
        state := Decoding;
      }
      decodeRequests := decodeRequests + [request];
    }

    /** A drain request; an idle decoder has nothing to drain and answers at once, by a posted reply. */
    method DrainBuffers(failAt: Option<nat>) returns (ghost n: nat)
      requires Valid() && Sendable(decodeRequests, pendingDecodeCbs)
      modifies this`state, this`decodeRequests, this`pendingDecodeCbs, this`inputAtDevice, this`drainCb, this`sent,
               this`postedReplies
      ensures Valid() && n <= |old(decodeRequests)| + 1
      ensures !old(state).Decoding? ==>
                && state == old(state) && decodeRequests == old(decodeRequests)
                && pendingDecodeCbs == old(pendingDecodeCbs)
                && postedReplies == old(postedReplies) + [if state.Idle? then Ok else Failed]
      ensures old(state).Decoding? ==>
                && decodeRequests == (old(decodeRequests) + [Drain])[n..]
                && sent == old(sent) + (old(decodeRequests) + [Drain])[..n]
                && postedReplies == old(postedReplies)
      ensures old(state).Decoding? && !state.InError? ==>
                && SentFirst(n, old(decodeRequests) + [Drain], old(pendingDecodeCbs), pendingDecodeCbs)
                && state == if n > 0 && (old(decodeRequests) + [Drain])[n - 1].Drain? then Draining else Decoding
      ensures failAt.None? && !old(state).InError? ==> !state.InError?
    {
      assert Sendable(decodeRequests + [Drain], pendingDecodeCbs);
      hide Valid, SentFirst, Sendable;
      n := 0;
      match state {
        case Idle => postedReplies := postedReplies + [Ok];
        case Decoding => n := PushAndPump(Drain, failAt);
        case _ => postedReplies := postedReplies + [Failed];
      }
    }

    /** A request gets in line, and what can be sent is sent. */
    method PushAndPump(request: Request, failAt: Option<nat>) returns (ghost n: nat)
      requires Valid() && !state.InError? && Sendable(decodeRequests + [request], pendingDecodeCbs)
      modifies this`state, this`decodeRequests, this`pendingDecodeCbs, this`inputAtDevice, this`drainCb, this`sent
      ensures Valid() && n <= |old(decodeRequests)| + 1
      ensures decodeRequests == (old(decodeRequests) + [request])[n..]
      ensures sent == old(sent) + (old(decodeRequests) + [request])[..n]
      ensures !state.InError? ==> SentFirst(n, old(decodeRequests) + [request], old(pendingDecodeCbs), pendingDecodeCbs)
      ensures old(state).Draining? ==> n == 0 && state.Draining?
      ensures !old(state).Draining? && !state.InError? ==>
                state == if n > 0 && (old(decodeRequests) + [request])[n - 1].Drain? then Draining else Decoding
      ensures forall k :: 0 <= k < n - 1 ==> (old(decodeRequests) + [request])[k].Decode?
      ensures state.Decoding? ==> decodeRequests == [] || Blocked()
      ensures failAt.None? ==> !state.InError?
    {
      hide Valid, SentFirst, Sendable;
      Push(request);
      n := PumpDecodeRequest(failAt);
    }

    /** DQBUF of an input buffer: its callback is to be run. */
    method DequeueInput(id: BitstreamId)
      requires Valid() && !state.InError? && id in inputAtDevice
      modifies this`pendingDecodeCbs, this`inputAtDevice, this`answered
      ensures Valid() && id in old(pendingDecodeCbs)
      ensures pendingDecodeCbs == old(pendingDecodeCbs) - {id} && inputAtDevice == old(inputAtDevice) - {id}
      ensures answered == old(answered) + {old(pendingDecodeCbs)[id]}
    {
      inputAtDevice := inputAtDevice - {id};
      if id !in pendingDecodeCbs {
        assert false;  // the callback is already abandoned
      }
      TrackAnswered(sent, answered, pendingDecodeCbs, id);
      answered := answered + {pendingDecodeCbs[id]};
      pendingDecodeCbs := pendingDecodeCbs - {id};
    }

    /** The last buffer of a drain came out: the drain callback is to be run. */
    method FinishDrain()
      requires Valid() && drainCb && !state.InError?
      modifies this`drainCb, this`state
      ensures Valid() && old(state).Draining? && state.Idle?
    {
      drainCb := false;
      state := Idle;
    }

    /** Aborts what was sent, but leaves the waiting requests in line; polling may fail to restart. */
    method FlushRequests(pollOk: bool) returns (aborted: set<BitstreamId>, drainAborted: bool)
      requires Valid()
      modifies this`state, this`pendingDecodeCbs, this`inputAtDevice, this`drainCb, this`answered
      ensures Valid()
      ensures old(state).Idle? || old(state).InError? ==>
                state == old(state) && aborted == {} && !drainAborted && pendingDecodeCbs == old(pendingDecodeCbs)
      ensures !old(state).Idle? && !old(state).InError? ==>
                && aborted == old(pendingDecodeCbs).Keys && drainAborted == old(drainCb)
                && pendingDecodeCbs == map[] && answered == old(answered) + old(pendingDecodeCbs).Values
                && state == if pollOk then Idle else InError
    {
      if state.Idle? || state.InError? {
        return {}, false;
      }
      aborted, drainAborted := pendingDecodeCbs.Keys, drainCb;
      TrackAborted(sent, answered, pendingDecodeCbs);
      hide Tracked, AllTracked;
      answered := answered + pendingDecodeCbs.Values;
      pendingDecodeCbs := map[];
      drainCb := false;
      inputAtDevice := {};
      state := if pollOk then Idle else InError;
    }
  }
}
