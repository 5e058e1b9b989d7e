/** What passes between the decode component and the decoder. */
module DecodeProtocol {
  type BitstreamId = nat

  /** What the component asks of the decoder. */
  datatype Request = Decode(id: BitstreamId) | Drain

  datatype Status = Ok | Aborted | Failed

  predicate EndsWithDrain(requests: seq<Request>) {
    requests != [] && requests[|requests| - 1].Drain?
  }

  /** Only the last request may be a drain. */
  ghost predicate DrainLast(requests: seq<Request>) {
    forall k :: 0 <= k < |requests| - 1 ==> requests[k].Decode?
  }

  /** Decode requests are for different works. */
  ghost predicate DistinctIds(requests: seq<Request>) {
    forall j, k :: 0 <= j < k < |requests| && requests[j].Decode? && requests[k].Decode? ==>
      requests[j].id != requests[k].id
  }
}
