/** Downloading a release asset in ranges, each a part of the one object or refused. */
module RangedDownload {
  import opened Outcomes

  type Bytes = seq<bv8>

  const CHUNK := 8 * 1024 * 1024
  const MAX_TOTAL := 256 * 1024 * 1024

  /** A Content-Range as in section 14.4 of RFC 9110: first and last position, and the complete length. */
  datatype Range = Range(first: nat, last: nat, total: nat)

  /** What the store answers to one request; range is missing when the header is missing or not well formed. */
  datatype Response = Response(status: nat, identity: bool, range: Option<Range>, length: Option<nat>, body: Bytes)

  function Min(a: int, b: int): int {
    if a < b then a else b
  }

  /** parseReleaseAssetByteRange's bounds. */
  predicate Bounded(r: Range) {
    0 < r.total <= MAX_TOTAL && r.first <= r.last < r.total
  }

  /** The answer to the request for the part that starts at a position, when the length is known or not yet. */
  predicate Accepted(res: Response, start: nat, total: Option<nat>) {
    && res.status == 206 && res.identity && res.range.Some? && Bounded(res.range.value)
    && res.range.value.first == start && res.range.value.last == Min(start + CHUNK - 1, res.range.value.total - 1)
    && (total.Some? ==> total.value == res.range.value.total)
    && (res.length.Some? ==> res.length.value == res.range.value.last - start + 1)
    && |res.body| == res.range.value.last - start + 1
  }

  /** The first n answers are accepted parts of an object of one length. */
  ghost predicate AcceptedUpTo(responses: seq<Response>, n: nat, total: nat) {
    n <= |responses| && forall k :: 0 <= k < n ==> Accepted(responses[k], k * CHUNK, Some(total))
  }

  ghost predicate AllAccepted(responses: seq<Response>, n: nat) {
    exists total: nat :: AcceptedUpTo(responses, n, total)
  }

  /** And the last of them is its end. */
  ghost predicate Complete(responses: seq<Response>, n: nat, total: nat) {
    0 < n && AcceptedUpTo(responses, n, total) && (n - 1) * CHUNK < total <= n * CHUNK
  }

  function Bodies(responses: seq<Response>, n: nat): Bytes
    requires n <= |responses|
  {
    if n == 0 then [] else Bodies(responses, n - 1) + responses[n - 1].body
  }

  /** readBoundedStorageAsset. responses is what the store answers, request by request. */
  method Download(responses: seq<Response>) returns (r: Outcome<Bytes>, requests: nat)
    ensures !r.Crashed? && requests <= |responses| && (r.Done? ==> requests > 0)
    ensures r.Done? && responses[0].status != 200 ==> Complete(responses, requests, |r.value|) && r.value == Bodies(responses, requests)
    ensures r.Refused? && responses != [] && responses[0].status != 200 ==> forall n: nat, total: nat :: !Complete(responses, n, total)
    ensures r.Refused? && responses != [] && responses[0].status != 200 ==>
              && 0 < requests && AllAccepted(responses, requests - 1)
              && (requests == |responses| || !AllAccepted(responses, requests))
    ensures responses != [] && responses[0].status == 200 ==>
              && requests == 1 && (r.Done? <==> |responses[0].body| <= 256 * 1024 * 1024)
              && (r.Done? ==> r.value == responses[0].body)
  {
    hide Accepted, AcceptedUpTo, Complete;
    var start, total, chunks := 0, None, [];
    requests := 0;
    Nothing(responses);
    while true
      invariant start == requests * CHUNK && requests <= |responses| && chunks == Bodies(responses, requests) && |chunks| == start
      invariant requests == 0 <==> total.None?
      invariant total.Some? ==> start < total.value <= MAX_TOTAL && AcceptedUpTo(responses, requests, total.value)
      invariant requests > 0 ==> responses[0].status == 206
      decreases MAX_TOTAL - start
    {
      if requests == |responses| {
        NeverComplete(responses, requests, total);
        OneFewer(responses, requests, total);
        return Refused, requests;
      }
      var res := responses[requests];
      if res.status == 200 && start == 0 {
        if |res.body| > MAX_TOTAL { return Refused, 1; }
        return Done(res.body), 1;
      }
      if !Accepted(res, start, total) {
        NeverComplete(responses, requests, total);
        NotAccepted(responses, requests, total);
        return Refused, requests + 1;
      }
      OneMore(responses, requests, total);
      total := Some(res.range.value.total);
      chunks := chunks + res.body;
      requests := requests + 1;
      if res.range.value.last + 1 == total.value {
        LastPart(responses, requests, total.value);
        return Done(chunks), requests;
      }
      start := res.range.value.last + 1;
    }
  }

  lemma Nothing(responses: seq<Response>)
    ensures forall total: nat :: AcceptedUpTo(responses, 0, total)
  {
  }

  /** The first answer that is not accepted ends what is. */
  lemma NotAccepted(responses: seq<Response>, n: nat, total: Option<nat>)
    requires n < |responses| && !Accepted(responses[n], n * CHUNK, total) && (n == 0 <==> total.None?)
    requires total.Some? ==> AcceptedUpTo(responses, n, total.value)
    ensures AllAccepted(responses, n) && !AllAccepted(responses, n + 1)
  {
    assert AcceptedUpTo(responses, n, if total.Some? then total.value else 0);
    assert total.Some? ==> Accepted(responses[0], 0 * CHUNK, total);
  }

  lemma OneFewer(responses: seq<Response>, n: nat, total: Option<nat>)
    requires total.Some? ==> AcceptedUpTo(responses, n, total.value)
    requires n == 0 <==> total.None?
    ensures n > 0 ==> AllAccepted(responses, n - 1)
  {
    assert total.Some? ==> AcceptedUpTo(responses, n - 1, total.value);
  }

  lemma OneMore(responses: seq<Response>, n: nat, total: Option<nat>)
    requires n < |responses| && Accepted(responses[n], n * CHUNK, total) && (n == 0 <==> total.None?)
    requires total.Some? ==> AcceptedUpTo(responses, n, total.value)
    ensures responses[n].status == 206 && responses[n].range.Some? && Bounded(responses[n].range.value)
    ensures AcceptedUpTo(responses, n + 1, responses[n].range.value.total)
    ensures responses[n].range.value.last + 1 == Min((n + 1) * CHUNK, responses[n].range.value.total)
    ensures |responses[n].body| == responses[n].range.value.last + 1 - n * CHUNK
  {
  }

  lemma LastPart(responses: seq<Response>, n: nat, total: nat)
    requires 0 < n && AcceptedUpTo(responses, n, total)
    requires responses[n - 1].range.Some? && responses[n - 1].range.value.last + 1 == total
    ensures Complete(responses, n, total)
  {
    assert Accepted(responses[n - 1], (n - 1) * CHUNK, Some(total));
  }

  /** An answer that is not accepted, or missing, before the end leaves nothing complete. */
  lemma NeverComplete(responses: seq<Response>, n: nat, total: Option<nat>)
    requires n <= |responses| && (n == 0 <==> total.None?)
    requires total.Some? ==> n * CHUNK < total.value && AcceptedUpTo(responses, n, total.value)
    requires n < |responses| ==> !Accepted(responses[n], n * CHUNK, total)
    ensures forall m: nat, t: nat :: !Complete(responses, m, t)
  {
    forall m: nat, t: nat | 0 < m && AcceptedUpTo(responses, m, t) ensures !Complete(responses, m, t) {
      assert Accepted(responses[0], 0 * CHUNK, Some(t));
      assert total.Some? ==> Accepted(responses[0], 0 * CHUNK, total);
      assert forall k :: 0 <= k < m ==> Accepted(responses[k], k * CHUNK, Some(t));
    }
  }

  // ---------------------------------------------------------------- what a completed download is

  function Parts(total: nat): nat {
    (total + CHUNK - 1) / CHUNK
  }

  lemma PartsOf(n: nat, total: nat)
    requires (n - 1) * CHUNK < total <= n * CHUNK && 0 < total <= MAX_TOTAL
    ensures n == Parts(total) <= 32
  {
  }

  /** The accepted ranges tile the object from its first byte to its last, without gap or overlap, in
      as many requests as it has parts: at most 32. */
  lemma {:induction false} RangesTile(responses: seq<Response>, n: nat, total: nat)
    requires Complete(responses, n, total)
    ensures n == Parts(total) <= 32
    ensures forall k :: 0 <= k < n ==> responses[k].range == Some(Range(k * CHUNK, Min((k + 1) * CHUNK, total) - 1, total))
    ensures |Bodies(responses, n)| == total
  {
    assert Accepted(responses[0], 0 * CHUNK, Some(total));
    PartsOf(n, total);
    forall k | 0 <= k < n ensures responses[k].range == Some(Range(k * CHUNK, Min((k + 1) * CHUNK, total) - 1, total)) {
      assert Accepted(responses[k], k * CHUNK, Some(total));
    }
    BodiesLength(responses, n, total, n);
  }

  lemma {:induction false} BodiesLength(responses: seq<Response>, n: nat, total: nat, k: nat)
    requires Complete(responses, n, total) && k <= n
    ensures |Bodies(responses, k)| == Min(k * CHUNK, total)
    decreases k
  {
    if k > 0 {
      BodiesLength(responses, n, total, k - 1);
      assert Accepted(responses[k - 1], (k - 1) * CHUNK, Some(total));
    }
  }

  ghost predicate SliceOf(res: Response, whole: Bytes) {
    res.range.Some? && res.range.value.last < |whole| && res.range.value.first <= res.range.value.last
    && res.body == whole[res.range.value.first..res.range.value.last + 1]
  }

  /** If every accepted part is the stated slice of one object, the download is that object. */
  lemma {:induction false} SlicesMakeTheObject(responses: seq<Response>, n: nat, whole: Bytes)
    requires Complete(responses, n, |whole|) && forall k :: 0 <= k < n ==> SliceOf(responses[k], whole)
    ensures Bodies(responses, n) == whole
  {
    SlicesUpTo(responses, n, whole, n);
    assert whole[..|whole|] == whole;
  }

  lemma {:induction false} SlicesUpTo(responses: seq<Response>, n: nat, whole: Bytes, k: nat)
    requires Complete(responses, n, |whole|) && k <= n && forall i :: 0 <= i < n ==> SliceOf(responses[i], whole)
    ensures Bodies(responses, k) == whole[..Min(k * CHUNK, |whole|)]
    decreases k
  {
    if k > 0 {
      SlicesUpTo(responses, n, whole, k - 1);
      var from, to := PartIs(responses, n, whole, k - 1);
      hide Complete, SliceOf;
      assert whole[..from] + whole[from..to] == whole[..to];
    }
  }

  lemma PartIs(responses: seq<Response>, n: nat, whole: Bytes, k: nat) returns (from: nat, to: nat)
    requires Complete(responses, n, |whole|) && k < n && SliceOf(responses[k], whole)
    ensures from == k * CHUNK == Min(k * CHUNK, |whole|) && to == Min((k + 1) * CHUNK, |whole|) && from <= to
    ensures responses[k].body == whole[from..to]
  {
    assert Accepted(responses[k], k * CHUNK, Some(|whole|));
    from, to := k * CHUNK, Min((k + 1) * CHUNK, |whole|);
  }

  /** In the numbers of the protocol: a complete download of an object of at most 256 MiB takes one partial
      answer for every 8 MiB begun, each with its own range, its own length where one is given, and as many
      bytes. */
  lemma CompleteSpelledOut(responses: seq<Response>, n: nat, total: nat)
    ensures Complete(responses, n, total) <==>
              && 0 < n <= |responses| && 0 < total <= 268_435_456 && 8_388_608 * (n - 1) < total <= 8_388_608 * n
              && forall k :: 0 <= k < n ==>
                   && responses[k].status == 206 && responses[k].identity && responses[k].range.Some?
                   && responses[k].range.value.total == total && responses[k].range.value.first == 8_388_608 * k
                   && responses[k].range.value.last == (if k < n - 1 then 8_388_608 * (k + 1) else total) - 1
                   && |responses[k].body| == responses[k].range.value.last - responses[k].range.value.first + 1
                   && (responses[k].length.Some? ==> responses[k].length.value == |responses[k].body|)
  {
    hide Complete;
    if Complete(responses, n, total) {
      CompleteParts(responses, n, total);
    }
    if && 0 < n <= |responses| && 0 < total <= 268_435_456 && 8_388_608 * (n - 1) < total <= 8_388_608 * n
       && forall k :: 0 <= k < n ==>
            && responses[k].status == 206 && responses[k].identity && responses[k].range.Some?
            && responses[k].range.value.total == total && responses[k].range.value.first == 8_388_608 * k
            && responses[k].range.value.last == (if k < n - 1 then 8_388_608 * (k + 1) else total) - 1
            && |responses[k].body| == responses[k].range.value.last - responses[k].range.value.first + 1
            && (responses[k].length.Some? ==> responses[k].length.value == |responses[k].body|)
    {
      PartsComplete(responses, n, total);
    }
  }

  lemma CompleteParts(responses: seq<Response>, n: nat, total: nat)
    requires Complete(responses, n, total)
    ensures 0 < n <= |responses| && 0 < total <= 268_435_456 && 8_388_608 * (n - 1) < total <= 8_388_608 * n
    ensures forall k :: 0 <= k < n ==>
              && responses[k].status == 206 && responses[k].identity && responses[k].range.Some?
              && responses[k].range.value.total == total && responses[k].range.value.first == 8_388_608 * k
              && responses[k].range.value.last == (if k < n - 1 then 8_388_608 * (k + 1) else total) - 1
              && |responses[k].body| == responses[k].range.value.last - responses[k].range.value.first + 1
              && (responses[k].length.Some? ==> responses[k].length.value == |responses[k].body|)
  {
    assert Accepted(responses[0], 0 * CHUNK, Some(total));
  }

  lemma PartsComplete(responses: seq<Response>, n: nat, total: nat)
    requires 0 < n <= |responses| && 0 < total <= 268_435_456 && 8_388_608 * (n - 1) < total <= 8_388_608 * n
    requires forall k :: 0 <= k < n ==>
               && responses[k].status == 206 && responses[k].identity && responses[k].range.Some?
               && responses[k].range.value.total == total && responses[k].range.value.first == 8_388_608 * k
               && responses[k].range.value.last == (if k < n - 1 then 8_388_608 * (k + 1) else total) - 1
               && |responses[k].body| == responses[k].range.value.last - responses[k].range.value.first + 1
               && (responses[k].length.Some? ==> responses[k].length.value == |responses[k].body|)
    ensures Complete(responses, n, total)
  {
    forall k | 0 <= k < n ensures Accepted(responses[k], k * CHUNK, Some(total)) {
      assert k < n - 1 ==> 8_388_608 * (k + 1) <= 8_388_608 * (n - 1);
    }
  }
}
