/** `read_all_maps`: reading another process's memory region by region, in chunks. */
module RemoteReads {
  import opened Wrappers
  import opened Text
  import opened Maps

  /** One `process_vm_readv` on the remote side. */
  datatype Request = Request(base: nat, len: nat)

  function Min(a: nat, b: nat): nat {
    if a <= b then a else b
  }

  /** The requests for one region. */
  function Chunks(address: nat, len: nat, chunk: nat): seq<Request>
    requires len == 0 || 0 < chunk
    decreases len
  {
    if len == 0 then []
    else var n := Min(len, chunk); [Request(address, n)] + Chunks(address + n, len - n, chunk)
  }

  /** A chunk size of zero is no obstacle as long as there is nothing to read. */
  predicate ChunkOk(regions: seq<Region>, chunk: nat) {
    forall i | 0 <= i < |regions| && regions[i].canRead && 0 < regions[i].len :: 0 < chunk
  }

  /** The requests for one region, if it is to be read. */
  function RegionChunks(v: Region, chunk: nat): seq<Request>
    requires v.canRead && 0 < v.len ==> 0 < chunk
  {
    if v.canRead then Chunks(v.address, v.len, chunk) else []
  }

  /** The requests for the first `n` regions in order. */
  function ChunksOfFirst(regions: seq<Region>, n: nat, chunk: nat): seq<Request>
    requires ChunkOk(regions, chunk) && n <= |regions|
  {
    if n == 0 then [] else ChunksOfFirst(regions, n - 1, chunk) + RegionChunks(regions[n - 1], chunk)
  }

  function AllChunks(regions: seq<Region>, chunk: nat): seq<Request>
    requires ChunkOk(regions, chunk)
  {
    ChunksOfFirst(regions, |regions|, chunk)
  }

  /** What one answer adds to the count: an error counts nothing, a read can be short but never longer than asked. */
  function Transferred(request: Request, answer: Option<nat>): nat {
    match answer case None => 0 case Some(n) => Min(n, request.len)
  }

  /** The count after these requests, of which the first was number `first`. */
  function TransferredInAll(requests: seq<Request>, answers: nat -> Option<nat>, first: nat): nat {
    if requests == [] then 0
    else Transferred(requests[0], answers(first)) + TransferredInAll(requests[1..], answers, first + 1)
  }

  lemma {:induction false} TransferredConcat(a: seq<Request>, b: seq<Request>, answers: nat -> Option<nat>, first: nat)
    ensures TransferredInAll(a + b, answers, first) ==
            TransferredInAll(a, answers, first) + TransferredInAll(b, answers, first + |a|)
  {
    if a == [] {
      assert a + b == b;
    } else {
      TransferredConcat(a[1..], b, answers, first + 1);
      assert (a + b)[1..] == a[1..] + b;
    }
  }

  lemma ChunksStep(address: nat, len: nat, chunk: nat, i: nat, part: seq<Request>)
    requires 0 < chunk && i < len && part + Chunks(address + i, len - i, chunk) == Chunks(address, len, chunk)
    ensures var request := Request(address + i, Min(len - i, chunk));
            part + [request] + Chunks(address + i + request.len, len - i - request.len, chunk) == Chunks(address, len, chunk)
  {
  }

  lemma Assoc(a: seq<Request>, b: seq<Request>, c: seq<Request>)
    ensures a + (b + c) == a + b + c
  {
  }

  /** The inner loop: one region, chunk by chunk. */
  method ReadRegion(v: Region, chunk: nat, answers: nat -> Option<nat>, first: nat)
    returns (bytesRead: nat, requests: seq<Request>)
    requires v.canRead && (0 < v.len ==> 0 < chunk)
    ensures requests == RegionChunks(v, chunk)
    ensures bytesRead == TransferredInAll(requests, answers, first)
  {
    bytesRead := 0;
    requests := [];
    var i := 0;
    while i < v.len
      invariant i <= v.len
      invariant requests + Chunks(v.address + i, v.len - i, chunk) == Chunks(v.address, v.len, chunk)
      invariant bytesRead == TransferredInAll(requests, answers, first)
    {
      var request := Request(v.address + i, Min(v.len - i, chunk));
      bytesRead := bytesRead + Transferred(request, answers(first + |requests|));
      TransferredConcat(requests, [request], answers, first);
      ChunksStep(v.address, v.len, chunk, i, requests);
      requests := requests + [request];
      i := i + request.len;
    }
    assert i == v.len;
  }

  /** The kernel's answer to the n-th request is `answers(n)`, whatever that is. A chunk size of zero would never get past a region that has bytes. */
  method ReadAllMaps(regions: seq<Region>, chunk: nat, answers: nat -> Option<nat>) returns (bytesRead: nat, requests: seq<Request>)
    requires ChunkOk(regions, chunk)
    ensures requests == AllChunks(regions, chunk)
    ensures bytesRead == TransferredInAll(requests, answers, 0)
    ensures (forall i | 0 <= i < |requests| :: answers(i).Some? ==> answers(i).value <= requests[i].len) ==>
              bytesRead == Reported(answers, 0, |requests|)
  {
    bytesRead := 0;
    requests := [];
    var r := 0;
    while r < |regions|
      invariant r <= |regions|
      invariant requests == ChunksOfFirst(regions, r, chunk)
      invariant bytesRead == TransferredInAll(requests, answers, 0)
    {
      if regions[r].canRead {
        var n, part := ReadRegion(regions[r], chunk, answers, |requests|);
        TransferredConcat(requests, part, answers, 0);
        bytesRead := bytesRead + n;
        requests := requests + part;
      }
      r := r + 1;
    }
    if forall i | 0 <= i < |requests| :: answers(i).Some? ==> answers(i).value <= requests[i].len {
      CountIsReported(requests, answers, 0);
    }
  }

  // ---- what the requests cover

  /** The addresses from `base` on. */
  function Addresses(base: nat, len: nat): seq<nat>
    decreases len
  {
    if len == 0 then [] else [base] + Addresses(base + 1, len - 1)
  }

  function RequestedBytes(requests: seq<Request>): seq<nat> {
    if requests == [] then []
    else Addresses(requests[0].base, requests[0].len) + RequestedBytes(requests[1..])
  }

  function ReadableBytes(regions: seq<Region>): seq<nat> {
    if regions == [] then []
    else
      var last := regions[|regions| - 1];
      ReadableBytes(regions[..|regions| - 1]) + (if last.canRead then Addresses(last.address, last.len) else [])
  }

  lemma {:induction false} AddressesSplit(base: nat, a: nat, b: nat)
    ensures Addresses(base, a) + Addresses(base + a, b) == Addresses(base, a + b)
    decreases a
  {
    if a == 0 {
      assert [] + Addresses(base, b) == Addresses(base, b);
    } else {
      AddressesSplit(base + 1, a - 1, b);
      assert Addresses(base, a) + Addresses(base + a, b) == [base] + (Addresses(base + 1, a - 1) + Addresses(base + a, b));
    }
  }

  lemma RequestedCons(q: Request, rest: seq<Request>)
    ensures RequestedBytes([q] + rest) == Addresses(q.base, q.len) + RequestedBytes(rest)
  {
  }

  lemma ConcatStep(q: Request, rest: seq<Request>, b: seq<Request>, restBytes: seq<nat>, bBytes: seq<nat>)
    requires RequestedBytes(rest) == restBytes && RequestedBytes(rest + b) == restBytes + bBytes
    ensures RequestedBytes([q] + (rest + b)) == RequestedBytes([q] + rest) + bBytes
  {
  }

  lemma {:induction false} RequestedConcat(a: seq<Request>, b: seq<Request>)
    ensures RequestedBytes(a + b) == RequestedBytes(a) + RequestedBytes(b)
  {
    if a == [] {
      assert a + b == b;
    } else {
      var q, rest := a[0], a[1..];
      RequestedConcat(rest, b);
      ConcatStep(q, rest, b, RequestedBytes(rest), RequestedBytes(b));
      assert [q] + rest == a;
      Assoc([q], rest, b);
    }
  }

  lemma {:induction false} ChunksCover(address: nat, len: nat, chunk: nat)
    requires len == 0 || 0 < chunk
    ensures RequestedBytes(Chunks(address, len, chunk)) == Addresses(address, len)
    decreases len
  {
    if len > 0 {
      var n := Min(len, chunk);
      ChunksCover(address + n, len - n, chunk);
      AddressesSplit(address, n, len - n);
      RequestedCons(Request(address, n), Chunks(address + n, len - n, chunk));
    }
  }

  /** As few requests as the chunk size allows, each within the region. */
  lemma {:induction false} ChunksCount(address: nat, len: nat, chunk: nat)
    requires len == 0 || 0 < chunk
    ensures len == 0 ==> Chunks(address, len, chunk) == []
    ensures 0 < len ==> (|Chunks(address, len, chunk)| - 1) * chunk < len <= |Chunks(address, len, chunk)| * chunk
    ensures forall q | q in Chunks(address, len, chunk) ::
              0 < q.len <= chunk && address <= q.base && q.base + q.len <= address + len
    decreases len
  {
    if len > 0 {
      var n := Min(len, chunk);
      ChunksCount(address + n, len - n, chunk);
      var rest := Chunks(address + n, len - n, chunk);
      OneMoreChunk(|rest|, chunk);
      if rest != [] { OneMoreChunk(|rest| - 1, chunk); }
    }
  }

  lemma OneMoreChunk(n: nat, chunk: nat)
    ensures (n + 1) * chunk == n * chunk + chunk
  {
  }

  ghost predicate Within(q: Request, regions: seq<Region>, chunk: nat) {
    && 0 < q.len <= chunk
    && exists r | r in regions :: r.canRead && r.address <= q.base && q.base + q.len <= r.address + r.len
  }

  lemma {:induction false} FirstPartition(regions: seq<Region>, n: nat, chunk: nat)
    requires ChunkOk(regions, chunk) && n <= |regions|
    ensures RequestedBytes(ChunksOfFirst(regions, n, chunk)) == ReadableBytes(regions[..n])
    ensures forall q | q in ChunksOfFirst(regions, n, chunk) :: Within(q, regions, chunk)
  {
    if n > 0 {
      var v := regions[n - 1];
      FirstPartition(regions, n - 1, chunk);
      if v.canRead {
        ChunksCover(v.address, v.len, chunk);
        ChunksCount(v.address, v.len, chunk);
      }
      RequestedConcat(ChunksOfFirst(regions, n - 1, chunk), RegionChunks(v, chunk));
      assert regions[..n][..n - 1] == regions[..n - 1];
      assert v in regions;
    }
  }

  /**
   The requests ask for exactly the bytes of the readable regions, each once and
   in order; none is empty, exceeds the chunk size or leaves its region.
   */
  lemma RequestsPartition(regions: seq<Region>, chunk: nat)
    requires ChunkOk(regions, chunk)
    ensures RequestedBytes(AllChunks(regions, chunk)) == ReadableBytes(regions)
    ensures forall q | q in AllChunks(regions, chunk) :: Within(q, regions, chunk)
  {
    FirstPartition(regions, |regions|, chunk);
    assert regions[..|regions|] == regions;
  }

  lemma {:induction false} AddressesLength(base: nat, len: nat)
    ensures |Addresses(base, len)| == len
    decreases len
  {
    if len > 0 { AddressesLength(base + 1, len - 1); }
  }

  /** However the reads turn out, the count is at most the number of bytes asked for, and equal to it exactly when every read was complete. */
  lemma {:induction false} CountBounded(requests: seq<Request>, answers: nat -> Option<nat>, first: nat)
    ensures TransferredInAll(requests, answers, first) <= |RequestedBytes(requests)|
    ensures TransferredInAll(requests, answers, first) == |RequestedBytes(requests)| <==>
            forall i | 0 <= i < |requests| :: Transferred(requests[i], answers(first + i)) == requests[i].len
  {
    if requests == [] {
    } else {
      var rest := requests[1..];
      CountBounded(rest, answers, first + 1);
      AddressesLength(requests[0].base, requests[0].len);
      assert forall i | 0 <= i < |rest| :: rest[i] == requests[i + 1] && answers(first + 1 + i) == answers(first + (i + 1));
      if forall i | 0 <= i < |rest| :: Transferred(rest[i], answers(first + 1 + i)) == rest[i].len {
        if Transferred(requests[0], answers(first)) == requests[0].len {
          forall i | 0 <= i < |requests| ensures Transferred(requests[i], answers(first + i)) == requests[i].len {
            if i > 0 { assert rest[i - 1] == requests[i]; }
          }
        }
      }
    }
  }

  /** The numbers that `n` answers report, an error reporting none. */
  function Reported(answers: nat -> Option<nat>, first: nat, n: nat): nat {
    if n == 0 then 0
    else Reported(answers, first, n - 1) + match answers(first + n - 1) case None => 0 case Some(m) => m
  }

  /** A read that fails adds nothing to the count, and one that is short adds its own length: the count is what was reported. */
  lemma {:induction false} CountIsReported(requests: seq<Request>, answers: nat -> Option<nat>, first: nat)
    requires forall i | 0 <= i < |requests| :: answers(first + i).Some? ==> answers(first + i).value <= requests[i].len
    ensures TransferredInAll(requests, answers, first) == Reported(answers, first, |requests|)
  {
    if requests == [] {
    } else {
      var n := |requests| - 1;
      CountIsReported(requests[..n], answers, first);
      TransferredConcat(requests[..n], [requests[n]], answers, first);
      assert requests[..n] + [requests[n]] == requests;
      assert [requests[n]][1..] == [];
    }
  }

  /** From the text of the maps file to the requests: whatever the kernel describes as readable is what is asked for. */
  lemma MapsToRequests(lines: seq<string>, regions: seq<Region>, chunk: nat)
    requires DescribeAll(lines, regions) && ChunkOk(regions, chunk)
    ensures var parsed := ParseMaps(Unlines(lines));
            parsed == Some(regions) && RequestedBytes(AllChunks(parsed.value, chunk)) == ReadableBytes(regions)
  {
    MapsReadBack(lines, regions);
    RequestsPartition(regions, chunk);
  }
}
