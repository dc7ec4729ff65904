/**
 `GenerationLoop::generate_with_cancel`: prefill, then one token per step on the paged cache,
 against a loop that has no cache and reruns the whole sequence for every token.
 */
module Generation {
  import opened Core
  import opened Transformer
  import opened PagedCaching
  import opened PagedEngine
  import opened Sorting

  datatype StopReason = Stop | Length

  datatype Generated = Generated(tokens: seq<nat>, reason: StopReason)

  /**
   What a request fixes.  A sampler is a function of the logits that may fail; `cancelled(n)`
   is what the cancel flag reads when n tokens have been generated.
   */
  datatype Request = Request(
    sample: Row -> Result<nat>,
    stopTokens: set<nat>,
    maxTokens: nat,
    cancelled: nat -> bool)

  // ----- without a cache -----

  /** The rest of a generation that has produced `tokens`; `capacity` rows fit on the device. */
  function NaiveFrom(m: Model, req: Request, maxSeqLen: nat, capacity: nat, prompt: seq<nat>,
                     tokens: seq<nat>): Result<Generated>
    requires prompt != [] && tokens != []
    decreases req.maxTokens - |tokens|
  {
    if |tokens| >= req.maxTokens then Ok(Generated(tokens, Length))
    else if req.cancelled(|tokens|) then Ok(Generated(tokens, Stop))
    else if |prompt| + |tokens| > maxSeqLen then Err(InvalidShape)
    else if |prompt| + |tokens| > capacity then Err(OutOfMemory)
    else
      match req.sample(ReferenceLogits(m, prompt + tokens))
      case Err(e) => Err(e)
      case Ok(t) =>
        if t in req.stopTokens then Ok(Generated(tokens, Stop))
        else NaiveFrom(m, req, maxSeqLen, capacity, prompt, tokens + [t])
  }

  function Naive(m: Model, req: Request, maxSeqLen: nat, capacity: nat, prompt: seq<nat>): Result<Generated> {
    if prompt == [] || |prompt| > maxSeqLen then Err(Error.Generation)
    else if |prompt| > capacity then Err(OutOfMemory)
    else
      match req.sample(ReferenceLogits(m, prompt))
      case Err(e) => Err(e)
      case Ok(t) =>
        if t in req.stopTokens then Ok(Generated([], Stop))
        else NaiveFrom(m, req, maxSeqLen, capacity, prompt, [t])
  }

  lemma {:induction false} NaiveBounded(m: Model, req: Request, maxSeqLen: nat, capacity: nat, prompt: seq<nat>,
                                        tokens: seq<nat>)
    requires prompt != [] && tokens != [] && |tokens| <= AtMost(req)
    requires forall i :: 0 <= i < |tokens| ==> tokens[i] !in req.stopTokens
    ensures var r := NaiveFrom(m, req, maxSeqLen, capacity, prompt, tokens);
            r.Ok? ==> |r.value.tokens| <= AtMost(req) && tokens <= r.value.tokens &&
                      forall i :: 0 <= i < |r.value.tokens| ==> r.value.tokens[i] !in req.stopTokens
    decreases req.maxTokens - |tokens|
  {
    if |tokens| < req.maxTokens {
      var next := req.sample(ReferenceLogits(m, prompt + tokens));
      if next.Ok? && next.value !in req.stopTokens {
        NaiveBounded(m, req, maxSeqLen, capacity, prompt, tokens + [next.value]);
      }
    }
  }

  /**
   Token i is what the sampler gives on the reference logits of all before it and is no stop token;
   before it, everything fitted, the limit was not reached and the flag not raised.
   */
  ghost predicate SampledAt(m: Model, req: Request, maxSeqLen: nat, capacity: nat, prompt: seq<nat>,
                            tokens: seq<nat>, i: nat) {
    i < |tokens| && prompt != [] && |prompt| + i <= maxSeqLen && |prompt| + i <= capacity &&
    (i > 0 ==> i < req.maxTokens && !req.cancelled(i)) &&
    req.sample(ReferenceLogits(m, prompt + tokens[..i])) == Ok(tokens[i]) && tokens[i] !in req.stopTokens
  }

  ghost predicate Sampled(m: Model, req: Request, maxSeqLen: nat, capacity: nat, prompt: seq<nat>, tokens: seq<nat>) {
    forall i :: 0 <= i < |tokens| ==> SampledAt(m, req, maxSeqLen, capacity, prompt, tokens, i)
  }

  /** What ends a generation after these tokens, and how. */
  ghost predicate EndsWith(m: Model, req: Request, maxSeqLen: nat, capacity: nat, prompt: seq<nat>, tokens: seq<nat>,
                           r: Result<Generated>) {
    var n := |tokens|;
    if n == 0 && (prompt == [] || |prompt| > maxSeqLen) then r == Err(Error.Generation)
    else if n > 0 && n >= req.maxTokens then r == Ok(Generated(tokens, Length))
    else if n > 0 && req.cancelled(n) then r == Ok(Generated(tokens, Stop))
    else if |prompt| + n > maxSeqLen then r == Err(InvalidShape)
    else if |prompt| + n > capacity then r == Err(OutOfMemory)
    else
      prompt + tokens != [] &&
      match req.sample(ReferenceLogits(m, prompt + tokens))
      case Err(e) => r == Err(e)
      case Ok(t) => t in req.stopTokens && r == Ok(Generated(tokens, Stop))
  }

  lemma {:induction false} SampledNext(m: Model, req: Request, maxSeqLen: nat, capacity: nat, prompt: seq<nat>,
                                       tokens: seq<nat>, t: nat)
    requires Sampled(m, req, maxSeqLen, capacity, prompt, tokens)
    requires SampledAt(m, req, maxSeqLen, capacity, prompt, tokens + [t], |tokens|)
    ensures Sampled(m, req, maxSeqLen, capacity, prompt, tokens + [t])
  {
    hide ReferenceLogits;
    var all := tokens + [t];
    forall i | 0 <= i < |tokens|
      ensures SampledAt(m, req, maxSeqLen, capacity, prompt, all, i)
    {
      assert SampledAt(m, req, maxSeqLen, capacity, prompt, tokens, i) && all[..i] == tokens[..i];
    }
  }

  lemma {:induction false} NothingSampled(m: Model, req: Request, maxSeqLen: nat, capacity: nat, prompt: seq<nat>)
    ensures Sampled(m, req, maxSeqLen, capacity, prompt, [])
  {
  }

  lemma {:induction false} EndOf(m: Model, req: Request, maxSeqLen: nat, capacity: nat, prompt: seq<nat>,
                                 tokens: seq<nat>) returns (all: seq<nat>)
    requires prompt != [] && |prompt| <= maxSeqLen && tokens != [] &&
             Sampled(m, req, maxSeqLen, capacity, prompt, tokens)
    ensures Sampled(m, req, maxSeqLen, capacity, prompt, all)
    ensures EndsWith(m, req, maxSeqLen, capacity, prompt, all,
                     NaiveFrom(m, req, maxSeqLen, capacity, prompt, tokens))
    decreases req.maxTokens - |tokens|
  {
    hide ReferenceLogits, Sampled;
    all := tokens;
    if |tokens| < req.maxTokens && !req.cancelled(|tokens|) && |prompt| + |tokens| <= maxSeqLen &&
       |prompt| + |tokens| <= capacity {
      var next := req.sample(ReferenceLogits(m, prompt + tokens));
      if next.Ok? && next.value !in req.stopTokens {
        assert (tokens + [next.value])[..|tokens|] == tokens;
        SampledNext(m, req, maxSeqLen, capacity, prompt, tokens, next.value);
        all := EndOf(m, req, maxSeqLen, capacity, prompt, tokens + [next.value]);
      }
    }
  }

  lemma {:induction false} FollowsTo(m: Model, req: Request, maxSeqLen: nat, capacity: nat, prompt: seq<nat>,
                                     all: seq<nat>, k: nat, r: Result<Generated>)
    requires 0 < k <= |all| && Sampled(m, req, maxSeqLen, capacity, prompt, all) && prompt != []
    requires EndsWith(m, req, maxSeqLen, capacity, prompt, all, r)
    ensures NaiveFrom(m, req, maxSeqLen, capacity, prompt, all[..k]) == r
    decreases |all| - k
  {
    hide ReferenceLogits;
    if k == |all| {
      assert all[..k] == all;
    } else {
      FollowsTo(m, req, maxSeqLen, capacity, prompt, all, k + 1, r);
      assert SampledAt(m, req, maxSeqLen, capacity, prompt, all, k);
      assert all[..k + 1] == all[..k] + [all[k]];
    }
  }

  /**
   The cacheless loop without its loop: its result is r iff some tokens, each sampled after those
   before it, end with r.
   */
  lemma {:induction false} NaiveIff(m: Model, req: Request, maxSeqLen: nat, capacity: nat, prompt: seq<nat>,
                                    r: Result<Generated>)
    ensures Naive(m, req, maxSeqLen, capacity, prompt) == r <==>
            exists tokens :: Sampled(m, req, maxSeqLen, capacity, prompt, tokens) &&
                             EndsWith(m, req, maxSeqLen, capacity, prompt, tokens, r)
  {
    hide ReferenceLogits, NaiveFrom;
    if Naive(m, req, maxSeqLen, capacity, prompt) == r { NaiveHasEnd(m, req, maxSeqLen, capacity, prompt); }
    if tokens :| Sampled(m, req, maxSeqLen, capacity, prompt, tokens) &&
                 EndsWith(m, req, maxSeqLen, capacity, prompt, tokens, r) {
      assert prompt + [] == prompt;
      if tokens != [] {
        assert SampledAt(m, req, maxSeqLen, capacity, prompt, tokens, 0) && tokens[..0] == [];
        assert tokens[..1] == [tokens[0]];
        FollowsTo(m, req, maxSeqLen, capacity, prompt, tokens, 1, r);
      }
    }
  }

  lemma {:induction false} NaiveHasEnd(m: Model, req: Request, maxSeqLen: nat, capacity: nat, prompt: seq<nat>)
    ensures exists tokens :: Sampled(m, req, maxSeqLen, capacity, prompt, tokens) &&
                             EndsWith(m, req, maxSeqLen, capacity, prompt, tokens,
                                      Naive(m, req, maxSeqLen, capacity, prompt))
  {
    hide ReferenceLogits, NaiveFrom;
    assert Sampled(m, req, maxSeqLen, capacity, prompt, []) && prompt + [] == prompt;
    if prompt != [] && |prompt| <= maxSeqLen && |prompt| <= capacity {
      var first := req.sample(ReferenceLogits(m, prompt));
      if first.Ok? && first.value !in req.stopTokens {
        assert [first.value][..0] == [];
        SampledNext(m, req, maxSeqLen, capacity, prompt, [], first.value);
        assert [] + [first.value] == [first.value];
        var _ := EndOf(m, req, maxSeqLen, capacity, prompt, [first.value]);
        return;
      }
    }
    assert EndsWith(m, req, maxSeqLen, capacity, prompt, [], Naive(m, req, maxSeqLen, capacity, prompt));
  }

  /** At least one token is generated, whatever the limit. */
  function AtMost(req: Request): nat {
    if req.maxTokens == 0 then 1 else req.maxTokens
  }

  // ----- one cached step -----

  /** With a tight table, what is missing to append n rows is told by the number of rows alone. */
  lemma {:induction false} EnoughBlocks(sb: SequenceBlocks, free: nat, n: nat)
    requires sb.Tight() && sb.lastBlockFill <= BLOCK_SIZE
    ensures BlocksNeeded(sb.lastBlockFill, n) <= free <==> sb.currentLen + n <= BLOCK_SIZE * (free + |sb.blockTable|)
  {
  }

  /** The sequence holds exactly `ids`, and `blocks` blocks are free or its own. */
  ghost predicate Holds(cache: PagedKvCacheManager, m: Model, h: nat, ids: seq<nat>, blocks: nat)
    reads cache, cache.k, cache.v
  {
    cache.Valid() && h in cache.sequences && cache.sequences[h].Tight() && cache.sequences[h].currentLen == |ids| &&
    |cache.freeList| + |cache.sequences[h].blockTable| == blocks && HeldFor(m, cache.Cached(h), ids)
  }

  /** Further ids through the cache: the reference logits of everything so far, as long as it fits. */
  method Advance(cache: PagedKvCacheManager, m: Model, maxSeqLen: nat, ghost seen: seq<nat>, ids: seq<nat>, pos: nat,
                 h: nat, ghost blocks: nat)
    returns (r: Result<Row>)
    requires 0 < |m.layers| == cache.numLayers && ids != [] && pos == |seen| && Holds(cache, m, h, seen, blocks)
    modifies cache`freeList, cache`sequences, cache`places, cache.k, cache.v
    ensures OnlyTouches(cache, h)
    ensures r.Ok? ==> Holds(cache, m, h, seen + ids, blocks)
    ensures r == if |seen| + |ids| > maxSeqLen then Err(InvalidShape)
                 else if |seen| + |ids| > BLOCK_SIZE * blocks then Err(OutOfMemory)
                 else Ok(ReferenceLogits(m, seen + ids))
  {
    hide Placed, BlocksNeeded, NodeCached, HeldFor, Logits, PagedKvCacheManager.Slots, PagedKvCacheManager.Cached;
    var ps := Positions(pos, |ids|);
    EnoughBlocks(cache.sequences[h], |cache.freeList|, |ids|);
    StepIsReference(m, seen, ids, cache.Cached(h));
    assert ps[|ids| - 1] == pos + |ids| - 1;
    r := ForwardPaged(cache, m, maxSeqLen, ids, ps, h);
  }

  // ----- the loop -----

  /** `generate_inner`: on a sequence that holds nothing, the same result as without a cache. */
  method GenerateInner(cache: PagedKvCacheManager, m: Model, maxSeqLen: nat, req: Request, prompt: seq<nat>, h: nat,
                       ghost blocks: nat)
    returns (r: Result<Generated>, sent: seq<nat>)
    requires 0 < |m.layers| == cache.numLayers && 0 < |prompt| <= maxSeqLen && Holds(cache, m, h, [], blocks)
    modifies cache`freeList, cache`sequences, cache`places, cache.k, cache.v
    ensures OnlyTouches(cache, h)
    ensures r == Naive(m, req, maxSeqLen, BLOCK_SIZE * blocks, prompt)
    ensures r.Ok? ==> sent == r.value.tokens
    ensures |sent| <= AtMost(req) && forall i :: 0 <= i < |sent| ==> sent[i] !in req.stopTokens
    ensures Sampled(m, req, maxSeqLen, BLOCK_SIZE * blocks, prompt, sent) &&
            EndsWith(m, req, maxSeqLen, BLOCK_SIZE * blocks, prompt, sent, r)
  {
    hide Holds, ReferenceLogits, Sampled;
    sent := [];
    NothingSampled(m, req, maxSeqLen, BLOCK_SIZE * blocks, prompt);
    assert [] + prompt == prompt && prompt + [] == prompt;
    var logits := Advance(cache, m, maxSeqLen, [], prompt, 0, h, blocks);
    if logits.Err? { r := Err(logits.error); return; }
    var first := req.sample(logits.value);
    if first.Err? { r := Err(first.error); return; }
    if first.value in req.stopTokens {
      r := Ok(Generated([], Stop));
      return;
    }
    var nextToken := first.value;
    var tokens := [nextToken];
    var pos := |prompt|;
    sent := [nextToken];
    assert prompt + tokens[..0] == prompt && tokens[..0] == [] && [] + [nextToken] == tokens;
    SampledNext(m, req, maxSeqLen, BLOCK_SIZE * blocks, prompt, [], nextToken);
    while |tokens| < req.maxTokens
      invariant OnlyTouches(cache, h) && |tokens| > 0 && pos == |prompt| + |tokens| - 1
      invariant nextToken == tokens[|tokens| - 1] && sent == tokens && |tokens| <= AtMost(req)
      invariant forall i :: 0 <= i < |tokens| ==> tokens[i] !in req.stopTokens
      invariant Holds(cache, m, h, prompt + tokens[..|tokens| - 1], blocks)
      invariant Sampled(m, req, maxSeqLen, BLOCK_SIZE * blocks, prompt, tokens)
      invariant Naive(m, req, maxSeqLen, BLOCK_SIZE * blocks, prompt)
             == NaiveFrom(m, req, maxSeqLen, BLOCK_SIZE * blocks, prompt, tokens)
    {
      if req.cancelled(|tokens|) {
        r := Ok(Generated(tokens, Stop));
        return;
      }
      ghost var seen := prompt + tokens[..|tokens| - 1];
      assert seen + [nextToken] == prompt + tokens;
      logits := Advance(cache, m, maxSeqLen, seen, [nextToken], pos, h, blocks);
      if logits.Err? { r := Err(logits.error); return; }
      var next := req.sample(logits.value);
      if next.Err? { r := Err(next.error); return; }
      nextToken := next.value;
      if nextToken in req.stopTokens {
        r := Ok(Generated(tokens, Stop));
        return;
      }
      assert (tokens + [nextToken])[..|tokens|] == tokens;
      SampledNext(m, req, maxSeqLen, BLOCK_SIZE * blocks, prompt, tokens, nextToken);
      sent := sent + [nextToken];
      tokens := tokens + [nextToken];
      pos := pos + 1;
    }
    r := Ok(Generated(tokens, Length));
  }

  /** The same blocks, perhaps in another order. */
  ghost predicate SameBlocks(a: seq<nat>, b: seq<nat>) {
    |a| == |b| && forall x :: x in a <==> x in b
  }

  /** Which blocks are free is determined by the tables. */
  lemma {:induction false} FreeDetermined(places: seq<Place>, freeList: seq<nat>, places': seq<Place>,
                                          freeList': seq<nat>, sequences: map<nat, SequenceBlocks>)
    requires |places| == |places'| && Placed(places, freeList, sequences) && Placed(places', freeList', sequences)
    ensures SameBlocks(freeList, freeList')
  {
    FreeIncluded(places, freeList, places', freeList', sequences);
    FreeIncluded(places', freeList', places, freeList, sequences);
    FreeDistinct(places, freeList, sequences);
    FreeDistinct(places', freeList', sequences);
    SameCount(freeList, freeList');
  }

  lemma {:induction false} FreeDistinct(places: seq<Place>, freeList: seq<nat>, sequences: map<nat, SequenceBlocks>)
    requires Placed(places, freeList, sequences)
    ensures Distinct(freeList)
  {
  }

  lemma {:induction false} FreeIncluded(places: seq<Place>, freeList: seq<nat>, places': seq<Place>,
                                        freeList': seq<nat>, sequences: map<nat, SequenceBlocks>)
    requires |places| == |places'| && Placed(places, freeList, sequences) && Placed(places', freeList', sequences)
    ensures forall x :: x in freeList ==> x in freeList'
  {
    forall x | x in freeList
      ensures x in freeList'
    {
      var i :| 0 <= i < |freeList| && freeList[i] == x;
      match places'[x]
      case FreeAt(j) => assert freeList'[j] == x;
      case UsedAt(_, _) => assert false;
    }
  }

  /**
   `generate_with_cancel`.  The result is that of the cacheless loop, errors and cancellation
   included, with as many rows as the free blocks hold, 16 each; what is sent is what was sampled,
   when it fails as well.  Whatever the result, the sequence is
   gone afterwards, its blocks are free again and every other sequence has what it had.
   */
  method Generate(cache: PagedKvCacheManager, m: Model, maxSeqLen: nat, req: Request, prompt: seq<nat>)
    returns (r: Result<Generated>, sent: seq<nat>)
    requires cache.Valid() && 0 < |m.layers| == cache.numLayers
    modifies cache, cache.k, cache.v
    ensures cache.Valid() && cache.sequences == old(cache.sequences) && SameBlocks(cache.freeList, old(cache.freeList))
    ensures forall g :: g in cache.sequences ==> cache.Slots(g) == old(cache.Slots(g))
    ensures r == Naive(m, req, maxSeqLen, 16 * |old(cache.freeList)|, prompt)
    ensures r.Ok? ==> sent == r.value.tokens
    ensures |sent| <= AtMost(req) && forall i :: 0 <= i < |sent| ==> sent[i] !in req.stopTokens
    ensures Sampled(m, req, maxSeqLen, 16 * |old(cache.freeList)|, prompt, sent) &&
            EndsWith(m, req, maxSeqLen, 16 * |old(cache.freeList)|, prompt, sent, r)
  {
    hide Placed, Naive, Sampled, HeldFor, SameBlocks, PagedKvCacheManager.Slots, PagedKvCacheManager.Cached;
    sent := [];
    FreeDetermined(cache.places, cache.freeList, cache.places, cache.freeList, cache.sequences);
    NaiveRefuses(m, req, maxSeqLen, BLOCK_SIZE * |cache.freeList|, prompt);
    NothingSampled(m, req, maxSeqLen, BLOCK_SIZE * |cache.freeList|, prompt);
    if prompt == [] || |prompt| > maxSeqLen { r := Err(Error.Generation); return; }
    var handle := cache.Alloc();
    if handle.Err? { r := Err(handle.error); return; }
    var h := handle.value;
    NothingHeld(m, cache.Cached(h));
    r, sent := GenerateInner(cache, m, maxSeqLen, req, prompt, h, |old(cache.freeList)|);
    var freed := cache.Free(h);
    assert cache.sequences == old(cache.sequences);
    FreeDetermined(cache.places, cache.freeList, old(cache.places), old(cache.freeList), cache.sequences);
  }

  lemma {:induction false} NaiveRefuses(m: Model, req: Request, maxSeqLen: nat, capacity: nat, prompt: seq<nat>)
    ensures prompt == [] || |prompt| > maxSeqLen ==> Naive(m, req, maxSeqLen, capacity, prompt) == Err(Error.Generation)
    ensures prompt != [] && |prompt| <= maxSeqLen && capacity == 0 ==>
      Naive(m, req, maxSeqLen, capacity, prompt) == Err(OutOfMemory)
  {
  }
}
