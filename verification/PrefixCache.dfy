/** The prefix KV cache: token chunks keyed by a hash chain over all chunks before them. Hashes are
    free, so two chains are equal only when the tokens and their chunking are. */
module PrefixCache {
  import opened Options
  import opened HybridStore

  datatype Hash = Init | Link(prev: Hash, chunk: seq<int>)

  /** All tokens a hash stands for. */
  function TokensOf(h: Hash): seq<int> {
    match h
    case Init => []
    case Link(prev, chunk) => TokensOf(prev) + chunk
  }

  function Chunks<T>(xs: seq<T>, size: nat): seq<seq<T>>
    requires size > 0
  {
    if xs == [] then []
    else
      var n := if |xs| < size then |xs| else size;
      [xs[..n]] + Chunks(xs[n..], size)
  }

  function Hashes(chunks: seq<seq<int>>, prev: Hash): (hs: seq<Hash>)
    ensures |hs| == |chunks|
  {
    if chunks == [] then []
    else [Link(prev, chunks[0])] + Hashes(chunks[1..], Link(prev, chunks[0]))
  }

  function Min(a: nat, b: nat): nat {
    if a < b then a else b
  }

  /** Python's `xs[k:]`. */
  function Drop<T>(xs: seq<T>, k: nat): seq<T> {
    if k <= |xs| then xs[k..] else []
  }

  // ---- The KV of tokens ------------------------------------------------------------------------

  /** The rows of `chunk` after the tokens `before`: each row depends on the tokens up to its own. */
  function Rows<R>(kv: seq<int> -> R, before: seq<int>, chunk: seq<int>): (rows: seq<R>)
    ensures |rows| == |chunk|
  {
    seq(|chunk|, i requires 0 <= i < |chunk| => kv(before + chunk[..i + 1]))
  }

  function KV<R>(kv: seq<int> -> R, tokens: seq<int>): (rows: seq<R>)
    ensures |rows| == |tokens|
  {
    Rows(kv, [], tokens)
  }

  lemma RowsSplit<R>(kv: seq<int> -> R, before: seq<int>, chunk: seq<int>, n: nat)
    requires n <= |chunk|
    ensures Rows(kv, before, chunk)[..n] == Rows(kv, before, chunk[..n])
    ensures Rows(kv, before, chunk)[n..] == Rows(kv, before + chunk[..n], chunk[n..])
  {
    forall i | 0 <= i < n ensures Rows(kv, before, chunk)[i] == Rows(kv, before, chunk[..n])[i] {
      assert chunk[..n][..i + 1] == chunk[..i + 1];
    }
    var tail := Rows(kv, before + chunk[..n], chunk[n..]);
    forall i | n <= i < |chunk| ensures Rows(kv, before, chunk)[i] == tail[i - n] {
      assert before + chunk[..i + 1] == before + chunk[..n] + chunk[n..][..i - n + 1];
    }
  }

  type Cache<!R> = map<Hash, seq<R>>

  /** Every cached chunk holds the KV of its tokens. */
  ghost predicate Sound<R>(m: Cache<R>, kv: seq<int> -> R) {
    forall h :: h in m ==> h.Link? && m[h] == Rows(kv, TokensOf(h.prev), h.chunk)
  }

  // ---- Chunk arithmetic ------------------------------------------------------------------------

  lemma OneChunkLess(k: nat, size: nat)
    requires k > 0
    ensures k * size == (k - 1) * size + size
  {
  }

  lemma {:induction false} SkipChunks<T>(xs: seq<T>, size: nat, k: nat, pos: nat)
    requires size > 0 && pos == k * size <= |xs|
    ensures k <= |Chunks(xs, size)| && Chunks(xs, size)[k..] == Chunks(xs[pos..], size)
    decreases k
  {
    if k == 0 {
      assert xs[0..] == xs;
    } else {
      OneChunkLess(k, size);
      SkipChunks(xs[size..], size, k - 1, pos - size);
      assert xs[size..][pos - size..] == xs[pos..];
      assert Chunks(xs, size)[k..] == Chunks(xs[size..], size)[k - 1..];
    }
  }

  /** `k` times the chunk size. */
  ghost function ChunkPos(k: nat, size: nat): nat {
    if k == 0 then 0 else size + ChunkPos(k - 1, size)
  }

  lemma {:induction false} ChunkPosIs(k: nat, size: nat)
    ensures ChunkPos(k, size) == k * size
  {
    if k == 0 {
    } else {
      OneChunkLess(k, size);
      ChunkPosIs(k - 1, size);
    }
  }

  lemma SliceOfTail<T>(xs: seq<T>, n: nat, start: nat, end: nat)
    requires n <= start <= end <= |xs|
    ensures xs[n..][start - n..end - n] == xs[start..end]
  {
  }

  lemma {:induction false} ChunkFrom<T>(xs: seq<T>, size: nat, i: nat, pos: nat)
    requires size > 0 && i < |Chunks(xs, size)| && pos == ChunkPos(i, size)
    ensures pos < |xs| && Chunks(xs, size)[i] == xs[pos..Min(pos + size, |xs|)]
    decreases i
  {
    if i == 0 {
    } else {
      var n := if |xs| < size then |xs| else size;
      assert Chunks(xs, size)[i] == Chunks(xs[n..], size)[i - 1];
      ChunkFrom(xs[n..], size, i - 1, pos - size);
      SliceOfTail(xs, n, pos, Min(pos + size, |xs|));
    }
  }

  /** Where chunk `i` starts and ends. */
  lemma ChunkStart<T>(xs: seq<T>, size: nat, i: nat, pos: nat)
    requires size > 0 && i < |Chunks(xs, size)| && pos == i * size
    ensures pos < |xs| && Chunks(xs, size)[i] == xs[pos..Min(pos + size, |xs|)]
  {
    ChunkPosIs(i, size);
    ChunkFrom(xs, size, i, pos);
  }

  lemma {:induction false} ChunksReachTo<T>(xs: seq<T>, size: nat)
    requires size > 0
    ensures |xs| <= ChunkPos(|Chunks(xs, size)|, size)
    decreases |xs|
  {
    if xs == [] {
    } else {
      ChunksReachTo(xs[if |xs| < size then |xs| else size..], size);
    }
  }

  /** Consecutive pieces of the chunk size, the last one shorter, and nothing left over. */
  lemma ChunksCut<T>(xs: seq<T>, size: nat)
    requires size > 0
    ensures |xs| <= |Chunks(xs, size)| * size
    ensures forall i :: 0 <= i < |Chunks(xs, size)| ==>
              i * size < |xs| && Chunks(xs, size)[i] == xs[i * size..Min(i * size + size, |xs|)]
  {
    ChunkPosIs(|Chunks(xs, size)|, size);
    ChunksReachTo(xs, size);
    forall i | 0 <= i < |Chunks(xs, size)|
      ensures i * size < |xs| && Chunks(xs, size)[i] == xs[i * size..Min(i * size + size, |xs|)]
    {
      ChunkStart(xs, size, i, i * size);
    }
  }

  lemma FirstChunk(tokens: seq<int>, size: nat, prev: Hash) returns (n: nat, next: Hash)
    requires size > 0 && tokens != []
    ensures n == if |tokens| < size then |tokens| else size
    ensures next == Link(prev, tokens[..n])
    ensures Hashes(Chunks(tokens, size), prev) == [next] + Hashes(Chunks(tokens[n..], size), next)
  {
    n := if |tokens| < size then |tokens| else size;
    next := Link(prev, tokens[..n]);
    assert Chunks(tokens, size)[1..] == Chunks(tokens[n..], size);
  }

  lemma SplitAgain(tokens: seq<int>, before: seq<int>, n: nat, pos: nat)
    requires n <= pos <= |tokens|
    ensures before + tokens[..n] + tokens[n..][..pos - n] == before + tokens[..pos]
    ensures tokens[n..][pos - n..] == tokens[pos..]
  {
  }

  lemma DropCons(x: Hash, xs: seq<Hash>, k: nat)
    requires 0 < k <= |xs| + 1
    ensures ([x] + xs)[k..] == xs[k - 1..]
  {
  }

  lemma {:induction false} SkipFrom(tokens: seq<int>, size: nat, prev: Hash, k: nat, pos: nat) returns (p: Hash)
    requires size > 0 && pos == ChunkPos(k, size) <= |tokens|
    ensures k <= |Hashes(Chunks(tokens, size), prev)|
    ensures Hashes(Chunks(tokens, size), prev)[k..] == Hashes(Chunks(tokens[pos..], size), p)
    ensures TokensOf(p) == TokensOf(prev) + tokens[..pos]
    decreases k
  {
    if k == 0 {
      p := prev;
      assert tokens[0..] == tokens;
      assert TokensOf(prev) + tokens[..0] == TokensOf(prev);
    } else {
      var n, next := FirstChunk(tokens, size, prev);
      p := SkipFrom(tokens[n..], size, next, k - 1, pos - n);
      SplitAgain(tokens, TokensOf(prev), n, pos);
      DropCons(next, Hashes(Chunks(tokens[n..], size), next), k);
    }
  }

  /** The hashes after `k` chunks continue from the hash of those chunks. */
  lemma SkipHashes(tokens: seq<int>, size: nat, prev: Hash, k: nat, pos: nat) returns (p: Hash)
    requires size > 0 && pos == k * size <= |tokens|
    ensures k <= |Chunks(tokens, size)|
    ensures Hashes(Chunks(tokens, size), prev)[k..] == Hashes(Chunks(tokens[pos..], size), p)
    ensures TokensOf(p) == TokensOf(prev) + tokens[..pos]
  {
    ChunkPosIs(k, size);
    p := SkipFrom(tokens, size, prev, k, pos);
  }

  // ---- What is cached --------------------------------------------------------------------------

  /** The tokens of the chunks before the first missing one. */
  function Covered<R>(m: Cache<R>, hashes: seq<Hash>): nat {
    if hashes == [] || hashes[0] !in m || hashes[0].Init? then 0
    else |hashes[0].chunk| + Covered(m, hashes[1..])
  }

  /** The cached chunks before the first missing one, joined. */
  function Gathered<R>(m: Cache<R>, hashes: seq<Hash>): seq<R> {
    if hashes == [] || hashes[0] !in m then [] else m[hashes[0]] + Gathered(m, hashes[1..])
  }

  lemma {:induction false} GatheredIsKV<R>(m: Cache<R>, kv: seq<int> -> R, tokens: seq<int>, size: nat, prev: Hash)
    requires size > 0 && Sound(m, kv)
    ensures var hashes := Hashes(Chunks(tokens, size), prev);
            && Covered(m, hashes) <= |tokens|
            && Gathered(m, hashes) == Rows(kv, TokensOf(prev), tokens[..Covered(m, hashes)])
    decreases |tokens|
  {
    if tokens == [] {
      return;
    }
    var n, next := FirstChunk(tokens, size, prev);
    var others := Hashes(Chunks(tokens[n..], size), next);
    var hashes := [next] + others;
    assert hashes[1..] == others;
    if next in m {
      GatheredIsKV(m, kv, tokens[n..], size, next);
      var c := Covered(m, others);
      JoinRows(kv, TokensOf(prev), tokens, n, c);
    }
  }

  lemma JoinRows<R>(kv: seq<int> -> R, before: seq<int>, tokens: seq<int>, n: nat, c: nat)
    requires n + c <= |tokens|
    ensures Rows(kv, before, tokens[..n]) + Rows(kv, before + tokens[..n], tokens[n..][..c])
            == Rows(kv, before, tokens[..n + c])
  {
    var all := tokens[..n + c];
    RowsSplit(kv, before, all, n);
    assert all[..n] == tokens[..n] && all[n..] == tokens[n..][..c];
  }

  lemma ChunkOf(s: nat, size: nat, pos: nat)
    requires size > 0 && pos == s / size * size
    ensures s - size < pos <= s
  {
  }

  /** What looking up `hashes` gathers when they start at position `pos` of the tokens. */
  ghost predicate Yields<R>(m: Cache<R>, kv: seq<int> -> R, tokens: seq<int>, size: nat, s: nat, pos: nat,
                            hashes: seq<Hash>)
  {
    && pos <= s && pos + Covered(m, hashes) <= |tokens|
    && var end := pos + Covered(m, hashes);
       if hashes != [] && hashes[0] in m
       then && s <= end && s - pos <= |m[hashes[0]]| <= size
            && |Gathered(m, hashes)| == end - pos && Gathered(m, hashes)[s - pos..] == KV(kv, tokens)[s..end]
       else end == pos && Gathered(m, hashes) == []
  }

  lemma FromChunk<R>(m: Cache<R>, kv: seq<int> -> R, tokens: seq<int>, size: nat, s: nat, pos: nat, hashes: seq<Hash>)
    requires pos <= s <= |tokens| && Covered(m, hashes) <= |tokens| - pos
    requires Gathered(m, hashes) == Rows(kv, tokens[..pos], tokens[pos..][..Covered(m, hashes)])
    requires hashes != [] && hashes[0] in m ==> s - pos <= |m[hashes[0]]| <= size && s - pos <= Covered(m, hashes)
    requires hashes == [] || hashes[0] !in m ==> Covered(m, hashes) == 0 && Gathered(m, hashes) == []
    ensures Yields(m, kv, tokens, size, s, pos, hashes)
  {
    if hashes != [] && hashes[0] in m {
      RowsOfSuffix(kv, tokens, pos, Covered(m, hashes), s);
    }
  }

  /** The retrieved rows from token `s` on: the gathered chunks without the rows before `s`. */
  lemma RetrievedIsKV<R>(m: Cache<R>, kv: seq<int> -> R, tokens: seq<int>, size: nat, s: nat, pos: nat)
    requires size > 0 && Sound(m, kv) && s <= |tokens|
    requires pos == s / size * size
    ensures Yields(m, kv, tokens, size, s, pos, Sought(tokens, size, s))
  {
    ChunkOf(s, size, pos);
    var p := SkipHashes(tokens, size, Init, s / size, pos);
    var hashes := Sought(tokens, size, s);
    assert hashes == Hashes(Chunks(tokens[pos..], size), p);
    assert TokensOf(p) == tokens[..pos];
    GatheredIsKV(m, kv, tokens[pos..], size, p);
    FirstHit(m, kv, tokens[pos..], size, p, hashes, s - pos);
    FromChunk(m, kv, tokens, size, s, pos, hashes);
  }

  /** A hit covers its first chunk, which reaches past every token of it that may be masked out. */
  lemma FirstHit<R>(m: Cache<R>, kv: seq<int> -> R, rest: seq<int>, size: nat, p: Hash, hashes: seq<Hash>, extra: nat)
    requires size > 0 && Sound(m, kv) && extra < size && extra <= |rest|
    requires hashes == Hashes(Chunks(rest, size), p)
    ensures hashes != [] && hashes[0] in m ==> extra <= |m[hashes[0]]| <= size && extra <= Covered(m, hashes)
    ensures hashes == [] || hashes[0] !in m ==> Covered(m, hashes) == 0 && Gathered(m, hashes) == []
  {
    if rest != [] {
      var n, next := FirstChunk(rest, size, p);
    }
  }

  lemma RowsOfSuffix<R>(kv: seq<int> -> R, tokens: seq<int>, pos: nat, c: nat, s: nat)
    requires pos <= s <= pos + c <= |tokens|
    ensures Rows(kv, tokens[..pos], tokens[pos..][..c])[s - pos..] == KV(kv, tokens)[s..pos + c]
  {
    var whole := KV(kv, tokens);
    RowsSplit(kv, [], tokens, pos);
    assert [] + tokens[..pos] == tokens[..pos];
    RowsSplit(kv, tokens[..pos], tokens[pos..], c);
    assert whole[pos..][..c] == whole[pos..pos + c];
    assert whole[pos..pos + c][s - pos..] == whole[s..pos + c];
  }

  function Joined<R>(parts: seq<seq<R>>): seq<R> {
    if parts == [] then [] else parts[0] + Joined(parts[1..])
  }

  lemma {:induction false} JoinedAppend<R>(parts: seq<seq<R>>, last: seq<R>)
    ensures Joined(parts + [last]) == Joined(parts) + last
  {
    if parts == [] {
      assert (parts + [last])[1..] == [];
    } else {
      assert (parts + [last])[1..] == parts[1..] + [last];
      JoinedAppend(parts[1..], last);
    }
  }

  /** `torch.split` of the rows from `start` on: one empty piece when nothing is left. */
  function SliceAt<R>(rows: seq<R>, start: nat, size: nat): (pieces: seq<seq<R>>)
    requires size > 0
    ensures pieces != []
    ensures start <= |rows| <= start + size ==> pieces[0] == rows[start..]
  {
    if Drop(rows, start) == [] then [[]] else Chunks(Drop(rows, start), size)
  }

  lemma NextChunk(tokens: seq<int>, i: nat, size: nat)
    requires size > 0 && i < |tokens|
    ensures Chunks(Drop(tokens, i), size)
            == [tokens[i..Min(i + size, |tokens|)]] + Chunks(Drop(tokens, i + size), size)
  {
    var rest, end := tokens[i..], Min(i + size, |tokens|);
    assert rest[..end - i] == tokens[i..end];
    assert rest[end - i..] == Drop(tokens, i + size);
  }

  /** The hashes looked up when the first `s` tokens are masked out. */
  function Sought(tokens: seq<int>, size: nat, s: nat): seq<Hash>
    requires size > 0
  {
    Drop(Hashes(Chunks(tokens, size), Init), s / size)
  }

  /** Where the cached stretch that starts at the chunk of token `s` ends. */
  function CachedEnd<R>(m: Cache<R>, tokens: seq<int>, size: nat, s: nat): nat
    requires size > 0
  {
    s / size * size + Covered(m, Sought(tokens, size, s))
  }

  ghost predicate Hit<R>(m: Cache<R>, tokens: seq<int>, size: nat, s: nat)
    requires size > 0
  {
    var hashes := Sought(tokens, size, s);
    hashes != [] && hashes[0] in m
  }

  /** The result of a retrieval: nothing at all, or the rows joined. */
  datatype Retrieved<R> = Nothing | Found(rows: seq<R>)

  /** Cutting the front off the first part cuts it off the whole. */
  lemma JoinedTail<R>(parts: seq<seq<R>>, first: seq<R>, extra: nat)
    requires parts != [] && extra <= |parts[0]| && first == parts[0][extra..]
    ensures extra <= |Joined(parts)| && Joined([first] + parts[1..]) == Joined(parts)[extra..]
  {
    assert ([first] + parts[1..])[1..] == parts[1..];
  }

  class LMCacheEngine<R(==)> {
    const chunkSize: nat
    const backend: HybridBackend<Hash, seq<R>>

    ghost predicate Valid()
      reads this, backend
    {
      chunkSize > 0 && backend.Valid()
    }

    constructor (chunkSize: nat, backend: HybridBackend<Hash, seq<R>>)
      requires chunkSize > 0 && backend.Valid()
      ensures Valid() && this.chunkSize == chunkSize && this.backend == backend
    {
      this.chunkSize, this.backend := chunkSize, backend;
    }

    method ChunkTokens(tokens: seq<int>) returns (chunks: seq<seq<int>>)
      requires chunkSize > 0
      ensures chunks == Chunks(tokens, chunkSize)
    {
      chunks := [];
      var i := 0;
      ghost var all := Chunks(tokens, chunkSize);
      ghost var rest := all;
      while i < |tokens|
        invariant rest == Chunks(Drop(tokens, i), chunkSize) && all == chunks + rest
      {
        NextChunk(tokens, i, chunkSize);
        chunks := chunks + [tokens[i..Min(i + chunkSize, |tokens|)]];
        rest := Chunks(Drop(tokens, i + chunkSize), chunkSize);
        i := i + chunkSize;
      }
    }

    method PrefixHash(chunks: seq<seq<int>>, skip: nat) returns (hashes: seq<Hash>)
      ensures hashes == Drop(Hashes(chunks, Init), skip)
    {
      var prev := Init;
      hashes := [];
      for i := 0 to |chunks|
        invariant hashes + Hashes(chunks[i..], prev) == Hashes(chunks, Init)
      {
        prev := Link(prev, chunks[i]);
        hashes := hashes + [prev];
        assert chunks[i..][1..] == chunks[i + 1..];
      }
      return Drop(hashes, skip);
    }

    /** How many leading tokens are cached. */
    method Lookup(tokens: seq<int>) returns (count: nat)
      requires Valid()
      ensures count == Covered(backend.remote, Hashes(Chunks(tokens, chunkSize), Init)) <= |tokens|
    {
      var chunks := ChunkTokens(tokens);
      var hashes := PrefixHash(chunks, 0);
      count := 0;
      var i := 0;
      ghost var prev := Init;
      assert tokens[0..] == tokens;
      while i < |hashes|
        invariant i <= |hashes| && count <= |tokens|
        invariant hashes[i..] == Hashes(Chunks(tokens[count..], chunkSize), prev)
        invariant count + Covered(backend.remote, hashes[i..]) == Covered(backend.remote, hashes)
      {
        var cached := backend.Contains(hashes[i]);
        ghost var n;
        ghost var next;
        n, next := FirstChunk(tokens[count..], chunkSize, prev);
        assert hashes[i] == next && hashes[i..][1..] == hashes[i + 1..];
        if !cached {
          assert tokens[count..] != [];
          return;
        }
        assert tokens[count..][n..] == tokens[count + n..];
        count := Min(count + chunkSize, |tokens|);
        prev := next;
        i := i + 1;
      }
    }

    /** The chunks before the first miss. */
    method TakeHits(values: seq<Option<seq<R>>>, ghost hashes: seq<Hash>) returns (hits: seq<seq<R>>)
      requires |values| == |hashes|
      requires forall i :: 0 <= i < |values| ==> values[i] == HybridStore.Lookup(backend.remote, hashes[i])
      ensures Joined(hits) == Gathered(backend.remote, hashes)
      ensures hits == [] <==> hashes == [] || hashes[0] !in backend.remote
      ensures hits != [] ==> hits[0] == backend.remote[hashes[0]]
    {
      hits := [];
      var i := 0;
      assert hashes[0..] == hashes;
      while i < |values|
        invariant i <= |values| && |hits| == i
        invariant Joined(hits) + Gathered(backend.remote, hashes[i..]) == Gathered(backend.remote, hashes)
        invariant hits != [] ==> hashes[0] in backend.remote && hits[0] == backend.remote[hashes[0]]
      {
        if values[i].None? {
          return;
        }
        JoinedAppend(hits, values[i].value);
        assert hashes[i..][1..] == hashes[i + 1..];
        hits := hits + [values[i].value];
        i := i + 1;
      }
    }

    /** Drop the rows before the first wanted token and join. */
    method JoinFrom(hits: seq<seq<R>>, extra: nat) returns (rows: seq<R>)
      requires chunkSize > 0 && hits != [] && extra <= |hits[0]| <= chunkSize
      ensures extra <= |Joined(hits)| && rows == Joined(hits)[extra..]
    {
      var first := SliceAt(hits[0], extra, chunkSize)[0];
      rows := Joined([first] + hits[1..]);
      JoinedTail(hits, first, extra);
    }

    /** The cached chunks after the skipped ones, up to the first miss. */
    method FetchHits(tokens: seq<int>, skipChunks: nat, lost: nat -> set<Hash>) returns (hits: seq<seq<R>>)
      requires Valid()
      modifies backend`local
      ensures Valid()
      ensures var hashes := Drop(Hashes(Chunks(tokens, chunkSize), Init), skipChunks);
              && Joined(hits) == Gathered(backend.remote, hashes)
              && (hits == [] <==> hashes == [] || hashes[0] !in backend.remote)
              && (hits != [] ==> hits[0] == backend.remote[hashes[0]])
    {
      var chunks := ChunkTokens(tokens);
      var hashes := PrefixHash(chunks, skipChunks);
      var values := backend.BatchedGet(hashes, lost);
      hits := TakeHits(values, hashes);
    }

    /** Retrieve with the first `s` tokens masked out: exactly the KV of the tokens from `s` to the
        first missing chunk, and the mask says exactly which tokens those are. */
    method Retrieve(tokens: seq<int>, s: nat, lost: nat -> set<Hash>, ghost kv: seq<int> -> R)
      returns (r: Retrieved<R>, mask: seq<bool>)
      requires Valid() && Sound(backend.remote, kv) && s <= |tokens|
      modifies backend`local
      ensures Valid() && CachedEnd(backend.remote, tokens, chunkSize, s) <= |tokens| == |mask|
      ensures r.Found? <==> Hit(backend.remote, tokens, chunkSize, s)
      ensures var end := CachedEnd(backend.remote, tokens, chunkSize, s);
              && (r.Found? ==> s <= end && r.rows == KV(kv, tokens)[s..end])
              && forall i :: 0 <= i < |tokens| ==> (mask[i] <==> s <= i < end)
    {
      var skipChunks := s / chunkSize;
      var hits := FetchHits(tokens, skipChunks, lost);
      RetrievedIsKV(backend.remote, kv, tokens, chunkSize, s, skipChunks * chunkSize);
      r, mask := FromHits(tokens, s, skipChunks * chunkSize, hits, CachedEnd(backend.remote, tokens, chunkSize, s), kv);
    }

    /** The answer, once the chunks before the first miss are known to reach from `pos` to `end`. */
    method FromHits(tokens: seq<int>, s: nat, pos: nat, hits: seq<seq<R>>, ghost end: nat, ghost kv: seq<int> -> R)
      returns (r: Retrieved<R>, mask: seq<bool>)
      requires chunkSize > 0 && pos <= s <= |tokens| && pos <= end <= |tokens|
      requires hits == [] ==> end == pos
      requires hits != [] ==>
                 && s <= end && s - pos <= |hits[0]| <= chunkSize
                 && |Joined(hits)| == end - pos && Joined(hits)[s - pos..] == KV(kv, tokens)[s..end]
      ensures r.Found? <==> hits != []
      ensures r.Found? ==> s <= end && r.rows == KV(kv, tokens)[s..end]
      ensures |mask| == |tokens| && forall i :: 0 <= i < |tokens| ==> (mask[i] <==> s <= i < end)
    {
      if hits == [] {
        return Nothing, seq(|tokens|, _ => false);
      }
      var rows := JoinFrom(hits, s - pos);
      return Found(rows), seq(|tokens|, i => s <= i < s + |rows|);
    }

    /** The first chunk that is not cached, and its first token. */
    method FirstMissing(hashes: seq<Hash>, numTokens: nat) returns (start: Option<nat>, i: nat)
      requires Valid()
      requires forall j :: 0 <= j < |hashes| ==> j * chunkSize < numTokens
      ensures i == Leading(backend.remote, hashes)
      ensures start == if i < |hashes| then Some(i * chunkSize) else None
    {
      i := 0;
      var idx := 0;
      assert hashes[0..] == hashes;
      while i < |hashes| && idx < numTokens
        invariant i <= |hashes| && idx == i * chunkSize
        invariant Leading(backend.remote, hashes) == i + Leading(backend.remote, hashes[i..])
      {
        var cached := backend.Contains(hashes[i]);
        assert hashes[i..][1..] == hashes[i + 1..];
        if !cached {
          return Some(idx), i;
        }
        idx, i := idx + chunkSize, i + 1;
      }
      start := None;
    }

    /** The key and rows of every chunk to store, from the first missing one on. */
    method MakeChunks(tokens: seq<int>, rows: seq<R>, skipChunks: nat, skipExisting: bool)
      returns (pairs: seq<(Hash, seq<R>)>)
      requires Valid() && |tokens| == |rows| + skipChunks * chunkSize && (!skipExisting ==> skipChunks == 0)
      ensures pairs == ToStore(backend.remote, tokens, rows, chunkSize, skipChunks, skipExisting)
    {
      var chunks := ChunkTokens(tokens);
      var hashes := PrefixHash(chunks, skipChunks);
      SameChunking(tokens, rows, chunkSize, skipChunks);
      if !skipExisting {
        assert Drop(rows, 0) == rows;
        pairs := Zip(hashes, SliceAt(rows, 0, chunkSize));
        assert pairs == Zip(hashes, Chunks(rows, chunkSize));
        return;
      }
      forall j | 0 <= j < |hashes| ensures j * chunkSize < |rows| {
        ChunkStart(rows, chunkSize, j, j * chunkSize);
      }
      var start, i := FirstMissing(hashes, |rows|);
      if start.None? {
        return [];
      }
      SkipChunks(rows, chunkSize, i, start.value);
      ZipDrop(hashes, Chunks(rows, chunkSize), i);
      return Zip(hashes[i..], SliceAt(rows, start.value, chunkSize));
    }

    /** Store the rows of all but the first `s` tokens. */
    method Store(tokens: seq<int>, rows: seq<R>, s: nat, skipExisting: bool, lost: nat -> set<Hash>)
      returns (r: StoreResult)
      requires Valid() && s <= |tokens|
      modifies backend
      ensures Valid() && r == CheckStore(|tokens|, |rows|, s, chunkSize, skipExisting)
      ensures r.MaskWithoutSkip? <==> s > 0 && !skipExisting
      ensures r.MisalignedMask? <==> skipExisting && s % chunkSize != 0
      ensures r.Stored? <==> (s == 0 || skipExisting) && s % chunkSize == 0 && |rows| == |tokens| - s
      ensures backend.remote == AfterStore(old(backend.remote), tokens, rows, chunkSize, s, skipExisting)
    {
      if !(s == 0 || skipExisting) {
        return MaskWithoutSkip;
      }
      var skipChunks := s / chunkSize;
      if s != skipChunks * chunkSize {
        return MisalignedMask;
      }
      if |tokens| != |rows| + s {
        return LengthMismatch;
      }
      var pairs := MakeChunks(tokens, rows, skipChunks, skipExisting);
      var _ := backend.BatchedPut(pairs, lost);
      return Stored;
    }
  }

  // ---- Storing ---------------------------------------------------------------------------------

  function Zip<A, B>(xs: seq<A>, ys: seq<B>): (zs: seq<(A, B)>)
    ensures |zs| == Min(|xs|, |ys|)
    ensures forall i :: 0 <= i < |zs| ==> zs[i] == (xs[i], ys[i])
  {
    seq(Min(|xs|, |ys|), i requires 0 <= i < Min(|xs|, |ys|) => (xs[i], ys[i]))
  }

  lemma ZipDrop<A, B>(xs: seq<A>, ys: seq<B>, i: nat)
    requires i <= |xs| == |ys|
    ensures Zip(xs[i..], ys[i..]) == Zip(xs, ys)[i..]
  {
  }

  lemma ZipFront<A, B>(x: A, xs: seq<A>, y: B, ys: seq<B>)
    ensures Zip([x] + xs, [y] + ys) == [(x, y)] + Zip(xs, ys)
  {
  }

  /** How many hashes from the start are cached. */
  function Leading<R>(m: Cache<R>, hashes: seq<Hash>): (n: nat)
    ensures n <= |hashes|
  {
    if hashes == [] || hashes[0] !in m then 0 else 1 + Leading(m, hashes[1..])
  }

  function ToStore<R>(m: Cache<R>, tokens: seq<int>, rows: seq<R>, size: nat, skipChunks: nat, skipExisting: bool)
    : seq<(Hash, seq<R>)>
    requires size > 0
  {
    var hashes := Drop(Hashes(Chunks(tokens, size), Init), skipChunks);
    var pairs := Zip(hashes, Chunks(rows, size));
    if skipExisting then Drop(pairs, Leading(m, hashes)) else pairs
  }

  lemma {:induction false} EqualChunks<A, B>(xs: seq<A>, ys: seq<B>, size: nat)
    requires size > 0 && |xs| == |ys|
    ensures |Chunks(xs, size)| == |Chunks(ys, size)|
    decreases |xs|
  {
    if xs == [] {
    } else {
      var n := if |xs| < size then |xs| else size;
      EqualChunks(xs[n..], ys[n..], size);
    }
  }

  lemma SameChunking<R>(tokens: seq<int>, rows: seq<R>, size: nat, skipChunks: nat)
    requires size > 0 && |tokens| == |rows| + skipChunks * size
    ensures |Drop(Hashes(Chunks(tokens, size), Init), skipChunks)| == |Chunks(rows, size)|
  {
    var pos := skipChunks * size;
    SkipChunks(tokens, size, skipChunks, pos);
    EqualChunks(tokens[pos..], rows, size);
  }

  datatype StoreResult = Stored | MaskWithoutSkip | MisalignedMask | LengthMismatch

  function CheckStore(numTokens: nat, numRows: nat, s: nat, size: nat, skipExisting: bool): StoreResult
    requires size > 0
  {
    if s != 0 && !skipExisting then MaskWithoutSkip
    else if s % size != 0 then MisalignedMask
    else if numTokens != numRows + s then LengthMismatch
    else Stored
  }

  function AfterStore<R>(m: Cache<R>, tokens: seq<int>, rows: seq<R>, size: nat, s: nat, skipExisting: bool): Cache<R>
    requires size > 0
  {
    if CheckStore(|tokens|, |rows|, s, size, skipExisting).Stored?
    then Written(m, ToStore(m, tokens, rows, size, s / size, skipExisting))
    else m
  }

  ghost predicate GoodPair<R>(kv: seq<int> -> R, pair: (Hash, seq<R>)) {
    pair.0.Link? && pair.1 == Rows(kv, TokensOf(pair.0.prev), pair.0.chunk)
  }

  ghost predicate GoodPairs<R>(kv: seq<int> -> R, pairs: seq<(Hash, seq<R>)>) {
    forall i :: 0 <= i < |pairs| ==> GoodPair(kv, pairs[i])
  }

  lemma GoodFront<R>(kv: seq<int> -> R, pair: (Hash, seq<R>), pairs: seq<(Hash, seq<R>)>)
    requires GoodPair(kv, pair) && GoodPairs(kv, pairs)
    ensures GoodPairs(kv, [pair] + pairs)
  {
  }

  lemma GoodDrop<R>(kv: seq<int> -> R, pairs: seq<(Hash, seq<R>)>, k: nat)
    requires GoodPairs(kv, pairs)
    ensures GoodPairs(kv, Drop(pairs, k))
  {
  }

  lemma {:induction false} PairsSound<R>(kv: seq<int> -> R, rest: seq<int>, rows: seq<R>, size: nat, p: Hash)
    requires size > 0 && rows == Rows(kv, TokensOf(p), rest)
    ensures GoodPairs(kv, Zip(Hashes(Chunks(rest, size), p), Chunks(rows, size)))
    decreases |rest|
  {
    if rest == [] {
    } else {
      var n, next := FirstChunk(rest, size, p);
      RowsSplit(kv, TokensOf(p), rest, n);
      PairsSound(kv, rest[n..], rows[n..], size, next);
      var hashes, chunks := Hashes(Chunks(rest[n..], size), next), Chunks(rows[n..], size);
      GoodFront(kv, (next, rows[..n]), Zip(hashes, chunks));
      ZipFront(next, hashes, rows[..n], chunks);
      assert Chunks(rows, size) == [rows[..n]] + chunks;
    }
  }

  lemma {:induction false} WrittenSound<R>(m: Cache<R>, kv: seq<int> -> R, pairs: seq<(Hash, seq<R>)>)
    requires Sound(m, kv) && GoodPairs(kv, pairs)
    ensures Sound(Written(m, pairs), kv)
    decreases |pairs|
  {
    if pairs == [] {
    } else {
      WrittenSound(m, kv, pairs[..|pairs| - 1]);
      assert GoodPair(kv, pairs[|pairs| - 1]);
    }
  }

  lemma {:induction false} LeadingPresent<R>(m: Cache<R>, hashes: seq<Hash>)
    ensures forall i :: 0 <= i < Leading(m, hashes) ==> hashes[i] in m
    ensures Leading(m, hashes) < |hashes| ==> hashes[Leading(m, hashes)] !in m
  {
    if hashes != [] && hashes[0] in m {
      LeadingPresent(m, hashes[1..]);
      forall i | 0 < i < Leading(m, hashes) ensures hashes[i] in m {
        assert hashes[i] == hashes[1..][i - 1];
      }
    }
  }

  lemma {:induction false} CoveredChunks<R>(m: Cache<R>, tokens: seq<int>, size: nat, prev: Hash)
    requires size > 0
    ensures var hashes := Hashes(Chunks(tokens, size), prev);
            Covered(m, hashes) == Min(ChunkPos(Leading(m, hashes), size), |tokens|)
    decreases |tokens|
  {
    if tokens == [] {
    } else {
      var n, next := FirstChunk(tokens, size, prev);
      var others := Hashes(Chunks(tokens[n..], size), next);
      assert ([next] + others)[1..] == others;
      CoveredChunks(m, tokens[n..], size, next);
    }
  }

  /** The cached tokens end with the last chunk before the first missing one. */
  lemma CachedTokens<R>(m: Cache<R>, tokens: seq<int>, size: nat, n: nat)
    requires size > 0 && n == Leading(m, Hashes(Chunks(tokens, size), Init))
    ensures var hashes := Hashes(Chunks(tokens, size), Init);
            && Covered(m, hashes) == Min(n * size, |tokens|)
            && (forall i :: 0 <= i < n ==> hashes[i] in m) && (n < |hashes| ==> hashes[n] !in m)
  {
    CoveredChunks(m, tokens, size, Init);
    ChunkPosIs(n, size);
    LeadingPresent(m, Hashes(Chunks(tokens, size), Init));
  }

  // ---- What a store writes ---------------------------------------------------------------------

  function Depth(h: Hash): nat {
    match h
    case Init => 0
    case Link(prev, _) => Depth(prev) + 1
  }

  lemma {:induction false} HashDepth(chunks: seq<seq<int>>, prev: Hash, i: nat)
    requires i < |chunks|
    ensures Depth(Hashes(chunks, prev)[i]) == Depth(prev) + i + 1
    decreases i
  {
    if i == 0 {
    } else {
      HashDepth(chunks[1..], Link(prev, chunks[0]), i - 1);
    }
  }

  /** The hashes of a prompt's chunks are all different. */
  lemma HashesDiffer(chunks: seq<seq<int>>, skip: nat, i: nat, j: nat)
    requires i < j < |Drop(Hashes(chunks, Init), skip)|
    ensures Drop(Hashes(chunks, Init), skip)[i] != Drop(Hashes(chunks, Init), skip)[j]
  {
    HashDepth(chunks, Init, skip + i);
    HashDepth(chunks, Init, skip + j);
  }

  /** What a store leaves under the hashes of its prompt: its rows from the first missing chunk on, and
      before that what was cached; nothing else changes. */
  ghost predicate StoredFrom<R>(m: Cache<R>, after: Cache<R>, hashes: seq<Hash>, chunks: seq<seq<R>>, first: nat)
    requires first <= |hashes| == |chunks|
  {
    && (forall i :: first <= i < |hashes| ==> hashes[i] in after && after[hashes[i]] == chunks[i])
    && (forall i :: 0 <= i < first ==> hashes[i] in m && hashes[i] in after && after[hashes[i]] == m[hashes[i]])
    && (forall h :: h !in hashes ==> HybridStore.Lookup(after, h) == HybridStore.Lookup(m, h))
  }

  lemma WritesRest<R>(m: Cache<R>, after: Cache<R>, hashes: seq<Hash>, chunks: seq<seq<R>>, first: nat)
    requires first <= |hashes| == |chunks| && after == Written(m, Drop(Zip(hashes, chunks), first))
    requires forall i, j :: 0 <= i < j < |hashes| ==> hashes[i] != hashes[j]
    requires forall i :: 0 <= i < first ==> hashes[i] in m
    ensures StoredFrom(m, after, hashes, chunks, first)
  {
    var pairs := Drop(Zip(hashes, chunks), first);
    assert forall k :: 0 <= k < |pairs| ==> pairs[k] == (hashes[first + k], chunks[first + k]);
    LastWriteStays(m, pairs);
    forall i | first <= i < |hashes| ensures hashes[i] in after && after[hashes[i]] == chunks[i] {
      assert pairs[i - first] == (hashes[i], chunks[i]);
    }
    forall i | 0 <= i < first ensures HybridStore.Lookup(after, hashes[i]) == HybridStore.Lookup(m, hashes[i]) {
      assert forall k :: 0 <= k < |pairs| ==> pairs[k].0 != hashes[i];
    }
    forall i | 0 <= i < first ensures hashes[i] in after && after[hashes[i]] == m[hashes[i]] {
      assert HybridStore.Lookup(after, hashes[i]) == HybridStore.Lookup(m, hashes[i]);
    }
  }

  lemma AlignedMask(s: nat, size: nat)
    requires size > 0 && s % size == 0
    ensures s / size * size == s
  {
  }

  lemma SoughtDiffer(tokens: seq<int>, size: nat, s: nat)
    requires size > 0
    ensures forall i, j :: 0 <= i < j < |Sought(tokens, size, s)| ==>
              Sought(tokens, size, s)[i] != Sought(tokens, size, s)[j]
  {
    forall i, j | 0 <= i < j < |Sought(tokens, size, s)|
      ensures Sought(tokens, size, s)[i] != Sought(tokens, size, s)[j]
    {
      HashesDiffer(Chunks(tokens, size), s / size, i, j);
    }
  }

  lemma SoughtSized<R>(tokens: seq<int>, rows: seq<R>, size: nat, s: nat)
    requires size > 0 && s % size == 0 && |tokens| == |rows| + s
    ensures |Sought(tokens, size, s)| == |Chunks(rows, size)|
  {
    AlignedMask(s, size);
    SameChunking(tokens, rows, size, s / size);
  }

  lemma StoreIs<R>(m: Cache<R>, tokens: seq<int>, rows: seq<R>, size: nat, s: nat, skipExisting: bool, first: nat)
    requires size > 0 && CheckStore(|tokens|, |rows|, s, size, skipExisting).Stored?
    requires first == if skipExisting then Leading(m, Sought(tokens, size, s)) else 0
    ensures AfterStore(m, tokens, rows, size, s, skipExisting)
            == Written(m, Drop(Zip(Sought(tokens, size, s), Chunks(rows, size)), first))
  {
    var pairs := Zip(Sought(tokens, size, s), Chunks(rows, size));
    assert Drop(pairs, 0) == pairs;
  }

  lemma StoreWrites<R>(m: Cache<R>, tokens: seq<int>, rows: seq<R>, size: nat, s: nat, skipExisting: bool, first: nat)
    requires size > 0 && CheckStore(|tokens|, |rows|, s, size, skipExisting).Stored?
    requires first == if skipExisting then Leading(m, Sought(tokens, size, s)) else 0
    ensures |Sought(tokens, size, s)| == |Chunks(rows, size)|
    ensures StoredFrom(m, AfterStore(m, tokens, rows, size, s, skipExisting), Sought(tokens, size, s),
                       Chunks(rows, size), first)
  {
    SoughtSized(tokens, rows, size, s);
    SoughtDiffer(tokens, size, s);
    LeadingPresent(m, Sought(tokens, size, s));
    StoreIs(m, tokens, rows, size, s, skipExisting, first);
    WritesRest(m, AfterStore(m, tokens, rows, size, s, skipExisting), Sought(tokens, size, s), Chunks(rows, size),
               first);
  }

  lemma {:induction false} AllCovered<R>(m: Cache<R>, rest: seq<int>, size: nat, p: Hash)
    requires size > 0
    requires forall h :: h in Hashes(Chunks(rest, size), p) ==> h in m
    ensures Covered(m, Hashes(Chunks(rest, size), p)) == |rest|
    decreases |rest|
  {
    if rest == [] {
    } else {
      var n, next := FirstChunk(rest, size, p);
      var others := Hashes(Chunks(rest[n..], size), next);
      assert ([next] + others)[1..] == others;
      assert forall h :: h in others ==> h in [next] + others;
      AllCovered(m, rest[n..], size, next);
    }
  }

  /** Storing the KV of a prompt keeps the cache sound. */
  lemma StoreKeepsSound<R>(m: Cache<R>, kv: seq<int> -> R, tokens: seq<int>, size: nat, s: nat, skipExisting: bool)
    requires size > 0 && s <= |tokens| && Sound(m, kv)
    ensures Sound(AfterStore(m, tokens, KV(kv, tokens)[s..], size, s, skipExisting), kv)
  {
    var rows := KV(kv, tokens)[s..];
    if CheckStore(|tokens|, |rows|, s, size, skipExisting).Stored? {
      var k := s / size;
      assert s == k * size;
      var p := SkipHashes(tokens, size, Init, k, s);
      RowsSplit(kv, [], tokens, s);
      assert [] + tokens[..s] == tokens[..s] && TokensOf(p) == tokens[..s];
      PairsSound(kv, tokens[s..], rows, size, p);
      var hashes := Hashes(Chunks(tokens[s..], size), p);
      GoodDrop(kv, Zip(hashes, Chunks(rows, size)), Leading(m, hashes));
      WrittenSound(m, kv, ToStore(m, tokens, rows, size, k, skipExisting));
    }
  }

  /** After a store every hash it was asked for is there. */
  lemma StoredHashes<R>(m: Cache<R>, tokens: seq<int>, rows: seq<R>, size: nat, s: nat, skipExisting: bool)
    requires size > 0 && CheckStore(|tokens|, |rows|, s, size, skipExisting).Stored?
    ensures forall h :: h in Sought(tokens, size, s) ==> h in AfterStore(m, tokens, rows, size, s, skipExisting)
  {
    var first := if skipExisting then Leading(m, Sought(tokens, size, s)) else 0;
    StoreWrites(m, tokens, rows, size, s, skipExisting, first);
  }

  lemma CoveredToEnd<R>(m: Cache<R>, tokens: seq<int>, size: nat, s: nat)
    requires size > 0 && s <= |tokens| && s / size * size == s
    requires forall h :: h in Sought(tokens, size, s) ==> h in m
    ensures Covered(m, Sought(tokens, size, s)) == |tokens| - s
  {
    var p := SkipHashes(tokens, size, Init, s / size, s);
    AllCovered(m, tokens[s..], size, p);
  }

  /** A prompt just stored is cached to its end. */
  lemma StoreCovers<R>(m: Cache<R>, tokens: seq<int>, rows: seq<R>, size: nat, s: nat, skipExisting: bool)
    requires size > 0 && s <= |tokens|
    requires CheckStore(|tokens|, |rows|, s, size, skipExisting).Stored?
    ensures CachedEnd(AfterStore(m, tokens, rows, size, s, skipExisting), tokens, size, s) == |tokens|
  {
    AlignedMask(s, size);
    StoredHashes(m, tokens, rows, size, s, skipExisting);
    CoveredToEnd(AfterStore(m, tokens, rows, size, s, skipExisting), tokens, size, s);
  }

  // ---- Whole runs ------------------------------------------------------------------------------

  /** One operation on the cache; entries disappear from the local store at any time. */
  datatype Op =
    | StoreOp(tokens: seq<int>, s: nat, skipExisting: bool)
    | RetrieveOp(tokens: seq<int>, s: nat)
    | EvictOp(lost: set<Hash>, gone: set<Hash>)
  {
    /** A mask leaves out the first `s` tokens. */
    predicate Valid() {
      !EvictOp? ==> s <= |tokens|
    }
  }

  ghost predicate AllValid(ops: seq<Op>) {
    forall i :: 0 <= i < |ops| ==> ops[i].Valid()
  }

  ghost function AfterOp<R>(m: Cache<R>, op: Op, kv: seq<int> -> R, size: nat): Cache<R>
    requires size > 0 && op.Valid()
  {
    match op
    case StoreOp(tokens, s, skipExisting) => AfterStore(m, tokens, KV(kv, tokens)[s..], size, s, skipExisting)
    case RetrieveOp(_, _) => m
    case EvictOp(_, gone) => m - gone
  }

  /** The cache after storing the KV of prompts, retrieving and losing entries, in any order. */
  ghost function Run<R>(ops: seq<Op>, kv: seq<int> -> R, size: nat): Cache<R>
    requires size > 0 && AllValid(ops)
  {
    if ops == [] then map[] else AfterOp(Run(ops[..|ops| - 1], kv, size), ops[|ops| - 1], kv, size)
  }

  /** After every run the cache is sound, so every retrieval from it returns the KV of the tokens asked
      for. */
  lemma {:induction false} RunSound<R>(ops: seq<Op>, kv: seq<int> -> R, size: nat)
    requires size > 0 && AllValid(ops)
    ensures Sound(Run(ops, kv, size), kv)
    decreases |ops|
  {
    if ops == [] {
    } else {
      var n := |ops| - 1;
      RunSound(ops[..n], kv, size);
      if ops[n].StoreOp? {
        StoreKeepsSound(Run(ops[..n], kv, size), kv, ops[n].tokens, size, ops[n].s, ops[n].skipExisting);
      }
    }
  }

  lemma RunMore<R>(ops: seq<Op>, n: nat, kv: seq<int> -> R, size: nat)
    requires size > 0 && AllValid(ops) && n < |ops|
    ensures Run(ops[..n + 1], kv, size) == AfterOp(Run(ops[..n], kv, size), ops[n], kv, size)
  {
    assert ops[..n + 1][..n] == ops[..n];
  }

  /** What a retrieval answers when the cache is `m`: the KV of the tokens from the mask's end to the
      first missing chunk, and a mask true exactly there. */
  ghost predicate Answers<R>(m: Cache<R>, op: Op, kv: seq<int> -> R, size: nat, r: Retrieved<R>, mask: seq<bool>)
    requires size > 0
  {
    op.RetrieveOp? ==>
      var end := CachedEnd(m, op.tokens, size, op.s);
      && end <= |op.tokens| == |mask| && (r.Found? <==> Hit(m, op.tokens, size, op.s))
      && (r.Found? ==> op.s <= end && r.rows == KV(kv, op.tokens)[op.s..end])
      && forall i :: 0 <= i < |op.tokens| ==> (mask[i] <==> op.s <= i < end)
  }

  /** One operation through the engine and its backend. */
  method Operate<R(==)>(engine: LMCacheEngine<R>, op: Op, kv: seq<int> -> R, lost: nat -> set<Hash>)
    returns (r: Retrieved<R>, mask: seq<bool>)
    requires engine.Valid() && Sound(engine.backend.remote, kv) && op.Valid()
    modifies engine.backend
    ensures engine.Valid()
    ensures engine.backend.remote == AfterOp(old(engine.backend.remote), op, kv, engine.chunkSize)
    ensures Answers(old(engine.backend.remote), op, kv, engine.chunkSize, r, mask)
  {
    r, mask := Nothing, [];
    match op
    case StoreOp(tokens, s, skipExisting) =>
      var _ := engine.Store(tokens, KV(kv, tokens)[s..], s, skipExisting, lost);
    case RetrieveOp(tokens, s) =>
      r, mask := engine.Retrieve(tokens, s, lost, kv);
    case EvictOp(gone, everywhere) =>
      engine.backend.Evict(gone, everywhere);
  }

  /** A whole run through an engine over an empty remote store: the remote store ends as the run says,
      and every retrieval on the way answered with the KV of its tokens. */
  method RunEngine<R(==)>(engine: LMCacheEngine<R>, ops: seq<Op>, kv: seq<int> -> R, lost: (nat, nat) -> set<Hash>)
    returns (answers: seq<(Retrieved<R>, seq<bool>)>)
    requires engine.Valid() && engine.backend.remote == map[] && AllValid(ops)
    modifies engine.backend
    ensures engine.Valid() && engine.backend.remote == Run(ops, kv, engine.chunkSize)
    ensures |answers| == |ops|
    ensures forall i :: 0 <= i < |ops| ==>
              Answers(Run(ops[..i], kv, engine.chunkSize), ops[i], kv, engine.chunkSize, answers[i].0, answers[i].1)
  {
    answers := [];
    ghost var size := engine.chunkSize;
    ghost var answered := (i: nat, a: (Retrieved<R>, seq<bool>)) =>
        i < |ops| && Answers(Run(ops[..i], kv, size), ops[i], kv, size, a.0, a.1);
    for n := 0 to |ops|
      invariant engine.Valid() && engine.backend.remote == Run(ops[..n], kv, size)
      invariant |answers| == n && forall i: nat :: i < n ==> answered(i, answers[i])
    {
      RunSound(ops[..n], kv, size);
      var r, mask := Operate(engine, ops[n], kv, (i: nat) => lost(n, i));
      RunMore(ops, n, kv, size);
      assert answered(n, (r, mask));
      answers := answers + [(r, mask)];
    }
    assert ops[..|ops|] == ops;
    forall i | 0 <= i < |ops|
      ensures Answers(Run(ops[..i], kv, size), ops[i], kv, size, answers[i].0, answers[i].1)
    {
      assert answered(i, answers[i]);
    }
  }

  /** An unmasked retrieval ends where `lookup` says. */
  lemma LookupAgrees<R>(m: Cache<R>, tokens: seq<int>, size: nat)
    requires size > 0
    ensures CachedEnd(m, tokens, size, 0) == Covered(m, Hashes(Chunks(tokens, size), Init))
  {
    var hashes := Hashes(Chunks(tokens, size), Init);
    assert hashes[0..] == hashes && 0 / size == 0;
  }
}
