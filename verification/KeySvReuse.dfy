/** Saving the chunks of several prompts at every layer and reusing them: store, index and fetch
    together. */
module KeySvReuse {
  import opened Options
  import opened KeySvNames
  import opened KeySvIndex

  /** One call of `save_all_kv_tensors`: the chunks of a prompt, compressed layer by layer, all tagged
      with one uuid. */
  datatype Prompt<P> = Prompt(hashes: seq<string>, uuid: Uuid, layers: seq<seq<Chunk<P>>>) {
    ghost predicate Valid(count: nat) {
      && |layers| == count && (forall i :: 0 <= i < |hashes| ==> Plain(hashes[i]))
      && (forall l :: 0 <= l < count ==> Tagged(layers[l]))
    }

    ghost predicate Tagged(chunks: seq<Chunk<P>>) {
      |chunks| == |hashes| && forall i :: 0 <= i < |chunks| ==> chunks[i].keySv.uuid == Some(uuid)
    }
  }

  function KeySvPathAt(uuid: Uuid, layer: int, key: string): string {
    if layer > 2 then SharedFilename(PathId(uuid), layer, key) else OwnPath(key)
  }

  /** The store call for one layer. */
  function GroupAt<P>(p: Prompt<P>, l: nat, device: string): (g: Group<P>)
    requires l < |p.layers| && p.Valid(|p.layers|) && Plain(device)
    ensures g.Valid() && g.layer == l && g.device == device && g.uuid == p.uuid
    ensures g.hashes == p.hashes && g.chunks == p.layers[l]
  {
    var n := |p.hashes|;
    var keys := seq(n, i requires 0 <= i < n => KvCacheFilename(p.hashes[i], l, device));
    var paths := seq(n, i requires 0 <= i < n => KeySvPathAt(p.uuid, l, keys[i]));
    var g := Group(p.hashes, keys, paths, p.layers[l], l, device, p.uuid);
    assert forall i :: 0 <= i < n ==> g.NamedAt(i);
    g
  }

  /** Chunk `i` of the prompt is in the store at the first `count` layers. */
  ghost predicate StoredAt<P>(db: map<string, Value<P>>, p: Prompt<P>, i: nat, device: string, count: nat)
    requires p.Valid(|p.layers|) && Plain(device) && i < |p.hashes| && count <= |p.layers|
  {
    forall l :: 0 <= l < count ==> MemberStored(db, GroupAt(p, l, device), i)
  }

  /** The store of one layer leaves the chunk alone at every other layer, and at every layer if the
      chunk belongs to another prompt only. */
  lemma LayersKept<P>(before: map<string, Value<P>>, after: map<string, Value<P>>, p: Prompt<P>, i: nat, q: Prompt<P>,
                      k: nat, device: string, count: nat)
    requires p.Valid(|p.layers|) && q.Valid(|q.layers|) && Plain(device) && i < |p.hashes|
    requires k < |q.layers| && count <= |p.layers|
    requires count <= k || (p.uuid != q.uuid && p.hashes[i] !in q.hashes)
    requires StoredAt(before, p, i, device, count)
    requires forall path :: !Touched(GroupAt(q, k, device), path) ==> SameAt(before, after, path)
    ensures StoredAt(after, p, i, device, count)
  {
    forall l | 0 <= l < count ensures MemberStored(after, GroupAt(p, l, device), i) {
      MemberKept(before, after, GroupAt(p, l, device), i, GroupAt(q, k, device));
    }
  }

  /** No prompt saved after prompt `a` and before prompt `n` has chunk `i` of it, and the chunk is not
      repeated later in its own prompt. */
  ghost predicate Current<P>(prompts: seq<Prompt<P>>, n: nat, a: nat, i: nat) {
    && a < n <= |prompts| && i < |prompts[a].hashes|
    && LastIn(prompts[a].hashes, i, |prompts[a].hashes|)
    && forall b :: a < b < n ==> prompts[a].hashes[i] !in prompts[b].hashes
  }

  /** A uuid stands for one list of chunks. */
  ghost predicate UuidsApart<P>(prompts: seq<Prompt<P>>) {
    forall a, b :: 0 <= a < b < |prompts| && prompts[a].uuid == prompts[b].uuid ==>
      prompts[a].hashes == prompts[b].hashes
  }

  ghost predicate AllValid<P>(prompts: seq<Prompt<P>>, count: nat) {
    forall a :: 0 <= a < |prompts| ==> prompts[a].Valid(count)
  }

  /** Every chunk that is still current is in the store at every layer. */
  ghost predicate CurrentStored<P>(db: map<string, Value<P>>, prompts: seq<Prompt<P>>, n: nat, count: nat,
                                   device: string)
    requires AllValid(prompts, count) && Plain(device) && n <= |prompts|
  {
    forall a: nat, i: nat :: Current(prompts, n, a, i) ==> StoredAt(db, prompts[a], i, device, count)
  }

  /** The other part of a chunk at a layer is as before. */
  ghost predicate OtherSame<P>(before: map<string, Value<P>>, after: map<string, Value<P>>, text: string, layer: int,
                               device: string)
  {
    SameAt(before, after, OtherPath(KvCacheFilename(text, layer, device)))
  }

  ghost predicate Saved<P>(prompts: seq<Prompt<P>>, text: string) {
    exists b :: 0 <= b < |prompts| && text in prompts[b].hashes
  }

  /** Store one layer of prompt `n`: older current chunks stay, and its own chunks gain a layer. */
  method SaveLayer<P>(manager: KvManager<P>, prompts: seq<Prompt<P>>, n: nat, l: nat, count: nat, device: string)
    requires n < |prompts| && AllValid(prompts, count) && Plain(device) && l < count
    requires OldStored(manager.db, prompts, n, count, device) && OwnStored(manager.db, prompts[n], l, device)
    requires UuidsApart(prompts)
    modifies manager
    ensures OldStored(manager.db, prompts, n, count, device) && OwnStored(manager.db, prompts[n], l + 1, device)
    ensures forall text, k: int :: text !in prompts[n].hashes ==>
              OtherSame(old(manager.db), manager.db, text, k, device)
  {
    ghost var before := manager.db;
    var q := prompts[n];
    manager.StoreMultiData(GroupAt(q, l, device));
    forall a: nat, i: nat | a < n && Current(prompts, n + 1, a, i)
      ensures StoredAt(manager.db, prompts[a], i, device, count)
    {
      assert prompts[a].hashes[i] !in prompts[n].hashes;
      LayersKept(before, manager.db, prompts[a], i, q, l, device, count);
    }
    forall i: nat | i < |q.hashes| && LastIn(q.hashes, i, |q.hashes|)
      ensures StoredAt(manager.db, q, i, device, l + 1)
    {
      LayersKept(before, manager.db, q, i, q, l, device, l);
    }
    forall text, k: int | text !in q.hashes ensures OtherSame(before, manager.db, text, k, device) {
      ForeignUntouched(GroupAt(q, l, device), text, k);
    }
  }

  /** The chunks of earlier prompts that prompt `n` does not replace. */
  ghost predicate OldStored<P>(db: map<string, Value<P>>, prompts: seq<Prompt<P>>, n: nat, count: nat, device: string)
    requires AllValid(prompts, count) && Plain(device) && n < |prompts|
  {
    forall a: nat, i: nat :: a < n && Current(prompts, n + 1, a, i) ==> StoredAt(db, prompts[a], i, device, count)
  }

  ghost predicate OwnStored<P>(db: map<string, Value<P>>, p: Prompt<P>, l: nat, device: string)
    requires p.Valid(|p.layers|) && Plain(device) && l <= |p.layers|
  {
    forall i: nat :: i < |p.hashes| && LastIn(p.hashes, i, |p.hashes|) ==> StoredAt(db, p, i, device, l)
  }

  /** `save_all_kv_tensors` for one prompt after another: afterwards every chunk is in the store as the
      last prompt with it left it. */
  method SaveAll<P>(manager: KvManager<P>, prompts: seq<Prompt<P>>, count: nat, device: string)
    requires AllValid(prompts, count) && Plain(device) && UuidsApart(prompts)
    modifies manager
    ensures CurrentStored(manager.db, prompts, |prompts|, count, device)
    ensures forall text, k: int :: !Saved(prompts, text) ==> OtherSame(old(manager.db), manager.db, text, k, device)
  {
    for n := 0 to |prompts|
      invariant CurrentStored(manager.db, prompts, n, count, device)
      invariant forall text, k: int :: !Saved(prompts, text) ==> OtherSame(old(manager.db), manager.db, text, k, device)
    {
      forall a: nat, i: nat | a < n && Current(prompts, n + 1, a, i) ensures Current(prompts, n, a, i) {
      }
      for l := 0 to count
        invariant OldStored(manager.db, prompts, n, count, device) && OwnStored(manager.db, prompts[n], l, device)
        invariant forall text, k: int :: !Saved(prompts, text) ==>
                    OtherSame(old(manager.db), manager.db, text, k, device)
      {
        ghost var before := manager.db;
        SaveLayer(manager, prompts, n, l, count, device);
        forall text, k: int | !Saved(prompts, text) ensures OtherSame(old(manager.db), manager.db, text, k, device) {
          assert text !in prompts[n].hashes;
          assert OtherSame(old(manager.db), before, text, k, device) && OtherSame(before, manager.db, text, k, device);
        }
      }
    }
  }

  lemma {:induction false} LastPlace(hashes: seq<string>, text: string) returns (i: nat)
    requires text in hashes
    ensures i < |hashes| && hashes[i] == text && LastIn(hashes, i, |hashes|)
  {
    var n := |hashes| - 1;
    if hashes[n] == text {
      i := n;
    } else {
      i := LastPlace(hashes[..n], text);
      assert hashes[..n][i] == hashes[i];
      forall j | i < j < |hashes| ensures hashes[j] != hashes[i] {
        assert j < n ==> hashes[..n][j] == hashes[j];
      }
    }
  }

  /** Every chunk that was ever saved is current in one prompt. */
  lemma {:induction false} CurrentPlace<P>(prompts: seq<Prompt<P>>, n: nat, text: string) returns (a: nat, i: nat)
    requires n <= |prompts| && exists b :: 0 <= b < n && text in prompts[b].hashes
    ensures Current(prompts, n, a, i) && prompts[a].hashes[i] == text
  {
    if text in prompts[n - 1].hashes {
      a := n - 1;
      i := LastPlace(prompts[a].hashes, text);
    } else {
      a, i := CurrentPlace(prompts, n - 1, text);
    }
  }

  /** The chunk a text stands for at a layer: of the last prompt saved with it. */
  ghost predicate IsOrigin<P>(prompts: seq<Prompt<P>>, text: string, layer: nat, device: string, count: nat,
                              o: Origin<P>)
    requires AllValid(prompts, count) && Plain(device) && layer < count
  {
    exists a: nat :: Current(prompts, |prompts|, a, o.member) && prompts[a].hashes[o.member] == text
                     && o.group == GroupAt(prompts[a], layer, device)
  }

  lemma OriginAt<P>(db: map<string, Value<P>>, prompts: seq<Prompt<P>>, count: nat, text: string, layer: nat,
                    device: string) returns (o: Origin<P>, uuid: Uuid)
    requires AllValid(prompts, count) && Plain(device) && 1 < count && layer < count
    requires CurrentStored(db, prompts, |prompts|, count, device)
    requires Saved(prompts, text)
    ensures IsOrigin(prompts, text, layer, device, count, o)
    ensures FromGroup(db, text, Some(uuid), layer, device, o)
    ensures LookupKeySv(db, OwnPath(KvCacheFilename(text, 1, device))).Some?
    ensures LookupKeySv(db, OwnPath(KvCacheFilename(text, 1, device))).value.uuid == Some(uuid)
  {
    var a, i := CurrentPlace(prompts, |prompts|, text);
    var p := prompts[a];
    assert StoredAt(db, p, i, device, count);
    o, uuid := Origin(GroupAt(p, layer, device), i), p.uuid;
    var first := Origin(GroupAt(p, 1, device), i);
    assert MemberStored(db, o.group, i) && MemberStored(db, first.group, i);
    OwnIsWritten(db, text, Some(uuid), 1, device, first);
  }

  /** The origin of a requested chunk, or none if it was not saved. */
  ghost predicate OriginFor<P>(prompts: seq<Prompt<P>>, text: string, layer: nat, device: string, count: nat,
                               o: Option<Origin<P>>)
    requires AllValid(prompts, count) && Plain(device) && layer < count
  {
    (o.Some? <==> Saved(prompts, text)) && (o.Some? ==> IsOrigin(prompts, text, layer, device, count, o.value))
  }

  ghost predicate UuidAt<P>(db: map<string, Value<P>>, text: string, device: string, uuid: Option<Uuid>) {
    var k := LookupKeySv(db, OwnPath(KvCacheFilename(text, 1, device)));
    uuid == if k.Some? then k.value.uuid else None
  }

  /** What `get_reuse_kv` finds at layer 1. */
  method FetchUuids<P>(manager: KvManager<P>, texts: seq<string>, device: string) returns (uuids: seq<Option<Uuid>>)
    ensures |uuids| == |texts|
    ensures forall i :: 0 <= i < |texts| ==> UuidAt(manager.db, texts[i], device, uuids[i])
  {
    uuids := [];
    for n := 0 to |texts|
      invariant |uuids| == n
      invariant forall i :: 0 <= i < n ==> UuidAt(manager.db, texts[i], device, uuids[i])
    {
      var k := LookupKeySv(manager.db, OwnPath(KvCacheFilename(texts[n], 1, device)));
      uuids := uuids + [if k.Some? then k.value.uuid else None];
    }
  }

  /** The origin of a requested chunk, which is also where the store has it. */
  ghost predicate Found<P>(db: map<string, Value<P>>, prompts: seq<Prompt<P>>, count: nat, text: string,
                           uuid: Option<Uuid>, layer: nat, device: string, o: Option<Origin<P>>)
    requires AllValid(prompts, count) && Plain(device) && layer < count
  {
    OriginFor(prompts, text, layer, device, count, o) && RequestAt(db, text, uuid, layer, device, o)
  }

  lemma FoundAt<P>(db: map<string, Value<P>>, prompts: seq<Prompt<P>>, count: nat, text: string, uuid: Option<Uuid>,
                   layer: nat, device: string)
    returns (o: Option<Origin<P>>)
    requires AllValid(prompts, count) && Plain(device) && 1 < count && layer < count
    requires CurrentStored(db, prompts, |prompts|, count, device) && UuidAt(db, text, device, uuid)
    requires !Saved(prompts, text) ==> OtherPath(KvCacheFilename(text, layer, device)) !in db
    ensures Found(db, prompts, count, text, uuid, layer, device, o)
  {
    if Saved(prompts, text) {
      var origin, id := OriginAt(db, prompts, count, text, layer, device);
      o := Some(origin);
    } else {
      o := None;
    }
  }

  /** Everything known about the request before its origins are looked up. */
  ghost predicate Answerable<P>(db: map<string, Value<P>>, prompts: seq<Prompt<P>>, text: string,
                                uuid: Option<Uuid>, layer: nat, device: string)
  {
    && UuidAt(db, text, device, uuid)
    && (!Saved(prompts, text) ==> OtherPath(KvCacheFilename(text, layer, device)) !in db)
  }

  lemma OneMore<T>(xs: seq<T>, x: T, holds: (nat, T) -> bool)
    requires forall i: nat :: i < |xs| ==> holds(i, xs[i])
    requires holds(|xs|, x)
    ensures forall i: nat :: i < |xs + [x]| ==> holds(i, (xs + [x])[i])
  {
  }

  lemma Origins<P>(db: map<string, Value<P>>, prompts: seq<Prompt<P>>, count: nat, texts: seq<string>,
                   uuids: seq<Option<Uuid>>, layer: nat, device: string)
    returns (origin: seq<Option<Origin<P>>>)
    requires AllValid(prompts, count) && Plain(device) && 1 < count && layer < count && |uuids| == |texts|
    requires CurrentStored(db, prompts, |prompts|, count, device)
    requires forall i :: 0 <= i < |texts| ==> Answerable(db, prompts, texts[i], uuids[i], layer, device)
    ensures |origin| == |texts|
    ensures forall i :: 0 <= i < |texts| ==>
              Found(db, prompts, count, texts[i], uuids[i], layer, device, origin[i])
  {
    origin := [];
    var found := (i: nat, o: Option<Origin<P>>) =>
        i < |texts| && Found(db, prompts, count, texts[i], uuids[i], layer, device, o);
    for n := 0 to |texts|
      invariant |origin| == n && forall i: nat :: i < n ==> found(i, origin[i])
    {
      assert Answerable(db, prompts, texts[n], uuids[n], layer, device);
      var o := FoundAt(db, prompts, count, texts[n], uuids[n], layer, device);
      OneMore(origin, o, found);
      origin := origin + [o];
    }
  }

  /** Saving prompts at every layer, indexing the uuids fetched at layer 1 and fetching any layer: every
      requested chunk that was saved comes back as the last prompt with it left it, with the key_sv of
      its own group, and a chunk nobody stored comes back empty. */
  method SaveThenReuse<P>(manager: KvManager<P>, context: ContextManager<P>, prompts: seq<Prompt<P>>, count: nat,
                          texts: seq<string>, layer: nat, device: string)
    returns (merged: seq<Option<(P, KeySv<P>)>>, ghost origin: seq<Option<Origin<P>>>)
    requires AllValid(prompts, count) && Plain(device) && UuidsApart(prompts) && 1 < count && layer < count
    requires forall i :: 0 <= i < |texts| ==> Plain(texts[i])
    requires forall i :: 0 <= i < |texts| && !Saved(prompts, texts[i]) ==>
               OtherPath(KvCacheFilename(texts[i], layer, device)) !in manager.db
    modifies manager, context
    ensures |merged| == |origin| == |texts|
    ensures forall i :: 0 <= i < |texts| ==> OriginFor(prompts, texts[i], layer, device, count, origin[i])
    ensures forall i :: 0 <= i < |texts| ==> merged[i] == Joined(origin[i])
    ensures forall i :: 0 <= i < |texts| ==> (merged[i].Some? <==> Saved(prompts, texts[i]))
  {
    SaveAll(manager, prompts, count, device);
    var uuids := FetchUuids(manager, texts, device);
    context.BuildIndex(uuids, |texts|);
    forall i | 0 <= i < |texts|
      ensures Answerable(manager.db, prompts, texts[i], uuids[i], layer, device)
    {
      assert UuidAt(manager.db, texts[i], device, uuids[i]);
      assert !Saved(prompts, texts[i]) ==> OtherSame(old(manager.db), manager.db, texts[i], layer, device);
    }
    origin := Origins(manager.db, prompts, count, texts, uuids, layer, device);
    forall i | 0 <= i < |texts|
      ensures RequestAt(manager.db, texts[i], uuids[i], layer, device, origin[i])
      ensures OriginFor(prompts, texts[i], layer, device, count, origin[i])
    {
      assert Found(manager.db, prompts, count, texts[i], uuids[i], layer, device, origin[i]);
    }
    merged := context.GetReuseKv(manager.db, texts, layer, device, uuids, origin);
  }
}
