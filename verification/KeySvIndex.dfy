/** Storing the chunks of a group with one shared key_sv object per layer, and finding that object
    again through an index built from the uuids of layer 1. */
module KeySvIndex {
  import opened Options
  import opened KeySvNames

  type Uuid = seq<int>

  /** The two parts a compressed chunk is split into. */
  datatype KeySv<P> = KeySv(uuid: Option<Uuid>, rank: nat, body: P)
  datatype Chunk<P> = Chunk(keySv: KeySv<P>, other: P)
  datatype Value<P> = KeySvValue(keySv: KeySv<P>) | OtherValue(other: P)

  // ---- Names -----------------------------------------------------------------------------------

  const STORE_DIR := "kvcache/"

  /** What follows the hash in a file name. */
  function KeyTail(layer: int, device: string): string {
    "-layer_" + IntToDec(layer) + ("-device_" + device + ".bin")
  }

  function KvCacheFilename(hash: string, layer: int, device: string): string {
    STORE_DIR + (hash + KeyTail(layer, device))
  }

  function OwnPath(key: string): string {
    key + END
  }

  function SharedFilename(pathId: string, layer: int, baseKey: string): string {
    Directory(baseKey) + (pathId + MIDDLE + IntToDec(layer) + END)
  }

  lemma SharedByUuid(uuid: Uuid, layer: int, baseKey: string)
    ensures SharedFilename(PathId(uuid), layer, baseKey) == SharedKeySvPath(uuid, layer, baseKey)
  {
  }

  /** A hash or device name that stays inside its directory. */
  predicate Plain(name: string) {
    '/' !in name
  }

  lemma KeyTailPlain(layer: int, device: string)
    requires Plain(device)
    ensures Plain(KeyTail(layer, device))
  {
    IntToDecChars(layer);
    assert '/' !in IntToDec(layer);
    assert '/' !in "-layer_" && '/' !in "-device_" && '/' !in ".bin";
    assert '/' !in "-device_" + device + ".bin";
  }

  lemma KeyDirectory(hash: string, layer: int, device: string)
    requires Plain(hash) && Plain(device)
    ensures Directory(KvCacheFilename(hash, layer, device)) == STORE_DIR
  {
    KeyTailPlain(layer, device);
    PlainName(hash, KeyTail(layer, device));
  }

  lemma PlainName(hash: string, tail: string)
    requires Plain(hash) && Plain(tail)
    ensures Directory(STORE_DIR + (hash + tail)) == STORE_DIR
  {
    DirectoryOf(STORE_DIR, hash + tail);
  }

  /** The names written out. */
  lemma NamesWritten(hash: string, uuid: Uuid, layer: int, device: string)
    requires Plain(hash) && Plain(device)
    ensures var key := KvCacheFilename(hash, layer, device);
            && key == "kvcache/" + (hash + ("-layer_" + IntToDec(layer) + ("-device_" + device + ".bin")))
            && OwnPath(key) == key + "_key_sv"
            && SharedFilename(PathId(uuid), layer, key)
               == "kvcache/" + (PathId(uuid) + "_layer_" + IntToDec(layer) + "_key_sv")
  {
    KeyDirectory(hash, layer, device);
  }

  lemma SameTail(a: string, b: string, tail: string)
    requires a + tail == b + tail
    ensures a == b
  {
    assert |a| == |b|;
    assert a == (a + tail)[..|a|] && b == (b + tail)[..|b|];
  }

  /** Other parts end differently from key_sv parts. */
  lemma OtherIsNoKeySv(key: string, stem: string)
    ensures OtherPath(key) != stem + END
  {
    var p, q := OtherPath(key), stem + END;
    assert p[|p| - 1] == 'r' && q[|q| - 1] == 'v';
  }

  lemma LastOf(a: string, b: string)
    requires b != []
    ensures (a + b)[|a + b| - 1] == b[|b| - 1]
  {
  }

  lemma StemsDiffer(a: string, b: string)
    requires a != [] && b != [] && a[|a| - 1] != b[|b| - 1]
    ensures a + END != b + END
  {
    if a + END == b + END {
      SameTail(a, b, END);
    }
  }

  lemma KeyEnd(hash: string, layer: int, device: string)
    ensures var key := KvCacheFilename(hash, layer, device); key != [] && key[|key| - 1] == 'n'
  {
    var end := "-device_" + device + ".bin";
    LastOf("-device_" + device, ".bin");
    LastOf("-layer_" + IntToDec(layer), end);
    LastOf(hash, KeyTail(layer, device));
    LastOf(STORE_DIR, hash + KeyTail(layer, device));
  }

  /** What precedes the suffix of a shared name ends with a digit. */
  lemma SharedStem(pathId: string, layer: int, baseKey: string) returns (stem: string)
    ensures SharedFilename(pathId, layer, baseKey) == stem + END
    ensures stem != [] && stem[|stem| - 1] != 'n'
  {
    var digits := IntToDec(layer);
    IntToDecChars(layer);
    assert digits[|digits| - 1] in digits;
    stem := Directory(baseKey) + (pathId + MIDDLE + digits);
    LastOf(pathId + MIDDLE, digits);
    LastOf(Directory(baseKey), pathId + MIDDLE + digits);
    Reassociate(Directory(baseKey), pathId + MIDDLE + digits, END);
  }

  lemma Reassociate(a: string, b: string, c: string)
    ensures a + (b + c) == (a + b) + c
  {
  }

  /** A chunk's own key_sv name is never a shared name. */
  lemma OwnIsNotShared(hash: string, layer: int, device: string, pathId: string, sharedLayer: int, baseKey: string)
    ensures OwnPath(KvCacheFilename(hash, layer, device)) != SharedFilename(pathId, sharedLayer, baseKey)
  {
    KeyEnd(hash, layer, device);
    var stem := SharedStem(pathId, sharedLayer, baseKey);
    StemsDiffer(KvCacheFilename(hash, layer, device), stem);
  }

  // ---- Storing a group -------------------------------------------------------------------------

  /** The first payload of largest rank. */
  ghost predicate IsBest<P>(chunks: seq<Chunk<P>>, n: nat, best: nat)
    requires n <= |chunks|
  {
    && best < n
    && (forall i :: 0 <= i < n ==> chunks[i].keySv.rank <= chunks[best].keySv.rank)
    && (forall i :: 0 <= i < best ==> chunks[i].keySv.rank < chunks[best].keySv.rank)
  }

  ghost function Best<P>(chunks: seq<Chunk<P>>, n: nat): (best: nat)
    requires 0 < n <= |chunks|
    ensures IsBest(chunks, n, best)
  {
    if n == 1 then 0
    else
      var before := Best(chunks, n - 1);
      if chunks[n - 1].keySv.rank > chunks[before].keySv.rank then n - 1 else before
  }

  /** None of the first `n` hashes after the one at `i` is the same. */
  ghost predicate LastIn(hashes: seq<string>, i: nat, n: nat)
    requires i < |hashes| && n <= |hashes|
  {
    forall j :: i < j < n ==> hashes[j] != hashes[i]
  }

  /** One call of `store_multi_data`: chunks compressed together, all tagged with the group's uuid, with
      the file name of every chunk and the path of its key_sv part. */
  datatype Group<P> = Group(hashes: seq<string>, keys: seq<string>, paths: seq<string>, chunks: seq<Chunk<P>>,
                            layer: int, device: string, uuid: Uuid) {
    ghost predicate Valid() {
      && |hashes| == |keys| == |paths| == |chunks| && Plain(device)
      && (forall i :: 0 <= i < |hashes| ==> Plain(hashes[i]) && chunks[i].keySv.uuid == Some(uuid))
      && (forall i :: 0 <= i < |hashes| ==> NamedAt(i))
    }

    /** Above layer 2 the key_sv part goes to a path made from the uuid, otherwise to the chunk's own. */
    ghost predicate NamedAt(i: nat)
      requires i < |hashes| == |keys| == |paths|
    {
      && keys[i] == KvCacheFilename(hashes[i], layer, device)
      && paths[i] == if layer > 2 then SharedFilename(PathId(uuid), layer, keys[i]) else OwnPath(keys[i])
    }

    /** The chunk whose key_sv part is stored for chunk `i`. */
    ghost function Provider(i: nat): (k: nat)
      requires i < |chunks|
      ensures k < |chunks|
    {
      if layer > 2 then Best(chunks, |chunks|) else i
    }

    lemma OwnAt(i: nat)
      requires Valid() && i < |hashes| && layer <= 2
      ensures paths[i] == OwnPath(keys[i])
    {
      assert NamedAt(i);
    }

    lemma SharedIsCommon(i: nat)
      requires Valid() && i < |hashes| && layer > 2
      ensures paths[i] == paths[0] && paths[i] != OwnPath(keys[i])
    {
      assert NamedAt(i) && NamedAt(0);
      KeyDirectory(hashes[i], layer, device);
      KeyDirectory(hashes[0], layer, device);
      OwnIsNotShared(hashes[i], layer, device, PathId(uuid), layer, keys[i]);
    }
  }

  /** Chunk `i` of the group is in the store: its other part, and its own or the group's key_sv. */
  ghost predicate MemberStored<P>(db: map<string, Value<P>>, g: Group<P>, i: nat)
    requires g.Valid() && i < |g.hashes|
  {
    && OtherPath(g.keys[i]) in db && db[OtherPath(g.keys[i])] == OtherValue(g.chunks[i].other)
    && g.paths[i] in db && db[g.paths[i]] == KeySvValue(g.chunks[g.Provider(i)].keySv)
  }

  /** A path a call may write. */
  ghost predicate Touched<P>(g: Group<P>, path: string)
    requires g.Valid()
  {
    exists i :: 0 <= i < |g.hashes| && (path == OtherPath(g.keys[i]) || path == g.paths[i])
  }

  ghost predicate SameAt<P>(before: map<string, Value<P>>, after: map<string, Value<P>>, path: string) {
    (path in after <==> path in before) && (path in after ==> after[path] == before[path])
  }

  datatype Split<P> = Split(key: string, keySvPath: string, chunk: Chunk<P>)

  class KvManager<P> {
    var db: map<string, Value<P>>

    constructor ()
      ensures db == map[]
    {
      db := map[];
    }

    method StoreData(path: string, value: Value<P>)
      modifies this
      ensures db == old(db)[path := value]
    {
      db := db[path := value];
    }

    /** Split every payload and keep, for each shared path, the first candidate of largest rank. */
    method SplitPayloads(g: Group<P>) returns (splits: seq<Split<P>>, candidates: map<string, KeySv<P>>)
      requires g.Valid()
      ensures |splits| == |g.hashes|
      ensures forall i :: 0 <= i < |splits| ==> splits[i] == Split(g.keys[i], g.paths[i], g.chunks[i])
      ensures candidates == Candidates(g, |g.hashes|)
    {
      splits, candidates := [], map[];
      for n := 0 to |g.hashes|
        invariant |splits| == n
        invariant forall i :: 0 <= i < n ==> splits[i] == Split(g.keys[i], g.paths[i], g.chunks[i])
        invariant candidates == Candidates(g, n)
      {
        var split;
        split, candidates := SplitOne(g, n, candidates);
        splits := splits + [split];
      }
    }

    /** The file name of chunk `n`, the path of its key_sv part and whether that path is shared. */
    method NameChunk(g: Group<P>, n: nat) returns (key: string, keySvPath: string, shared: bool)
      requires g.Valid() && n < |g.hashes|
      ensures key == g.keys[n] && keySvPath == g.paths[n] && shared == (g.layer > 2)
      ensures shared ==> keySvPath == g.paths[0]
    {
      assert g.NamedAt(n);
      key := KvCacheFilename(g.hashes[n], g.layer, g.device);
      var uuid := g.chunks[n].keySv.uuid;
      keySvPath := OwnPath(key);
      if g.layer > 2 && uuid.Some? {
        keySvPath := SharedFilename(PathId(uuid.value), g.layer, key);
        g.SharedIsCommon(n);
      }
      shared := keySvPath != OwnPath(key);
    }

    method SplitOne(g: Group<P>, n: nat, before: map<string, KeySv<P>>)
      returns (split: Split<P>, candidates: map<string, KeySv<P>>)
      requires g.Valid() && n < |g.hashes| && before == Candidates(g, n)
      ensures split == Split(g.keys[n], g.paths[n], g.chunks[n]) && candidates == Candidates(g, n + 1)
    {
      var key, keySvPath, shared := NameChunk(g, n);
      var keySv := g.chunks[n].keySv;
      candidates := before;
      if shared && (keySvPath !in candidates || keySv.rank > candidates[keySvPath].rank) {
        candidates := candidates[keySvPath := keySv];
      }
      split := Split(key, keySvPath, g.chunks[n]);
    }

    /** Write chunk `n`: its key_sv where that is still due, then its other part. */
    method WriteChunk(ghost g: Group<P>, split: Split<P>, candidates: map<string, KeySv<P>>, stored: set<string>,
                      ghost n: nat) returns (storedNow: set<string>)
      requires g.Valid() && n < |g.hashes|
      requires split == Split(g.keys[n], g.paths[n], g.chunks[n]) && candidates == Candidates(g, |g.hashes|)
      requires stored == if g.layer > 2 && n > 0 then {g.paths[0]} else {}
      requires forall i :: 0 <= i < n && LastIn(g.hashes, i, n) ==> MemberStored(db, g, i)
      modifies this
      ensures storedNow == if g.layer > 2 then {g.paths[0]} else {}
      ensures forall i :: 0 <= i <= n && LastIn(g.hashes, i, n + 1) ==> MemberStored(db, g, i)
      ensures forall path :: path != g.paths[n] && path != OtherPath(g.keys[n]) ==> SameAt(old(db), db, path)
    {
      storedNow := stored;
      SharedSoFar(db, g, n);
      if split.keySvPath == OwnPath(split.key) {
        StoreData(split.keySvPath, KeySvValue(split.chunk.keySv));
      } else if split.keySvPath !in stored {
        StoreData(split.keySvPath, KeySvValue(candidates[split.keySvPath]));
        storedNow := storedNow + {split.keySvPath};
      }
      StoreData(OtherPath(split.key), OtherValue(split.chunk.other));
      PathsApart(g, n, n);
      forall i | 0 <= i <= n && LastIn(g.hashes, i, n + 1) ensures MemberStored(db, g, i) {
        if i < n {
          assert LastIn(g.hashes, i, n) && old(MemberStored(db, g, i));
          PathsApart(g, i, n);
          PathsApart(g, n, i);
          if g.layer > 2 {
            g.SharedIsCommon(i);
          } else {
            g.OwnAt(i);
          }
        }
      }
    }

    /** After the call every chunk is stored, the last one where a hash is repeated, with one shared
        key_sv of largest rank per layer above two, and no other object has changed. */
    method StoreMultiData(g: Group<P>)
      requires g.Valid()
      modifies this
      ensures forall i :: 0 <= i < |g.hashes| && LastIn(g.hashes, i, |g.hashes|) ==> MemberStored(db, g, i)
      ensures forall path :: !Touched(g, path) ==> SameAt(old(db), db, path)
    {
      var splits, candidates := SplitPayloads(g);
      var stored := {};
      for n := 0 to |splits|
        invariant stored == if g.layer > 2 && n > 0 then {g.paths[0]} else {}
        invariant forall i :: 0 <= i < n && LastIn(g.hashes, i, n) ==> MemberStored(db, g, i)
        invariant forall path :: !Touched(g, path) ==> SameAt(old(db), db, path)
      {
        ghost var before := db;
        stored := WriteChunk(g, splits[n], candidates, stored, n);
        forall path | !Touched(g, path) ensures SameAt(old(db), db, path) {
          assert path != g.paths[n] && path != OtherPath(g.keys[n]);
          assert SameAt(old(db), before, path) && SameAt(before, db, path);
        }
      }
    }
  }

  /** The candidates after `n` chunks: above layer 2 the best of them under the common path. */
  ghost function Candidates<P>(g: Group<P>, n: nat): map<string, KeySv<P>>
    requires g.Valid() && n <= |g.hashes|
  {
    if g.layer > 2 && n > 0 then map[g.paths[0] := g.chunks[Best(g.chunks, n)].keySv] else map[]
  }

  /** Before chunk `n` is written: which of the two kinds its key_sv path is, and what that path holds
      already. */
  lemma SharedSoFar<P>(db: map<string, Value<P>>, g: Group<P>, n: nat)
    requires g.Valid() && n < |g.hashes|
    requires forall i :: 0 <= i < n && LastIn(g.hashes, i, n) ==> MemberStored(db, g, i)
    ensures g.layer > 2 ==> g.paths[n] == g.paths[0] && g.paths[n] != OwnPath(g.keys[n])
    ensures g.layer > 2 && n > 0 ==>
              g.paths[0] in db && db[g.paths[0]] == KeySvValue(g.chunks[Best(g.chunks, |g.chunks|)].keySv)
    ensures g.layer <= 2 ==> g.paths[n] == OwnPath(g.keys[n])
  {
    if g.layer > 2 {
      g.SharedIsCommon(n);
      if n > 0 {
        g.SharedIsCommon(n - 1);
        assert LastIn(g.hashes, n - 1, n) && MemberStored(db, g, n - 1);
      }
    } else {
      g.OwnAt(n);
    }
  }

  /** The names of one group do not clash. */
  lemma PathsApart<P>(g: Group<P>, i: nat, j: nat)
    requires g.Valid() && i < |g.hashes| && j < |g.hashes|
    ensures OtherPath(g.keys[i]) != g.paths[j]
    ensures g.hashes[i] != g.hashes[j] ==>
              OtherPath(g.keys[i]) != OtherPath(g.keys[j]) && OwnPath(g.keys[i]) != OwnPath(g.keys[j])
  {
    OtherIsNotKeySv(g.keys[i], g, j);
    if g.hashes[i] != g.hashes[j] {
      assert g.NamedAt(i) && g.NamedAt(j);
      KeysDiffer(g.hashes[i], g.layer, g.hashes[j], g.layer, g.device);
      SuffixesDiffer(g.keys[i], g.keys[j]);
    }
  }

  // ---- Several groups --------------------------------------------------------------------------

  lemma SameFront(a: string, b: string, front: string)
    requires front + a == front + b
    ensures a == b
  {
    assert a == (front + a)[|front|..] && b == (front + b)[|front|..];
  }

  /** The file name without its end, cut before the digits of the layer. */
  lemma CutBeforeLayer(hash: string, layer: int, device: string)
    ensures hash + KeyTail(layer, device)
            == (hash + "-layer" + ['_'] + IntToDec(layer)) + ("-device_" + device + ".bin")
    ensures '_' !in IntToDec(layer)
  {
    IntToDecChars(layer);
    assert "-layer_" == "-layer" + ['_'];
  }

  /** File names of different chunks or layers differ, whatever the hashes look like. */
  lemma KeysDiffer(h1: string, l1: int, h2: string, l2: int, device: string)
    requires h1 != h2 || l1 != l2
    ensures KvCacheFilename(h1, l1, device) != KvCacheFilename(h2, l2, device)
  {
    if KvCacheFilename(h1, l1, device) == KvCacheFilename(h2, l2, device) {
      SameFront(h1 + KeyTail(l1, device), h2 + KeyTail(l2, device), STORE_DIR);
      CutBeforeLayer(h1, l1, device);
      CutBeforeLayer(h2, l2, device);
      SameTail(h1 + "-layer" + ['_'] + IntToDec(l1), h2 + "-layer" + ['_'] + IntToDec(l2),
               "-device_" + device + ".bin");
      SplitAtLast(h1 + "-layer", IntToDec(l1), h2 + "-layer", IntToDec(l2), '_');
      SameTail(h1, h2, "-layer");
      IntToDecInjective(l1, l2);
    }
  }

  lemma SuffixesDiffer(k1: string, k2: string)
    requires k1 != k2
    ensures OtherPath(k1) != OtherPath(k2) && OwnPath(k1) != OwnPath(k2)
  {
    if OtherPath(k1) == OtherPath(k2) {
      SameTail(k1, k2, "_other");
    }
    if OwnPath(k1) == OwnPath(k2) {
      SameTail(k1, k2, END);
    }
  }

  /** A call for another layer, or for another group without this chunk, writes none of its paths. */
  lemma MemberApart<P>(g: Group<P>, i: nat, h: Group<P>)
    requires g.Valid() && h.Valid() && g.device == h.device && i < |g.hashes|
    requires g.layer != h.layer || (g.uuid != h.uuid && g.hashes[i] !in h.hashes)
    ensures !Touched(h, OtherPath(g.keys[i])) && !Touched(h, g.paths[i])
  {
    forall j | 0 <= j < |h.hashes|
      ensures OtherPath(g.keys[i]) != OtherPath(h.keys[j]) && OtherPath(g.keys[i]) != h.paths[j]
      ensures g.paths[i] != OtherPath(h.keys[j]) && g.paths[i] != h.paths[j]
    {
      assert g.NamedAt(i) && h.NamedAt(j);
      assert g.layer == h.layer ==> h.hashes[j] in h.hashes;
      KeysDiffer(g.hashes[i], g.layer, h.hashes[j], h.layer, g.device);
      SuffixesDiffer(g.keys[i], h.keys[j]);
      OtherIsNotKeySv(g.keys[i], h, j);
      OtherIsNotKeySv(h.keys[j], g, i);
      KeySvPathsApart(g, i, h, j);
    }
  }

  /** A stored chunk survives such a call, whether or not other chunks of its group do. */
  lemma MemberKept<P>(before: map<string, Value<P>>, after: map<string, Value<P>>, g: Group<P>, i: nat, h: Group<P>)
    requires g.Valid() && h.Valid() && g.device == h.device && i < |g.hashes| && MemberStored(before, g, i)
    requires g.layer != h.layer || (g.uuid != h.uuid && g.hashes[i] !in h.hashes)
    requires forall path :: !Touched(h, path) ==> SameAt(before, after, path)
    ensures MemberStored(after, g, i)
  {
    MemberApart(g, i, h);
    assert SameAt(before, after, OtherPath(g.keys[i])) && SameAt(before, after, g.paths[i]);
  }

  /** Nor does a call write the other part of a chunk it does not have. */
  lemma ForeignUntouched<P>(g: Group<P>, text: string, layer: int)
    requires g.Valid() && text !in g.hashes
    ensures !Touched(g, OtherPath(KvCacheFilename(text, layer, g.device)))
  {
    var key := KvCacheFilename(text, layer, g.device);
    forall j | 0 <= j < |g.hashes| ensures OtherPath(key) != OtherPath(g.keys[j]) && OtherPath(key) != g.paths[j] {
      assert g.NamedAt(j) && g.hashes[j] in g.hashes;
      KeysDiffer(text, layer, g.hashes[j], g.layer, g.device);
      SuffixesDiffer(key, g.keys[j]);
      OtherIsNotKeySv(key, g, j);
    }
  }

  lemma OtherIsNotKeySv<P>(key: string, g: Group<P>, j: nat)
    requires g.Valid() && j < |g.hashes|
    ensures OtherPath(key) != g.paths[j]
  {
    assert g.NamedAt(j);
    if g.layer > 2 {
      var stem := SharedStem(PathId(g.uuid), g.layer, g.keys[j]);
      OtherIsNoKeySv(key, stem);
    } else {
      OtherIsNoKeySv(key, g.keys[j]);
    }
  }

  lemma KeySvPathsApart<P>(g: Group<P>, i: nat, h: Group<P>, j: nat)
    requires g.Valid() && h.Valid() && i < |g.hashes| && j < |h.hashes|
    requires g.keys[i] != h.keys[j] && (g.layer != h.layer || g.uuid != h.uuid)
    ensures g.paths[i] != h.paths[j]
  {
    assert g.NamedAt(i) && h.NamedAt(j);
    if g.layer > 2 && h.layer > 2 {
      SharedByUuid(g.uuid, g.layer, g.keys[i]);
      SharedByUuid(h.uuid, h.layer, h.keys[j]);
      SharedKeySvPathInjective(g.uuid, g.layer, g.keys[i], h.uuid, h.layer, h.keys[j]);
    } else if g.layer > 2 {
      OwnIsNotShared(h.hashes[j], h.layer, h.device, PathId(g.uuid), g.layer, g.keys[i]);
    } else if h.layer > 2 {
      OwnIsNotShared(g.hashes[i], g.layer, g.device, PathId(h.uuid), h.layer, h.keys[j]);
    } else {
      SuffixesDiffer(g.keys[i], h.keys[j]);
    }
  }

  // ---- The index -------------------------------------------------------------------------------

  /** Chunk `j` is the first of the request with the uuid of chunk `i`; without a uuid it is `i`. */
  ghost predicate IsFirst(uuids: seq<Option<Uuid>>, i: nat, j: nat)
    requires i < |uuids|
  {
    if uuids[i].None? then j == i
    else j <= i && uuids[j] == uuids[i] && forall k :: 0 <= k < j ==> uuids[k] != uuids[i]
  }

  /** Entry `f` of the index stands for chunk `i`: it names the first chunk with its uuid, and its path
      id is that uuid's. */
  ghost predicate EntryFor(uuids: seq<Option<Uuid>>, filter: seq<nat>, pathIds: seq<string>, i: nat, f: int)
    requires i < |uuids|
  {
    && 0 <= f < |filter| == |pathIds| && IsFirst(uuids, i, filter[f])
    && pathIds[f] == if uuids[i].Some? then PathId(uuids[i].value) else NatToDec(i)
  }

  lemma EntryKept(uuids: seq<Option<Uuid>>, filter: seq<nat>, pathIds: seq<string>, x: nat, id: string, i: nat, f: int)
    requires i < |uuids| && EntryFor(uuids, filter, pathIds, i, f)
    ensures EntryFor(uuids, filter + [x], pathIds + [id], i, f)
  {
  }

  /** The uuid of the entry was first met at the chunk the entry names. */
  ghost predicate Met(uuids: seq<Option<Uuid>>, entry: (nat, Uuid), filter: seq<nat>, pathIds: seq<string>, n: nat)
    requires n <= |uuids|
  {
    && entry.0 < |filter| == |pathIds| && filter[entry.0] < n
    && uuids[filter[entry.0]] == Some(entry.1)
    && (forall k :: 0 <= k < filter[entry.0] ==> uuids[k] != Some(entry.1))
    && pathIds[entry.0] == PathId(entry.1)
  }

  ghost predicate Listed(entries: seq<(nat, Uuid)>, uuid: Uuid) {
    exists e :: 0 <= e < |entries| && entries[e].1 == uuid
  }

  /** The uuids met so far, each with its index entry. */
  ghost predicate EntriesOf(uuids: seq<Option<Uuid>>, entries: seq<(nat, Uuid)>, filter: seq<nat>, pathIds: seq<string>,
                            n: nat)
    requires n <= |uuids|
  {
    && (forall e :: 0 <= e < |entries| ==> Met(uuids, entries[e], filter, pathIds, n))
    && (forall i :: 0 <= i < n && uuids[i].Some? ==> Listed(entries, uuids[i].value))
  }

  lemma MetKept(uuids: seq<Option<Uuid>>, entry: (nat, Uuid), filter: seq<nat>, pathIds: seq<string>, x: nat,
                id: string, n: nat)
    requires n < |uuids| && Met(uuids, entry, filter, pathIds, n)
    ensures Met(uuids, entry, filter + [x], pathIds + [id], n + 1)
    ensures Met(uuids, entry, filter, pathIds, n + 1)
  {
  }

  /** A chunk whose uuid is already listed shares its entry. */
  lemma KnownUuid(uuids: seq<Option<Uuid>>, entries: seq<(nat, Uuid)>, filter: seq<nat>, pathIds: seq<string>, n: nat,
                  flag: int)
    requires n < |uuids| && uuids[n].Some? && EntriesOf(uuids, entries, filter, pathIds, n)
    requires exists e :: 0 <= e < |entries| && entries[e] == (flag, uuids[n].value)
    ensures EntryFor(uuids, filter, pathIds, n, flag)
    ensures EntriesOf(uuids, entries, filter, pathIds, n + 1)
  {
    var e :| 0 <= e < |entries| && entries[e] == (flag, uuids[n].value);
    assert Met(uuids, entries[e], filter, pathIds, n);
    assert Listed(entries, uuids[n].value);
    forall d | 0 <= d < |entries| ensures Met(uuids, entries[d], filter, pathIds, n + 1) {
      MetKept(uuids, entries[d], filter, pathIds, 0, "", n);
    }
  }

  lemma ListedGrows(uuids: seq<Option<Uuid>>, entries: seq<(nat, Uuid)>, e: (nat, Uuid), n: nat)
    requires n < |uuids| && uuids[n] == Some(e.1)
    requires forall i :: 0 <= i < n && uuids[i].Some? ==> Listed(entries, uuids[i].value)
    ensures forall i :: 0 <= i <= n && uuids[i].Some? ==> Listed(entries + [e], uuids[i].value)
  {
    forall i | 0 <= i <= n && uuids[i].Some? ensures Listed(entries + [e], uuids[i].value) {
      if i < n {
        var d :| 0 <= d < |entries| && entries[d].1 == uuids[i].value;
        assert (entries + [e])[d].1 == uuids[i].value;
      } else {
        assert (entries + [e])[|entries|].1 == uuids[i].value;
      }
    }
  }

  /** A chunk with a new uuid, or with none, gets an entry of its own. */
  lemma NewEntry(uuids: seq<Option<Uuid>>, entries: seq<(nat, Uuid)>, filter: seq<nat>, pathIds: seq<string>, n: nat,
                 id: string, more: seq<(nat, Uuid)>)
    requires n < |uuids| && |filter| == |pathIds| && EntriesOf(uuids, entries, filter, pathIds, n)
    requires uuids[n].Some? ==> !Listed(entries, uuids[n].value)
    requires id == if uuids[n].Some? then PathId(uuids[n].value) else NatToDec(n)
    requires more == if uuids[n].Some? then entries + [(|filter|, uuids[n].value)] else entries
    ensures EntryFor(uuids, filter + [n], pathIds + [id], n, |filter|)
    ensures EntriesOf(uuids, more, filter + [n], pathIds + [id], n + 1)
  {
    forall k | 0 <= k < n && uuids[n].Some? ensures uuids[k] != uuids[n] {
      assert uuids[k].Some? ==> Listed(entries, uuids[k].value);
    }
    forall d | 0 <= d < |more| ensures Met(uuids, more[d], filter + [n], pathIds + [id], n + 1) {
      if d < |entries| {
        MetKept(uuids, entries[d], filter, pathIds, n, id, n);
      }
    }
    if uuids[n].Some? {
      ListedGrows(uuids, entries, (|filter|, uuids[n].value), n);
    }
  }

  method FindUuid(entries: seq<(nat, Uuid)>, uuid: Uuid) returns (flag: int)
    ensures flag == -1 <==> !Listed(entries, uuid)
    ensures flag != -1 ==> exists e :: 0 <= e < |entries| && entries[e] == (flag, uuid)
  {
    for e := 0 to |entries|
      invariant forall d :: 0 <= d < e ==> entries[d].1 != uuid
    {
      if uuid == entries[e].1 {
        return entries[e].0;
      }
    }
    flag := -1;
  }

  class ContextManager<P> {
    var keySvIdx: seq<int>
    var keySvFilterIdx: seq<nat>
    var keySvUuidPathIds: seq<string>

    constructor ()
      ensures keySvIdx == [] && keySvFilterIdx == [] && keySvUuidPathIds == []
    {
      keySvIdx, keySvFilterIdx, keySvUuidPathIds := [], [], [];
    }

    /** Every chunk of the request has an entry. */
    ghost predicate Indexed(uuids: seq<Option<Uuid>>, others: nat)
      reads this
    {
      && |keySvIdx| == others && |keySvFilterIdx| == |keySvUuidPathIds|
      && (forall f :: 0 <= f < |keySvFilterIdx| ==> keySvFilterIdx[f] < |uuids|)
      && (forall i :: 0 <= i < others && i < |uuids| ==>
            EntryFor(uuids, keySvFilterIdx, keySvUuidPathIds, i, keySvIdx[i]))
      && (forall i :: |uuids| <= i < others ==> keySvIdx[i] == -1)
    }

    /** `get_reuse_kv` at layer 1: `uuids` are those of the key_sv parts fetched there. */
    method BuildIndex(uuids: seq<Option<Uuid>>, others: nat)
      modifies this
      ensures Indexed(uuids, others)
    {
      keySvIdx, keySvFilterIdx, keySvUuidPathIds := [], [], [];
      var entries: seq<(nat, Uuid)> := [];
      for n := 0 to others
        invariant |keySvIdx| == n && |keySvFilterIdx| == |keySvUuidPathIds|
        invariant forall f :: 0 <= f < |keySvFilterIdx| ==> keySvFilterIdx[f] < |uuids|
        invariant EntriesOf(uuids, entries, keySvFilterIdx, keySvUuidPathIds, if n < |uuids| then n else |uuids|)
        invariant forall i :: 0 <= i < n && i < |uuids| ==>
                    EntryFor(uuids, keySvFilterIdx, keySvUuidPathIds, i, keySvIdx[i])
        invariant forall i :: |uuids| <= i < n ==> keySvIdx[i] == -1
      {
        if n >= |uuids| {
          keySvIdx := keySvIdx + [-1];
        } else {
          entries := AddChunk(uuids, entries, n);
        }
      }
    }

    method AddChunk(uuids: seq<Option<Uuid>>, entries: seq<(nat, Uuid)>, n: nat) returns (more: seq<(nat, Uuid)>)
      requires n < |uuids| && |keySvIdx| == n && |keySvFilterIdx| == |keySvUuidPathIds|
      requires forall f :: 0 <= f < |keySvFilterIdx| ==> keySvFilterIdx[f] < |uuids|
      requires EntriesOf(uuids, entries, keySvFilterIdx, keySvUuidPathIds, n)
      requires forall i :: 0 <= i < n ==> EntryFor(uuids, keySvFilterIdx, keySvUuidPathIds, i, keySvIdx[i])
      modifies this
      ensures |keySvIdx| == n + 1 && |keySvFilterIdx| == |keySvUuidPathIds|
      ensures forall f :: 0 <= f < |keySvFilterIdx| ==> keySvFilterIdx[f] < |uuids|
      ensures EntriesOf(uuids, more, keySvFilterIdx, keySvUuidPathIds, n + 1)
      ensures forall i :: 0 <= i <= n ==> EntryFor(uuids, keySvFilterIdx, keySvUuidPathIds, i, keySvIdx[i])
    {
      more := entries;
      var flag := -1;
      if uuids[n].Some? {
        flag := FindUuid(entries, uuids[n].value);
      }
      if flag == -1 {
        var f := |keySvFilterIdx|;
        var id := if uuids[n].Some? then PathId(uuids[n].value) else NatToDec(n);
        if uuids[n].Some? {
          more := entries + [(f, uuids[n].value)];
        }
        NewEntry(uuids, entries, keySvFilterIdx, keySvUuidPathIds, n, id, more);
        forall i | 0 <= i < n ensures EntryFor(uuids, keySvFilterIdx + [n], keySvUuidPathIds + [id], i, keySvIdx[i]) {
          EntryKept(uuids, keySvFilterIdx, keySvUuidPathIds, n, id, i, keySvIdx[i]);
        }
        keySvIdx, keySvFilterIdx, keySvUuidPathIds := keySvIdx + [f], keySvFilterIdx + [n], keySvUuidPathIds + [id];
      } else {
        KnownUuid(uuids, entries, keySvFilterIdx, keySvUuidPathIds, n, flag);
        keySvIdx := keySvIdx + [flag];
      }
    }

    /** The key_sv objects to fetch for a layer: above layer 2 one per index entry. */
    method KeySvPaths(texts: seq<string>, layer: int, device: string) returns (paths: seq<string>)
      requires |keySvFilterIdx| == |keySvUuidPathIds|
      requires layer > 2 ==> forall f :: 0 <= f < |keySvFilterIdx| ==> keySvFilterIdx[f] < |texts|
      ensures layer > 2 ==>
                && |paths| == |keySvFilterIdx|
                && forall f :: 0 <= f < |paths| ==>
                     paths[f] == SharedFilename(keySvUuidPathIds[f], layer,
                                                KvCacheFilename(texts[keySvFilterIdx[f]], layer, device))
      ensures layer <= 2 ==>
                && |paths| == |texts|
                && forall i :: 0 <= i < |texts| ==> paths[i] == OwnPath(KvCacheFilename(texts[i], layer, device))
    {
      paths := [];
      if layer > 2 {
        for f := 0 to |keySvFilterIdx|
          invariant |paths| == f
          invariant forall e :: 0 <= e < f ==>
                      paths[e] == SharedFilename(keySvUuidPathIds[e], layer,
                                                 KvCacheFilename(texts[keySvFilterIdx[e]], layer, device))
        {
          var base := KvCacheFilename(texts[keySvFilterIdx[f]], layer, device);
          paths := paths + [SharedFilename(keySvUuidPathIds[f], layer, base)];
        }
      } else {
        for i := 0 to |texts|
          invariant |paths| == i
          invariant forall e :: 0 <= e < i ==> paths[e] == OwnPath(KvCacheFilename(texts[e], layer, device))
        {
          paths := paths + [OwnPath(KvCacheFilename(texts[i], layer, device))];
        }
      }
    }

    /** Join every other part with the key_sv its chunk points to; nothing where either is missing. */
    method Merge(layer: int, keySvData: seq<Option<KeySv<P>>>, otherData: seq<Option<P>>)
      returns (merged: seq<Option<(P, KeySv<P>)>>)
      ensures |merged| == |otherData|
      ensures forall i :: 0 <= i < |otherData| ==>
                var k := if layer <= 2 then i else if i < |keySvIdx| then keySvIdx[i] else -1;
                merged[i] == if 0 <= k < |keySvData| && keySvData[k].Some? && otherData[i].Some?
                             then Some((otherData[i].value, keySvData[k].value)) else None
    {
      merged := [];
      for n := 0 to |otherData|
        invariant |merged| == n
        invariant forall i :: 0 <= i < n ==>
                    var k := if layer <= 2 then i else if i < |keySvIdx| then keySvIdx[i] else -1;
                    merged[i] == if 0 <= k < |keySvData| && keySvData[k].Some? && otherData[i].Some?
                                 then Some((otherData[i].value, keySvData[k].value)) else None
      {
        var k := if layer <= 2 then n else if n < |keySvIdx| then keySvIdx[n] else -1;
        if k < 0 || k >= |keySvData| || otherData[n].None? || keySvData[k].None? {
          merged := merged + [None];
        } else {
          merged := merged + [Some((otherData[n].value, keySvData[k].value))];
        }
      }
    }

    /** Every chunk of the request that is in the store, repeats included, comes back as its own other
        part with its group's key_sv of largest rank above layer 2, and with its own key_sv below; a chunk
        that is not comes back empty and does not disturb the others. */
    method GetReuseKv(db: map<string, Value<P>>, texts: seq<string>, layer: int, device: string,
                      ghost uuids: seq<Option<Uuid>>, ghost origin: seq<Option<Origin<P>>>)
      returns (merged: seq<Option<(P, KeySv<P>)>>)
      requires |uuids| == |texts| && Indexed(uuids, |texts|) && forall i :: 0 <= i < |texts| ==> Plain(texts[i])
      requires StoredRequest(db, texts, uuids, layer, device, origin)
      ensures |merged| == |texts|
      ensures forall i :: 0 <= i < |texts| ==> merged[i] == Joined(origin[i])
    {
      var paths := KeySvPaths(texts, layer, device);
      var keySvData := seq(|paths|, f requires 0 <= f < |paths| => LookupKeySv(db, paths[f]));
      var otherData := seq(|texts|, i requires 0 <= i < |texts| =>
                             LookupOther(db, OtherPath(KvCacheFilename(texts[i], layer, device))));
      merged := Merge(layer, keySvData, otherData);
      forall i | 0 <= i < |texts| ensures merged[i] == Joined(origin[i]) {
        assert RequestAt(db, texts[i], uuids[i], layer, device, origin[i]);
        if origin[i].Some? {
          var o := origin[i].value;
          if layer > 2 {
            var f := keySvIdx[i];
            assert EntryFor(uuids, keySvFilterIdx, keySvUuidPathIds, i, f);
            FetchedIsWritten(db, texts[i], uuids[i], layer, device, o, texts[keySvFilterIdx[f]]);
          } else {
            OwnIsWritten(db, texts[i], uuids[i], layer, device, o);
          }
        }
      }
    }
  }

  function LookupKeySv<P>(db: map<string, Value<P>>, path: string): Option<KeySv<P>> {
    if path in db && db[path].KeySvValue? then Some(db[path].keySv) else None
  }

  function LookupOther<P>(db: map<string, Value<P>>, path: string): Option<P> {
    if path in db && db[path].OtherValue? then Some(db[path].other) else None
  }

  /** Which chunk of which stored group a requested chunk is. */
  datatype Origin<P> = Origin(group: Group<P>, member: nat) {
    ghost function Other(): P
      requires member < |group.chunks|
    {
      group.chunks[member].other
    }

    ghost function KeySv(): KeySv<P>
      requires member < |group.chunks|
    {
      group.chunks[group.Provider(member)].keySv
    }
  }

  ghost predicate FromGroup<P>(db: map<string, Value<P>>, text: string, uuid: Option<Uuid>, layer: int, device: string,
                               o: Origin<P>)
  {
    && o.group.Valid() && o.group.layer == layer && o.group.device == device
    && o.member < |o.group.hashes| && o.group.hashes[o.member] == text && uuid == Some(o.group.uuid)
    && MemberStored(db, o.group, o.member)
  }

  /** A requested chunk is in the store as a chunk of some group, or its other part is missing. */
  ghost predicate RequestAt<P>(db: map<string, Value<P>>, text: string, uuid: Option<Uuid>, layer: int, device: string,
                               o: Option<Origin<P>>)
  {
    match o
    case Some(origin) => FromGroup(db, text, uuid, layer, device, origin)
    case None => LookupOther(db, OtherPath(KvCacheFilename(text, layer, device))) == None
  }

  ghost predicate StoredRequest<P>(db: map<string, Value<P>>, texts: seq<string>, uuids: seq<Option<Uuid>>, layer: int,
                                   device: string, origin: seq<Option<Origin<P>>>)
    requires |uuids| == |texts|
  {
    && |origin| == |texts|
    && (forall i :: 0 <= i < |texts| ==> RequestAt(db, texts[i], uuids[i], layer, device, origin[i]))
  }

  /** The payload a stored chunk comes back as. */
  ghost function Joined<P>(o: Option<Origin<P>>): Option<(P, KeySv<P>)> {
    if o.Some? && o.value.member < |o.value.group.chunks| then Some((o.value.Other(), o.value.KeySv())) else None
  }

  lemma OwnIsWritten<P>(db: map<string, Value<P>>, text: string, uuid: Option<Uuid>, layer: int, device: string,
                        o: Origin<P>)
    requires FromGroup(db, text, uuid, layer, device, o)
    ensures LookupOther(db, OtherPath(KvCacheFilename(text, layer, device))) == Some(o.Other())
    ensures layer <= 2 ==> LookupKeySv(db, OwnPath(KvCacheFilename(text, layer, device))) == Some(o.KeySv())
  {
    assert o.group.NamedAt(o.member);
  }

  /** The path fetched through any chunk with the uuid is the path the group was stored under. */
  lemma FetchedIsWritten<P>(db: map<string, Value<P>>, text: string, uuid: Option<Uuid>, layer: int, device: string,
                            o: Origin<P>, first: string)
    requires FromGroup(db, text, uuid, layer, device, o) && layer > 2 && Plain(first)
    ensures LookupOther(db, OtherPath(KvCacheFilename(text, layer, device))) == Some(o.Other())
    ensures LookupKeySv(db, SharedFilename(PathId(uuid.value), layer, KvCacheFilename(first, layer, device)))
            == Some(o.KeySv())
  {
    assert o.group.NamedAt(o.member);
    KeyDirectory(text, layer, device);
    KeyDirectory(first, layer, device);
  }
}
