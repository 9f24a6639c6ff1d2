/** Where a batch of serialised objects goes in host and device memory, and the tensor views over it. */
module GpuLayout {
  import opened Options
  import opened TensorCodec
  import opened TensorRoundTrip

  const BLOCK_SIZE := 4096
  const GPU_ARENA_SIZE := 512 * 1024 * 1024
  const GPU_ALIGNMENT := 256

  function AlignUp(size: nat, block: nat): (r: nat)
    ensures size <= r
    ensures block > 0 ==> r % block == 0 && r < size + block
    ensures block == 0 ==> r == size
  {
    if block == 0 then size
    else
      RoundsUp(size, block);
      (size + block - 1) / block * block
  }

  lemma RoundsUp(size: nat, block: nat)
    requires block > 0
    ensures var r := (size + block - 1) / block * block;
            size <= r < size + block && r % block == 0
  {
    var q := (size + block - 1) / block;
    assert block * q == q * block;
    DivUnique(q * block, block, q, 0);
  }

  lemma {:induction false} AddMultiples(a: nat, b: nat, m: nat)
    requires m > 0 && a % m == 0 && b % m == 0
    ensures (a + b) % m == 0
  {
    assert a == m * (a / m) && b == m * (b / m);
    assert a + b == m * (a / m + b / m);
    DivUnique(a + b, m, a / m + b / m, 0);
  }

  /** `offsets` places ranges of the given sizes one after the other, each on a boundary. */
  ghost predicate Placed(offsets: seq<nat>, sizes: seq<nat>, alignment: nat)
    requires alignment > 0
  {
    && |offsets| == |sizes|
    && (forall i :: 0 <= i < |sizes| ==> offsets[i] % alignment == 0)
    && (forall i, j :: 0 <= i < j < |sizes| ==> offsets[i] + sizes[i] <= offsets[j])
  }

  method NextBoundary(cursor: nat, alignment: nat) returns (r: nat)
    requires alignment > 0
    ensures cursor <= r < cursor + alignment && r % alignment == 0
    ensures cursor == 0 ==> r == 0
  {
    r := AlignUp(cursor, alignment);
    if r > 0 && cursor == 0 {
      DivUnique(r, alignment, 0, r);
    }
  }

  datatype Offsets = Offsets(value: seq<nat>) | InvalidAlignment

  /** The offsets are aligned, the ranges are disjoint and each gap is shorter than the alignment. */
  method ComputeAlignedObjectOffsets(sizes: seq<nat>, alignment: nat) returns (r: Offsets)
    ensures r.InvalidAlignment? <==> alignment == 0
    ensures alignment > 0 ==>
              && Placed(r.value, sizes, alignment)
              && (sizes != [] ==> r.value[0] == 0)
              && (forall i :: 0 < i < |sizes| ==> r.value[i] - (r.value[i - 1] + sizes[i - 1]) < alignment)
  {
    if alignment == 0 {
      return InvalidAlignment;
    }
    var offsets: seq<nat> := [];
    var cursor := 0;
    for k := 0 to |sizes|
      invariant Placed(offsets, sizes[..k], alignment)
      invariant forall i :: 0 <= i < k ==> offsets[i] + sizes[i] <= cursor
      invariant if k == 0 then cursor == 0 else offsets[0] == 0 && cursor == offsets[k - 1] + sizes[k - 1]
      invariant forall i :: 0 < i < k ==> offsets[i] - (offsets[i - 1] + sizes[i - 1]) < alignment
    {
      cursor := NextBoundary(cursor, alignment);
      offsets := offsets + [cursor];
      cursor := cursor + sizes[k];
    }
    assert sizes[..|sizes|] == sizes;
    return Offsets(offsets);
  }

  /** The end of the last range. */
  method TotalSize(offsets: seq<nat>, sizes: seq<nat>) returns (total: nat)
    requires |offsets| == |sizes|
    ensures forall i :: 0 <= i < |sizes| ==> offsets[i] + sizes[i] <= total
    ensures total > 0 ==> exists i :: 0 <= i < |sizes| && total == offsets[i] + sizes[i]
  {
    total := 0;
    for k := 0 to |sizes|
      invariant forall i :: 0 <= i < k ==> offsets[i] + sizes[i] <= total
      invariant total > 0 ==> exists i :: 0 <= i < k && total == offsets[i] + sizes[i]
    {
      if total < offsets[k] + sizes[k] {
        total := offsets[k] + sizes[k];
      }
    }
  }

  // ---- Cutting blocks from an arena ------------------------------------------------------------

  ghost predicate Apart(p: nat, n: nat, q: nat, m: nat) {
    p + n <= q || q + m <= p
  }

  /** Where an arena puts a block of whole alignment units: at the cursor, or at the front when it does
      not fit there. */
  function NextPlace(cursor: nat, size: nat, capacity: nat): nat {
    if cursor + size <= capacity then cursor else 0
  }

  /** A block handed out earlier and below the cursor survives the next one, of which `used` bytes are
      used, exactly if that fits behind the cursor or its used bytes end before the block. */
  lemma EarlierBlockSurvives(start: nat, length: nat, cursor: nat, size: nat, used: nat, capacity: nat)
    requires 0 < length && start + length <= cursor && used <= size
    ensures Apart(NextPlace(cursor, size, capacity), used, start, length)
            <==> cursor + size <= capacity || used <= start
  {
  }

  /** Where blocks allocated one after the other start. */
  function Bases(cursor: nat, sizes: seq<nat>, capacity: nat): (bases: seq<nat>)
    ensures |bases| == |sizes|
    decreases |sizes|
  {
    if sizes == [] then []
    else
      var base := NextPlace(cursor, sizes[0], capacity);
      [base] + Bases(base + sizes[0], sizes[1..], capacity)
  }

  function Total(sizes: seq<nat>): nat {
    if sizes == [] then 0 else sizes[0] + Total(sizes[1..])
  }

  /** The blocks of a run are pairwise apart. */
  ghost predicate AllApart(bases: seq<nat>, sizes: seq<nat>)
    requires |bases| == |sizes|
  {
    forall i, j :: 0 <= i < j < |sizes| ==> Apart(bases[i], sizes[i], bases[j], sizes[j])
  }

  lemma {:induction false} FittingRun(cursor: nat, sizes: seq<nat>, capacity: nat)
    requires cursor + Total(sizes) <= capacity
    ensures forall i :: 0 <= i < |sizes| ==> cursor <= Bases(cursor, sizes, capacity)[i]
    ensures AllApart(Bases(cursor, sizes, capacity), sizes)
    decreases |sizes|
  {
    if sizes == [] {
    } else {
      FittingRun(cursor + sizes[0], sizes[1..], capacity);
    }
  }

  /** A run that does not fit behind the cursor starts a block at the front again. */
  lemma {:induction false} OverfullRun(cursor: nat, sizes: seq<nat>, capacity: nat) returns (k: nat)
    requires cursor <= capacity < cursor + Total(sizes)
    ensures k < |sizes| && Bases(cursor, sizes, capacity)[k] == 0 && (k == 0 ==> cursor + sizes[0] > capacity)
    decreases |sizes|
  {
    if cursor + sizes[0] > capacity {
      k := 0;
    } else {
      k := OverfullRun(cursor + sizes[0], sizes[1..], capacity);
      k := k + 1;
    }
  }

  /** Blocks cut from the front of an arena are pairwise apart exactly if together they fit it. */
  lemma RunApartIffFits(sizes: seq<nat>, capacity: nat)
    requires forall i :: 0 <= i < |sizes| ==> 0 < sizes[i] <= capacity
    ensures AllApart(Bases(0, sizes, capacity), sizes) <==> Total(sizes) <= capacity
  {
    if Total(sizes) <= capacity {
      FittingRun(0, sizes, capacity);
    } else {
      var k := OverfullRun(0, sizes, capacity);
      var bases := Bases(0, sizes, capacity);
      assert bases[0] == 0 == bases[k] && k > 0;
      assert !Apart(bases[0], sizes[0], bases[k], sizes[k]);
    }
  }

  // ---- The device arena ------------------------------------------------------------------------

  datatype Allocation = Pointer(offset: nat) | NullPointer | MallocFailed

  /** What an allocation of a given size returns: memory of that size, or nothing. */
  type Malloc = nat -> Option<Bytes>

  ghost predicate Allocates(malloc: Malloc) {
    forall n :: malloc(n).Some? ==> |malloc(n).value| == n
  }

  /** What `cudaMalloc` is asked for when the arena grows. */
  function ArenaSize(size: nat): (n: nat)
    ensures n >= 0x2000_0000 && n >= size && (n > 0x2000_0000 ==> n < size + 256)
  {
    var aligned := AlignUp(size, GPU_ALIGNMENT);
    if GPU_ARENA_SIZE < aligned then aligned else GPU_ARENA_SIZE
  }

  /** One device allocation, cut up front to back and reused from the front when the end is reached. */
  class GpuArena {
    /** The device memory, if it is allocated. */
    var memory: Option<Bytes>
    var capacity: nat
    var offset: nat
    var device: int

    /** The recorded capacity is that of the memory held. */
    ghost predicate Sound()
      reads this
    {
      match memory
      case None => capacity == 0
      case Some(bytes) => capacity == |bytes|
    }

    constructor ()
      ensures Sound() && memory == None && capacity == 0 && offset == 0 && device == -1
    {
      memory, capacity, offset, device := None, 0, 0, -1;
    }

    predicate MustGrow(size: nat, deviceId: int)
      reads this
    {
      device != deviceId || capacity < AlignUp(size, GPU_ALIGNMENT)
    }

    /** `cudaFree` and `cudaMalloc`: a failed allocation leaves no memory, but the old capacity. */
    method Reallocate(size: nat, deviceId: int, malloc: Malloc) returns (ok: bool)
      requires Allocates(malloc)
      modifies this
      ensures ok == malloc(size).Some? && memory == malloc(size)
      ensures ok ==> capacity == |memory.value| == size && offset == 0 && device == deviceId
      ensures !ok ==> capacity == old(capacity) && offset == old(offset) && device == old(device)
    {
      memory := malloc(size);
      if memory.None? {
        return false;
      }
      capacity, offset, device := size, 0, deviceId;
      return true;
    }

    /** The block is aligned, inside the capacity and at the next place behind the cursor; an arena that
        grows starts from the front. The arena stays sound unless a growth of a non-empty arena fails. */
    method Allocate(size: nat, deviceId: int, malloc: Malloc) returns (r: Allocation)
      requires Allocates(malloc)
      modifies this
      ensures r.NullPointer? <==> size == 0
      ensures r.MallocFailed? <==> size > 0 && old(MustGrow(size, deviceId)) && malloc(ArenaSize(size)).None?
      ensures r.NullPointer? ==> unchanged(this)
      ensures r.MallocFailed? ==>
                memory == None && capacity == old(capacity) && device == old(device) && offset == old(offset)
      ensures r.Pointer? ==>
                && r.offset % GPU_ALIGNMENT == 0 && r.offset + size <= capacity && device == deviceId
                && offset == r.offset + AlignUp(size, GPU_ALIGNMENT) <= capacity
                && memory == (if old(MustGrow(size, deviceId)) then malloc(ArenaSize(size)) else old(memory))
      ensures r.Pointer? && old(MustGrow(size, deviceId)) ==> capacity == ArenaSize(size) && r.offset == 0
      ensures r.Pointer? && !old(MustGrow(size, deviceId)) ==>
                && capacity == old(capacity)
                && r.offset == NextPlace(AlignUp(old(offset), GPU_ALIGNMENT), AlignUp(size, GPU_ALIGNMENT), capacity)
      ensures Sound() <==> if r.MallocFailed? then old(capacity) == 0
                           else old(Sound()) || (r.Pointer? && old(MustGrow(size, deviceId)))
    {
      if size == 0 {
        return NullPointer;
      }
      var alignedSize := AlignUp(size, GPU_ALIGNMENT);
      assert AlignUp(0, GPU_ALIGNMENT) == 0;
      if device != deviceId || capacity < alignedSize {
        var ok := Reallocate(if GPU_ARENA_SIZE < alignedSize then alignedSize else GPU_ARENA_SIZE, deviceId, malloc);
        if !ok {
          return MallocFailed;
        }
      }
      var place := AlignUp(offset, GPU_ALIGNMENT);
      if place + alignedSize > capacity {
        place := AlignUp(0, GPU_ALIGNMENT);
      }
      offset := place + alignedSize;
      return Pointer(place);
    }
  }

  function Aligned(sizes: seq<nat>): (aligned: seq<nat>)
    ensures |aligned| == |sizes| && forall i :: 0 <= i < |sizes| ==> aligned[i] == AlignUp(sizes[i], GPU_ALIGNMENT)
  {
    seq(|sizes|, i requires 0 <= i < |sizes| => AlignUp(sizes[i], GPU_ALIGNMENT))
  }

  lemma AlignedStays(n: nat)
    requires n % GPU_ALIGNMENT == 0
    ensures AlignUp(n, GPU_ALIGNMENT) == n
  {
  }

  lemma BasesStep(bases: seq<nat>, cursor: nat, sizes: seq<nat>, k: nat, capacity: nat, all: seq<nat>)
    requires k < |sizes| && bases + Bases(cursor, sizes[k..], capacity) == all
    ensures var base := NextPlace(cursor, sizes[k], capacity);
            (bases + [base]) + Bases(base + sizes[k], sizes[k + 1..], capacity) == all
  {
    assert sizes[k..][1..] == sizes[k + 1..];
  }

  /** An allocation that needs no growth, from an aligned cursor. */
  method AllocateNext(arena: GpuArena, size: nat, malloc: Malloc) returns (base: nat)
    requires Allocates(malloc) && arena.offset % GPU_ALIGNMENT == 0
    requires 0 < size && AlignUp(size, GPU_ALIGNMENT) <= arena.capacity
    modifies arena
    ensures arena.capacity == old(arena.capacity) && arena.offset % GPU_ALIGNMENT == 0
    ensures base == NextPlace(old(arena.offset), AlignUp(size, GPU_ALIGNMENT), arena.capacity)
    ensures arena.offset == base + AlignUp(size, GPU_ALIGNMENT)
  {
    AlignedStays(arena.offset);
    var block := arena.Allocate(size, arena.device, malloc);
    AddMultiples(block.offset, AlignUp(size, GPU_ALIGNMENT), GPU_ALIGNMENT);
    base := block.offset;
  }

  /** Allocations that need no growth, one after the other from the front. */
  method AllocateRun(arena: GpuArena, sizes: seq<nat>, malloc: Malloc) returns (bases: seq<nat>)
    requires Allocates(malloc) && arena.offset == 0
    requires forall i :: 0 <= i < |sizes| ==> 0 < sizes[i] && AlignUp(sizes[i], GPU_ALIGNMENT) <= arena.capacity
    modifies arena
    ensures arena.capacity == old(arena.capacity) && bases == Bases(0, Aligned(sizes), arena.capacity)
    ensures AllApart(bases, Aligned(sizes)) <==> Total(Aligned(sizes)) <= arena.capacity
  {
    bases := [];
    ghost var aligned := Aligned(sizes);
    for k := 0 to |sizes|
      invariant |bases| == k && arena.capacity == old(arena.capacity) && arena.offset % GPU_ALIGNMENT == 0
      invariant bases + Bases(arena.offset, aligned[k..], arena.capacity) == Bases(0, aligned, arena.capacity)
    {
      BasesStep(bases, arena.offset, aligned, k, arena.capacity, Bases(0, aligned, arena.capacity));
      var base := AllocateNext(arena, sizes[k], malloc);
      bases := bases + [base];
    }
    RunApartIffFits(Aligned(sizes), arena.capacity);
  }

  /** Two blocks that do not fit together overlap, although each was handed out as free memory. */
  method BlocksOverlap(first: nat, second: nat, block: Bytes) returns (a: Allocation, b: Allocation)
    requires 0 < first && 0 < second && |block| == ArenaSize(first)
    requires AlignUp(second, GPU_ALIGNMENT) <= |block| < AlignUp(first, GPU_ALIGNMENT) + AlignUp(second, GPU_ALIGNMENT)
    ensures a.Pointer? && b.Pointer? && !Apart(a.offset, first, b.offset, second)
  {
    var arena := new GpuArena();
    a := arena.Allocate(first, 0, n => if n == |block| then Some(block) else None);
    AlignedStays(AlignUp(first, GPU_ALIGNMENT));
    EarlierBlockSurvives(a.offset, first, arena.offset, AlignUp(second, GPU_ALIGNMENT), second, arena.capacity);
    b := arena.Allocate(second, 0, _ => None);
  }

  /** After a failed growth the arena has no memory, yet it goes on handing out pointers. */
  method PointerWithoutMemory(first: nat, larger: nat, block: Bytes) returns (second: Allocation, memory: Option<Bytes>)
    requires 0 < first && |block| == ArenaSize(first) < AlignUp(larger, GPU_ALIGNMENT)
    ensures second.Pointer? && memory == None
  {
    var arena := new GpuArena();
    var _ := arena.Allocate(first, 0, n => if n == |block| then Some(block) else None);
    assert larger > 0;
    var _ := arena.Allocate(larger, 0, _ => None);
    second := arena.Allocate(first, 0, _ => None);
    memory := arena.memory;
  }

  // ---- The host buffer -------------------------------------------------------------------------

  /** The preallocated host buffer, reused from the front when the end is reached. */
  class HostArena {
    var buffer: Bytes
    var offset: nat

    ghost predicate Valid()
      reads this
    {
      offset <= |buffer| && offset % BLOCK_SIZE == 0
    }

    /** The batch lies in the buffer, at the next place behind the cursor, when the buffer is large enough
        at all. */
    method Place(size: nat) returns (inBuffer: bool, base: nat)
      requires Valid() && size > 0 && size % BLOCK_SIZE == 0
      modifies this`offset
      ensures Valid() && inBuffer == (size <= |buffer|)
      ensures inBuffer ==> base + size == offset <= |buffer| && base % BLOCK_SIZE == 0
      ensures inBuffer ==> base == NextPlace(old(offset), size, |buffer|)
      ensures !inBuffer ==> base == 0 && offset == old(offset)
    {
      if |buffer| < size {
        return false, 0;
      }
      if offset + size > |buffer| {
        offset := 0;
      }
      base := offset;
      offset := offset + size;
      inBuffer := true;
    }
  }

  /** Host offsets: every object starts on a block boundary and owns whole blocks. */
  method HostOffsets(sizes: seq<nat>) returns (offsets: seq<nat>, total: nat)
    ensures Placed(offsets, sizes, 4096)
    ensures forall i :: 0 <= i < |sizes| ==> offsets[i] + sizes[i] <= total
    ensures total % 4096 == 0
  {
    offsets, total := [], 0;
    for k := 0 to |sizes|
      invariant Placed(offsets, sizes[..k], BLOCK_SIZE) && total % BLOCK_SIZE == 0
      invariant forall i :: 0 <= i < k ==> offsets[i] + sizes[i] <= total
    {
      var offset := AlignUp(total, BLOCK_SIZE);
      total := offset + AlignUp(sizes[k], BLOCK_SIZE);
      offsets := offsets + [offset];
    }
    assert sizes[..|sizes|] == sizes;
  }

  // ---- Copying objects -------------------------------------------------------------------------

  function Sizes(blobs: seq<Bytes>): (sizes: seq<nat>)
    ensures |sizes| == |blobs| && forall i :: 0 <= i < |blobs| ==> sizes[i] == |blobs[i]|
  {
    seq(|blobs|, i requires 0 <= i < |blobs| => |blobs[i]|)
  }

  /** Every byte outside the range is the same. */
  ghost predicate KeptOutside(before: Bytes, after: Bytes, base: nat, size: nat) {
    && |after| == |before|
    && forall k :: 0 <= k < |before| && !(base <= k < base + size) ==> after[k] == before[k]
  }

  /** Whatever stood apart from the range still stands there. */
  lemma StandsStill(before: Bytes, after: Bytes, base: nat, size: nat, pos: nat, s: Bytes)
    requires KeptOutside(before, after, base, size) && At(before, pos, s) && Apart(base, size, pos, |s|)
    ensures At(after, pos, s)
  {
    forall k | 0 <= k < |s| ensures after[pos..pos + |s|][k] == s[k] {
      assert before[pos..pos + |s|][k] == before[pos + k];
    }
  }

  lemma KeptTwice(a: Bytes, b: Bytes, c: Bytes, base: nat, size: nat, pos: nat, length: nat)
    requires KeptOutside(a, b, base, size) && KeptOutside(b, c, pos, length)
    requires base <= pos && pos + length <= base + size
    ensures KeptOutside(a, c, base, size)
  {
  }

  method Write(memory: Bytes, pos: nat, blob: Bytes) returns (out: Bytes)
    requires pos + |blob| <= |memory|
    ensures At(out, pos, blob) && KeptOutside(memory, out, pos, |blob|)
  {
    out := memory[..pos] + blob + memory[pos + |blob|..];
  }

  /** Every chosen object is copied in full, whatever the order, and nothing outside the batch's range
      changes. */
  method CopyObjects(memory: Bytes, base: nat, offsets: seq<nat>, blobs: seq<Bytes>, chosen: seq<bool>, total: nat)
    returns (out: Bytes)
    requires Placed(offsets, Sizes(blobs), 1) && |chosen| == |blobs| && base + total <= |memory|
    requires forall i :: 0 <= i < |blobs| ==> offsets[i] + |blobs[i]| <= total
    ensures forall i :: 0 <= i < |blobs| && chosen[i] ==> At(out, base + offsets[i], blobs[i])
    ensures KeptOutside(memory, out, base, total)
  {
    out := memory;
    for k := 0 to |blobs|
      invariant forall i :: 0 <= i < k && chosen[i] ==> At(out, base + offsets[i], blobs[i])
      invariant KeptOutside(memory, out, base, total)
    {
      if chosen[k] {
        ghost var before := out;
        out := Write(out, base + offsets[k], blobs[k]);
        forall i | 0 <= i < k && chosen[i] ensures At(out, base + offsets[i], blobs[i]) {
          assert offsets[i] + Sizes(blobs)[i] <= offsets[k];
          StandsStill(before, out, base + offsets[k], |blobs[k]|, base + offsets[i], blobs[i]);
        }
        KeptTwice(memory, before, out, base, total, base + offsets[k], |blobs[k]|);
      }
    }
  }

  // ---- Loading a batch -------------------------------------------------------------------------

  function Moved(v: View, distance: nat): View {
    v.(offset := if v.offset.Some? then Some(v.offset.value + distance) else None)
  }

  function MovedAll(views: Views, distance: nat): Views {
    map name | name in views :: Moved(views[name], distance)
  }

  /** The views of a serialised object standing at `pos`; none when it does not parse. */
  function ViewsAt(blob: Bytes, pos: nat): Views {
    if Parse(blob).Ok? then MovedAll(Parse(blob).value.0, pos) else map[]
  }

  method ParseAt(memory: Bytes, start: nat, blob: Bytes) returns (r: Result<Views>)
    requires At(memory, start, blob)
    ensures r.Ok? <==> Parse(blob).Ok?
    ensures r.Ok? ==> r.value == ViewsAt(blob, start)
  {
    var views :- ParseFromMemoryZeroCopy(memory[start..start + |blob|]);
    return Ok(MovedAll(views, start));
  }

  /** The first `k` objects, each parsed where it stands if it is wanted. */
  ghost predicate ParsedTo(views: seq<Option<Views>>, base: nat, offsets: seq<nat>, blobs: seq<Bytes>,
                           wanted: seq<bool>, k: nat)
    requires |wanted| == |blobs| == |offsets| && k <= |blobs|
  {
    && |views| == k
    && (forall i :: 0 <= i < k && wanted[i] ==> views[i] == Some(ViewsAt(blobs[i], base + offsets[i])))
    && (forall i :: 0 <= i < k && !wanted[i] ==> views[i] == None)
  }

  ghost predicate AllParse(blobs: seq<Bytes>, wanted: seq<bool>, k: nat)
    requires |wanted| == |blobs| && k <= |blobs|
  {
    forall i :: 0 <= i < k && wanted[i] ==> Parse(blobs[i]).Ok?
  }

  lemma OneMoreParsed(views: seq<Option<Views>>, view: Option<Views>, base: nat, offsets: seq<nat>, blobs: seq<Bytes>,
                      wanted: seq<bool>, k: nat)
    requires |wanted| == |blobs| == |offsets| && k < |blobs|
    requires ParsedTo(views, base, offsets, blobs, wanted, k)
    requires if wanted[k] then view == Some(ViewsAt(blobs[k], base + offsets[k])) else view == None
    ensures ParsedTo(views + [view], base, offsets, blobs, wanted, k + 1)
  {
    var more := views + [view];
    assert forall i :: 0 <= i < k ==> more[i] == views[i];
    assert more[k] == view;
  }

  /** Parse every wanted object in place. */
  method ParseObjects(memory: Bytes, base: nat, offsets: seq<nat>, blobs: seq<Bytes>, wanted: seq<bool>)
    returns (r: Result<seq<Option<Views>>>)
    requires |wanted| == |blobs| == |offsets|
    requires forall i :: 0 <= i < |blobs| && wanted[i] ==> At(memory, base + offsets[i], blobs[i])
    ensures r.Ok? <==> AllParse(blobs, wanted, |blobs|)
    ensures r.Ok? ==> ParsedTo(r.value, base, offsets, blobs, wanted, |blobs|)
  {
    var views: seq<Option<Views>> := [];
    for k := 0 to |blobs|
      invariant AllParse(blobs, wanted, k) && ParsedTo(views, base, offsets, blobs, wanted, k)
    {
      var view := None;
      if wanted[k] {
        var parsed :- ParseAt(memory, base + offsets[k], blobs[k]);
        view := Some(parsed);
      }
      OneMoreParsed(views, view, base, offsets, blobs, wanted, k);
      views := views + [view];
    }
    return Ok(views);
  }

  lemma MoveTwice(blob: Bytes, host: nat, device: nat, name: Bytes)
    requires name in ViewsAt(blob, host)
    ensures name in ViewsAt(blob, device)
    ensures var h, d := ViewsAt(blob, host)[name], ViewsAt(blob, device)[name];
            && h.dtype == d.dtype && h.shape == d.shape && h.size == d.size
            && (h.offset.Some? <==> d.offset.Some?)
            && (h.offset.Some? ==> h.offset.value >= host && d.offset.value == device + (h.offset.value - host))
  {
  }

  /** The device views: each keeps its distance from the start of its object. */
  function DeviceViews(views: Views, host: nat, device: nat): Views
    requires forall name :: name in views && views[name].offset.Some? ==> views[name].offset.value >= host
  {
    map name | name in views ::
      var v := views[name];
      if v.offset.None? then v else v.(offset := Some(device + (v.offset.value - host)))
  }

  lemma DeviceViewsAt(blob: Bytes, host: nat, device: nat)
    ensures forall name :: name in ViewsAt(blob, host) && ViewsAt(blob, host)[name].offset.Some? ==>
                             ViewsAt(blob, host)[name].offset.value >= host
    ensures DeviceViews(ViewsAt(blob, host), host, device) == ViewsAt(blob, device)
  {
    forall name | name in ViewsAt(blob, host) {
      MoveTwice(blob, host, device, name);
    }
  }

  method MapToDevice(views: seq<Option<Views>>, hostAt: seq<nat>, deviceAt: seq<nat>, blobs: seq<Bytes>)
    returns (maps: seq<Views>)
    requires |views| == |hostAt| == |deviceAt| == |blobs|
    requires forall i :: 0 <= i < |views| && views[i].Some? ==> views[i].value == ViewsAt(blobs[i], hostAt[i])
    ensures |maps| == |views|
    ensures forall i :: 0 <= i < |views| ==>
              maps[i] == if views[i].Some? then ViewsAt(blobs[i], deviceAt[i]) else map[]
  {
    maps := [];
    for k := 0 to |views|
      invariant |maps| == k
      invariant forall i :: 0 <= i < k ==>
                  maps[i] == if views[i].Some? then ViewsAt(blobs[i], deviceAt[i]) else map[]
    {
      if views[k].Some? {
        DeviceViewsAt(blobs[k], hostAt[k], deviceAt[k]);
        maps := maps + [DeviceViews(views[k].value, hostAt[k], deviceAt[k])];
      } else {
        maps := maps + [map[]];
      }
    }
  }

  datatype Outcome =
    | Loaded(host: seq<Option<Views>>, device: seq<Views>)
    | ParseFailed
    | OutOfDeviceMemory

  /** What a load that reached the device leaves there: every object in one aligned block, whole, in a
      range of its own, with its views moved along. */
  ghost predicate OnDevice(memory: Bytes, base: nat, offsets: seq<nat>, blobs: seq<Bytes>, wanted: seq<bool>,
                           device: seq<Views>)
    requires |wanted| == |blobs|
  {
    && base % GPU_ALIGNMENT == 0 && Placed(offsets, Sizes(blobs), GPU_ALIGNMENT) && |device| == |blobs|
    && (forall i :: 0 <= i < |blobs| ==> base + offsets[i] + |blobs[i]| <= |memory|)
    && (forall i :: 0 <= i < |blobs| && wanted[i] ==>
          At(memory, base + offsets[i], blobs[i]) && device[i] == ViewsAt(blobs[i], base + offsets[i]))
    && (forall i :: 0 <= i < |blobs| && !wanted[i] ==> device[i] == map[])
  }

  function Positions(base: nat, offsets: seq<nat>): (at: seq<nat>)
    ensures |at| == |offsets| && forall i :: 0 <= i < |offsets| ==> at[i] == base + offsets[i]
  {
    seq(|offsets|, i requires 0 <= i < |offsets| => base + offsets[i])
  }

  function Wanted(blobs: seq<Bytes>, present: seq<bool>): (w: seq<bool>)
    requires |present| == |blobs|
    ensures |w| == |blobs| && forall i :: 0 <= i < |blobs| ==> (w[i] <==> present[i] && blobs[i] != [])
  {
    seq(|blobs|, i requires 0 <= i < |blobs| => present[i] && blobs[i] != [])
  }

  /** Download the present objects into the host buffer. */
  method Download(host: HostArena, blobs: seq<Bytes>, wanted: seq<bool>)
    returns (memory: Bytes, base: nat, offsets: seq<nat>, size: nat)
    requires host.Valid() && |wanted| == |blobs|
    modifies host
    ensures host.Valid() && |offsets| == |blobs| && base + size <= |memory|
    ensures forall i :: 0 <= i < |blobs| ==> offsets[i] + |blobs[i]| <= size
    ensures if size <= |old(host.buffer)|
            then && base == NextPlace(old(host.offset), size, |host.buffer|) && memory == host.buffer
                 && host.offset == base + size && KeptOutside(old(host.buffer), host.buffer, base, size)
            else host.buffer == old(host.buffer) && host.offset == old(host.offset)
    ensures forall i :: 0 <= i < |blobs| && wanted[i] ==> At(memory, base + offsets[i], blobs[i])
  {
    var sizes := Sizes(blobs);
    var total: nat;
    offsets, total := HostOffsets(sizes);
    size := if total == 0 then BLOCK_SIZE else AlignUp(total, BLOCK_SIZE);
    var inBuffer: bool;
    inBuffer, base := host.Place(size);
    memory := if inBuffer then host.buffer else seq(size, _ => 0);
    memory := CopyObjects(memory, base, offsets, blobs, wanted, size);
    if inBuffer {
      host.buffer := memory;
    }
  }

  /** Copy every non-empty object to the device. */
  method Upload(memory: Bytes, base: nat, offsets: seq<nat>, blobs: seq<Bytes>, wanted: seq<bool>,
                device: Bytes, deviceBase: nat, deviceOffsets: seq<nat>, total: nat) returns (out: Bytes)
    requires |wanted| == |blobs| == |offsets|
    requires forall i :: 0 <= i < |blobs| ==> base + offsets[i] + |blobs[i]| <= |memory|
    requires forall i :: 0 <= i < |blobs| && wanted[i] ==> blobs[i] != [] && At(memory, base + offsets[i], blobs[i])
    requires Placed(deviceOffsets, Sizes(blobs), GPU_ALIGNMENT) && deviceBase + total <= |device|
    requires forall i :: 0 <= i < |blobs| ==> deviceOffsets[i] + |blobs[i]| <= total
    ensures KeptOutside(device, out, deviceBase, total)
    ensures forall i :: 0 <= i < |blobs| && wanted[i] ==> At(out, deviceBase + deviceOffsets[i], blobs[i])
  {
    var objects := seq(|blobs|, i requires 0 <= i < |blobs| =>
                                  memory[base + offsets[i]..base + offsets[i] + |blobs[i]|]);
    var nonEmpty := seq(|blobs|, i requires 0 <= i < |blobs| => blobs[i] != []);
    assert Sizes(objects) == Sizes(blobs);
    out := CopyObjects(device, deviceBase, deviceOffsets, objects, nonEmpty, total);
    forall i | 0 <= i < |blobs| && wanted[i] ensures At(out, deviceBase + deviceOffsets[i], blobs[i]) {
      assert objects[i] == blobs[i];
    }
  }

  lemma Arrived(memory: Bytes, base: nat, hostBase: nat, hostOffsets: seq<nat>, offsets: seq<nat>, blobs: seq<Bytes>,
                wanted: seq<bool>, views: seq<Option<Views>>, maps: seq<Views>, total: nat)
    requires |wanted| == |blobs| == |hostOffsets| && ParsedTo(views, hostBase, hostOffsets, blobs, wanted, |blobs|)
    requires base % GPU_ALIGNMENT == 0 && Placed(offsets, Sizes(blobs), GPU_ALIGNMENT) && base + total <= |memory|
    requires forall i :: 0 <= i < |blobs| ==> offsets[i] + |blobs[i]| <= total
    requires forall i :: 0 <= i < |blobs| && wanted[i] ==> At(memory, base + offsets[i], blobs[i])
    requires |maps| == |blobs|
    requires forall i :: 0 <= i < |blobs| ==>
               maps[i] == if views[i].Some? then ViewsAt(blobs[i], base + offsets[i]) else map[]
    ensures OnDevice(memory, base, offsets, blobs, wanted, maps)
  {
  }

  /** The views of the parsed objects, moved to where the objects stand on the device. */
  method MapParsed(views: seq<Option<Views>>, base: nat, offsets: seq<nat>, deviceBase: nat, deviceOffsets: seq<nat>,
                   blobs: seq<Bytes>, ghost wanted: seq<bool>) returns (maps: seq<Views>)
    requires |wanted| == |blobs| == |offsets| == |deviceOffsets|
    requires ParsedTo(views, base, offsets, blobs, wanted, |blobs|)
    ensures |maps| == |blobs| == |views|
    ensures forall i :: 0 <= i < |blobs| ==>
              maps[i] == if views[i].Some? then ViewsAt(blobs[i], deviceBase + deviceOffsets[i]) else map[]
  {
    maps := MapToDevice(views, Positions(base, offsets), Positions(deviceBase, deviceOffsets), blobs);
  }

  /** Copy the objects into a block of the device memory and map their views. */
  method FillBlock(device: Bytes, deviceBase: nat, deviceOffsets: seq<nat>, total: nat, memory: Bytes, base: nat,
                   offsets: seq<nat>, blobs: seq<Bytes>, wanted: seq<bool>, views: seq<Option<Views>>)
    returns (out: Bytes, maps: seq<Views>)
    requires |wanted| == |blobs| == |offsets| && deviceBase % GPU_ALIGNMENT == 0 && deviceBase + total <= |device|
    requires forall i :: 0 <= i < |blobs| ==> base + offsets[i] + |blobs[i]| <= |memory|
    requires forall i :: 0 <= i < |blobs| && wanted[i] ==> blobs[i] != [] && At(memory, base + offsets[i], blobs[i])
    requires ParsedTo(views, base, offsets, blobs, wanted, |blobs|)
    requires Placed(deviceOffsets, Sizes(blobs), GPU_ALIGNMENT)
    requires forall i :: 0 <= i < |blobs| ==> deviceOffsets[i] + |blobs[i]| <= total
    ensures KeptOutside(device, out, deviceBase, total)
    ensures OnDevice(out, deviceBase, deviceOffsets, blobs, wanted, maps)
  {
    out := Upload(memory, base, offsets, blobs, wanted, device, deviceBase, deviceOffsets, total);
    maps := MapParsed(views, base, offsets, deviceBase, deviceOffsets, blobs, wanted);
    Arrived(out, deviceBase, base, offsets, deviceOffsets, blobs, wanted, views, maps, total);
  }

  /** Allocate one block for all objects, copy them there and map the views; what stood elsewhere in the
      arena stays, unless the arena grows. */
  method Transfer(gpu: GpuArena, memory: Bytes, base: nat, offsets: seq<nat>, blobs: seq<Bytes>, wanted: seq<bool>,
                  views: seq<Option<Views>>, deviceOffsets: seq<nat>, total: nat, deviceId: int, malloc: Malloc)
    returns (maps: Option<seq<Views>>, deviceBase: nat)
    requires gpu.Sound() && Allocates(malloc) && total > 0
    requires |wanted| == |blobs| == |offsets|
    requires forall i :: 0 <= i < |blobs| ==> base + offsets[i] + |blobs[i]| <= |memory|
    requires forall i :: 0 <= i < |blobs| && wanted[i] ==> blobs[i] != [] && At(memory, base + offsets[i], blobs[i])
    requires ParsedTo(views, base, offsets, blobs, wanted, |blobs|)
    requires Placed(deviceOffsets, Sizes(blobs), GPU_ALIGNMENT)
    requires forall i :: 0 <= i < |blobs| ==> deviceOffsets[i] + |blobs[i]| <= total
    modifies gpu
    ensures maps.Some? ==>
              && gpu.Sound() && gpu.memory.Some?
              && OnDevice(gpu.memory.value, deviceBase, deviceOffsets, blobs, wanted, maps.value)
              && gpu.offset == deviceBase + AlignUp(total, GPU_ALIGNMENT) && gpu.device == deviceId
    ensures maps.Some? && !old(gpu.MustGrow(total, deviceId)) ==>
              && old(gpu.memory).Some? && gpu.capacity == old(gpu.capacity)
              && deviceBase == NextPlace(AlignUp(old(gpu.offset), GPU_ALIGNMENT), AlignUp(total, GPU_ALIGNMENT),
                                         gpu.capacity)
              && KeptOutside(old(gpu.memory).value, gpu.memory.value, deviceBase, total)
  {
    var block := gpu.Allocate(total, deviceId, malloc);
    if block.MallocFailed? {
      return None, 0;
    }
    deviceBase := block.offset;
    var written, mapped := FillBlock(gpu.memory.value, deviceBase, deviceOffsets, total, memory, base, offsets, blobs,
                                     wanted, views);
    gpu.memory := Some(written);
    maps := Some(mapped);
  }

  /** What a load leaves on the host: every wanted object whole, with its views over it. */
  ghost predicate OnHost(memory: Bytes, base: nat, offsets: seq<nat>, blobs: seq<Bytes>, wanted: seq<bool>,
                         views: seq<Option<Views>>)
    requires |wanted| == |blobs|
  {
    && |offsets| == |blobs|
    && (forall i :: 0 <= i < |blobs| && wanted[i] ==> At(memory, base + offsets[i], blobs[i]))
    && ParsedTo(views, base, offsets, blobs, wanted, |blobs|)
  }

  /** Where a load put its objects, and the size of the block they are in. */
  datatype Place = Place(base: nat, offsets: seq<nat>, size: nat)

  /** The load needs device memory. */
  ghost predicate NeedsDevice(blobs: seq<Bytes>, deviceId: int) {
    deviceId >= 0 && exists i :: 0 <= i < |blobs| && blobs[i] != []
  }

  /** All objects are inside the block. */
  ghost predicate Inside(place: Place, blobs: seq<Bytes>) {
    |place.offsets| == |blobs| && forall i :: 0 <= i < |blobs| ==> place.offsets[i] + |blobs[i]| <= place.size
  }

  /** What a load does to the host buffer when the batch fits it: the block is at the next place and the
      rest stays. */
  ghost predicate HostCut(before: Bytes, cursor: nat, after: Bytes, memory: Bytes, place: Place) {
    && place.base == NextPlace(cursor, place.size, |after|) && memory == after
    && KeptOutside(before, after, place.base, place.size)
  }

  /** The same for the device arena when it does not grow. */
  ghost predicate DeviceCut(before: Option<Bytes>, cursor: nat, after: Option<Bytes>, capacity: nat, place: Place) {
    && before.Some? && after.Some?
    && place.base == NextPlace(AlignUp(cursor, GPU_ALIGNMENT), AlignUp(place.size, GPU_ALIGNMENT), capacity)
    && KeptOutside(before.value, after.value, place.base, place.size)
  }

  /** The batch is on the device and the cursor right behind it. */
  ghost predicate OnArena(gpu: GpuArena, place: Place, blobs: seq<Bytes>, wanted: seq<bool>, maps: seq<Views>)
    requires |wanted| == |blobs|
    reads gpu
  {
    && gpu.Sound() && gpu.memory.Some? && gpu.offset == place.base + AlignUp(place.size, GPU_ALIGNMENT)
    && OnDevice(gpu.memory.value, place.base, place.offsets, blobs, wanted, maps)
  }

  /** The host half of a load: download and parse in place. */
  method LoadToHost(host: HostArena, blobs: seq<Bytes>, wanted: seq<bool>)
    returns (parsed: Result<seq<Option<Views>>>, memory: Bytes, place: Place)
    requires host.Valid() && |wanted| == |blobs|
    modifies host
    ensures host.Valid() && Inside(place, blobs) && place.base + place.size <= |memory|
    ensures parsed.Ok? <==> AllParse(blobs, wanted, |blobs|)
    ensures parsed.Ok? ==> OnHost(memory, place.base, place.offsets, blobs, wanted, parsed.value)
    ensures place.size <= |old(host.buffer)| ==> HostCut(old(host.buffer), old(host.offset), host.buffer, memory, place)
  {
    var base, offsets, size;
    memory, base, offsets, size := Download(host, blobs, wanted);
    place := Place(base, offsets, size);
    parsed := ParseObjects(memory, base, offsets, blobs, wanted);
  }

  /** Where the objects go in a device block, and its size. */
  method DeviceLayout(blobs: seq<Bytes>) returns (offsets: seq<nat>, total: nat)
    ensures Placed(offsets, Sizes(blobs), GPU_ALIGNMENT) && Inside(Place(0, offsets, total), blobs)
    ensures total == 0 ==> forall i :: 0 <= i < |blobs| ==> blobs[i] == []
  {
    var placed := ComputeAlignedObjectOffsets(Sizes(blobs), GPU_ALIGNMENT);
    offsets := placed.value;
    total := TotalSize(offsets, Sizes(blobs));
    forall i | 0 <= i < |blobs| ensures offsets[i] + |blobs[i]| <= total {
      assert offsets[i] + Sizes(blobs)[i] <= total;
    }
  }

  /** The device half: one block for all objects. */
  method LoadToDevice(gpu: GpuArena, memory: Bytes, onHost: Place, blobs: seq<Bytes>, wanted: seq<bool>,
                      views: seq<Option<Views>>, offsets: seq<nat>, total: nat, deviceId: int, malloc: Malloc)
    returns (maps: Option<seq<Views>>, place: Place)
    requires gpu.Sound() && Allocates(malloc) && total > 0 && |wanted| == |blobs|
    requires Inside(onHost, blobs) && onHost.base + onHost.size <= |memory|
    requires forall i :: 0 <= i < |blobs| && wanted[i] ==> blobs[i] != []
    requires OnHost(memory, onHost.base, onHost.offsets, blobs, wanted, views)
    requires Placed(offsets, Sizes(blobs), GPU_ALIGNMENT) && Inside(Place(0, offsets, total), blobs)
    modifies gpu
    ensures maps.Some? ==> Inside(place, blobs) && place.size > 0 && OnArena(gpu, place, blobs, wanted, maps.value)
    ensures maps.Some? ==> gpu.device == deviceId
    ensures maps.Some? && !old(gpu.MustGrow(place.size, deviceId)) ==>
              && gpu.capacity == old(gpu.capacity)
              && DeviceCut(old(gpu.memory), old(gpu.offset), gpu.memory, gpu.capacity, place)
  {
    var base;
    maps, base := Transfer(gpu, memory, onHost.base, onHost.offsets, blobs, wanted, views, offsets, total, deviceId,
                           malloc);
    place := Place(base, offsets, total);
  }

  /** Load a batch: `blobs[i]` is what downloading object `i` delivers. */
  method BatchLoad(host: HostArena, gpu: GpuArena, blobs: seq<Bytes>, present: seq<bool>, deviceId: int, malloc: Malloc)
    returns (r: Outcome, memory: Bytes, onHost: Place, onDevice: Place)
    requires host.Valid() && gpu.Sound() && Allocates(malloc) && |present| == |blobs|
    modifies host, gpu
    ensures host.Valid()
    ensures r.ParseFailed? <==> !AllParse(blobs, Wanted(blobs, present), |blobs|)
    ensures r.Loaded? ==>
              && OnHost(memory, onHost.base, onHost.offsets, blobs, Wanted(blobs, present), r.host)
              && |r.device| == |blobs| && Inside(onHost, blobs)
    ensures r.Loaded? && blobs != [] && onHost.size <= |old(host.buffer)| ==>
              HostCut(old(host.buffer), old(host.offset), host.buffer, memory, onHost)
    ensures r.Loaded? && deviceId < 0 ==> forall i :: 0 <= i < |blobs| ==> r.device[i] == map[]
    ensures r.Loaded? && NeedsDevice(blobs, deviceId) ==>
              && Inside(onDevice, blobs) && onDevice.size > 0 && gpu.device == deviceId
              && OnArena(gpu, onDevice, blobs, Wanted(blobs, present), r.device)
    ensures r.Loaded? && NeedsDevice(blobs, deviceId) && !old(gpu.MustGrow(onDevice.size, deviceId)) ==>
              && gpu.capacity == old(gpu.capacity)
              && DeviceCut(old(gpu.memory), old(gpu.offset), gpu.memory, gpu.capacity, onDevice)
  {
    memory, onHost, onDevice := [], Place(0, [], 0), Place(0, [], 0);
    if blobs == [] {
      return Loaded([], []), memory, onHost, onDevice;
    }
    var wanted := Wanted(blobs, present);
    var parsed;
    parsed, memory, onHost := LoadToHost(host, blobs, wanted);
    if parsed.Err? {
      return ParseFailed, memory, onHost, onDevice;
    }
    var offsets, total := DeviceLayout(blobs);
    if deviceId < 0 || total == 0 {
      return Loaded(parsed.value, seq(|blobs|, _ => map[])), memory, onHost, onDevice;
    }
    var maps;
    maps, onDevice := LoadToDevice(gpu, memory, onHost, blobs, wanted, parsed.value, offsets, total, deviceId, malloc);
    r := if maps.Some? then Loaded(parsed.value, maps.value) else OutOfDeviceMemory;
  }

  lemma StillOnDevice(before: Bytes, after: Bytes, place: Place, blobs: seq<Bytes>, wanted: seq<bool>, maps: seq<Views>,
                      base: nat, size: nat)
    requires |wanted| == |blobs| && OnDevice(before, place.base, place.offsets, blobs, wanted, maps)
    requires Inside(place, blobs) && KeptOutside(before, after, base, size)
    requires Apart(base, size, place.base, place.size)
    ensures OnDevice(after, place.base, place.offsets, blobs, wanted, maps)
  {
    forall i | 0 <= i < |blobs| && wanted[i] ensures At(after, place.base + place.offsets[i], blobs[i]) {
      StandsStill(before, after, base, size, place.base + place.offsets[i], blobs[i]);
    }
  }

  lemma EndAligned(base: nat, size: nat)
    requires base % GPU_ALIGNMENT == 0
    ensures AlignUp(base + AlignUp(size, GPU_ALIGNMENT), GPU_ALIGNMENT) == base + AlignUp(size, GPU_ALIGNMENT)
  {
    AddMultiples(base, AlignUp(size, GPU_ALIGNMENT), GPU_ALIGNMENT);
    AlignedStays(base + AlignUp(size, GPU_ALIGNMENT));
  }

  /** Where the second of two loads puts its block relative to the first. */
  ghost predicate SecondFits(a: Place, b: Place, capacity: nat) {
    || a.base + AlignUp(a.size, GPU_ALIGNMENT) + AlignUp(b.size, GPU_ALIGNMENT) <= capacity
    || b.size <= a.base
  }

  lemma SecondCut(before: Bytes, after: Bytes, a: Place, b: Place, capacity: nat, blobs: seq<Bytes>, wanted: seq<bool>,
                  maps: seq<Views>)
    requires |wanted| == |blobs| && Inside(a, blobs) && OnDevice(before, a.base, a.offsets, blobs, wanted, maps)
    requires a.size > 0
    requires DeviceCut(Some(before), a.base + AlignUp(a.size, GPU_ALIGNMENT), Some(after), capacity, b)
    ensures Apart(b.base, b.size, a.base, a.size) <==> SecondFits(a, b, capacity)
    ensures SecondFits(a, b, capacity) ==> OnDevice(after, a.base, a.offsets, blobs, wanted, maps)
  {
    EndAligned(a.base, a.size);
    EarlierBlockSurvives(a.base, a.size, a.base + AlignUp(a.size, GPU_ALIGNMENT), AlignUp(b.size, GPU_ALIGNMENT),
                         b.size, capacity);
    if SecondFits(a, b, capacity) {
      StillOnDevice(before, after, a, blobs, wanted, maps, b.base, b.size);
    }
  }

  /** What a load does on the device alone. */
  method DeviceLoad(host: HostArena, gpu: GpuArena, blobs: seq<Bytes>, present: seq<bool>, deviceId: int,
                    malloc: Malloc)
    returns (r: Outcome, place: Place)
    requires host.Valid() && gpu.Sound() && Allocates(malloc) && |present| == |blobs| && NeedsDevice(blobs, deviceId)
    modifies host, gpu
    ensures host.Valid()
    ensures r.Loaded? ==>
              && Inside(place, blobs) && place.size > 0 && gpu.device == deviceId
              && OnArena(gpu, place, blobs, Wanted(blobs, present), r.device)
    ensures r.Loaded? && old(gpu.device) == deviceId && AlignUp(place.size, GPU_ALIGNMENT) <= old(gpu.capacity) ==>
              && gpu.capacity == old(gpu.capacity)
              && DeviceCut(old(gpu.memory), old(gpu.offset), gpu.memory, gpu.capacity, place)
  {
    var memory, onHost;
    r, memory, onHost, place := BatchLoad(host, gpu, blobs, present, deviceId, malloc);
  }

  /** Two loads one after the other, the second without growth of the arena: the blocks are apart exactly
      if the second fits behind the first or ends before it, and then the views of the first batch still
      show its tensors. */
  method TwoLoads(host: HostArena, gpu: GpuArena, first: seq<Bytes>, second: seq<Bytes>, presentA: seq<bool>,
                  presentB: seq<bool>, deviceId: int, malloc: Malloc)
    returns (a: Outcome, b: Outcome, placeA: Place, placeB: Place, capacity: nat)
    requires host.Valid() && gpu.Sound() && Allocates(malloc) && |presentA| == |first| && |presentB| == |second|
    requires NeedsDevice(first, deviceId) && NeedsDevice(second, deviceId)
    modifies host, gpu
    ensures a.Loaded? && b.Loaded? && AlignUp(placeB.size, GPU_ALIGNMENT) <= capacity ==>
              && (Apart(placeB.base, placeB.size, placeA.base, placeA.size) <==> SecondFits(placeA, placeB, capacity))
              && gpu.memory.Some?
              && (SecondFits(placeA, placeB, capacity) ==>
                    OnDevice(gpu.memory.value, placeA.base, placeA.offsets, first, Wanted(first, presentA), a.device))
  {
    a, placeA := DeviceLoad(host, gpu, first, presentA, deviceId, malloc);
    placeB, capacity, b := placeA, gpu.capacity, a;
    if a.Loaded? {
      ghost var between := gpu.memory.value;
      b, placeB := DeviceLoad(host, gpu, second, presentB, deviceId, malloc);
      if b.Loaded? && AlignUp(placeB.size, GPU_ALIGNMENT) <= capacity {
        SecondCut(between, gpu.memory.value, placeA, placeB, capacity, first, Wanted(first, presentA), a.device);
      }
    }
  }

  /** The view of tensor `k` in an object standing at `start`. */
  ghost predicate GoodView(memory: Bytes, start: nat, size: nat, views: Views, entries: seq<Entry>, k: nat)
    requires k < |entries|
  {
    && entries[k].name in views && entries[k].tensor.data.Some?
    && var view, t := views[entries[k].name], entries[k].tensor;
       && view.dtype == t.dtype && view.shape == t.shape && view.size == |t.data.value|
       && view.offset.Some? && view.offset.value % 256 == 0
       && start <= view.offset.value && view.offset.value + view.size <= start + size <= |memory|
       && At(memory, view.offset.value, t.data.value)
  }

  lemma SliceOfSlice(s: Bytes, a: nat, b: nat, c: nat, d: nat)
    requires a <= b <= |s| && c <= d <= b - a
    ensures s[a..b][c..d] == s[a + c..a + d]
  {
    var inner, outer := s[a..b][c..d], s[a + c..a + d];
    forall j | 0 <= j < d - c ensures inner[j] == outer[j] {
      assert s[a..b][c + j] == s[a + (c + j)];
    }
  }

  lemma AtInside(memory: Bytes, start: nat, blob: Bytes, inner: nat, data: Bytes)
    requires At(memory, start, blob) && At(blob, inner, data)
    ensures At(memory, start + inner, data)
  {
    SliceOfSlice(memory, start, start + |blob|, inner, inner + |data|);
  }

  lemma OneView(memory: Bytes, start: nat, blob: Bytes, views: Views, entries: seq<Entry>, k: nat)
    requires Faithful(blob, views, entries, |blob|) && At(memory, start, blob) && start % GPU_ALIGNMENT == 0
    requires k < |entries| && entries[k].tensor.Valid() && entries[k].tensor.dataSize > 0
    ensures GoodView(memory, start, |blob|, MovedAll(views, start), entries, k)
  {
    assert Named(entries, entries[k].name);
    var view := views[entries[k].name];
    assert Shows(blob, view, entries[k].tensor) && EndsBy(view, |blob|);
    AddMultiples(start, view.offset.value, GPU_ALIGNMENT);
    AtInside(memory, start, blob, view.offset.value, entries[k].tensor.data.value);
  }

  lemma TwoViews(start: nat, blob: Bytes, views: Views, entries: seq<Entry>, k: nat, l: nat)
    requires Faithful(blob, views, entries, |blob|) && k < l < |entries|
    ensures var moved := MovedAll(views, start);
            && entries[k].name in moved && entries[l].name in moved
            && Before(moved[entries[k].name], moved[entries[l].name])
  {
    assert Named(entries, entries[k].name) && Named(entries, entries[l].name);
    assert Before(views[entries[k].name], views[entries[l].name]);
  }

  /** Every non-empty tensor of every object in the batch has a view that starts on a 256-byte
      boundary, lies inside its object's range inside the arena, and holds exactly the tensor's
      bytes; views of one object do not overlap, nor do the ranges of two objects. */
  lemma DeviceView(memory: Bytes, base: nat, offsets: seq<nat>, blobs: seq<Bytes>, wanted: seq<bool>,
                   device: seq<Views>, entries: seq<Entry>, i: nat)
    requires |wanted| == |blobs| && OnDevice(memory, base, offsets, blobs, wanted, device)
    requires i < |blobs| && wanted[i]
    requires WellFormed(entries) && Encode(entries, |entries|) == Ok(blobs[i])
    ensures forall k :: 0 <= k < |entries| && entries[k].tensor.dataSize > 0 ==>
              GoodView(memory, base + offsets[i], |blobs[i]|, device[i], entries, k)
    ensures forall k, l :: 0 <= k < l < |entries| ==>
              && entries[k].name in device[i] && entries[l].name in device[i]
              && Before(device[i][entries[k].name], device[i][entries[l].name])
    ensures forall j :: 0 <= j < |blobs| && j != i ==>
              Apart(base + offsets[i], |blobs[i]|, base + offsets[j], |blobs[j]|)
  {
    ObjectsApart(base, offsets, blobs, i);
    AddMultiples(base, offsets[i], GPU_ALIGNMENT);
    ObjectViews(memory, base + offsets[i], blobs[i], entries);
  }

  lemma ObjectViews(memory: Bytes, start: nat, blob: Bytes, entries: seq<Entry>)
    requires At(memory, start, blob) && start % GPU_ALIGNMENT == 0
    requires WellFormed(entries) && Encode(entries, |entries|) == Ok(blob)
    ensures var views := ViewsAt(blob, start);
            && (forall k :: 0 <= k < |entries| && entries[k].tensor.dataSize > 0 ==>
                  GoodView(memory, start, |blob|, views, entries, k))
            && (forall k, l :: 0 <= k < l < |entries| ==>
                  && entries[k].name in views && entries[l].name in views
                  && Before(views[entries[k].name], views[entries[l].name]))
  {
    ParseBack(entries, blob, blob);
    var views := Parse(blob).value.0;
    forall k | 0 <= k < |entries| && entries[k].tensor.dataSize > 0
      ensures GoodView(memory, start, |blob|, MovedAll(views, start), entries, k)
    {
      OneView(memory, start, blob, views, entries, k);
    }
    forall k, l | 0 <= k < l < |entries|
      ensures var moved := MovedAll(views, start);
              && entries[k].name in moved && entries[l].name in moved
              && Before(moved[entries[k].name], moved[entries[l].name])
    {
      TwoViews(start, blob, views, entries, k, l);
    }
  }

  lemma ObjectsApart(base: nat, offsets: seq<nat>, blobs: seq<Bytes>, i: nat)
    requires Placed(offsets, Sizes(blobs), GPU_ALIGNMENT) && i < |blobs|
    ensures forall j :: 0 <= j < |blobs| && j != i ==>
              Apart(base + offsets[i], |blobs[i]|, base + offsets[j], |blobs[j]|)
  {
    var sizes := Sizes(blobs);
    forall j | 0 <= j < |blobs| && j != i
      ensures Apart(base + offsets[i], |blobs[i]|, base + offsets[j], |blobs[j]|)
    {
      assert if i < j then offsets[i] + sizes[i] <= offsets[j] else offsets[j] + sizes[j] <= offsets[i];
    }
  }
}
