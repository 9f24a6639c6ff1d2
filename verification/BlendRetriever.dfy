/** Rebuilding the KV of a batch of prompts from segments that were each looked up on their own. Rows
    that were not retrieved are left undefined. */
module BlendRetriever {
  import opened Options

  /** A tensor row, or memory that was never written. */
  datatype Cell<+R> = Undefined | Defined(row: R)

  /** What looking up one segment returned: the rows of its first `count` tokens, layer by layer. */
  datatype Answer<+R> = Answer(count: nat, k: seq<seq<R>>, v: seq<seq<R>>)

  ghost predicate Fits<R>(answer: Answer<R>, length: nat, layers: nat) {
    && answer.count <= length && |answer.k| == |answer.v| == layers
    && (forall l :: 0 <= l < layers ==> |answer.k[l]| == |answer.v[l]| == answer.count)
  }

  // ---- Concatenation ---------------------------------------------------------------------------

  function Cat<T>(parts: seq<seq<T>>): seq<T> {
    if parts == [] then [] else Cat(parts[..|parts| - 1]) + parts[|parts| - 1]
  }

  function Start(lengths: seq<nat>, i: nat): nat
    requires i <= |lengths|
  {
    if i == 0 then 0 else Start(lengths, i - 1) + lengths[i - 1]
  }

  lemma {:induction false} StartPrefix(lengths: seq<nat>, n: nat, i: nat)
    requires i <= n <= |lengths|
    ensures Start(lengths[..n], i) == Start(lengths, i)
    decreases i
  {
    if i == 0 {
    } else {
      StartPrefix(lengths, n, i - 1);
    }
  }

  ghost predicate Shaped<T>(parts: seq<seq<T>>, lengths: seq<nat>) {
    |parts| == |lengths| && forall i :: 0 <= i < |parts| ==> |parts[i]| == lengths[i]
  }

  lemma {:induction false} CatLength<T>(parts: seq<seq<T>>, lengths: seq<nat>)
    requires Shaped(parts, lengths)
    ensures |Cat(parts)| == Start(lengths, |lengths|)
    decreases |parts|
  {
    if parts == [] {
    } else {
      var n := |parts| - 1;
      CatLength(parts[..n], lengths[..n]);
      StartPrefix(lengths, n, n);
    }
  }

  lemma {:induction false} CatAt<T>(parts: seq<seq<T>>, lengths: seq<nat>, i: nat, j: nat)
    requires Shaped(parts, lengths) && i < |parts| && j < lengths[i]
    ensures Start(lengths, i) + j < |Cat(parts)| == Start(lengths, |lengths|)
    ensures Cat(parts)[Start(lengths, i) + j] == parts[i][j]
    decreases |parts|
  {
    var n := |parts| - 1;
    CatLength(parts, lengths);
    CatLength(parts[..n], lengths[..n]);
    StartPrefix(lengths, n, n);
    if i < n {
      CatAt(parts[..n], lengths[..n], i, j);
      StartPrefix(lengths, n, i);
    }
  }

  /** Every token of the batch belongs to a segment. */
  lemma {:induction false} Locate(lengths: seq<nat>, n: nat, t: nat) returns (i: nat, j: nat)
    requires n <= |lengths| && t < Start(lengths, n)
    ensures i < n && j < lengths[i] && t == Start(lengths, i) + j
    decreases n
  {
    if t < Start(lengths, n - 1) {
      i, j := Locate(lengths, n - 1, t);
    } else {
      i, j := n - 1, t - Start(lengths, n - 1);
    }
  }

  // ---- One segment -----------------------------------------------------------------------------

  function Padded<R>(rows: seq<R>, length: nat): (cells: seq<Cell<R>>)
    ensures |cells| == length
  {
    seq(length, i => if 0 <= i < |rows| then Defined(rows[i]) else Undefined)
  }

  datatype Prepared<+R> = Tensors(k: seq<seq<Cell<R>>>, v: seq<seq<Cell<R>>>) | Missing | TypeError

  function AllPadded<R>(layers: seq<seq<R>>, length: nat): seq<seq<Cell<R>>> {
    seq(|layers|, l requires 0 <= l < |layers| => Padded(layers[l], length))
  }

  /** An empty segment retrieves nothing, which is all of it: the empty tuple is then indexed. */
  function PrepareOutputTensor<R>(answer: Answer<R>, length: nat): Prepared<R> {
    if answer.count == length then
      if answer.count == 0 then TypeError
      else Tensors(AllPadded(answer.k, length), AllPadded(answer.v, length))
    else if answer.count == 0 then Missing
    else Tensors(AllPadded(answer.k, length), AllPadded(answer.v, length))
  }

  /** The tensor of a segment, if anything of it was retrieved. */
  function PaddedIfAny<R>(count: nat, rows: seq<seq<R>>, length: nat): Option<seq<seq<Cell<R>>>> {
    if count > 0 then Some(AllPadded(rows, length)) else None
  }

  function Flags(count: nat, length: nat): (flags: seq<bool>)
    ensures |flags| == length
  {
    seq(length, j => j < count)
  }

  function Ramp(count: nat, length: nat): (positions: seq<nat>)
    ensures |positions| == length
  {
    seq(length, j => if 0 <= j < count then j else 0)
  }

  // ---- The whole batch -------------------------------------------------------------------------

  datatype Rebuilt<+R> = Rebuilt(k: Option<seq<seq<Cell<R>>>>, v: Option<seq<seq<Cell<R>>>>,
                                 valid: seq<bool>, positions: seq<nat>)

  /** Token `j` of segment `i`: retrieved rows and positions where there are any, else undefined rows. */
  ghost predicate TokenRebuilt<R>(r: Rebuilt<R>, lengths: seq<nat>, answers: seq<Answer<R>>, layers: nat, i: nat,
                                  j: nat)
    requires |answers| == |lengths| && i < |lengths| && j < lengths[i]
  {
    var t, hit := Start(lengths, i) + j, j < answers[i].count;
    && t < |r.valid| == |r.positions|
    && r.valid[t] == hit && r.positions[t] == (if hit then j else 0)
    && (r.k.Some? ==>
          && |r.k.value| == layers
          && forall l :: 0 <= l < layers ==> RowRebuilt(r.k.value[l], answers[i].k, l, t, j, hit))
    && (r.v.Some? ==>
          && |r.v.value| == layers
          && forall l :: 0 <= l < layers ==> RowRebuilt(r.v.value[l], answers[i].v, l, t, j, hit))
  }

  ghost predicate RowRebuilt<R>(cells: seq<Cell<R>>, rows: seq<seq<R>>, l: nat, t: nat, j: nat, hit: bool) {
    && t < |cells|
    && cells[t] == if hit && l < |rows| && j < |rows[l]| then Defined(rows[l][j]) else Undefined
  }

  function Column<R>(segments: seq<seq<seq<Cell<R>>>>, l: nat): (parts: seq<seq<Cell<R>>>)
    requires forall i :: 0 <= i < |segments| ==> l < |segments[i]|
    ensures |parts| == |segments| && forall i :: 0 <= i < |parts| ==> parts[i] == segments[i][l]
  {
    seq(|segments|, i requires 0 <= i < |segments| => segments[i][l])
  }

  /** `torch.cat` along the token dimension, layer by layer. */
  function CatTokens<R>(segments: seq<seq<seq<Cell<R>>>>, layers: nat): (cat: seq<seq<Cell<R>>>)
    requires forall i :: 0 <= i < |segments| ==> |segments[i]| == layers
    ensures |cat| == layers && forall l :: 0 <= l < layers ==> cat[l] == Cat(Column(segments, l))
  {
    seq(layers, l requires 0 <= l < layers => Cat(Column(segments, l)))
  }

  /** The tensors of every segment, undefined where nothing was retrieved. */
  function Filled<R>(lengths: seq<nat>, rows: seq<seq<seq<R>>>): (segments: seq<seq<seq<Cell<R>>>>)
    requires |rows| == |lengths|
    ensures |segments| == |lengths|
    ensures forall i :: 0 <= i < |lengths| ==> segments[i] == AllPadded(rows[i], lengths[i])
    ensures forall i :: 0 <= i < |lengths| ==> |segments[i]| == |rows[i]|
  {
    seq(|lengths|, i requires 0 <= i < |lengths| => AllPadded(rows[i], lengths[i]))
  }

  function RowsOf<R>(layers: seq<seq<R>>, l: nat): seq<R> {
    if l < |layers| then layers[l] else []
  }

  /** One layer of all segments, padded. */
  function Parts<R>(lengths: seq<nat>, rows: seq<seq<seq<R>>>, l: nat): (parts: seq<seq<Cell<R>>>)
    requires |rows| == |lengths|
    ensures Shaped(parts, lengths)
    ensures forall i :: 0 <= i < |lengths| ==> parts[i] == Padded(RowsOf(rows[i], l), lengths[i])
  {
    seq(|lengths|, i requires 0 <= i < |lengths| => Padded(RowsOf(rows[i], l), lengths[i]))
  }

  function Joint<R>(lengths: seq<nat>, rows: seq<seq<seq<R>>>, layers: nat): (joint: seq<seq<Cell<R>>>)
    requires |rows| == |lengths|
    ensures |joint| == layers && forall l :: 0 <= l < layers ==> joint[l] == Cat(Parts(lengths, rows, l))
  {
    seq(layers, l requires 0 <= l < layers => Cat(Parts(lengths, rows, l)))
  }

  lemma CatIsJoint<R>(lengths: seq<nat>, rows: seq<seq<seq<R>>>, layers: nat)
    requires |rows| == |lengths| && forall m :: 0 <= m < |rows| ==> |rows[m]| == layers
    ensures CatTokens(Filled(lengths, rows), layers) == Joint(lengths, rows, layers)
  {
    forall l | 0 <= l < layers ensures Column(Filled(lengths, rows), l) == Parts(lengths, rows, l) {}
  }

  lemma JointAt<R>(lengths: seq<nat>, rows: seq<seq<seq<R>>>, layers: nat, l: nat, i: nat, j: nat)
    requires |rows| == |lengths| && l < layers && i < |lengths| && j < lengths[i]
    ensures RowRebuilt(Joint(lengths, rows, layers)[l], rows[i], l,
                       Start(lengths, i) + j, j, j < |RowsOf(rows[i], l)|)
  {
    CatAt(Parts(lengths, rows, l), lengths, i, j);
  }

  lemma SideRebuilt<R>(cells: seq<seq<Cell<R>>>, lengths: seq<nat>, rows: seq<seq<seq<R>>>, layers: nat,
                       count: nat, i: nat, j: nat)
    requires |rows| == |lengths| && i < |lengths| && j < lengths[i] && cells == Joint(lengths, rows, layers)
    requires |rows[i]| == layers && forall l :: 0 <= l < layers ==> |rows[i][l]| == count
    ensures |cells| == layers
    ensures forall l :: 0 <= l < layers ==> RowRebuilt(cells[l], rows[i], l, Start(lengths, i) + j, j, j < count)
  {
    forall l | 0 <= l < layers ensures RowRebuilt(cells[l], rows[i], l, Start(lengths, i) + j, j, j < count) {
      JointAt(lengths, rows, layers, l, i, j);
    }
  }

  function Ks<R>(answers: seq<Answer<R>>): (ks: seq<seq<seq<R>>>)
    ensures |ks| == |answers| && forall i :: 0 <= i < |ks| ==> ks[i] == answers[i].k
  {
    seq(|answers|, i requires 0 <= i < |answers| => answers[i].k)
  }

  function Vs<R>(answers: seq<Answer<R>>): (vs: seq<seq<seq<R>>>)
    ensures |vs| == |answers| && forall i :: 0 <= i < |vs| ==> vs[i] == answers[i].v
  {
    seq(|answers|, i requires 0 <= i < |answers| => answers[i].v)
  }

  ghost predicate Sized<R>(cells: seq<seq<Cell<R>>>, lengths: seq<nat>, layers: nat) {
    |cells| == layers && forall l :: 0 <= l < layers ==> |cells[l]| == Start(lengths, |lengths|)
  }

  lemma JointSized<R>(lengths: seq<nat>, rows: seq<seq<seq<R>>>, layers: nat)
    requires |rows| == |lengths|
    ensures Sized(Joint(lengths, rows, layers), lengths, layers)
  {
    forall l | 0 <= l < layers ensures |Joint(lengths, rows, layers)[l]| == Start(lengths, |lengths|) {
      CatLength(Parts(lengths, rows, l), lengths);
    }
  }

  /** The whole batch is rebuilt; there are K and V tensors exactly when anything was retrieved. */
  ghost predicate Faithful<R>(r: Rebuilt<R>, lengths: seq<nat>, answers: seq<Answer<R>>, layers: nat)
    requires |answers| == |lengths|
  {
    && |r.valid| == |r.positions| == Start(lengths, |lengths|)
    && (r.k.Some? <==> exists i :: 0 <= i < |answers| && answers[i].count > 0)
    && (r.v.Some? <==> r.k.Some?)
    && (r.k.Some? ==> Sized(r.k.value, lengths, layers) && Sized(r.v.value, lengths, layers))
    && (forall i: nat, j: nat :: i < |lengths| && j < lengths[i] ==> TokenRebuilt(r, lengths, answers, layers, i, j))
  }

  ghost predicate Masked<R>(masks: seq<seq<bool>>, positions: seq<seq<nat>>, lengths: seq<nat>, answers: seq<Answer<R>>)
    requires |answers| == |lengths|
  {
    && Shaped(masks, lengths) && Shaped(positions, lengths)
    && (forall i :: 0 <= i < |lengths| ==> masks[i] == Flags(answers[i].count, lengths[i]))
    && (forall i :: 0 <= i < |lengths| ==> positions[i] == Ramp(answers[i].count, lengths[i]))
  }

  lemma MaskAt<R>(masks: seq<seq<bool>>, positions: seq<seq<nat>>, lengths: seq<nat>, answers: seq<Answer<R>>,
                  i: nat, j: nat)
    requires |answers| == |lengths| && Masked(masks, positions, lengths, answers)
    requires i < |lengths| && j < lengths[i]
    ensures var t, hit := Start(lengths, i) + j, j < answers[i].count;
            && t < |Cat(masks)| == |Cat(positions)|
            && Cat(masks)[t] == hit && Cat(positions)[t] == if hit then j else 0
  {
    CatAt(masks, lengths, i, j);
    CatAt(positions, lengths, i, j);
  }

  lemma WithoutTensors<R>(r: Rebuilt<R>, masks: seq<seq<bool>>, positions: seq<seq<nat>>,
                          lengths: seq<nat>, answers: seq<Answer<R>>, layers: nat)
    requires |answers| == |lengths| && Masked(masks, positions, lengths, answers)
    requires r == Rebuilt(None, None, Cat(masks), Cat(positions))
    requires forall i :: 0 <= i < |answers| ==> answers[i].count == 0
    ensures Faithful(r, lengths, answers, layers)
  {
    CatLength(masks, lengths);
    CatLength(positions, lengths);
    forall i: nat, j: nat | i < |lengths| && j < lengths[i]
      ensures TokenRebuilt(r, lengths, answers, layers, i, j)
    {
      MaskAt(masks, positions, lengths, answers, i, j);
    }
  }

  lemma WithTensors<R>(r: Rebuilt<R>, masks: seq<seq<bool>>, positions: seq<seq<nat>>,
                       lengths: seq<nat>, answers: seq<Answer<R>>, layers: nat)
    requires |answers| == |lengths| && Masked(masks, positions, lengths, answers)
    requires forall i :: 0 <= i < |lengths| ==> Fits(answers[i], lengths[i], layers)
    requires r == Rebuilt(Some(Joint(lengths, Ks(answers), layers)), Some(Joint(lengths, Vs(answers), layers)),
                          Cat(masks), Cat(positions))
    ensures forall i: nat, j: nat :: i < |lengths| && j < lengths[i] ==> TokenRebuilt(r, lengths, answers, layers, i, j)
    ensures |r.valid| == |r.positions| == Start(lengths, |lengths|)
  {
    CatLength(masks, lengths);
    CatLength(positions, lengths);
    forall i: nat, j: nat | i < |lengths| && j < lengths[i]
      ensures TokenRebuilt(r, lengths, answers, layers, i, j)
    {
      MaskAt(masks, positions, lengths, answers, i, j);
      assert Fits(answers[i], lengths[i], layers);
      SideRebuilt(r.k.value, lengths, Ks(answers), layers, answers[i].count, i, j);
      SideRebuilt(r.v.value, lengths, Vs(answers), layers, answers[i].count, i, j);
    }
  }

  lemma WholeBatch<R>(r: Rebuilt<R>, masks: seq<seq<bool>>, positions: seq<seq<nat>>,
                      lengths: seq<nat>, answers: seq<Answer<R>>, layers: nat)
    requires |answers| == |lengths| && Masked(masks, positions, lengths, answers)
    requires forall i :: 0 <= i < |lengths| ==> Fits(answers[i], lengths[i], layers)
    requires r == Rebuilt(Some(Joint(lengths, Ks(answers), layers)), Some(Joint(lengths, Vs(answers), layers)),
                          Cat(masks), Cat(positions))
    requires exists i :: 0 <= i < |answers| && answers[i].count > 0
    ensures Faithful(r, lengths, answers, layers)
  {
    JointSized(lengths, Ks(answers), layers);
    JointSized(lengths, Vs(answers), layers);
    WithTensors(r, masks, positions, lengths, answers, layers);
  }

  class SPTBlendRetrieverTask<R> {
    const lengths: seq<nat>
    const answers: seq<Answer<R>>
    const layers: nat
    var rebuilt: Option<Rebuilt<R>>

    ghost predicate Valid()
      reads this
    {
      && |answers| == |lengths|
      && (forall i :: 0 <= i < |lengths| ==> Fits(answers[i], lengths[i], layers))
      && (rebuilt.Some? ==> Faithful(rebuilt.value, lengths, answers, layers))
    }

    constructor (lengths: seq<nat>, answers: seq<Answer<R>>, layers: nat)
      requires |answers| == |lengths|
      requires forall i :: 0 <= i < |lengths| ==> Fits(answers[i], lengths[i], layers)
      ensures Valid() && this.lengths == lengths && this.answers == answers && this.layers == layers
      ensures rebuilt == None
    {
      this.lengths, this.answers, this.layers, rebuilt := lengths, answers, layers, None;
    }

    /** Prepare every segment; the first empty one raises. */
    method Collect() returns (ok: bool, keys: seq<Option<seq<seq<Cell<R>>>>>, values: seq<Option<seq<seq<Cell<R>>>>>,
                              masks: seq<seq<bool>>, positions: seq<seq<nat>>, numLayers: Option<nat>)
      requires Valid()
      ensures ok <==> forall i :: 0 <= i < |lengths| ==> lengths[i] > 0
      ensures ok ==> |keys| == |values| == |masks| == |positions| == |lengths|
      ensures ok ==> Masked(masks, positions, lengths, answers)
      ensures ok ==> forall i :: 0 <= i < |lengths| ==>
                       && keys[i] == PaddedIfAny(answers[i].count, answers[i].k, lengths[i])
                       && values[i] == PaddedIfAny(answers[i].count, answers[i].v, lengths[i])
      ensures ok ==> numLayers == if exists i :: 0 <= i < |answers| && answers[i].count > 0 then Some(layers) else None
    {
      keys, values, masks, positions, numLayers := [], [], [], [], None;
      for n := 0 to |lengths|
        invariant |keys| == |values| == |masks| == |positions| == n
        invariant forall i :: 0 <= i < n ==> lengths[i] > 0
        invariant forall i :: 0 <= i < n ==>
                    && masks[i] == Flags(answers[i].count, lengths[i])
                    && positions[i] == Ramp(answers[i].count, lengths[i])
                    && keys[i] == PaddedIfAny(answers[i].count, answers[i].k, lengths[i])
                    && values[i] == PaddedIfAny(answers[i].count, answers[i].v, lengths[i])
        invariant numLayers == if exists i :: 0 <= i < n && answers[i].count > 0 then Some(layers) else None
      {
        var answer := answers[n];
        if answer.count > 0 {
          numLayers := Some(|answer.k|);
        }
        var prepared := PrepareOutputTensor(answer, lengths[n]);
        if prepared.TypeError? {
          ok := false;
          return;
        }
        masks := masks + [Flags(answer.count, lengths[n])];
        positions := positions + [Ramp(answer.count, lengths[n])];
        keys := keys + [if prepared.Tensors? then Some(prepared.k) else None];
        values := values + [if prepared.Tensors? then Some(prepared.v) else None];
      }
      ok := true;
    }

    /** Give the missing tensors their shape, with undefined contents. */
    method Patch(tensors: seq<Option<seq<seq<Cell<R>>>>>, ghost rows: seq<seq<seq<R>>>)
      returns (segments: seq<seq<seq<Cell<R>>>>)
      requires |tensors| == |lengths| == |rows|
      requires forall i :: 0 <= i < |rows| ==> |rows[i]| == layers
      requires forall i :: 0 <= i < |lengths| && tensors[i].Some? ==> tensors[i].value == AllPadded(rows[i], lengths[i])
      requires forall i, l :: 0 <= i < |lengths| && tensors[i].None? && 0 <= l < layers ==> rows[i][l] == []
      ensures segments == Filled(lengths, rows)
      ensures |segments| == |lengths| && forall i :: 0 <= i < |lengths| ==> |segments[i]| == layers
      ensures CatTokens(segments, layers) == Joint(lengths, rows, layers)
    {
      segments := [];
      for n := 0 to |lengths|
        invariant |segments| == n && forall i :: 0 <= i < n ==> segments[i] == AllPadded(rows[i], lengths[i])
      {
        var shape := lengths[n];
        var empty := seq(layers, _ => Padded<R>([], shape));
        assert tensors[n].None? ==> empty == AllPadded(rows[n], lengths[n]);
        segments := segments + [if tensors[n].None? then empty else tensors[n].value];
      }
      CatIsJoint(lengths, rows, layers);
    }

    /** Succeeds exactly when there is a segment and none is empty. */
    method WaitForResult() returns (ok: bool)
      requires Valid()
      modifies this
      ensures Valid()
      ensures ok <==> lengths != [] && forall i :: 0 <= i < |lengths| ==> lengths[i] > 0
      ensures if ok then rebuilt.Some? else rebuilt == old(rebuilt)
    {
      var keys, values, masks, positions, numLayers;
      ok, keys, values, masks, positions, numLayers := Collect();
      if !ok || lengths == [] {
        return false;
      }
      if numLayers.None? {
        var result := Rebuilt(None, None, Cat(masks), Cat(positions));
        WithoutTensors(result, masks, positions, lengths, answers, layers);
        rebuilt := Some(result);
        return;
      }
      var k := Patch(keys, Ks(answers));
      var v := Patch(values, Vs(answers));
      var result := Rebuilt(Some(CatTokens(k, layers)), Some(CatTokens(v, layers)), Cat(masks), Cat(positions));
      WholeBatch(result, masks, positions, lengths, answers, layers);
      rebuilt := Some(result);
    }
  }
}
