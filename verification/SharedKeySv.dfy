/** Saving compressed payloads from several workers at once, with one key_sv object per group, and
    loading them back. */
module SharedKeySv {
  import opened Options
  import opened Totals
  import opened KeySvNames

  datatype Tensor = Tensor(dtype: string, shape: seq<nat>, values: seq<int>)
  type Dict = map<string, Tensor>

  const KEY_SV_QUANTIZED := "key_sv_quantized"
  const KEY_SV_META := "key_sv_meta"
  const KEY_RESIDUAL_SV := "key_residual_sv"
  const UUID := "uuid"

  const SPLIT_MARKS: set<string> := {KEY_SV_QUANTIZED, KEY_SV_META, "value_sv_quantized", "value_sv_meta"}
  const KEY_SV_NAMES: set<string> := {KEY_SV_QUANTIZED, KEY_SV_META, KEY_RESIDUAL_SV}
  const OTHER_NAMES: set<string> :=
    {"u_quantized", "u_meta", "value_sv_quantized", "value_sv_meta", "value_residual_sv"}

  datatype Payload = Full(dict: Dict) | Split(keySv: Dict, other: Dict)

  function Subset(dict: Dict, names: set<string>): Dict {
    map n | n in dict && n in names :: dict[n]
  }

  const INT32 := "int32"

  function ToInt32(x: int): (y: int)
    ensures -0x8000_0000 <= y < 0x8000_0000 && (x - y) % 0x1_0000_0000 == 0
  {
    (x + 0x8000_0000) % 0x1_0000_0000 - 0x8000_0000
  }

  /** A uuid as it is stored: 32-bit integers in one dimension. */
  function Flattened(uuid: Tensor): Tensor {
    Tensor(INT32, [|uuid.values|],
           seq(|uuid.values|, i requires 0 <= i < |uuid.values| => ToInt32(uuid.values[i])))
  }

  function UuidPart(dict: Dict): Dict {
    if UUID in dict then map[UUID := Flattened(dict[UUID])] else map[]
  }

  function BuildCompressedPayload(dict: Dict): Payload {
    if SPLIT_MARKS <= dict.Keys
    then Split(Subset(dict, KEY_SV_NAMES) + UuidPart(dict), Subset(dict, OTHER_NAMES) + UuidPart(dict))
    else Full(dict)
  }

  /** What loading merges a payload back to; entries of the other part win. */
  function Merge(payload: Payload): Dict {
    match payload
    case Full(dict) => dict
    case Split(keySv, other) => keySv + other
  }

  /** 32-bit integers in one dimension. */
  predicate IsInt32Vector(t: Tensor) {
    t.dtype == INT32 && t.shape == [|t.values|] && forall x :: x in t.values ==> -0x8000_0000 <= x < 0x8000_0000
  }

  lemma Int32Kept(t: Tensor)
    requires IsInt32Vector(t)
    ensures Flattened(t) == t
  {
    forall i | 0 <= i < |t.values| ensures ToInt32(t.values[i]) == t.values[i] {
      assert t.values[i] in t.values;
    }
    assert Flattened(t).values == t.values;
  }

  lemma FlattenedSame(t: Tensor)
    ensures Flattened(t) == t <==> IsInt32Vector(t)
  {
    if Flattened(t) == t {
      forall i | 0 <= i < |t.values| ensures -0x8000_0000 <= t.values[i] < 0x8000_0000 {
        assert t.values[i] == Flattened(t).values[i];
      }
    } else if IsInt32Vector(t) {
      Int32Kept(t);
    }
  }

  /** What a split dictionary is merged back to. */
  lemma SplitMerged(dict: Dict)
    requires SPLIT_MARKS <= dict.Keys
    ensures Merge(BuildCompressedPayload(dict)) == Subset(dict, KEY_SV_NAMES + OTHER_NAMES) + UuidPart(dict)
  {
    var merged := Merge(BuildCompressedPayload(dict));
    var expected := Subset(dict, KEY_SV_NAMES + OTHER_NAMES) + UuidPart(dict);
    assert merged.Keys == expected.Keys;
    assert forall n :: n in merged ==> merged[n] == expected[n];
  }

  lemma SubsetAll(dict: Dict, names: set<string>)
    requires UUID !in names
    ensures Subset(dict, names) + UuidPart(dict) == dict
            <==> dict.Keys <= names + {UUID} && (UUID in dict ==> Flattened(dict[UUID]) == dict[UUID])
  {
    var merged := Subset(dict, names) + UuidPart(dict);
    assert merged.Keys == dict.Keys * (names + {UUID});
    assert forall n :: n in merged && n != UUID ==> merged[n] == dict[n];
    assert UUID in dict ==> merged[UUID] == Flattened(dict[UUID]);
  }

  /** Splitting loses nothing exactly when the dictionary is not split, or has no entry outside the
      nine names a compressed chunk uses and its uuid, if any, is a vector of 32-bit integers. */
  lemma SplitRoundTrip(dict: Dict)
    ensures Merge(BuildCompressedPayload(dict)) == dict
            <==> (SPLIT_MARKS <= dict.Keys ==>
                    && dict.Keys <= KEY_SV_NAMES + OTHER_NAMES + {UUID}
                    && (UUID in dict ==> IsInt32Vector(dict[UUID])))
  {
    if SPLIT_MARKS <= dict.Keys {
      SplitMerged(dict);
      SubsetAll(dict, KEY_SV_NAMES + OTHER_NAMES);
      if UUID in dict {
        FlattenedSame(dict[UUID]);
      }
    }
  }

  /** A dictionary with the nine entries of a compressed chunk: which of them go where. */
  lemma SplitParts(dict: Dict)
    requires dict.Keys == {"key_sv_quantized", "key_sv_meta", "key_residual_sv", "u_quantized", "u_meta",
                           "value_sv_quantized", "value_sv_meta", "value_residual_sv", "uuid"}
    ensures BuildCompressedPayload(dict).Split?
    ensures BuildCompressedPayload(dict).keySv.Keys == {"key_sv_quantized", "key_sv_meta", "key_residual_sv", "uuid"}
    ensures BuildCompressedPayload(dict).other.Keys
            == {"u_quantized", "u_meta", "value_sv_quantized", "value_sv_meta", "value_residual_sv", "uuid"}
  {
    var marks := {"key_sv_quantized", "key_sv_meta", "value_sv_quantized", "value_sv_meta"};
    assert SPLIT_MARKS == marks <= dict.Keys;
    assert Subset(dict, KEY_SV_NAMES).Keys == KEY_SV_NAMES;
    assert Subset(dict, OTHER_NAMES).Keys == OTHER_NAMES;
  }

  /** Without one of the four marks nothing is split. */
  lemma Unsplit(dict: Dict, mark: string)
    requires mark in {"key_sv_quantized", "key_sv_meta", "value_sv_quantized", "value_sv_meta"} && mark !in dict
    ensures BuildCompressedPayload(dict) == Full(dict)
  {
    assert mark in SPLIT_MARKS;
  }

  // ---- One key_sv for a whole batch ------------------------------------------------------------

  function KeySvRank(dict: Dict): nat {
    if KEY_SV_QUANTIZED !in dict then 0
    else
      var t := dict[KEY_SV_QUANTIZED];
      if |t.shape| >= 2 then t.shape[|t.shape| - 2] else |t.values|
  }

  predicate HasKeySv(dict: Dict) {
    KEY_SV_NAMES <= dict.Keys
  }

  /** The dictionary of one chunk with the key_sv tensors of another. */
  function WithKeySv(dict: Dict, source: Dict): Dict
    requires HasKeySv(source)
  {
    dict[KEY_SV_QUANTIZED := source[KEY_SV_QUANTIZED]]
        [KEY_SV_META := source[KEY_SV_META]]
        [KEY_RESIDUAL_SV := source[KEY_RESIDUAL_SV]]
  }

  /** The first payload of largest rank. */
  ghost predicate IsLargest(payloads: seq<Dict>, k: nat) {
    && k < |payloads|
    && (forall i :: 0 <= i < |payloads| ==> KeySvRank(payloads[i]) <= KeySvRank(payloads[k]))
    && (forall i :: 0 <= i < k ==> KeySvRank(payloads[i]) < KeySvRank(payloads[k]))
  }

  /** Every chunk of a batch has got the tensors of the first chunk of largest rank. */
  ghost predicate Unified(out: seq<Dict>, payloads: seq<Dict>) {
    && |out| == |payloads|
    && forall k: nat :: IsLargest(payloads, k) ==>
         HasKeySv(payloads[k]) && forall i :: 0 <= i < |out| ==> out[i] == WithKeySv(payloads[i], payloads[k])
  }

  /** The chosen payload in terms of the shapes: of matrices the one with most rows, the first of them; of
      stacks of matrices likewise; a payload without the tensor is chosen only if no other has rows. */
  ghost predicate ChosenByShape(payloads: seq<Dict>, k: nat) {
    && k < |payloads|
    && (forall i :: 0 <= i < |payloads| ==> ChosenOver(payloads[i], payloads[k], i < k))
  }

  ghost predicate ChosenOver(other: Dict, chosen: Dict, earlier: bool) {
    && (Dimensions(other, 2) && Dimensions(chosen, 2) ==>
          InOrder(other["key_sv_quantized"].shape[0], chosen["key_sv_quantized"].shape[0], earlier))
    && (Dimensions(other, 3) && Dimensions(chosen, 3) ==>
          InOrder(other["key_sv_quantized"].shape[1], chosen["key_sv_quantized"].shape[1], earlier))
    && (Dimensions(other, 1) && Dimensions(chosen, 1) ==>
          InOrder(|other["key_sv_quantized"].values|, |chosen["key_sv_quantized"].values|, earlier))
    && ("key_sv_quantized" !in chosen ==>
          && (Dimensions(other, 2) ==> other["key_sv_quantized"].shape[0] == 0 && !earlier)
          && ("key_sv_quantized" !in other ==> !earlier))
    && ("key_sv_quantized" !in other && earlier && Dimensions(chosen, 2) ==> chosen["key_sv_quantized"].shape[0] > 0)
  }

  ghost predicate Dimensions(dict: Dict, n: nat) {
    "key_sv_quantized" in dict && |dict["key_sv_quantized"].shape| == n
  }

  /** An earlier one must be beaten, a later one only matched. */
  ghost predicate InOrder(other: nat, chosen: nat, earlier: bool) {
    other <= chosen && (earlier ==> other < chosen)
  }

  /** The three key_sv tensors are those of `source`, everything else is as it was. */
  ghost predicate TensorsReplaced(after: Dict, before: Dict, source: Dict) {
    && {"key_sv_quantized", "key_sv_meta", "key_residual_sv"} <= source.Keys
    && after.Keys == before.Keys + {"key_sv_quantized", "key_sv_meta", "key_residual_sv"}
    && (forall n :: n in {"key_sv_quantized", "key_sv_meta", "key_residual_sv"} ==> after[n] == source[n])
    && (forall n :: n in before && n !in {"key_sv_quantized", "key_sv_meta", "key_residual_sv"} ==>
          after[n] == before[n])
  }

  lemma ReplacedTensors(dict: Dict, source: Dict)
    requires HasKeySv(source)
    ensures TensorsReplaced(WithKeySv(dict, source), dict, source)
  {
  }

  lemma LargestByShape(payloads: seq<Dict>, k: nat)
    requires IsLargest(payloads, k)
    ensures ChosenByShape(payloads, k)
  {
    forall i | 0 <= i < |payloads| ensures ChosenOver(payloads[i], payloads[k], i < k) {
      assert KeySvRank(payloads[i]) <= KeySvRank(payloads[k]);
      assert i < k ==> KeySvRank(payloads[i]) < KeySvRank(payloads[k]);
    }
  }

  lemma LargestUnique(payloads: seq<Dict>, a: nat, b: nat)
    requires IsLargest(payloads, a) && IsLargest(payloads, b)
    ensures a == b
  {
    assert KeySvRank(payloads[a]) == KeySvRank(payloads[b]);
  }

  /** `use_largest_rank_key_sv`: fails exactly when the chunk of largest rank lacks a tensor. */
  method UseLargestRankKeySv(payloads: seq<Dict>) returns (ok: bool, out: seq<Dict>, largest: nat)
    ensures payloads != [] ==> IsLargest(payloads, largest)
    ensures ok <==> payloads == [] || HasKeySv(payloads[largest])
    ensures ok ==> Unified(out, payloads)
    ensures !ok ==> out == payloads
    ensures payloads != [] ==> ChosenByShape(payloads, largest)
    ensures ok && payloads != [] ==>
              && |out| == |payloads|
              && forall i :: 0 <= i < |out| ==> TensorsReplaced(out[i], payloads[i], payloads[largest])
  {
    ok, out, largest := true, payloads, 0;
    if payloads == [] {
      return;
    }
    var largestRank := KeySvRank(payloads[0]);
    for idx := 1 to |payloads|
      invariant largest < idx && largestRank == KeySvRank(payloads[largest])
      invariant forall i :: 0 <= i < idx ==> KeySvRank(payloads[i]) <= largestRank
      invariant forall i :: 0 <= i < largest ==> KeySvRank(payloads[i]) < largestRank
    {
      var rank := KeySvRank(payloads[idx]);
      if rank > largestRank {
        largestRank, largest := rank, idx;
      }
    }
    assert IsLargest(payloads, largest);
    LargestByShape(payloads, largest);
    var source := payloads[largest];
    if !HasKeySv(source) {
      ok := false;
      return;
    }
    for i := 0 to |out|
      invariant |out| == |payloads|
      invariant forall k :: 0 <= k < i ==> out[k] == WithKeySv(payloads[k], source)
      invariant forall k :: i <= k < |out| ==> out[k] == payloads[k]
    {
      out := out[i := WithKeySv(out[i], source)];
    }
    forall k: nat | IsLargest(payloads, k)
      ensures HasKeySv(payloads[k]) && forall i :: 0 <= i < |out| ==> out[i] == WithKeySv(payloads[i], payloads[k])
    {
      LargestUnique(payloads, k, largest);
    }
    forall i | 0 <= i < |out| ensures TensorsReplaced(out[i], payloads[i], source) {
      ReplacedTensors(payloads[i], source);
    }
  }

  lemma KeySvPart(dict: Dict, source: Dict)
    requires HasKeySv(source) && UUID in dict
    ensures Subset(WithKeySv(dict, source), KEY_SV_NAMES) == Subset(source, KEY_SV_NAMES)
    ensures UuidPart(WithKeySv(dict, source)) == UuidPart(dict)
  {
    assert Subset(WithKeySv(dict, source), KEY_SV_NAMES).Keys == KEY_SV_NAMES;
    assert Subset(source, KEY_SV_NAMES).Keys == KEY_SV_NAMES;
  }

  /** Chunks of one batch with the same uuid have the same key_sv part after the split. */
  lemma SameBatchSameKeySv(a: Dict, b: Dict, source: Dict)
    requires HasKeySv(source) && UUID in a && UUID in b && a[UUID] == b[UUID]
    requires BuildCompressedPayload(WithKeySv(a, source)).Split? && BuildCompressedPayload(WithKeySv(b, source)).Split?
    ensures BuildCompressedPayload(WithKeySv(a, source)).keySv == BuildCompressedPayload(WithKeySv(b, source)).keySv
  {
    KeySvPart(a, source);
    KeySvPart(b, source);
  }

  // ---- Names -----------------------------------------------------------------------------------

  function KeySvPath(path: string): string {
    path + "_key_sv"
  }

  predicate UsesShared(path: string, part: Dict) {
    LayerIdx(path) > 2 && UUID in part
  }

  /** The key_sv name computed from either part: both carry the same uuid. */
  function KeyName(path: string, part: Dict): string {
    if UsesShared(path, part) then SharedKeySvPath(part[UUID].values, LayerIdx(path), path) else KeySvPath(path)
  }

  /** `Load`: the object under the path itself, else the two parts. */
  function Load(remote: map<string, Dict>, path: string): Option<Dict> {
    if path in remote then Some(remote[path])
    else if OtherPath(path) !in remote then None
    else
      var other := remote[OtherPath(path)];
      var keyName := KeyName(path, other);
      if keyName !in remote then None else Some(remote[keyName] + other)
  }

  lemma PartsAgreeOnName(dict: Dict, path: string)
    requires BuildCompressedPayload(dict).Split?
    ensures var p := BuildCompressedPayload(dict);
            KeyName(path, p.keySv) == KeyName(path, p.other) && UsesShared(path, p.keySv) == UsesShared(path, p.other)
  {
    var p := BuildCompressedPayload(dict);
    assert UUID in p.keySv <==> UUID in p.other;
    assert UUID in p.keySv ==> p.keySv[UUID] == p.other[UUID];
  }

  // ---- Concurrent saving -----------------------------------------------------------------------

  /** One save with the names it will write, computed before any lock is taken. */
  datatype Job = Job(path: string, source: Dict, payload: Payload, keyName: string, otherName: string, shared: bool)

  function JobFor(path: string, dict: Dict): Job {
    var p := BuildCompressedPayload(dict);
    if p.Full? then Job(path, dict, p, "", "", false)
    else Job(path, dict, p, KeyName(path, p.keySv), OtherPath(path), UsesShared(path, p.keySv))
  }

  /** Where a save writes: a split job above layer 2 with a uuid shares its key_sv object with its group,
      any other has one of its own. */
  lemma WhereItGoes(path: string, dict: Dict)
    ensures var job := JobFor(path, dict);
            && job.path == path && job.source == dict && job.payload == BuildCompressedPayload(dict)
            && (job.payload.Split? ==>
                  && job.otherName == path + "_other"
                  && (job.shared <==> LayerIdx(path) > 2 && "uuid" in dict)
                  && job.keyName == if LayerIdx(path) > 2 && "uuid" in dict
                                    then SharedKeySvPath(Flattened(dict["uuid"]).values, LayerIdx(path), path)
                                    else path + "_key_sv")
  {
    if BuildCompressedPayload(dict).Split? {
      var part := BuildCompressedPayload(dict).keySv;
      assert UUID in part <==> UUID in dict;
      assert UUID in dict ==> part[UUID] == Flattened(dict[UUID]);
    }
  }

  datatype Worker =
    | Idle
    | Started(job: Job)
    | Claimed(job: Job)      // about to save the key_sv object
    | Unclaiming(job: Job)   // that save threw; about to erase the shared claim
    | AtOther(job: Job)      // about to save the other part

  datatype State = State(
    remote: map<string, Dict>,
    saved: set<string>,
    workers: seq<Worker>,
    uploaded: set<Job>)

  datatype Step =
    | Start(w: nat, job: Job)
    | SaveFull(w: nat, ok: bool)
    | Claim(w: nat)
    | SaveKey(w: nat, ok: bool)
    | Erase(w: nat)
    | SaveOther(w: nat, ok: bool)

  predicate Enabled(s: State, step: Step) {
    step.w < |s.workers| &&
    match step
    case Start(w, _) => s.workers[w].Idle?
    case SaveFull(w, _) => s.workers[w].Started? && s.workers[w].job.payload.Full?
    case Claim(w) => s.workers[w].Started? && s.workers[w].job.payload.Split?
    case SaveKey(w, _) => s.workers[w].Claimed? && s.workers[w].job.payload.Split?
    case Erase(w) => s.workers[w].Unclaiming?
    case SaveOther(w, _) => s.workers[w].AtOther? && s.workers[w].job.payload.Split?
  }

  function Set(s: State, w: nat, worker: Worker): State
    requires w < |s.workers|
  {
    s.(workers := s.workers[w := worker])
  }

  function Apply(s: State, step: Step): State
    requires Enabled(s, step)
  {
    var w := step.w;
    match step
    case Start(_, job) => Set(s, w, Started(job))
    case SaveFull(_, ok) =>
      var job := s.workers[w].job;
      if ok then Set(s, w, Idle).(remote := s.remote[job.path := job.payload.dict], uploaded := s.uploaded + {job})
      else Set(s, w, Idle)
    case Claim(_) =>
      var job := s.workers[w].job;
      if job.shared && job.keyName in s.saved then Set(s, w, AtOther(job))
      else Set(s, w, Claimed(job)).(saved := if job.shared then s.saved + {job.keyName} else s.saved)
    case SaveKey(_, ok) =>
      var job := s.workers[w].job;
      if ok then Set(s, w, AtOther(job)).(remote := s.remote[job.keyName := job.payload.keySv])
      else Set(s, w, if job.shared then Unclaiming(job) else Idle)
    case Erase(_) => Set(s, w, Idle).(saved := s.saved - {s.workers[w].job.keyName})
    case SaveOther(_, ok) =>
      var job := s.workers[w].job;
      if ok
      then Set(s, w, Idle).(remote := s.remote[job.otherName := job.payload.other], uploaded := s.uploaded + {job})
      else Set(s, w, Idle)
  }

  ghost predicate Run(s: State, steps: seq<Step>)
    decreases |steps|
  {
    steps == [] || (Enabled(s, steps[0]) && Run(Apply(s, steps[0]), steps[1..]))
  }

  ghost function Exec(s: State, steps: seq<Step>): State
    requires Run(s, steps)
    decreases |steps|
  {
    if steps == [] then s else Exec(Apply(s, steps[0]), steps[1..])
  }

  lemma {:induction false} RunConcat(s: State, xs: seq<Step>, ys: seq<Step>)
    requires Run(s, xs) && Run(Exec(s, xs), ys)
    ensures Run(s, xs + ys) && Exec(s, xs + ys) == Exec(Exec(s, xs), ys)
    decreases |xs|
  {
    if xs == [] {
      assert xs + ys == ys;
    } else {
      RunConcat(Apply(s, xs[0]), xs[1..], ys);
      assert (xs + ys)[1..] == xs[1..] + ys;
    }
  }

  // ---- Claims ----------------------------------------------------------------------------------

  /** Whether a worker is between inserting a shared name and saving or erasing it. */
  ghost function Holds(name: string): Worker -> nat {
    (worker: Worker) =>
      if (worker.Claimed? || worker.Unclaiming?) && worker.job.shared && worker.job.keyName == name then 1 else 0
  }

  /** Every claimed name is present remotely or held by exactly one worker; a held name is
      claimed, and nobody else holds it. */
  ghost predicate Claims(s: State) {
    && (forall w :: 0 <= w < |s.workers| && s.workers[w].Unclaiming? ==> s.workers[w].job.shared)
    && (forall name: string ::
          && Sum(s.workers, Holds(name)) <= 1
          && (Sum(s.workers, Holds(name)) == 1 ==> name in s.saved)
          && (name in s.saved && Sum(s.workers, Holds(name)) == 0 ==> name in s.remote))
  }

  lemma ClaimKept(s: State, step: Step, name: string)
    requires Enabled(s, step) && (step.Erase? ==> s.workers[step.w].job.shared)
    requires && Sum(s.workers, Holds(name)) <= 1
             && (Sum(s.workers, Holds(name)) == 1 ==> name in s.saved)
             && (name in s.saved && Sum(s.workers, Holds(name)) == 0 ==> name in s.remote)
    ensures var s' := Apply(s, step);
            && Sum(s'.workers, Holds(name)) <= 1
            && (Sum(s'.workers, Holds(name)) == 1 ==> name in s'.saved)
            && (name in s'.saved && Sum(s'.workers, Holds(name)) == 0 ==> name in s'.remote)
  {
    SumUpdate(s.workers, step.w, Apply(s, step).workers[step.w], Holds(name));
  }

  lemma StepKeepsClaims(s: State, step: Step)
    requires Claims(s) && Enabled(s, step)
    ensures Claims(Apply(s, step))
  {
    var s' := Apply(s, step);
    forall name: string
      ensures && Sum(s'.workers, Holds(name)) <= 1
              && (Sum(s'.workers, Holds(name)) == 1 ==> name in s'.saved)
              && (name in s'.saved && Sum(s'.workers, Holds(name)) == 0 ==> name in s'.remote)
    {
      ClaimKept(s, step, name);
    }
  }

  /** Over every run, with any failures. */
  lemma {:induction false} RunKeepsClaims(s: State, steps: seq<Step>)
    requires Claims(s) && Run(s, steps)
    ensures Claims(Exec(s, steps))
    decreases |steps|
  {
    if steps == [] {
    } else {
      StepKeepsClaims(s, steps[0]);
      RunKeepsClaims(Apply(s, steps[0]), steps[1..]);
    }
  }

  // ---- What loads back -------------------------------------------------------------------------

  ghost predicate Genuine(job: Job) {
    job == JobFor(job.path, job.source)
  }

  /** The objects a job writes that are named after its own path. */
  ghost function OwnWrites(job: Job): map<string, Dict> {
    match job.payload
    case Full(dict) => map[job.path := dict]
    case Split(keySv, other) =>
      if job.shared then map[job.otherName := other] else map[job.keyName := keySv][job.otherName := other]
  }

  ghost predicate SharesKey(job: Job) {
    job.payload.Split? && job.shared
  }

  /** The saves of one run do not clash: a path is saved once, no path is the name of somebody's part,
      and no key_sv name made from a path is a shared one. */
  ghost predicate Separate(jobs: set<Job>) {
    && (forall j :: j in jobs ==> Genuine(j))
    && (forall j, k :: j in jobs && k in jobs && j.path == k.path ==> j == k)
    && (forall j, k :: j in jobs && k in jobs && k.payload.Split? ==> j.path != k.otherName && j.path != k.keyName)
    && (forall j, k :: j in jobs && k in jobs && j.payload.Split? && k.payload.Split? && !j.shared && k.shared ==>
          j.keyName != k.keyName)
  }

  /** The two parts of a split job go to two objects, neither under the bare path; the names of the
      two kinds never meet. */
  lemma PartNamesDiffer(job: Job)
    requires Genuine(job) && job.payload.Split?
    ensures job.keyName != [] && job.keyName[|job.keyName| - 1] == 'v'
    ensures job.otherName != [] && job.otherName[|job.otherName| - 1] == 'r'
    ensures job.keyName != job.otherName && job.otherName != job.path
  {
    var key, other := job.keyName, job.otherName;
    assert other[|other| - 1] == 'r';
    if job.shared {
      assert key == Directory(job.path) + SharedName(job.payload.keySv[UUID].values, LayerIdx(job.path));
      SharedNameEnd(job.payload.keySv[UUID].values, LayerIdx(job.path));
      assert key[|key| - 1] == 'v';
    } else {
      assert key[|key| - 1] == 'v';
    }
  }

  lemma SharedNameEnd(uuid: seq<int>, layer: int)
    ensures SharedName(uuid, layer) != [] && SharedName(uuid, layer)[|SharedName(uuid, layer)| - 1] == 'v'
  {
    assert END[|END| - 1] == 'v';
  }

  /** An object named after a path belongs to one job. */
  lemma OwnNamesApart(jobs: set<Job>, j: Job, k: Job, n: string)
    requires Separate(jobs) && j in jobs && k in jobs && n in OwnWrites(j) && n in OwnWrites(k)
    ensures j == k
  {
    if j.payload.Split? { PartNamesDiffer(j); }
    if k.payload.Split? { PartNamesDiffer(k); }
    if j.payload.Split? && k.payload.Split? {
      assert n == j.otherName == k.otherName || n == j.keyName == k.keyName;
      SuffixInjective(j.path, k.path, "_other");
      SuffixInjective(j.path, k.path, "_key_sv");
    }
  }

  lemma SuffixInjective(a: string, b: string, suffix: string)
    ensures a + suffix == b + suffix ==> a == b
  {
    if a + suffix == b + suffix {
      assert |a| == |b|;
      assert a == (a + suffix)[..|a|] && b == (b + suffix)[..|b|];
    }
  }

  lemma SharedNotOwn(jobs: set<Job>, j: Job, k: Job)
    requires Separate(jobs) && j in jobs && k in jobs && SharesKey(j)
    ensures j.keyName !in OwnWrites(k)
  {
    PartNamesDiffer(j);
    if k.payload.Split? {
      PartNamesDiffer(k);
    }
  }

  // Whose key_sv part a shared object holds, over a run.

  type Writers = map<string, Job>

  ghost function NextWriters(s: State, step: Step, writers: Writers): Writers
    requires Enabled(s, step)
  {
    if step.SaveKey? && step.ok && s.workers[step.w].job.shared
    then writers[s.workers[step.w].job.keyName := s.workers[step.w].job]
    else writers
  }

  ghost function WritersAfter(s: State, steps: seq<Step>, writers: Writers): Writers
    requires Run(s, steps)
    decreases |steps|
  {
    if steps == [] then writers
    else WritersAfter(Apply(s, steps[0]), steps[1..], NextWriters(s, steps[0], writers))
  }

  /** A shared name has been written exactly if it is in the set and no worker is saving or erasing it. */
  ghost predicate WrittenIffSaved(s: State, writers: Writers, name: string) {
    name in writers <==> name in s.saved && Sum(s.workers, Holds(name)) == 0
  }

  lemma StepKeepsWritten(s: State, step: Step, writers: Writers, name: string)
    requires Enabled(s, step) && (step.Erase? ==> s.workers[step.w].job.shared) && WrittenIffSaved(s, writers, name)
    requires Sum(s.workers, Holds(name)) <= 1 && (Sum(s.workers, Holds(name)) == 1 ==> name in s.saved)
    ensures WrittenIffSaved(Apply(s, step), NextWriters(s, step, writers), name)
    ensures name in writers ==>
              name in NextWriters(s, step, writers) && NextWriters(s, step, writers)[name] == writers[name]
  {
    SumUpdate(s.workers, step.w, Apply(s, step).workers[step.w], Holds(name));
  }

  /** On every run, whatever fails: a written name is one in the set that nobody is working on, and a
      shared object once written is never written again. */
  lemma {:induction false} RunKeepsWritten(s: State, steps: seq<Step>, writers: Writers, name: string)
    requires Claims(s) && Run(s, steps) && WrittenIffSaved(s, writers, name)
    ensures WrittenIffSaved(Exec(s, steps), WritersAfter(s, steps, writers), name)
    ensures name in writers ==>
              name in WritersAfter(s, steps, writers) && WritersAfter(s, steps, writers)[name] == writers[name]
    decreases |steps|
  {
    if steps == [] {
    } else {
      assert Sum(s.workers, Holds(name)) <= 1;
      StepKeepsWritten(s, steps[0], writers, name);
      StepKeepsClaims(s, steps[0]);
      RunKeepsWritten(Apply(s, steps[0]), steps[1..], NextWriters(s, steps[0], writers), name);
    }
  }

  ghost predicate WorkerSound(remote: map<string, Dict>, jobs: set<Job>, worker: Worker) {
    && (!worker.Idle? ==> worker.job in jobs)
    && (worker.Claimed? || worker.AtOther? ==> worker.job.payload.Split?)
    && (worker.AtOther? && !worker.job.shared ==> worker.job.keyName in remote)
  }

  /** Everything an upload wrote under its own names is there. */
  ghost predicate UploadSound(remote: map<string, Dict>, job: Job) {
    forall n :: n in OwnWrites(job) ==> n in remote
  }

  ghost predicate OwnContents(remote: map<string, Dict>, jobs: set<Job>) {
    && (forall j, n :: j in jobs && n in OwnWrites(j) && n in remote ==> remote[n] == OwnWrites(j)[n])
    && (forall j :: j in jobs && j.payload.Split? ==> j.path !in remote)
  }

  /** The shared objects are those written, each with the key_sv part of the job that wrote it. */
  ghost predicate SharedContents(remote: map<string, Dict>, jobs: set<Job>, writers: Writers) {
    && (forall n :: n in writers ==>
          && writers[n] in jobs && SharesKey(writers[n]) && writers[n].keyName == n
          && n in remote && remote[n] == writers[n].payload.keySv)
    && (forall j :: j in jobs && SharesKey(j) && j.keyName in remote ==> j.keyName in writers)
  }

  /** What every run keeps, whatever fails. */
  ghost predicate Stored(s: State, jobs: set<Job>, writers: Writers) {
    && s.uploaded <= jobs
    && OwnContents(s.remote, jobs) && SharedContents(s.remote, jobs, writers)
    && (forall w :: 0 <= w < |s.workers| ==> WorkerSound(s.remote, jobs, s.workers[w]))
    && (forall j :: j in s.uploaded ==> UploadSound(s.remote, j))
  }

  /** Nobody but `job` writes `name` and no path or shared object has that name. */
  ghost predicate Owns(jobs: set<Job>, job: Job, name: string) {
    && (forall j :: j in jobs && name in OwnWrites(j) ==> j == job)
    && (forall j :: j in jobs && SharesKey(j) ==> j.keyName != name)
    && (forall j :: j in jobs && j.payload.Split? ==> j.path != name)
  }

  lemma OwnNames(jobs: set<Job>, job: Job, name: string)
    requires Separate(jobs) && job in jobs && name in OwnWrites(job)
    ensures Owns(jobs, job, name)
  {
    forall j | j in jobs && name in OwnWrites(j) ensures j == job {
      OwnNamesApart(jobs, j, job, name);
    }
    forall j | j in jobs && SharesKey(j) ensures j.keyName != name {
      SharedNotOwn(jobs, j, job);
    }
  }

  /** Writing an object of a job's own keeps every object's content right. */
  lemma OwnWriteKeeps(remote: map<string, Dict>, jobs: set<Job>, writers: Writers, job: Job, name: string)
    requires OwnContents(remote, jobs) && SharedContents(remote, jobs, writers)
    requires job in jobs && name in OwnWrites(job) && Owns(jobs, job, name)
    ensures OwnContents(remote[name := OwnWrites(job)[name]], jobs)
    ensures SharedContents(remote[name := OwnWrites(job)[name]], jobs, writers)
  {
  }

  /** So does writing a shared object, once the job is recorded as its writer. */
  lemma SharedWriteKeeps(remote: map<string, Dict>, jobs: set<Job>, writers: Writers, job: Job)
    requires OwnContents(remote, jobs) && SharedContents(remote, jobs, writers) && job in jobs && SharesKey(job)
    requires forall j :: j in jobs ==> job.keyName !in OwnWrites(j) && (j.payload.Split? ==> j.path != job.keyName)
    ensures OwnContents(remote[job.keyName := job.payload.keySv], jobs)
    ensures SharedContents(remote[job.keyName := job.payload.keySv], jobs, writers[job.keyName := job])
  {
  }

  /** The object a save step writes, if it is named after the job's path. */
  ghost function OwnTarget(s: State, step: Step): string
    requires Enabled(s, step) && (step.SaveFull? || step.SaveKey? || step.SaveOther?)
  {
    var job := s.workers[step.w].job;
    if step.SaveFull? then job.path else if step.SaveKey? then job.keyName else job.otherName
  }

  lemma OwnSave(s: State, step: Step)
    requires Enabled(s, step) && (step.SaveFull? || step.SaveOther? || (step.SaveKey? && !s.workers[step.w].job.shared))
    requires step.SaveKey? ==> s.workers[step.w].job.keyName != s.workers[step.w].job.otherName
    ensures var job := s.workers[step.w].job; var name := OwnTarget(s, step);
            && name in OwnWrites(job)
            && (Apply(s, step).remote == s.remote || Apply(s, step).remote == s.remote[name := OwnWrites(job)[name]])
  {
  }

  lemma StepKeepsContents(s: State, step: Step, jobs: set<Job>, writers: Writers)
    requires Separate(jobs) && Stored(s, jobs, writers) && Enabled(s, step)
    ensures OwnContents(Apply(s, step).remote, jobs)
    ensures SharedContents(Apply(s, step).remote, jobs, NextWriters(s, step, writers))
  {
    assert WorkerSound(s.remote, jobs, s.workers[step.w]);
    if step.SaveFull? || step.SaveKey? || step.SaveOther? {
      var job := s.workers[step.w].job;
      if step.SaveKey? && job.shared {
        forall j | j in jobs ensures job.keyName !in OwnWrites(j) {
          SharedNotOwn(jobs, job, j);
        }
        SharedWriteKeeps(s.remote, jobs, writers, job);
      } else {
        if step.SaveKey? {
          PartNamesDiffer(job);
        }
        OwnSave(s, step);
        OwnNames(jobs, job, OwnTarget(s, step));
        OwnWriteKeeps(s.remote, jobs, writers, job, OwnTarget(s, step));
      }
    }
  }

  /** The worker that steps, and the upload it may complete. */
  lemma ActorSound(s: State, step: Step, jobs: set<Job>, writers: Writers)
    requires Stored(s, jobs, writers) && Enabled(s, step) && (step.Start? ==> step.job in jobs)
    ensures var s' := Apply(s, step);
            && s.remote.Keys <= s'.remote.Keys && WorkerSound(s'.remote, jobs, s'.workers[step.w])
            && s'.uploaded <= jobs && forall j :: j in s'.uploaded - s.uploaded ==> UploadSound(s'.remote, j)
  {
    assert WorkerSound(s.remote, jobs, s.workers[step.w]);
  }

  lemma StepKeepsStored(s: State, step: Step, jobs: set<Job>, writers: Writers)
    requires Separate(jobs) && Stored(s, jobs, writers) && Enabled(s, step) && (step.Start? ==> step.job in jobs)
    ensures Stored(Apply(s, step), jobs, NextWriters(s, step, writers))
  {
    var s' := Apply(s, step);
    StepKeepsContents(s, step, jobs, writers);
    ActorSound(s, step, jobs, writers);
    forall w | 0 <= w < |s'.workers| ensures WorkerSound(s'.remote, jobs, s'.workers[w]) {
      if w != step.w {
        assert s'.workers[w] == s.workers[w] && WorkerSound(s.remote, jobs, s.workers[w]);
      }
    }
    forall j | j in s'.uploaded ensures UploadSound(s'.remote, j) {
      if j in s.uploaded {
        assert UploadSound(s.remote, j);
      }
    }
  }

  /** Only jobs of the set are started. */
  ghost predicate Starts(steps: seq<Step>, jobs: set<Job>) {
    forall i :: 0 <= i < |steps| && steps[i].Start? ==> steps[i].job in jobs
  }

  lemma {:induction false} RunKeepsStored(s: State, steps: seq<Step>, jobs: set<Job>, writers: Writers)
    requires Separate(jobs) && Stored(s, jobs, writers) && Run(s, steps) && Starts(steps, jobs)
    ensures Stored(Exec(s, steps), jobs, WritersAfter(s, steps, writers))
    decreases |steps|
  {
    if steps == [] {
    } else {
      StepKeepsStored(s, steps[0], jobs, writers);
      RunKeepsStored(Apply(s, steps[0]), steps[1..], jobs, NextWriters(s, steps[0], writers));
    }
  }

  function Empty(workers: nat): State {
    State(map[], {}, seq(workers, i => Idle), {})
  }

  ghost predicate Quiescent(s: State) {
    forall w :: 0 <= w < |s.workers| ==> s.workers[w].Idle?
  }

  lemma EmptyStored(workers: nat, jobs: set<Job>)
    ensures Claims(Empty(workers)) && Stored(Empty(workers), jobs, map[])
    ensures forall name: string :: WrittenIffSaved(Empty(workers), map[], name)
  {
    forall name: string ensures Sum(Empty(workers).workers, Holds(name)) == 0 {
      SumZero(Empty(workers).workers, Holds(name));
    }
  }

  /** Who wrote the shared objects of a run from the start. */
  ghost function WritersOf(workers: nat, steps: seq<Step>): Writers
    requires Run(Empty(workers), steps)
  {
    WritersAfter(Empty(workers), steps, map[])
  }

  /** The job whose key_sv part a job's path loads: the one that wrote the shared object, or the job
      itself. */
  ghost function Provider(writers: Writers, job: Job): Job {
    if SharesKey(job) && job.keyName in writers then writers[job.keyName] else job
  }

  /** The key_sv object of a job is there. */
  ghost predicate KeyWritten(writers: Writers, job: Job) {
    SharesKey(job) ==> job.keyName in writers
  }

  /** An entry both dictionaries have with the same content, or neither has. */
  ghost predicate AgreeAt(a: Dict, b: Dict, name: string) {
    (name in a <==> name in b) && (name in a && name in b ==> a[name] == b[name])
  }

  lemma OverlaySame(a: Dict, b: Dict, other: Dict)
    requires forall n :: n !in other ==> AgreeAt(a, b, n)
    ensures a + other == b + other
  {
    assert forall n :: n in a + other <==> n in b + other;
    assert (a + other).Keys == (b + other).Keys;
  }

  lemma OverlayAgrees(a: Dict, b: Dict, other: Dict)
    ensures a + other == b + other <==> forall n :: n !in other ==> AgreeAt(a, b, n)
  {
    if a + other == b + other {
      forall n | n !in other ensures AgreeAt(a, b, n) {
        assert n in a <==> n in a + other;
        assert n in b <==> n in b + other;
        assert n in a ==> (a + other)[n] == a[n];
        assert n in b ==> (b + other)[n] == b[n];
      }
    } else {
      if forall n :: n !in other ==> AgreeAt(a, b, n) {
        OverlaySame(a, b, other);
      }
    }
  }

  /** At any moment of every run, whatever failed, an uploaded path loads exactly if the key_sv object
      under its name was written: then its own other part over the key_sv part of the writer. */
  lemma UploadedLoads(workers: nat, steps: seq<Step>, jobs: set<Job>, job: Job)
    requires Separate(jobs) && Run(Empty(workers), steps) && Starts(steps, jobs)
    requires job in Exec(Empty(workers), steps).uploaded
    ensures job in jobs && Genuine(job)
    ensures var p := Provider(WritersOf(workers, steps), job);
            && p in jobs
            && (job.payload.Split? ==> p.payload.Split? && p.shared == job.shared && p.keyName == job.keyName)
            && Load(Exec(Empty(workers), steps).remote, job.path)
               == if !KeyWritten(WritersOf(workers, steps), job) then None
                  else if job.payload.Full? then Some(job.payload.dict)
                  else Some(p.payload.keySv + job.payload.other)
  {
    EmptyStored(workers, jobs);
    RunKeepsStored(Empty(workers), steps, jobs, map[]);
    var s := Exec(Empty(workers), steps);
    assert UploadSound(s.remote, job);
    if job.payload.Full? {
      assert job.path in OwnWrites(job);
    } else {
      PartNamesDiffer(job);
      assert job.otherName in OwnWrites(job);
      PartsAgreeOnName(job.source, job.path);
      if !job.shared {
        assert job.keyName in OwnWrites(job);
      }
    }
  }

  /** It is what was split exactly if, besides, the two key_sv parts agree outside the entries the other
      part overrides. */
  lemma LoadsWhatWasSplit(workers: nat, steps: seq<Step>, jobs: set<Job>, job: Job)
    requires Separate(jobs) && Run(Empty(workers), steps) && Starts(steps, jobs)
    requires job in Exec(Empty(workers), steps).uploaded
    ensures var p := Provider(WritersOf(workers, steps), job);
            (Load(Exec(Empty(workers), steps).remote, job.path) == Some(Merge(BuildCompressedPayload(job.source)))
             <==> && KeyWritten(WritersOf(workers, steps), job)
                  && (job.payload.Split? && p.payload.Split? ==>
                        forall n :: n !in job.payload.other ==> AgreeAt(p.payload.keySv, job.payload.keySv, n)))
  {
    UploadedLoads(workers, steps, jobs, job);
    if job.payload.Split? {
      var p := Provider(WritersOf(workers, steps), job);
      OverlayAgrees(p.payload.keySv, job.payload.keySv, job.payload.other);
    }
  }

  /** When the workers are idle, the key_sv object of a job was written exactly if its shared name is in
      the set of saved names. */
  lemma WrittenWhenIdle(workers: nat, steps: seq<Step>, job: Job)
    requires Run(Empty(workers), steps) && Quiescent(Exec(Empty(workers), steps))
    ensures KeyWritten(WritersOf(workers, steps), job)
            <==> (SharesKey(job) ==> job.keyName in Exec(Empty(workers), steps).saved)
  {
    EmptyStored(workers, {});
    RunKeepsWritten(Empty(workers), steps, map[], job.keyName);
    SumZero(Exec(Empty(workers), steps).workers, Holds(job.keyName));
  }

  lemma {:induction false} WritersConcat(s: State, xs: seq<Step>, ys: seq<Step>, writers: Writers)
    requires Run(s, xs) && Run(Exec(s, xs), ys) && Run(s, xs + ys)
    ensures WritersAfter(s, xs + ys, writers) == WritersAfter(Exec(s, xs), ys, WritersAfter(s, xs, writers))
    decreases |xs|
  {
    if xs == [] {
      assert xs + ys == ys;
    } else {
      assert (xs + ys)[1..] == xs[1..] + ys;
      WritersConcat(Apply(s, xs[0]), xs[1..], ys, NextWriters(s, xs[0], writers));
    }
  }

  lemma {:induction false} UploadsStay(s: State, steps: seq<Step>)
    requires Run(s, steps)
    ensures s.uploaded <= Exec(s, steps).uploaded
    decreases |steps|
  {
    if steps == [] {
    } else {
      UploadsStay(Apply(s, steps[0]), steps[1..]);
    }
  }

  /** A path that loads goes on loading the same. */
  lemma LoadsForever(workers: nat, steps: seq<Step>, more: seq<Step>, jobs: set<Job>, job: Job)
    requires Separate(jobs) && Run(Empty(workers), steps) && Run(Exec(Empty(workers), steps), more)
    requires Starts(steps, jobs) && Starts(more, jobs) && job in Exec(Empty(workers), steps).uploaded
    requires KeyWritten(WritersOf(workers, steps), job)
    ensures Load(Exec(Exec(Empty(workers), steps), more).remote, job.path)
            == Load(Exec(Empty(workers), steps).remote, job.path)
  {
    var s, writers := Exec(Empty(workers), steps), WritersOf(workers, steps);
    EmptyStored(workers, jobs);
    RunKeepsClaims(Empty(workers), steps);
    RunKeepsWritten(Empty(workers), steps, map[], job.keyName);
    RunKeepsWritten(s, more, writers, job.keyName);
    RunConcat(Empty(workers), steps, more);
    WritersConcat(Empty(workers), steps, more, map[]);
    UploadsStay(s, more);
    UploadedLoads(workers, steps, jobs, job);
    UploadedLoads(workers, steps + more, jobs, job);
  }

  // ---- Runs in which no save of a shared name failed -------------------------------------------

  /** The step is a failed save of the shared object `name`. */
  ghost predicate Fails(s: State, step: Step, name: string)
    requires Enabled(s, step)
  {
    step.SaveKey? && !step.ok && s.workers[step.w].job.shared && s.workers[step.w].job.keyName == name
  }

  ghost predicate NeverFails(s: State, steps: seq<Step>, name: string)
    requires Run(s, steps)
    decreases |steps|
  {
    steps == [] || (!Fails(s, steps[0], name) && NeverFails(Apply(s, steps[0]), steps[1..], name))
  }

  /** Whoever went past the claim of `name` left it claimed. */
  ghost predicate ClaimStands(s: State, name: string) {
    && (forall w :: 0 <= w < |s.workers| ==>
          && (s.workers[w].AtOther? && SharesKey(s.workers[w].job) && s.workers[w].job.keyName == name ==>
                name in s.saved)
          && (s.workers[w].Unclaiming? ==> s.workers[w].job.keyName != name))
    && (forall j :: j in s.uploaded && SharesKey(j) && j.keyName == name ==> name in s.saved)
  }

  lemma StepKeepsClaimStanding(s: State, step: Step, name: string)
    requires Claims(s) && ClaimStands(s, name) && Enabled(s, step) && !Fails(s, step, name)
    ensures ClaimStands(Apply(s, step), name)
  {
    if step.SaveKey? {
      SumUpdate(s.workers, step.w, Idle, Holds(name));
    }
  }

  lemma {:induction false} ClaimsStand(s: State, steps: seq<Step>, name: string)
    requires Claims(s) && ClaimStands(s, name) && Run(s, steps) && NeverFails(s, steps, name)
    ensures ClaimStands(Exec(s, steps), name)
    decreases |steps|
  {
    if steps == [] {
    } else {
      StepKeepsClaimStanding(s, steps[0], name);
      StepKeepsClaims(s, steps[0]);
      ClaimsStand(Apply(s, steps[0]), steps[1..], name);
    }
  }

  /** If no save of its shared name failed, the name of an uploaded job is in the set. */
  lemma UnfailedIsSaved(workers: nat, steps: seq<Step>, job: Job)
    requires Run(Empty(workers), steps) && job in Exec(Empty(workers), steps).uploaded
    requires SharesKey(job) ==> NeverFails(Empty(workers), steps, job.keyName)
    ensures SharesKey(job) ==> job.keyName in Exec(Empty(workers), steps).saved
  {
    if SharesKey(job) {
      EmptyStored(workers, {});
      ClaimsStand(Empty(workers), steps, job.keyName);
    }
  }

  // ---- Jobs that come from batches -------------------------------------------------------------

  /** One dispatched group: chunks of one uuid and one layer, with the key_sv tensors they were given. */
  datatype Batch = Batch(uuid: Tensor, layer: int, paths: seq<string>, chunks: seq<Dict>, dicts: seq<Dict>) {
    ghost predicate Valid() {
      && |paths| == |chunks| && Unified(dicts, chunks)
      && (forall i :: 0 <= i < |paths| ==> LayerIdx(paths[i]) == layer)
      && (forall i :: 0 <= i < |chunks| ==> UUID in chunks[i] && chunks[i][UUID] == uuid)
    }

    ghost predicate Has(job: Job)
      requires Valid()
    {
      exists i :: 0 <= i < |paths| && job == JobFor(paths[i], dicts[i])
    }
  }

  ghost predicate SameGroup(a: Batch, b: Batch) {
    a.layer == b.layer && Flattened(a.uuid).values == Flattened(b.uuid).values
  }

  /** Every job with a shared name comes from a batch, and there is one batch per uuid and layer. */
  ghost predicate OneBatchPerGroup(jobs: set<Job>, batches: set<Batch>) {
    && (forall b :: b in batches ==> b.Valid())
    && (forall j :: j in jobs && SharesKey(j) ==> exists b :: b in batches && b.Valid() && b.Has(j))
    && (forall a, b :: a in batches && b in batches && SameGroup(a, b) ==> a == b)
  }

  lemma LargestExists(chunks: seq<Dict>) returns (k: nat)
    requires chunks != []
    ensures IsLargest(chunks, k)
  {
    k := 0;
    for n := 1 to |chunks|
      invariant k < n && IsLargest(chunks[..n], k)
    {
      if KeySvRank(chunks[n]) > KeySvRank(chunks[k]) {
        k := n;
      }
    }
    assert chunks[..|chunks|] == chunks;
  }

  lemma JobName(path: string, dict: Dict)
    requires SharesKey(JobFor(path, dict)) && UUID in dict
    ensures JobFor(path, dict).keyName == SharedKeySvPath(Flattened(dict[UUID]).values, LayerIdx(path), path)
  {
  }

  /** The place of a job in its batch. */
  lemma BatchPlace(b: Batch, job: Job) returns (i: nat, k: nat)
    requires b.Valid() && b.Has(job)
    ensures i < |b.paths| == |b.dicts| == |b.chunks| && job == JobFor(b.paths[i], b.dicts[i])
    ensures IsLargest(b.chunks, k) && HasKeySv(b.chunks[k]) && b.dicts[i] == WithKeySv(b.chunks[i], b.chunks[k])
  {
    i :| 0 <= i < |b.paths| && job == JobFor(b.paths[i], b.dicts[i]);
    k := LargestExists(b.chunks);
  }

  /** The name of a shared job is made from the uuid and the layer of its batch. */
  lemma BatchName(b: Batch, job: Job)
    requires b.Valid() && b.Has(job) && SharesKey(job)
    ensures job.keyName == SharedKeySvPath(Flattened(b.uuid).values, b.layer, job.path)
  {
    var i, k := BatchPlace(b, job);
    assert b.dicts[i][UUID] == b.uuid;
    JobName(b.paths[i], b.dicts[i]);
  }

  lemma BatchKeySv(b: Batch, x: Job, y: Job)
    requires b.Valid() && b.Has(x) && b.Has(y) && SharesKey(x) && SharesKey(y)
    ensures x.payload.keySv == y.payload.keySv
  {
    var i, k := BatchPlace(b, x);
    var j, l := BatchPlace(b, y);
    LargestUnique(b.chunks, k, l);
    SameBatchSameKeySv(b.chunks[i], b.chunks[j], b.chunks[k]);
  }

  /** Batches of two jobs with the same shared name are of the same group. */
  lemma SameNameSameGroup(a: Batch, x: Job, b: Batch, y: Job)
    requires a.Valid() && a.Has(x) && b.Valid() && b.Has(y) && SharesKey(x) && SharesKey(y) && x.keyName == y.keyName
    ensures SameGroup(a, b)
  {
    BatchName(a, x);
    BatchName(b, y);
    SharedKeySvPathInjective(Flattened(a.uuid).values, a.layer, x.path, Flattened(b.uuid).values, b.layer, y.path);
  }

  lemma BatchOf(jobs: set<Job>, batches: set<Batch>, job: Job) returns (b: Batch)
    requires OneBatchPerGroup(jobs, batches) && job in jobs && SharesKey(job)
    ensures b in batches && b.Valid() && b.Has(job)
  {
    b :| b in batches && b.Valid() && b.Has(job);
  }

  /** One batch per group gives every shared name one content. */
  lemma SharedNameOneContent(jobs: set<Job>, batches: set<Batch>, x: Job, y: Job)
    requires OneBatchPerGroup(jobs, batches) && x in jobs && y in jobs && SharesKey(x) && SharesKey(y)
    requires x.keyName == y.keyName
    ensures x.payload.keySv == y.payload.keySv
  {
    var a := BatchOf(jobs, batches, x);
    var b := BatchOf(jobs, batches, y);
    SameNameSameGroup(a, x, b, y);
    BatchKeySv(a, x, y);
  }

  /** If every group is dispatched as one batch and names do not collide, then once the workers are idle
      an uploaded path loads the dictionary that was split exactly if its shared name, should it have one,
      is in the set of saved names, whatever saves failed on the way. */
  lemma LoadsBackIffSaved(workers: nat, steps: seq<Step>, jobs: set<Job>, batches: set<Batch>, job: Job)
    requires Separate(jobs) && OneBatchPerGroup(jobs, batches) && Run(Empty(workers), steps) && Starts(steps, jobs)
    requires Quiescent(Exec(Empty(workers), steps)) && job in Exec(Empty(workers), steps).uploaded
    ensures Load(Exec(Empty(workers), steps).remote, job.path) == Some(Merge(BuildCompressedPayload(job.source)))
            <==> (SharesKey(job) ==> job.keyName in Exec(Empty(workers), steps).saved)
  {
    UploadedLoads(workers, steps, jobs, job);
    LoadsWhatWasSplit(workers, steps, jobs, job);
    WrittenWhenIdle(workers, steps, job);
    if SharesKey(job) {
      SharedNameOneContent(jobs, batches, Provider(WritersOf(workers, steps), job), job);
    }
  }

  /** So every uploaded path of whose shared name no save failed loads back. */
  lemma UploadedLoadsBack(workers: nat, steps: seq<Step>, jobs: set<Job>, batches: set<Batch>, job: Job)
    requires Separate(jobs) && OneBatchPerGroup(jobs, batches) && Run(Empty(workers), steps) && Starts(steps, jobs)
    requires Quiescent(Exec(Empty(workers), steps)) && job in Exec(Empty(workers), steps).uploaded
    requires SharesKey(job) ==> NeverFails(Empty(workers), steps, job.keyName)
    ensures Load(Exec(Empty(workers), steps).remote, job.path) == Some(Merge(BuildCompressedPayload(job.source)))
  {
    LoadsBackIffSaved(workers, steps, jobs, batches, job);
    UnfailedIsSaved(workers, steps, job);
  }

  lemma Prepend(s: State, step: Step, rest: seq<Step>) returns (steps: seq<Step>)
    requires Enabled(s, step) && Run(Apply(s, step), rest)
    ensures Run(s, steps) && Exec(s, steps) == Exec(Apply(s, step), rest)
  {
    steps := [step] + rest;
    assert steps[1..] == rest;
  }

  lemma FailedClaimRun(a: Job, b: Job) returns (steps: seq<Step>)
    requires SharesKey(a) && SharesKey(b) && a.keyName == b.keyName
    ensures Run(Empty(2), steps) && Quiescent(Exec(Empty(2), steps))
    ensures b in Exec(Empty(2), steps).uploaded && Exec(Empty(2), steps).remote == map[b.otherName := b.payload.other]
  {
    var s0 := Empty(2);
    var s1 := Apply(s0, Start(0, a));
    var s2 := Apply(s1, Start(1, b));
    var s3 := Apply(s2, Claim(0));
    var s4 := Apply(s3, Claim(1));
    var s5 := Apply(s4, SaveOther(1, true));
    var s6 := Apply(s5, SaveKey(0, false));
    var e7 := Prepend(s6, Erase(0), []);
    var e6 := Prepend(s5, SaveKey(0, false), e7);
    var e5 := Prepend(s4, SaveOther(1, true), e6);
    var e4 := Prepend(s3, Claim(1), e5);
    var e3 := Prepend(s2, Claim(0), e4);
    var e2 := Prepend(s1, Start(1, b), e3);
    steps := Prepend(s0, Start(0, a), e2);
  }

  /** A name need not stay in the set: of two saves sharing a key_sv name, the second is uploaded
      while the first still saves the object; when that save fails, the uploaded path is left
      without its key_sv object. */
  lemma FailedClaimLosesAnUpload(a: Job, b: Job) returns (steps: seq<Step>)
    requires Genuine(a) && Genuine(b) && SharesKey(a) && SharesKey(b) && a.keyName == b.keyName
    ensures Run(Empty(2), steps) && Quiescent(Exec(Empty(2), steps))
    ensures b in Exec(Empty(2), steps).uploaded && Load(Exec(Empty(2), steps).remote, b.path) == None
  {
    steps := FailedClaimRun(a, b);
    LoadWithoutKey(b);
  }

  lemma LoadWithoutKey(b: Job)
    requires Genuine(b) && b.payload.Split?
    ensures Load(map[b.otherName := b.payload.other], b.path) == None
  {
    PartsAgreeOnName(b.source, b.path);
    PartNamesDiffer(b);
  }

  /** One worker saving a split job on its own, when the shared name is free or taken. */
  lemma SaveAlone(s: State, job: Job) returns (steps: seq<Step>)
    requires s.workers == [Idle] && job.payload.Split? && job.shared
    ensures Run(s, steps)
    ensures var s' := Exec(s, steps);
            && s'.workers == [Idle] && s'.uploaded == s.uploaded + {job} && s'.saved == s.saved + {job.keyName}
            && s'.remote == (if job.keyName in s.saved then s.remote else s.remote[job.keyName := job.payload.keySv])
                            [job.otherName := job.payload.other]
  {
    var s1 := Apply(s, Start(0, job));
    var s2 := Apply(s1, Claim(0));
    var s3 := if s2.workers[0].AtOther? then s2 else Apply(s2, SaveKey(0, true));
    var e3 := Prepend(s3, SaveOther(0, true), []);
    var e2 := e3;
    if !s2.workers[0].AtOther? {
      e2 := Prepend(s2, SaveKey(0, true), e3);
    }
    var e1 := Prepend(s1, Claim(0), e2);
    steps := Prepend(s, Start(0, job), e1);
  }

  lemma LoadsForeignKeySv(s: State, a: Job, b: Job)
    requires Genuine(b) && b.payload.Split? && a.payload.Split? && b.path !in s.remote
    requires b.keyName in s.remote && s.remote[b.keyName] == a.payload.keySv
    requires b.otherName in s.remote && s.remote[b.otherName] == b.payload.other
    ensures Load(s.remote, b.path) == Some(a.payload.keySv + b.payload.other)
  {
    PartsAgreeOnName(b.source, b.path);
  }

  lemma SecondBatchRun(a: Job, b: Job) returns (steps: seq<Step>)
    requires SharesKey(a) && SharesKey(b) && a.keyName == b.keyName
    ensures Run(Empty(1), steps) && Quiescent(Exec(Empty(1), steps)) && b in Exec(Empty(1), steps).uploaded
    ensures Exec(Empty(1), steps).remote
            == map[a.keyName := a.payload.keySv][a.otherName := a.payload.other][b.otherName := b.payload.other]
  {
    var s0 := Empty(1);
    assert s0.workers == [Idle];
    var first := SaveAlone(s0, a);
    var second := SaveAlone(Exec(s0, first), b);
    RunConcat(s0, first, second);
    steps := first + second;
  }

  /** Nor do two batches of one group: the second finds the name taken and loads the first
      batch's key_sv. */
  lemma SecondBatchGetsFirstKeySv(a: Job, b: Job) returns (steps: seq<Step>)
    requires Genuine(a) && Genuine(b) && SharesKey(a) && SharesKey(b)
    requires a.keyName == b.keyName && a.otherName != b.otherName
    requires b.path != a.otherName && b.path != a.keyName
    ensures Run(Empty(1), steps) && Quiescent(Exec(Empty(1), steps)) && b in Exec(Empty(1), steps).uploaded
    ensures Load(Exec(Empty(1), steps).remote, b.path) == Some(a.payload.keySv + b.payload.other)
  {
    steps := SecondBatchRun(a, b);
    PartNamesDiffer(a);
    PartNamesDiffer(b);
    LoadsForeignKeySv(Exec(Empty(1), steps), a, b);
  }
}
