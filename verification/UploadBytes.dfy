/** Exact byte accounting of the raw queue and the save queue, in every reachable state. */
module UploadBytes {
  import opened Totals
  import opened RawQueue
  import opened UploadProtocol
  import opened UploadAccounts

  ghost function TaskSize(): Task -> nat {
    (t: Task) => t.size
  }

  ghost function RawSize(): Packed -> nat {
    (p: Packed) => p.raw.size
  }

  ghost function Payload(): Packed -> nat {
    (p: Packed) => p.payload
  }

  /** The raw bytes a compression worker still owes to the queue's counter. */
  ghost function Owes(): Compressor -> nat {
    (pc: Compressor) =>
      match pc
      case Idle => 0
      case Exited => 0
      case Collecting(_, batch) => Sum(batch, TaskSize())
      case Compressing(_, batch) => Sum(batch, TaskSize())
      case Emitting(_, rest) => Sum(rest, RawSize())
      case Releasing(_, bytes, rest) => bytes + Sum(rest, RawSize())
      case Failing(_, failed) => Sum(failed, TaskSize())
      case FailReleasing(_, bytes, failed) => bytes + Sum(failed, TaskSize())
  }

  ghost function SaverOwes(): Saver -> nat {
    (pc: Saver) => if pc.Saving? then pc.item.payload else 0
  }

  ghost function RawTotal(s: State): nat {
    Sum(s.queue.tasks, TaskSize()) + Sum(s.compressors, Owes())
  }

  ghost function SaveTotal(s: State): nat {
    Sum(s.saveQueue, Payload()) + Sum(s.savers, SaverOwes())
  }

  /** Both counters are exact and within their limits. */
  ghost predicate Bytes(c: Config, s: State) {
    && s.queue.bytes == RawTotal(s)
    && s.saveBytes == SaveTotal(s)
    && (c.rawLimit > 0 ==> s.queue.bytes <= c.rawLimit)
    && (c.saveLimit > 0 ==> s.saveBytes <= c.saveLimit)
  }

  /** What a step subtracts from the two counters. */
  ghost function Subtracts(c: Config, s: State, step: Step): (nat, nat)
    requires Enabled(c, s, step)
  {
    match step
    case Evict(_) => (s.queue.tasks[0].size, 0)
    case Release(w) => (s.compressors[w].bytes, 0)
    case ReleaseFailed(w) => (s.compressors[w].bytes, 0)
    case EndSave(v, _) => (0, s.savers[v].item.payload)
    case _ => (0, 0)
  }

  /** No counter is ever smaller than what is subtracted from it: the clamp is never used. */
  lemma ClampUnused(c: Config, s: State, step: Step)
    requires Bytes(c, s) && Enabled(c, s, step)
    ensures Subtracts(c, s, step).0 <= s.queue.bytes && Subtracts(c, s, step).1 <= s.saveBytes
  {
    match step
    case Evict(_) => SumHead(s.queue.tasks, TaskSize());
    case Release(w) => SumUpdate(s.compressors, w, Idle, Owes());
    case ReleaseFailed(w) => SumUpdate(s.compressors, w, Idle, Owes());
    case EndSave(v, _) => SumUpdate(s.savers, v, SaverIdle, SaverOwes());
    case _ =>
  }

  lemma CallBytes(c: Config, s: State, step: Step)
    requires Bytes(c, s) && Enabled(c, s, step) && CallStep(step)
    ensures Bytes(c, Apply(c, s, step))
  {
    ClampUnused(c, s, step);
    if step.Enqueue? {
      SumConcat(s.queue.tasks, [s.calls[step.c].task], TaskSize());
      SumOne(s.calls[step.c].task, TaskSize());
    } else if step.Evict? {
      SumHead(s.queue.tasks, TaskSize());
    }
  }

  lemma CollectBytes(c: Config, s: State, step: Step)
    requires Bytes(c, s) && Enabled(c, s, step) && step.Collect?
    ensures Bytes(c, Apply(c, s, step))
  {
    var pc := s.compressors[step.w];
    SumUpdate(s.compressors, step.w, Apply(c, s, step).compressors[step.w], Owes());
    SplitSum(s.queue.tasks, pc.key, TaskSize());
    SumConcat(pc.batch, Matching(s.queue.tasks, pc.key), TaskSize());
  }

  lemma TakeBytes(c: Config, s: State, step: Step)
    requires Bytes(c, s) && Enabled(c, s, step) && (step.Take? || step.Collect?)
    ensures Bytes(c, Apply(c, s, step))
  {
    if step.Take? {
      SumUpdate(s.compressors, step.w, Apply(c, s, step).compressors[step.w], Owes());
      TakeConserves(s.queue, TaskSize());
    } else {
      CollectBytes(c, s, step);
    }
  }

  lemma {:induction false} PackSize(batch: seq<Task>, payloads: seq<nat>)
    requires |batch| == |payloads|
    ensures Sum(Pack(batch, payloads), RawSize()) == Sum(batch, TaskSize())
  {
    if batch == [] {
    } else {
      var n := |batch| - 1;
      PackSize(batch[..n], payloads[..n]);
      assert Pack(batch, payloads)[..n] == Pack(batch[..n], payloads[..n]);
    }
  }

  lemma EmitBytes(c: Config, s: State, step: Step)
    requires Bytes(c, s) && Enabled(c, s, step) && step.Emit?
    ensures Bytes(c, Apply(c, s, step))
  {
    var rest := s.compressors[step.w].rest;
    SumUpdate(s.compressors, step.w, Apply(c, s, step).compressors[step.w], Owes());
    SumHead(rest, RawSize());
    SumConcat(s.saveQueue, [rest[0]], Payload());
    SumOne(rest[0], Payload());
  }

  lemma ReleaseBytes(c: Config, s: State, step: Step)
    requires Bytes(c, s) && Enabled(c, s, step) && (step.Release? || step.ReleaseFailed?)
    ensures Bytes(c, Apply(c, s, step))
  {
    ClampUnused(c, s, step);
    SumUpdate(s.compressors, step.w, Apply(c, s, step).compressors[step.w], Owes());
  }

  lemma CompressOwesSame(c: Config, s: State, w: nat, payloads: seq<nat>)
    requires Enabled(c, s, Compress(w, payloads))
    ensures Owes()(Apply(c, s, Compress(w, payloads)).compressors[w]) == Owes()(s.compressors[w])
  {
    PackSize(s.compressors[w].batch, payloads);
  }

  lemma ReportOwesSame(c: Config, s: State, w: nat)
    requires Enabled(c, s, ReportFailure(w))
    ensures Owes()(Apply(c, s, ReportFailure(w)).compressors[w]) == Owes()(s.compressors[w])
  {
    SumHead(s.compressors[w].failed, TaskSize());
  }

  lemma WorkerOwesSame(c: Config, s: State, step: Step)
    requires Enabled(c, s, step) && CompressionStep(step)
    requires !step.Take? && !step.Collect? && !step.Emit? && !step.Release? && !step.ReleaseFailed?
    ensures Owes()(Apply(c, s, step).compressors[step.w]) == Owes()(s.compressors[step.w])
  {
    if step.Compress? {
      CompressOwesSame(c, s, step.w, step.payloads);
    } else if step.ReportFailure? {
      ReportOwesSame(c, s, step.w);
    }
  }

  /** The other compression steps change neither a counter nor a queue. */
  lemma WorkerKeepsQueues(c: Config, s: State, step: Step)
    requires Enabled(c, s, step) && CompressionStep(step)
    requires !step.Take? && !step.Collect? && !step.Emit? && !step.Release? && !step.ReleaseFailed?
    ensures var s' := Apply(c, s, step);
            && s'.compressors == s.compressors[step.w := s'.compressors[step.w]]
            && s'.queue.bytes == s.queue.bytes && s'.queue.tasks == s.queue.tasks
            && s'.saveQueue == s.saveQueue && s'.saveBytes == s.saveBytes && s'.savers == s.savers
  {
  }

  lemma WorkerBytes(c: Config, s: State, step: Step)
    requires Bytes(c, s) && Enabled(c, s, step) && CompressionStep(step)
    requires !step.Take? && !step.Collect? && !step.Emit? && !step.Release? && !step.ReleaseFailed?
    ensures Bytes(c, Apply(c, s, step))
  {
    WorkerOwesSame(c, s, step);
    WorkerKeepsQueues(c, s, step);
    SumUpdate(s.compressors, step.w, Apply(c, s, step).compressors[step.w], Owes());
  }

  /** A save worker's step but the first leaves everything else alone and pays what it owed. */
  lemma SaverPays(c: Config, s: State, step: Step)
    requires Enabled(c, s, step) && SaveStep(step) && !step.StartSave?
    requires Subtracts(c, s, step).1 <= s.saveBytes
    ensures var s' := Apply(c, s, step); var v := step.v;
            && s'.queue == s.queue && s'.compressors == s.compressors && s'.saveQueue == s.saveQueue
            && v < |s.savers| == |s'.savers| && s'.savers == s.savers[v := s'.savers[v]]
            && s'.saveBytes + SaverOwes()(s.savers[v]) == s.saveBytes + SaverOwes()(s'.savers[v])
            && s'.saveBytes <= s.saveBytes
  {
  }

  lemma SaverBytes(c: Config, s: State, step: Step)
    requires Bytes(c, s) && Enabled(c, s, step) && SaveStep(step)
    ensures Bytes(c, Apply(c, s, step))
  {
    SumUpdate(s.savers, step.v, Apply(c, s, step).savers[step.v], SaverOwes());
    if step.StartSave? {
      SumHead(s.saveQueue, Payload());
    } else {
      ClampUnused(c, s, step);
      SaverPays(c, s, step);
    }
  }

  lemma StepKeepsBytes(c: Config, s: State, step: Step)
    requires Bytes(c, s) && Enabled(c, s, step)
    ensures Bytes(c, Apply(c, s, step))
  {
    if CallStep(step) {
      CallBytes(c, s, step);
    } else if step.Take? || step.Collect? {
      TakeBytes(c, s, step);
    } else if step.Emit? {
      EmitBytes(c, s, step);
    } else if step.Release? || step.ReleaseFailed? {
      ReleaseBytes(c, s, step);
    } else if CompressionStep(step) {
      WorkerBytes(c, s, step);
    } else if SaveStep(step) {
      SaverBytes(c, s, step);
    }
  }

  lemma InitBytes(c: Config)
    ensures Bytes(c, Init(c))
  {
    SumZero(Init(c).compressors, Owes());
    SumZero(Init(c).savers, SaverOwes());
  }

  /** Byte accounting stays exact and bounded over every run. */
  lemma {:induction false} RunKeepsBytes(c: Config, s: State, steps: seq<Step>)
    requires Bytes(c, s) && Run(c, s, steps)
    ensures Bytes(c, Exec(c, s, steps))
    decreases |steps|
  {
    if steps == [] {
    } else {
      StepKeepsBytes(c, s, steps[0]);
      RunKeepsBytes(c, Apply(c, s, steps[0]), steps[1..]);
    }
  }
}
