/** Termination, absence of deadlock, and what a shutdown leaves behind. */
module UploadProgress {
  import opened Totals
  import opened UploadLedger
  import opened RawQueue
  import opened UploadProtocol
  import opened UploadAccounts
  import opened UploadBytes
  import opened UploadGroups

  /** The order in which the two managers stop, as far as it is visible in a state. */
  ghost predicate Phases(s: State) {
    && (forall w :: 0 <= w < |s.compressors| && s.compressors[w].Exited? ==> s.queue.stopping && s.queue.tasks == [])
    && (s.saveStopping ==> s.queue.stopping && AllExited(s))
    && (forall v :: 0 <= v < |s.savers| && s.savers[v].SaverExited? ==> s.saveStopping && s.saveQueue == [])
  }

  ghost predicate Inv(c: Config, s: State) {
    && Accounts(s) && Bytes(c, s) && Groups(s) && Phases(s)
    && |s.compressors| == c.compressors && |s.savers| == c.savers
  }

  lemma StepKeepsPhases(c: Config, s: State, step: Step)
    requires Phases(s) && Enabled(c, s, step)
    ensures Phases(Apply(c, s, step))
    ensures var s' := Apply(c, s, step);
            |s'.compressors| == |s.compressors| && |s'.savers| == |s.savers|
  {
  }

  lemma StepKeepsInv(c: Config, s: State, step: Step)
    requires Inv(c, s) && Enabled(c, s, step)
    ensures Inv(c, Apply(c, s, step))
  {
    StepKeepsAccounts(c, s, step);
    StepKeepsBytes(c, s, step);
    StepKeepsGroups(c, s, step);
    StepKeepsPhases(c, s, step);
  }

  lemma InitInv(c: Config)
    ensures Inv(c, Init(c))
  {
    InitAccounts(c);
    InitBytes(c);
    InitGroups(c);
  }

  /** All invariants hold in every state of every run. */
  lemma {:induction false} RunKeepsInv(c: Config, s: State, steps: seq<Step>)
    requires Inv(c, s) && Run(c, s, steps)
    ensures Inv(c, Exec(c, s, steps))
    decreases |steps|
  {
    if steps == [] {
    } else {
      StepKeepsInv(c, s, steps[0]);
      RunKeepsInv(c, Apply(c, s, steps[0]), steps[1..]);
    }
  }

  // ---- Termination -----------------------------------------------------------------------------

  ghost function CallRank(): Call -> nat {
    (call: Call) =>
      match call
      case Notifying(_, _) => 22
      case Waiting(_) => 20
      case Blocked(_) => 19
      case _ => 0
  }

  ghost function CompressorRank(): Compressor -> nat {
    (pc: Compressor) =>
      match pc
      case Exited => 0
      case Idle => 1
      case Collecting(_, batch) => 2 + 11 * |batch|
      case Compressing(_, batch) => 2 + 10 * |batch|
      case Emitting(_, rest) => 2 + 8 * |rest|
      case Releasing(_, _, rest) => 3 + 8 * |rest|
      case Failing(_, failed) => 2 + 4 * |failed|
      case FailReleasing(_, _, failed) => 3 + 4 * |failed|
  }

  ghost function SaverRank(): Saver -> nat {
    (pc: Saver) =>
      match pc
      case SaverExited => 0
      case SaverIdle => 1
      case Succeeding(_) => 3
      case Reporting(_, _) => 4
      case Saving(_) => 5
  }

  /** How many more steps the threads can take before they all stop, at most. */
  ghost function Rank(s: State): nat {
    Sum(s.calls, CallRank()) + 14 * |s.queue.tasks| + Sum(s.compressors, CompressorRank())
    + 6 * |s.saveQueue| + Sum(s.savers, SaverRank())
    + (if s.queue.stopping then 0 else 1) + (if s.saveStopping then 0 else 1)
  }

  lemma {:induction false} SplitLength(q: seq<Task>, key: string)
    ensures |Matching(q, key)| + |Others(q, key)| == |q|
  {
    if q == [] {
    } else {
      SplitLength(q[..|q| - 1], key);
    }
  }

  lemma TakeLength(q: Queue)
    requires q.HasDispatchable()
    ensures |q.Batch()| + |q.AfterTake().tasks| == |q.tasks| && |q.Batch()| >= 1
  {
    BatchShape(q);
    FirstMeansFirst(q.tasks, q.active);
    SplitLength(q.tasks, q.NextKey());
  }

  lemma CallDescends(c: Config, s: State, step: Step)
    requires Enabled(c, s, step) && CallStep(step) && !step.Begin?
    ensures Rank(Apply(c, s, step)) < Rank(s)
  {
    SumUpdate(s.calls, step.c, Apply(c, s, step).calls[step.c], CallRank());
  }

  lemma TakeDescends(c: Config, s: State, step: Step)
    requires Enabled(c, s, step) && (step.Take? || step.Collect?) && Homogeneous(s.compressors[step.w])
    ensures Rank(Apply(c, s, step)) < Rank(s)
  {
    SumUpdate(s.compressors, step.w, Apply(c, s, step).compressors[step.w], CompressorRank());
    if step.Take? {
      TakeLength(s.queue);
    } else {
      SplitLength(s.queue.tasks, s.compressors[step.w].key);
    }
  }

  lemma CompressorDescends(c: Config, s: State, step: Step)
    requires Enabled(c, s, step) && CompressionStep(step) && Homogeneous(s.compressors[step.w])
    requires !step.Take? && !step.Collect?
    ensures Rank(Apply(c, s, step)) < Rank(s)
  {
    WorkerFrame(c, s, step);
    SumUpdate(s.compressors, step.w, Apply(c, s, step).compressors[step.w], CompressorRank());
  }

  /** The compression steps after the dispatch touch the save queue at most by one new item. */
  lemma WorkerFrame(c: Config, s: State, step: Step)
    requires Enabled(c, s, step) && CompressionStep(step) && Homogeneous(s.compressors[step.w])
    requires !step.Take? && !step.Collect?
    ensures var s' := Apply(c, s, step); var pc' := s'.compressors[step.w];
            && s'.calls == s.calls && s'.savers == s.savers && s'.queue.tasks == s.queue.tasks
            && s'.queue.stopping == s.queue.stopping && s'.saveStopping == s.saveStopping
            && |s'.saveQueue| == |s.saveQueue| + (if step.Emit? then 1 else 0)
            && s'.compressors == s.compressors[step.w := pc']
            && CompressorRank()(pc') + (if step.Emit? then 6 else 0) < CompressorRank()(s.compressors[step.w])
  {
  }

  lemma SaverDescends(c: Config, s: State, step: Step)
    requires Enabled(c, s, step) && SaveStep(step)
    ensures Rank(Apply(c, s, step)) < Rank(s)
  {
    SumUpdate(s.savers, step.v, Apply(c, s, step).savers[step.v], SaverRank());
  }

  lemma BeginAscends(c: Config, s: State, step: Step)
    requires Enabled(c, s, step) && step.Begin?
    ensures Rank(Apply(c, s, step)) <= Rank(s) + 20
  {
    var s' := Apply(c, s, step);
    if |s'.calls| > |s.calls| {
      SumConcat(s.calls, [s'.calls[|s.calls|]], CallRank());
      SumOne(s'.calls[|s.calls|], CallRank());
    }
  }

  ghost function Begins(steps: seq<Step>): nat {
    if steps == [] then 0 else (if steps[0].Begin? then 1 else 0) + Begins(steps[1..])
  }

  /** A run with k submits takes at most Rank + 21 k steps: with finitely many submits every run
      ends. */
  lemma {:induction false} RunsAreFinite(c: Config, s: State, steps: seq<Step>)
    requires Inv(c, s) && Run(c, s, steps)
    ensures |steps| + Rank(Exec(c, s, steps)) <= Rank(s) + 21 * Begins(steps)
    decreases |steps|
  {
    if steps == [] {
    } else {
      var step := steps[0];
      if step.Begin? {
        BeginAscends(c, s, step);
      } else if CallStep(step) {
        CallDescends(c, s, step);
      } else if step.Take? || step.Collect? {
        TakeDescends(c, s, step);
      } else if CompressionStep(step) {
        CompressorDescends(c, s, step);
      } else if SaveStep(step) {
        SaverDescends(c, s, step);
      }
      StepKeepsInv(c, s, step);
      RunsAreFinite(c, Apply(c, s, step), steps[1..]);
    }
  }

  // ---- Absence of deadlock ---------------------------------------------------------------------

  predicate CallDone(call: Call) {
    call.Returned? || call.Rejected?
  }

  /** No thread sleeps on a capacity it can never get. */
  ghost predicate Fits(c: Config, s: State) {
    && (c.rawLimit > 0 ==>
          forall i :: 0 <= i < |s.calls| && s.calls[i].Blocked? ==> s.calls[i].task.size <= c.rawLimit)
    && (c.saveLimit > 0 ==>
          forall w :: 0 <= w < |s.compressors| && s.compressors[w].Emitting? && s.compressors[w].rest != []
                      ==> s.compressors[w].rest[0].payload <= c.saveLimit)
  }

  predicate SaverDone(pc: Saver) {
    pc.SaverIdle? || pc.SaverExited?
  }

  /** Nothing is left to do. */
  ghost predicate Quiescent(s: State) {
    && (forall i :: 0 <= i < |s.calls| ==> CallDone(s.calls[i]))
    && s.queue.tasks == []
    && (forall w :: 0 <= w < |s.compressors| ==> !Busy(s.compressors[w]))
    && s.saveQueue == []
    && (forall v :: 0 <= v < |s.savers| ==> SaverDone(s.savers[v]))
  }

  /** A step of a thread that already runs: no new submit, no shutdown. */
  predicate Internal(step: Step) {
    !step.Begin? && !step.StopCompression? && !step.StopStorage?
  }

  lemma SaverMoves(c: Config, s: State, v: nat) returns (step: Step)
    requires v < |s.savers| && !SaverDone(s.savers[v])
    ensures Enabled(c, s, step) && Internal(step)
  {
    step := match s.savers[v]
            case Saving(_) => EndSave(v, true)
            case Reporting(_, _) => Report(v, "")
            case _ => Succeed(v);
  }

  /** While something is queued or being saved, some save worker can move. */
  lemma StorageMoves(c: Config, s: State) returns (step: Step)
    requires Inv(c, s) && c.savers > 0 && (s.saveBytes > 0 || s.saveQueue != [])
    ensures Enabled(c, s, step) && Internal(step)
  {
    if v :| 0 <= v < |s.savers| && !SaverDone(s.savers[v]) {
      step := SaverMoves(c, s, v);
    } else {
      forall v | 0 <= v < |s.savers| ensures SaverOwes()(s.savers[v]) == 0 {
        assert SaverDone(s.savers[v]);
      }
      SumZero(s.savers, SaverOwes());
      assert s.saveQueue != [];
      assert SaverDone(s.savers[0]);
      step := StartSave(0);
    }
  }

  /** A busy compression worker can move, or some save worker can. */
  lemma CompressorMoves(c: Config, s: State, w: nat) returns (step: Step)
    requires Inv(c, s) && Fits(c, s) && c.savers > 0
    requires w < |s.compressors| && Busy(s.compressors[w])
    ensures Enabled(c, s, step) && Internal(step)
  {
    match s.compressors[w]
    case Collecting(_, _) => step := Collect(w, true);
    case Compressing(_, _) => step := Fail(w);
    case Releasing(_, _, _) => step := Release(w);
    case FailReleasing(_, _, _) => step := ReleaseFailed(w);
    case Failing(_, failed) =>
      step := if failed == [] then FinishBatch(w) else ReportFailure(w);
    case Emitting(_, rest) =>
      if rest == [] {
        step := FinishBatch(w);
      } else if SaveRoom(c, s, rest[0].payload) {
        step := Emit(w);
      } else {
        step := StorageMoves(c, s);
      }
  }

  /** While raw bytes are charged or tasks are queued, some worker can move. */
  lemma CompressionMoves(c: Config, s: State) returns (step: Step)
    requires Inv(c, s) && Fits(c, s) && c.savers > 0 && c.compressors > 0
    requires s.queue.bytes > 0 || s.queue.tasks != []
    ensures Enabled(c, s, step) && Internal(step)
  {
    if w :| 0 <= w < |s.compressors| && Busy(s.compressors[w]) {
      step := CompressorMoves(c, s, w);
    } else {
      SumZero(s.compressors, Owes());
      assert s.queue.tasks != [];
      AllIdleMeansDispatchable(s);
      assert !Busy(s.compressors[0]);
      step := Take(0, true);
    }
  }

  lemma AllIdleMeansDispatchable(s: State)
    requires Exclusive(s) && s.queue.tasks != []
    requires forall w :: 0 <= w < |s.compressors| ==> !Busy(s.compressors[w])
    ensures s.queue.HasDispatchable()
  {
    var t := s.queue.tasks[0];
    SumZero(s.compressors, HasKey(t.group));
    assert Dispatchable(t, s.queue.active);
  }

  /** No deadlock: as long as anything is left to do, a running thread can take a step. */
  lemma Progress(c: Config, s: State) returns (step: Step)
    requires Inv(c, s) && Fits(c, s) && c.compressors > 0 && c.savers > 0 && !Quiescent(s)
    ensures Enabled(c, s, step) && Internal(step)
  {
    if i :| 0 <= i < |s.calls| && !CallDone(s.calls[i]) {
      if s.calls[i].Notifying? {
        step := Notify(i);
      } else if s.queue.HasRoom(c.rawLimit, s.calls[i].task.size) {
        step := if s.queue.stopping then Reject(i) else Enqueue(i);
      } else if s.calls[i].Blocked? {
        step := CompressionMoves(c, s);
      } else if s.queue.tasks != [] {
        step := Evict(i);
      } else {
        step := if s.queue.stopping then Reject(i) else Block(i);
      }
    } else if s.queue.tasks != [] {
      step := CompressionMoves(c, s);
    } else if w :| 0 <= w < |s.compressors| && Busy(s.compressors[w]) {
      step := CompressorMoves(c, s, w);
    } else if v :| 0 <= v < |s.savers| && !SaverDone(s.savers[v]) {
      step := SaverMoves(c, s, v);
    } else {
      step := StorageMoves(c, s);
    }
  }

  /** A run that no running thread can continue has nothing left to do, except if a submit or a
      payload larger than its limit sleeps. */
  lemma MaximalRunsEndQuiescent(c: Config, steps: seq<Step>)
    requires Run(c, Init(c), steps) && c.compressors > 0 && c.savers > 0
    requires forall step :: Internal(step) ==> !Enabled(c, Exec(c, Init(c), steps), step)
    ensures Quiescent(Exec(c, Init(c), steps)) <==> Fits(c, Exec(c, Init(c), steps))
  {
    InitInv(c);
    RunKeepsInv(c, Init(c), steps);
    var s := Exec(c, Init(c), steps);
    if Fits(c, s) && !Quiescent(s) {
      var step := Progress(c, s);
    }
  }

  // ---- Which runs fit --------------------------------------------------------------------------

  predicate FitsRaw(c: Config, size: nat) {
    c.rawLimit == 0 || size <= c.rawLimit
  }

  predicate FitsSave(c: Config, payload: nat) {
    c.saveLimit == 0 || payload <= c.saveLimit
  }

  /** The step submits no task and builds no payload larger than its queue. */
  ghost predicate SmallStep(c: Config, step: Step) {
    && (step.Begin? ==> FitsRaw(c, step.size))
    && (step.Compress? ==> forall p :: p in step.payloads ==> FitsSave(c, p))
  }

  ghost predicate SmallCall(c: Config, call: Call) {
    CallDone(call) || FitsRaw(c, call.task.size)
  }

  ghost predicate SmallWorker(c: Config, pc: Compressor) {
    pc.Emitting? || pc.Releasing? ==> forall p :: p in pc.rest ==> FitsSave(c, p.payload)
  }

  ghost predicate AllSmall(c: Config, s: State) {
    && (forall i :: 0 <= i < |s.calls| ==> SmallCall(c, s.calls[i]))
    && (forall w :: 0 <= w < |s.compressors| ==> SmallWorker(c, s.compressors[w]))
  }

  lemma StepKeepsSmall(c: Config, s: State, step: Step)
    requires Enabled(c, s, step) && SmallStep(c, step) && AllSmall(c, s)
    ensures AllSmall(c, Apply(c, s, step))
  {
  }

  /** If every submit and every payload of a run fits its queue, no thread sleeps for ever. */
  lemma {:induction false} SmallRunsFit(c: Config, s: State, steps: seq<Step>)
    requires Run(c, s, steps) && AllSmall(c, s) && forall step :: step in steps ==> SmallStep(c, step)
    ensures AllSmall(c, Exec(c, s, steps)) && Fits(c, Exec(c, s, steps))
    decreases |steps|
  {
    if steps == [] {
      assert Exec(c, s, steps) == s;
    } else {
      StepKeepsSmall(c, s, steps[0]);
      SmallRunsFit(c, Apply(c, s, steps[0]), steps[1..]);
    }
  }

  lemma QuietCalls(c: Config, s: State, step: Step)
    requires Enabled(c, s, step) && (CompressionStep(step) || SaveStep(step))
    ensures Apply(c, s, step).calls == s.calls && Apply(c, s, step).queue.stopping == s.queue.stopping
  {
  }

  /** A submit larger than the raw limit never returns, whatever the run: it evicts, sleeps or is
      thrown out by a shutdown. */
  lemma {:induction false} OversizeNeverReturns(c: Config, s: State, steps: seq<Step>, i: nat)
    requires Run(c, s, steps) && i < |s.calls| && !s.calls[i].Returned? && !FitsRaw(c, s.calls[i].task.size)
    ensures var s' := Exec(c, s, steps);
            && i < |s'.calls| && !s'.calls[i].Returned? && s'.calls[i].task == s.calls[i].task
            && (s'.calls[i].Rejected? ==> s'.queue.stopping || s.calls[i].Rejected?)
    decreases |steps|
  {
    if steps == [] {
      assert Exec(c, s, steps) == s;
    } else {
      OversizeStep(c, s, steps[0], i);
      OversizeNeverReturns(c, Apply(c, s, steps[0]), steps[1..], i);
      if Apply(c, s, steps[0]).queue.stopping {
        StoppingStays(c, Apply(c, s, steps[0]), steps[1..]);
      }
    }
  }

  lemma OversizeStep(c: Config, s: State, step: Step, i: nat)
    requires Enabled(c, s, step) && i < |s.calls| && !s.calls[i].Returned? && !FitsRaw(c, s.calls[i].task.size)
    ensures var s' := Apply(c, s, step);
            && i < |s'.calls| && !s'.calls[i].Returned? && s'.calls[i].task == s.calls[i].task
            && (s'.calls[i].Rejected? ==> s'.queue.stopping || s.calls[i].Rejected?)
  {
    if CompressionStep(step) || SaveStep(step) {
      QuietCalls(c, s, step);
    }
  }

  lemma {:induction false} StoppingStays(c: Config, s: State, steps: seq<Step>)
    requires Run(c, s, steps) && s.queue.stopping
    ensures Exec(c, s, steps).queue.stopping
    decreases |steps|
  {
    if steps == [] {
      assert Exec(c, s, steps) == s;
    } else {
      if CompressionStep(steps[0]) || SaveStep(steps[0]) {
        QuietCalls(c, s, steps[0]);
      }
      StoppingStays(c, Apply(c, s, steps[0]), steps[1..]);
    }
  }

  /** The worker has to hand over a payload larger than the save limit next. */
  predicate Stuck(c: Config, pc: Compressor) {
    pc.Emitting? && pc.rest != [] && !FitsSave(c, pc.rest[0].payload)
  }

  lemma StuckStep(c: Config, s: State, step: Step, w: nat)
    requires Enabled(c, s, step) && w < |s.compressors| && Stuck(c, s.compressors[w])
    ensures var s' := Apply(c, s, step);
            w < |s'.compressors| && s'.compressors[w] == s.compressors[w]
  {
  }

  /** A payload larger than the save limit blocks its worker for ever: on every run the worker stays
      where it is, its group stays active and the storage manager is never stopped. */
  lemma {:induction false} OversizePayloadBlocks(c: Config, s: State, steps: seq<Step>, w: nat)
    requires Inv(c, s) && Run(c, s, steps) && w < |s.compressors| && Stuck(c, s.compressors[w])
    ensures var s' := Exec(c, s, steps); var key := s.compressors[w].key;
            && w < |s'.compressors| && s'.compressors[w] == s.compressors[w]
            && (key != "" ==> key in s'.queue.active) && !s'.saveStopping && !Quiescent(s')
    decreases |steps|
  {
    if steps == [] {
      assert Busy(s.compressors[w]);
      if s.compressors[w].key != "" {
        OneWorkerPerGroup(s, w, w);
      }
    } else {
      StuckStep(c, s, steps[0], w);
      StepKeepsInv(c, s, steps[0]);
      OversizePayloadBlocks(c, Apply(c, s, steps[0]), steps[1..], w);
    }
  }

  // ---- What a shutdown leaves behind -----------------------------------------------------------

  lemma QuiescentHoldsNothing(s: State, id: Id)
    requires Quiescent(s)
    ensures Live(s, id) == 0
  {
    SumZero(s.calls, InCall(id));
    SumZero(s.compressors, InCompressor(id));
    SumZero(s.savers, InSaver(id));
  }

  /** When both managers have stopped and every submit call has returned or thrown: the queues are
      empty, both counters are zero, no group is active, every version handed out has ended
      exactly once, except those of the calls that threw, which are still pending. */
  lemma AfterShutdown(c: Config, steps: seq<Step>)
    requires Run(c, Init(c), steps)
    requires var s := Exec(c, Init(c), steps);
             && AllExited(s) && (forall v :: 0 <= v < |s.savers| ==> s.savers[v].SaverExited?)
             && (forall i :: 0 <= i < |s.calls| ==> CallDone(s.calls[i]))
             && c.compressors > 0 && c.savers > 0
    ensures var s := Exec(c, Init(c), steps);
            && s.queue.tasks == [] && s.saveQueue == []
            && s.queue.bytes == 0 && s.saveBytes == 0 && s.queue.active == {}
            && (forall id: Id ::
                  && In(s.ledger.pending, id) == Orphaned(s, id)
                  && Sum(s.history.ended, InEnded(id)) + Orphaned(s, id) == Issued(s.ledger.versions, id))
            && (s.ledger.pending == map[] <==> forall i :: 0 <= i < |s.calls| ==> s.calls[i].Returned?)
  {
    InitInv(c);
    RunKeepsInv(c, Init(c), steps);
    var s := Exec(c, Init(c), steps);
    assert s.compressors[0].Exited? && s.savers[0].SaverExited?;
    forall id: Id ensures In(s.ledger.pending, id) == Orphaned(s, id) {
      QuiescentHoldsNothing(s, id);
    }
    SumZero(s.compressors, Owes());
    SumZero(s.savers, SaverOwes());
    ExitedMeansInactive(s);
    PendingMeansThrown(s);
  }

  lemma ExitedMeansInactive(s: State)
    requires Exclusive(s) && AllExited(s)
    ensures s.queue.active == {}
  {
    forall key: string ensures key !in s.queue.active {
      SumZero(s.compressors, HasKey(key));
    }
  }

  lemma PendingMeansThrown(s: State)
    requires forall id: Id :: In(s.ledger.pending, id) == Orphaned(s, id)
    requires forall i :: 0 <= i < |s.calls| ==> CallDone(s.calls[i])
    ensures s.ledger.pending == map[] <==> forall i :: 0 <= i < |s.calls| ==> s.calls[i].Returned?
  {
    if i :| 0 <= i < |s.calls| && !s.calls[i].Returned? {
      var id := IdOf(s.calls[i].task);
      SumUpdate(s.calls, i, Returned, InRejected(id));
      assert In(s.ledger.pending, id) == Orphaned(s, id);
      assert id.0 in s.ledger.pending;
    } else {
      forall p: string ensures p !in s.ledger.pending {
        var id := (p, if p in s.ledger.pending then s.ledger.pending[p] else 0);
        SumZero(s.calls, InRejected(id));
        assert In(s.ledger.pending, id) == Orphaned(s, id);
      }
    }
  }

  /** Once compression is stopping, a submit call that has not enqueued yet never will: it is
      still inside Enqueue or it threw. */
  lemma {:induction false} LateSubmitIsLost(c: Config, s: State, steps: seq<Step>, i: nat)
    requires Run(c, s, steps) && s.queue.stopping && i < |s.calls| && !s.calls[i].Returned?
    ensures var s' := Exec(c, s, steps);
            && i < |s'.calls| && !s'.calls[i].Returned? && s'.calls[i].task == s.calls[i].task
            && s'.queue.stopping
    decreases |steps|
  {
    if steps == [] {
    } else {
      LateSubmitStep(c, s, steps[0], i);
      LateSubmitIsLost(c, Apply(c, s, steps[0]), steps[1..], i);
    }
  }

  lemma LateSubmitStep(c: Config, s: State, step: Step, i: nat)
    requires Enabled(c, s, step) && s.queue.stopping && i < |s.calls| && !s.calls[i].Returned?
    ensures var s' := Apply(c, s, step);
            && i < |s'.calls| && !s'.calls[i].Returned? && s'.calls[i].task == s.calls[i].task
            && s'.queue.stopping
  {
    if CompressionStep(step) || SaveStep(step) {
      QuietCalls(c, s, step);
    }
  }

  lemma Prepend(c: Config, s: State, step: Step, rest: seq<Step>) returns (steps: seq<Step>)
    requires Enabled(c, s, step) && Run(c, Apply(c, s, step), rest)
    ensures Run(c, s, steps) && Exec(c, s, steps) == Exec(c, Apply(c, s, step), rest)
  {
    steps := [step] + rest;
    assert steps[1..] == rest;
  }

  /** With one idle worker on each side and empty queues, a stopping pipeline shuts down. */
  lemma ShutDownIdle(c: Config, s: State) returns (steps: seq<Step>)
    requires s.compressors == [Idle] && s.savers == [SaverIdle] && s.queue.stopping && !s.saveStopping
    requires s.queue.tasks == [] && s.saveQueue == []
    ensures Run(c, s, steps) && AllExited(Exec(c, s, steps)) && Exec(c, s, steps).savers == [SaverExited]
    ensures Exec(c, s, steps).ledger == s.ledger
  {
    var s1 := Apply(c, s, Exit(0));
    var s2 := Apply(c, s1, StopStorage);
    var e2 := Prepend(c, s2, ExitSaver(0), []);
    var e1 := Prepend(c, s1, StopStorage, e2);
    steps := Prepend(c, s, Exit(0), e1);
    assert Apply(c, s2, ExitSaver(0)).savers == [SaverExited];
  }

  /** The concrete loss: a submit between taking its version and entering the queue when the
      manager stops leaves its path pending after a complete shutdown. */
  lemma ShutdownCanLoseASubmit(path: string, size: nat) returns (steps: seq<Step>)
    ensures var c := Config(0, 0, 1, 1);
            && Run(c, Init(c), steps)
            && AllExited(Exec(c, Init(c), steps)) && Exec(c, Init(c), steps).savers == [SaverExited]
            && path in Exec(c, Init(c), steps).ledger.pending
  {
    var c := Config(0, 0, 1, 1);
    var s0 := Init(c);
    var submit := Begin(path, "", size, false);
    var s1 := Apply(c, s0, submit);
    var s2 := Apply(c, s1, StopCompression);
    var s3 := Apply(c, s2, Reject(0));
    assert s0.compressors == [Idle] && s0.savers == [SaverIdle];
    var e3 := ShutDownIdle(c, s3);
    var e2 := Prepend(c, s2, Reject(0), e3);
    var e1 := Prepend(c, s1, StopCompression, e2);
    steps := Prepend(c, s0, submit, e1);
  }

  /** A path lost that way stays pending for ever, so every later submit of it is dropped. */
  lemma {:induction false} LostPathStaysPending(c: Config, s: State, steps: seq<Step>, id: Id)
    requires Inv(c, s) && Run(c, s, steps) && Orphaned(s, id) > 0
    ensures var s' := Exec(c, s, steps);
            && Orphaned(s', id) > 0 && In(s'.ledger.pending, id) == 1
            && s'.ledger.Duplicate(id.0) && !s'.ledger.Contains(id.0)
    decreases |steps|
  {
    if steps != [] {
      OrphansStay(c, s, steps[0], id);
      StepKeepsInv(c, s, steps[0]);
      LostPathStaysPending(c, Apply(c, s, steps[0]), steps[1..], id);
    } else {
      assert Live(s, id) + Orphaned(s, id) == In(s.ledger.pending, id);
    }
  }

  lemma OrphansStay(c: Config, s: State, step: Step, id: Id)
    requires Enabled(c, s, step)
    ensures Orphaned(Apply(c, s, step), id) >= Orphaned(s, id)
  {
    if step.Begin? {
      var s' := Apply(c, s, step);
      if |s'.calls| > |s.calls| {
        SumConcat(s.calls, [s'.calls[|s.calls|]], InRejected(id));
      }
    } else if CallStep(step) {
      SumUpdate(s.calls, step.c, Apply(c, s, step).calls[step.c], InRejected(id));
    } else if CompressionStep(step) || SaveStep(step) {
      QuietCalls(c, s, step);
    }
  }

  // ---- What callers see ------------------------------------------------------------------------

  /** At most one live task per path, and then it is the current version. */
  lemma OneTaskPerPath(c: Config, s: State, a: Id, b: Id)
    requires Inv(c, s)
    ensures Live(s, a) <= 1
    ensures Live(s, a) > 0 ==> a.0 in s.ledger.pending && s.ledger.pending[a.0] == a.1 == s.ledger.versions[a.0]
    ensures Live(s, a) > 0 && Live(s, b) > 0 && a.0 == b.0 ==> a == b
    ensures In(s.ledger.pending, a) == 1 && Orphaned(s, a) == 0 ==> Live(s, a) == 1
  {
    assert Live(s, a) + Orphaned(s, a) == In(s.ledger.pending, a);
    assert Live(s, b) + Orphaned(s, b) == In(s.ledger.pending, b);
  }

  /** Once a path is uploaded it stays uploaded at that version, without an error, and its success
      callback fires at most once over the whole run. */
  lemma {:induction false} UploadedForever(c: Config, s: State, steps: seq<Step>, path: string)
    requires Inv(c, s) && Run(c, s, steps) && s.ledger.Contains(path)
    ensures var s' := Exec(c, s, steps);
            && s'.ledger.Contains(path) && path !in s'.ledger.errors && path !in s'.ledger.pending
            && s'.ledger.versions[path] == s.ledger.versions[path]
    decreases |steps|
  {
    if steps == [] {
    } else {
      var s' := Apply(c, s, steps[0]);
      StepKeepsInv(c, s, steps[0]);
      StepMovesLedger(c, s, steps[0]);
      var id := (path, s.ledger.versions[path]);
      assert In(s.ledger.uploaded, id) == 1 && In(s'.ledger.uploaded, id) == 1;
      UploadedForever(c, s', steps[1..], path);
    }
  }

  /** The success callback of a path fires at most once, for at most one version. */
  lemma CallbackAtMostOnce(c: Config, s: State, a: Id, b: Id)
    requires Inv(c, s) && a.0 == b.0
    ensures Sum(s.history.fired, InFired(a)) <= 1
    ensures Sum(s.history.fired, InFired(a)) == 1 && Sum(s.history.fired, InFired(b)) == 1 ==> a == b
    ensures Sum(s.history.fired, InFired(a)) == 1 ==> s.ledger.Contains(a.0) && s.ledger.uploaded[a.0] == a.1
  {
    assert Sum(s.history.fired, InFired(a)) + Sum(s.savers, InOwed(a)) == In(s.ledger.uploaded, a);
    assert Sum(s.history.fired, InFired(b)) + Sum(s.savers, InOwed(b)) == In(s.ledger.uploaded, b);
  }
}
