/** Conservation of submitted versions: where every version is at every moment of every run. */
module UploadAccounts {
  import opened Totals
  import opened UploadLedger
  import opened RawQueue
  import opened UploadProtocol

  ghost function Is(id: Id, t: Task): nat {
    if IdOf(t) == id then 1 else 0
  }

  // How often a version occurs in a task, a call, a worker.

  ghost function InTask(id: Id): Task -> nat {
    (t: Task) => Is(id, t)
  }

  ghost function InPacked(id: Id): Packed -> nat {
    (p: Packed) => Is(id, p.raw)
  }

  ghost function InCall(id: Id): Call -> nat {
    (call: Call) =>
      match call
      case Waiting(t) => Is(id, t)
      case Blocked(t) => Is(id, t)
      case Notifying(t, victim) => Is(id, t) + Is(id, victim)
      case Returned => 0
      case Rejected(_) => 0
  }

  ghost function InRejected(id: Id): Call -> nat {
    (call: Call) => if call.Rejected? then Is(id, call.task) else 0
  }

  ghost function InCompressor(id: Id): Compressor -> nat {
    (pc: Compressor) =>
      match pc
      case Idle => 0
      case Exited => 0
      case Collecting(_, batch) => Sum(batch, InTask(id))
      case Compressing(_, batch) => Sum(batch, InTask(id))
      case Emitting(_, rest) => Sum(rest, InPacked(id))
      case Releasing(_, _, rest) => Sum(rest, InPacked(id))
      case Failing(_, failed) => Sum(failed, InTask(id))
      case FailReleasing(_, _, failed) => Sum(failed, InTask(id))
  }

  ghost function InSaver(id: Id): Saver -> nat {
    (pc: Saver) => if pc.Saving? || pc.Reporting? then Is(id, pc.item.raw) else 0
  }

  /** How many copies of a version the calls, queues and workers still hold. */
  ghost function Live(s: State, id: Id): nat {
    Sum(s.calls, InCall(id)) + Sum(s.queue.tasks, InTask(id)) + Sum(s.compressors, InCompressor(id))
    + Sum(s.saveQueue, InPacked(id)) + Sum(s.savers, InSaver(id))
  }

  /** How many submit calls threw while holding a version. */
  ghost function Orphaned(s: State, id: Id): nat {
    Sum(s.calls, InRejected(id))
  }

  // ---- How one step moves tasks ----------------------------------------------------------------

  ghost function Born(s: State, step: Step, id: Id): nat {
    if step.Begin? && !s.ledger.Duplicate(step.path) && !step.overRss
       && id == (step.path, s.ledger.NextVersion(step.path)) then 1 else 0
  }

  /** The task whose fate a step settles, if any. */
  ghost predicate Finishes(c: Config, s: State, step: Step, id: Id)
    requires Enabled(c, s, step)
  {
    match step
    case Notify(i) => IdOf(s.calls[i].victim) == id
    case ReportFailure(w) => IdOf(s.compressors[w].failed[0]) == id
    case Report(v, _) => IdOf(s.savers[v].item.raw) == id
    case _ => false
  }

  ghost function Finished(c: Config, s: State, step: Step, id: Id): nat
    requires Enabled(c, s, step)
  {
    if Finishes(c, s, step, id) then 1 else 0
  }

  predicate CallStep(step: Step) {
    step.Begin? || step.Enqueue? || step.Evict? || step.Notify? || step.Block? || step.Reject?
  }

  lemma BeginMoves(c: Config, s: State, step: Step, id: Id)
    requires Enabled(c, s, step) && step.Begin?
    ensures var s' := Apply(c, s, step);
            && Live(s', id) == Live(s, id) + Born(s, step, id) && Orphaned(s', id) == Orphaned(s, id)
  {
    if !s.ledger.Duplicate(step.path) && !step.overRss {
      var t := Task(step.path, s.ledger.NextVersion(step.path),
                    DispatchGroupKey(step.groupUuid, step.path), step.size);
      SumConcat(s.calls, [Waiting(t)], InCall(id));
      SumConcat(s.calls, [Waiting(t)], InRejected(id));
      SumOne(Waiting(t), InCall(id));
      SumOne(Waiting(t), InRejected(id));
    }
  }

  lemma CallsMove(c: Config, s: State, step: Step, id: Id)
    requires Enabled(c, s, step) && CallStep(step)
    ensures var s' := Apply(c, s, step);
            && Live(s', id) + Orphaned(s', id) + Finished(c, s, step, id)
               == Live(s, id) + Orphaned(s, id) + Born(s, step, id)
            && Finished(c, s, step, id) <= Live(s, id)
  {
    if step.Begin? {
      BeginMoves(c, s, step, id);
    } else {
      var i := step.c;
      var call := Apply(c, s, step).calls[i];
      SumUpdate(s.calls, i, call, InCall(id));
      SumUpdate(s.calls, i, call, InRejected(id));
      if step.Enqueue? {
        SumConcat(s.queue.tasks, [s.calls[i].task], InTask(id));
        SumOne(s.calls[i].task, InTask(id));
      } else if step.Evict? {
        SumHead(s.queue.tasks, InTask(id));
      }
    }
  }

  lemma {:induction false} PackCount(batch: seq<Task>, payloads: seq<nat>, id: Id)
    requires |batch| == |payloads|
    ensures Sum(Pack(batch, payloads), InPacked(id)) == Sum(batch, InTask(id))
  {
    if batch == [] {
    } else {
      var n := |batch| - 1;
      PackCount(batch[..n], payloads[..n], id);
      var packed := Pack(batch, payloads);
      assert packed[..n] == Pack(batch[..n], payloads[..n]);
    }
  }

  predicate CompressionStep(step: Step) {
    step.Take? || step.Collect? || step.Compress? || step.Fail? || step.Emit? || step.Release?
    || step.ReportFailure? || step.ReleaseFailed? || step.FinishBatch? || step.Exit?
  }

  lemma TakeMoves(c: Config, s: State, step: Step, id: Id)
    requires Enabled(c, s, step) && (step.Take? || step.Collect?)
    ensures Live(Apply(c, s, step), id) == Live(s, id) && Apply(c, s, step).calls == s.calls
  {
    var w := step.w;
    var pc := s.compressors[w];
    SumUpdate(s.compressors, w, Apply(c, s, step).compressors[w], InCompressor(id));
    if step.Take? {
      TakeConserves(s.queue, InTask(id));
    } else {
      SplitSum(s.queue.tasks, pc.key, InTask(id));
      SumConcat(pc.batch, Matching(s.queue.tasks, pc.key), InTask(id));
    }
  }

  lemma EmitMoves(c: Config, s: State, step: Step, id: Id)
    requires Enabled(c, s, step) && step.Emit?
    ensures Live(Apply(c, s, step), id) == Live(s, id) && Apply(c, s, step).calls == s.calls
  {
    var rest := s.compressors[step.w].rest;
    SumUpdate(s.compressors, step.w, Apply(c, s, step).compressors[step.w], InCompressor(id));
    SumHead(rest, InPacked(id));
    SumConcat(s.saveQueue, [rest[0]], InPacked(id));
    SumOne(rest[0], InPacked(id));
  }

  lemma ReportFailureMoves(c: Config, s: State, step: Step, id: Id)
    requires Enabled(c, s, step) && step.ReportFailure?
    ensures Live(Apply(c, s, step), id) + Finished(c, s, step, id) == Live(s, id)
    ensures Apply(c, s, step).calls == s.calls
  {
    SumUpdate(s.compressors, step.w, Apply(c, s, step).compressors[step.w], InCompressor(id));
    SumHead(s.compressors[step.w].failed, InTask(id));
  }

  /** The other compression steps change neither what a worker holds nor any queue. */
  lemma WorkerMoves(c: Config, s: State, step: Step, id: Id)
    requires Enabled(c, s, step) && CompressionStep(step)
    requires !step.Take? && !step.Collect? && !step.Emit? && !step.ReportFailure?
    ensures Live(Apply(c, s, step), id) == Live(s, id) && Apply(c, s, step).calls == s.calls
  {
    var pc' := Apply(c, s, step).compressors[step.w];
    SumUpdate(s.compressors, step.w, pc', InCompressor(id));
    if step.Compress? {
      PackCount(s.compressors[step.w].batch, step.payloads, id);
    }
    assert InCompressor(id)(pc') == InCompressor(id)(s.compressors[step.w]);
  }

  predicate SaveStep(step: Step) {
    step.StartSave? || step.EndSave? || step.Report? || step.Succeed? || step.ExitSaver?
  }

  lemma StartSaveMoves(c: Config, s: State, step: Step, id: Id)
    requires Enabled(c, s, step) && step.StartSave?
    ensures Live(Apply(c, s, step), id) == Live(s, id)
  {
    SumUpdate(s.savers, step.v, Saving(s.saveQueue[0]), InSaver(id));
    SumHead(s.saveQueue, InPacked(id));
  }

  lemma SaverFrame(c: Config, s: State, step: Step, id: Id)
    requires Enabled(c, s, step) && SaveStep(step) && !step.StartSave?
    ensures var s' := Apply(c, s, step); var v := step.v;
            && v < |s.savers| == |s'.savers| && s'.savers == s.savers[v := s'.savers[v]]
            && InSaver(id)(s'.savers[v]) + Finished(c, s, step, id) == InSaver(id)(s.savers[v])
            && s'.calls == s.calls && s'.queue == s.queue && s'.compressors == s.compressors
            && s'.saveQueue == s.saveQueue
  {
  }

  lemma SaversMove(c: Config, s: State, step: Step, id: Id)
    requires Enabled(c, s, step) && SaveStep(step)
    ensures var s' := Apply(c, s, step);
            && Live(s', id) + Finished(c, s, step, id) == Live(s, id)
            && s'.calls == s.calls
  {
    if step.StartSave? {
      StartSaveMoves(c, s, step, id);
    } else {
      SaverFrame(c, s, step, id);
      SumUpdate(s.savers, step.v, Apply(c, s, step).savers[step.v], InSaver(id));
    }
  }

  /** One step only moves a task, starts one or finishes one. */
  lemma StepMoves(c: Config, s: State, step: Step, id: Id)
    requires Enabled(c, s, step)
    ensures var s' := Apply(c, s, step);
            && Live(s', id) + Orphaned(s', id) + Finished(c, s, step, id)
               == Live(s, id) + Orphaned(s, id) + Born(s, step, id)
            && Finished(c, s, step, id) <= Live(s, id)
  {
    if step.Take? || step.Collect? {
      TakeMoves(c, s, step, id);
    } else if step.Emit? {
      EmitMoves(c, s, step, id);
    } else if step.ReportFailure? {
      ReportFailureMoves(c, s, step, id);
    } else if CompressionStep(step) {
      WorkerMoves(c, s, step, id);
    } else if SaveStep(step) {
      SaversMove(c, s, step, id);
    } else if CallStep(step) {
      CallsMove(c, s, step, id);
    }
  }

  // ---- The invariant ---------------------------------------------------------------------------

  ghost function InEnded(id: Id): ((Id, Outcome)) -> nat {
    (e: (Id, Outcome)) => Same(id, e.0)
  }

  ghost function InUploads(id: Id): ((Id, Outcome)) -> nat {
    (e: (Id, Outcome)) => if e.1.Uploaded? then Same(id, e.0) else 0
  }

  ghost function InFired(id: Id): Id -> nat {
    (o: Id) => Same(id, o)
  }

  /** Uploads whose success callback has not run yet. */
  ghost function InOwed(id: Id): Saver -> nat {
    (pc: Saver) => if pc.Succeeding? then Is(id, pc.item.raw) else 0
  }

  /** A version is held once while it is pending, and never otherwise, except that a call that
      threw leaves its version pending with nobody holding it. */
  ghost predicate Held(s: State) {
    forall id: Id :: Live(s, id) + Orphaned(s, id) == In(s.ledger.pending, id)
  }

  /** Every version handed out is pending or has ended exactly once, never both. */
  ghost predicate Settled(s: State) {
    forall id: Id :: Sum(s.history.ended, InEnded(id)) + In(s.ledger.pending, id) == Issued(s.ledger.versions, id)
  }

  /** A version ended as uploaded exactly if it is the uploaded one, and its success callback has
      run once or is about to. */
  ghost predicate Celebrated(s: State) {
    forall id: Id ::
      && Sum(s.history.ended, InUploads(id)) == In(s.ledger.uploaded, id)
      && Sum(s.history.fired, InFired(id)) + Sum(s.savers, InOwed(id)) == In(s.ledger.uploaded, id)
  }

  ghost predicate Accounts(s: State) {
    s.ledger.Valid() && Held(s) && Settled(s) && Celebrated(s)
  }

  /** The task a step settles is the current version of its path, so no completion is stale. */
  lemma NeverStale(c: Config, s: State, step: Step, id: Id)
    requires Accounts(s) && Enabled(c, s, step) && Finishes(c, s, step, id)
    ensures In(s.ledger.pending, id) == 1 && s.ledger.versions[id.0] == id.1
  {
    StepMoves(c, s, step, id);
  }

  /** How a step changes the ledger. */
  ghost predicate LedgerMoves(c: Config, s: State, step: Step)
    requires Enabled(c, s, step)
  {
    var l, l' := s.ledger, Apply(c, s, step).ledger;
    && l'.Valid()
    && forall o: Id {:trigger In(l'.pending, o)} {:trigger In(l.pending, o)} {:trigger Issued(l'.versions, o)}
         {:trigger In(l'.uploaded, o)} ::
         && In(l'.pending, o) + Finished(c, s, step, o) == In(l.pending, o) + Born(s, step, o)
         && Issued(l'.versions, o) == Issued(l.versions, o) + Born(s, step, o) + Dropped(s, step, o)
         && In(l'.uploaded, o) == In(l.uploaded, o) + Uploads(c, s, step, o)
  }

  ghost function Dropped(s: State, step: Step, id: Id): nat {
    if step.Begin? && !s.ledger.Duplicate(step.path) && step.overRss
       && id == (step.path, s.ledger.NextVersion(step.path)) then 1 else 0
  }

  ghost function Uploads(c: Config, s: State, step: Step, id: Id): nat
    requires Enabled(c, s, step)
  {
    if step.Report? && s.savers[step.v].ok then Finished(c, s, step, id) else 0
  }

  /** The version a step settles, or an unused one. */
  ghost function Subject(c: Config, s: State, step: Step): Id
    requires Enabled(c, s, step)
  {
    match step
    case Notify(i) => IdOf(s.calls[i].victim)
    case ReportFailure(w) => IdOf(s.compressors[w].failed[0])
    case Report(v, _) => IdOf(s.savers[v].item.raw)
    case _ => ("", 0)
  }

  predicate Settles(step: Step) {
    step.Notify? || step.ReportFailure? || step.Report?
  }

  lemma NotifyMovesLedger(c: Config, s: State, step: Step)
    requires Enabled(c, s, step) && step.Notify?
    requires s.ledger.Valid() && In(s.ledger.pending, Subject(c, s, step)) == 1
    ensures LedgerMoves(c, s, step)
  {
    EvictKeeps(s.ledger, Subject(c, s, step));
  }

  lemma FailureMovesLedger(c: Config, s: State, step: Step)
    requires Enabled(c, s, step) && step.ReportFailure?
    requires s.ledger.Valid() && In(s.ledger.pending, Subject(c, s, step)) == 1
    ensures LedgerMoves(c, s, step)
  {
    ErrorKeeps(s.ledger, Subject(c, s, step), "compression failed");
  }

  lemma ReportMovesLedger(c: Config, s: State, step: Step)
    requires Enabled(c, s, step) && step.Report?
    requires s.ledger.Valid() && In(s.ledger.pending, Subject(c, s, step)) == 1
    ensures LedgerMoves(c, s, step)
  {
    if s.savers[step.v].ok {
      SuccessKeeps(s.ledger, Subject(c, s, step));
    } else {
      ErrorKeeps(s.ledger, Subject(c, s, step), step.error);
    }
  }

  lemma BeginMovesLedger(c: Config, s: State, step: Step)
    requires s.ledger.Valid() && Enabled(c, s, step) && step.Begin?
    ensures LedgerMoves(c, s, step)
  {
    AdmitKeeps(s.ledger, step.path, step.overRss);
  }

  lemma QuietStep(c: Config, s: State, step: Step)
    requires Enabled(c, s, step) && !step.Begin? && !Settles(step)
    ensures Apply(c, s, step).ledger == s.ledger && Apply(c, s, step).history.ended == s.history.ended
  {
  }

  lemma QuietMovesLedger(c: Config, s: State, step: Step)
    requires s.ledger.Valid() && Enabled(c, s, step) && !step.Begin? && !Settles(step)
    ensures LedgerMoves(c, s, step)
  {
    QuietStep(c, s, step);
  }

  lemma StepMovesLedger(c: Config, s: State, step: Step)
    requires Accounts(s) && Enabled(c, s, step)
    ensures LedgerMoves(c, s, step)
  {
    if step.Begin? {
      BeginMovesLedger(c, s, step);
    } else if Settles(step) {
      NeverStale(c, s, step, Subject(c, s, step));
      if step.Notify? {
        NotifyMovesLedger(c, s, step);
      } else if step.ReportFailure? {
        FailureMovesLedger(c, s, step);
      } else {
        ReportMovesLedger(c, s, step);
      }
    } else {
      QuietMovesLedger(c, s, step);
    }
  }

  lemma KeepHeld(c: Config, s: State, step: Step)
    requires Accounts(s) && Enabled(c, s, step)
    ensures Held(Apply(c, s, step))
  {
    StepMovesLedger(c, s, step);
    forall id: Id ensures var s' := Apply(c, s, step);
                          Live(s', id) + Orphaned(s', id) == In(s'.ledger.pending, id) {
      StepMoves(c, s, step, id);
    }
  }

  /** What a step adds to the log of ended versions. */
  ghost predicate Logs(c: Config, s: State, step: Step, id: Id)
    requires Enabled(c, s, step)
  {
    var h, h' := s.history, Apply(c, s, step).history;
    && Sum(h'.ended, InEnded(id)) == Sum(h.ended, InEnded(id)) + Finished(c, s, step, id) + Dropped(s, step, id)
    && Sum(h'.ended, InUploads(id)) == Sum(h.ended, InUploads(id)) + Uploads(c, s, step, id)
  }

  lemma EndTaskLogs(s: State, ledger: Ledger, ended: Id, outcome: Outcome, id: Id)
    ensures var h, h' := s.history, EndTask(s, ledger, ended, outcome).history;
            && Sum(h'.ended, InEnded(id)) == Sum(h.ended, InEnded(id)) + Same(id, ended)
            && Sum(h'.ended, InUploads(id))
               == Sum(h.ended, InUploads(id)) + if outcome.Uploaded? then Same(id, ended) else 0
  {
    var e := (ended, outcome);
    SumConcat(s.history.ended, [e], InEnded(id));
    SumConcat(s.history.ended, [e], InUploads(id));
    SumOne(e, InEnded(id));
    SumOne(e, InUploads(id));
  }

  lemma SettleLogs(c: Config, s: State, step: Step, id: Id)
    requires Enabled(c, s, step) && Settles(step)
    ensures Logs(c, s, step, id)
  {
    var s' := Apply(c, s, step);
    EndTaskLogs(s, s'.ledger, s'.history.ended[|s.history.ended|].0, s'.history.ended[|s.history.ended|].1, id);
  }

  lemma LogGrows(c: Config, s: State, step: Step, id: Id)
    requires Enabled(c, s, step)
    ensures Logs(c, s, step, id)
  {
    if Settles(step) {
      SettleLogs(c, s, step, id);
    } else if step.Begin? {
      EndTaskLogs(s, s.ledger.Admit(step.path, true), (step.path, s.ledger.NextVersion(step.path)), OverRss, id);
    } else {
      QuietStep(c, s, step);
    }
  }

  lemma KeepSettled(c: Config, s: State, step: Step)
    requires Accounts(s) && Enabled(c, s, step)
    ensures Settled(Apply(c, s, step))
  {
    StepMovesLedger(c, s, step);
    forall id: Id
      ensures var s' := Apply(c, s, step);
              Sum(s'.history.ended, InEnded(id)) + In(s'.ledger.pending, id) == Issued(s'.ledger.versions, id)
    {
      LogGrows(c, s, step, id);
    }
  }

  /** A step fires a callback, makes one due, or touches neither. */
  lemma CallbackEffect(c: Config, s: State, step: Step, id: Id)
    requires Enabled(c, s, step) && SaveStep(step)
    ensures var s' := Apply(c, s, step); var pc' := s'.savers[step.v];
            && s'.savers == s.savers[step.v := pc']
            && (step.Succeed? ==> s'.history.fired == s.history.fired + [IdOf(s.savers[step.v].item.raw)])
            && (!step.Succeed? ==> s'.history.fired == s.history.fired)
            && InOwed(id)(pc') + (if step.Succeed? then Is(id, s.savers[step.v].item.raw) else 0)
               == InOwed(id)(s.savers[step.v]) + Uploads(c, s, step, id)
  {
  }

  lemma QuietCallbacks(c: Config, s: State, step: Step)
    requires Enabled(c, s, step) && !SaveStep(step)
    ensures Apply(c, s, step).savers == s.savers && Apply(c, s, step).history.fired == s.history.fired
  {
  }

  lemma CallbacksMove(c: Config, s: State, step: Step, id: Id)
    requires Enabled(c, s, step)
    ensures var s' := Apply(c, s, step);
            Sum(s'.history.fired, InFired(id)) + Sum(s'.savers, InOwed(id))
            == Sum(s.history.fired, InFired(id)) + Sum(s.savers, InOwed(id)) + Uploads(c, s, step, id)
  {
    if SaveStep(step) {
      CallbackEffect(c, s, step, id);
      SumUpdate(s.savers, step.v, Apply(c, s, step).savers[step.v], InOwed(id));
      if step.Succeed? {
        var fired := IdOf(s.savers[step.v].item.raw);
        SumConcat(s.history.fired, [fired], InFired(id));
        SumOne(fired, InFired(id));
      }
    } else {
      QuietCallbacks(c, s, step);
    }
  }

  lemma KeepCelebrated(c: Config, s: State, step: Step)
    requires Accounts(s) && Enabled(c, s, step)
    ensures Celebrated(Apply(c, s, step))
  {
    StepMovesLedger(c, s, step);
    forall id: Id
      ensures var s' := Apply(c, s, step);
              && Sum(s'.history.ended, InUploads(id)) == In(s'.ledger.uploaded, id)
              && Sum(s'.history.fired, InFired(id)) + Sum(s'.savers, InOwed(id)) == In(s'.ledger.uploaded, id)
    {
      LogGrows(c, s, step, id);
      CallbacksMove(c, s, step, id);
    }
  }

  lemma StepKeepsAccounts(c: Config, s: State, step: Step)
    requires Accounts(s) && Enabled(c, s, step)
    ensures Accounts(Apply(c, s, step))
  {
    StepMovesLedger(c, s, step);
    KeepHeld(c, s, step);
    KeepSettled(c, s, step);
    KeepCelebrated(c, s, step);
  }

  lemma InitAccounts(c: Config)
    ensures Accounts(Init(c))
  {
    var s := Init(c);
    forall id: Id ensures Sum(s.compressors, InCompressor(id)) == 0 && Sum(s.savers, InSaver(id)) == 0
                          && Sum(s.savers, InOwed(id)) == 0 {
      SumZero(s.compressors, InCompressor(id));
      SumZero(s.savers, InSaver(id));
      SumZero(s.savers, InOwed(id));
    }
  }

  /** The accounts hold after every run. */
  lemma {:induction false} RunKeepsAccounts(c: Config, s: State, steps: seq<Step>)
    requires Accounts(s) && Run(c, s, steps)
    ensures Accounts(Exec(c, s, steps))
    decreases |steps|
  {
    if steps == [] {
    } else {
      StepKeepsAccounts(c, s, steps[0]);
      RunKeepsAccounts(c, Apply(c, s, steps[0]), steps[1..]);
    }
  }
}
