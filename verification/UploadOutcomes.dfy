/** What a version ends as is what happened to it on the run: its save returned or threw, its batch
    failed to compress, it was evicted, or it was refused under memory pressure. */
module UploadOutcomes {
  import opened Totals
  import opened UploadLedger
  import opened RawQueue
  import opened UploadProtocol
  import opened UploadAccounts

  type Event = (Id, Outcome)

  ghost function Of(id: Id, outcome: Outcome): Event -> nat {
    (e: Event) => if e == (id, outcome) then 1 else 0
  }

  ghost function Failures(batch: seq<Task>): (events: seq<Event>)
    ensures |events| == |batch| && forall i :: 0 <= i < |batch| ==> events[i] == (IdOf(batch[i]), CompressionFailed)
  {
    seq(|batch|, i requires 0 <= i < |batch| => (IdOf(batch[i]), CompressionFailed))
  }

  /** What happens to versions in one step: read from the step and from what its thread holds. */
  ghost function Events(c: Config, s: State, step: Step): seq<Event>
    requires Enabled(c, s, step)
  {
    match step
    case EndSave(v, ok) => [(IdOf(s.savers[v].item.raw), if ok then Uploaded else SaveFailed)]
    case Fail(w) => Failures(s.compressors[w].batch)
    case Evict(_) => [(IdOf(s.queue.tasks[0]), Evicted)]
    case Begin(path, _, _, overRss) =>
      if overRss && !s.ledger.Duplicate(path) then [((path, s.ledger.NextVersion(path)), OverRss)] else []
    case _ => []
  }

  /** Everything that happened on a run. */
  ghost function Story(c: Config, s: State, steps: seq<Step>): seq<Event>
    requires Run(c, s, steps)
    decreases |steps|
  {
    if steps == [] then [] else Events(c, s, steps[0]) + Story(c, Apply(c, s, steps[0]), steps[1..])
  }

  // Versions whose fate is sealed but not yet entered.

  ghost function ToReport(id: Id, ok: bool): Saver -> nat {
    (pc: Saver) => if pc.Reporting? && pc.ok == ok then Is(id, pc.item.raw) else 0
  }

  ghost function ToFail(id: Id): Compressor -> nat {
    (pc: Compressor) => if pc.Failing? || pc.FailReleasing? then Sum(pc.failed, InTask(id)) else 0
  }

  ghost function ToNotify(id: Id): Call -> nat {
    (call: Call) => if call.Notifying? then Is(id, call.victim) else 0
  }

  ghost function Sealed(s: State, id: Id, outcome: Outcome): nat {
    match outcome
    case Uploaded => Sum(s.savers, ToReport(id, true))
    case SaveFailed => Sum(s.savers, ToReport(id, false))
    case CompressionFailed => Sum(s.compressors, ToFail(id))
    case Evicted => Sum(s.calls, ToNotify(id))
    case OverRss => 0
  }

  /** What happened to a version, counted, was entered or is about to be. */
  ghost predicate ToldOf(s: State, told: nat, id: Id, o: Outcome) {
    told == Sealed(s, id, o) + Sum(s.history.ended, Of(id, o))
  }

  // ---- How one step moves a version's fate -----------------------------------------------------

  lemma {:induction false} FailuresCount(batch: seq<Task>, id: Id, o: Outcome)
    ensures Sum(Failures(batch), Of(id, o)) == if o == CompressionFailed then Sum(batch, InTask(id)) else 0
  {
    if batch == [] {
    } else {
      var n := |batch| - 1;
      assert Failures(batch)[..n] == Failures(batch[..n]);
      FailuresCount(batch[..n], id, o);
    }
  }

  lemma Entered(ended: seq<Event>, e: Event, id: Id, o: Outcome)
    ensures Sum(ended + [e], Of(id, o)) == Sum(ended, Of(id, o)) + Of(id, o)(e)
  {
    SumConcat(ended, [e], Of(id, o));
    SumOne(e, Of(id, o));
  }

  lemma OneEvent(e: Event, id: Id, o: Outcome)
    ensures Sum([e], Of(id, o)) == Of(id, o)(e)
  {
    SumOne(e, Of(id, o));
  }

  lemma EndSaveTells(c: Config, s: State, step: Step, id: Id, o: Outcome)
    requires Enabled(c, s, step) && step.EndSave?
    ensures ToldOf(Apply(c, s, step), Sealed(s, id, o) + Sum(s.history.ended, Of(id, o))
                                      + Sum(Events(c, s, step), Of(id, o)), id, o)
  {
    var item := s.savers[step.v].item;
    SumUpdate(s.savers, step.v, Reporting(item, step.ok), ToReport(id, true));
    SumUpdate(s.savers, step.v, Reporting(item, step.ok), ToReport(id, false));
    OneEvent((IdOf(item.raw), if step.ok then Uploaded else SaveFailed), id, o);
  }

  lemma ReportFrame(c: Config, s: State, step: Step, pc': Saver, e: Event)
    requires Enabled(c, s, step) && step.Report? && pc' == Apply(c, s, step).savers[step.v]
    requires e == (IdOf(s.savers[step.v].item.raw), if s.savers[step.v].ok then Uploaded else SaveFailed)
    ensures var s' := Apply(c, s, step);
            && s'.savers == s.savers[step.v := pc'] && !pc'.Reporting? && Events(c, s, step) == []
            && s'.compressors == s.compressors && s'.calls == s.calls && s'.history.ended == s.history.ended + [e]
  {
  }

  /** A saver leaves Reporting and its version is entered. */
  lemma ReportMoves(s: State, s': State, v: nat, pc': Saver, e: Event, id: Id, o: Outcome)
    requires v < |s.savers| && s.savers[v].Reporting? && !pc'.Reporting?
    requires e == (IdOf(s.savers[v].item.raw), if s.savers[v].ok then Uploaded else SaveFailed)
    requires s'.savers == s.savers[v := pc'] && s'.compressors == s.compressors && s'.calls == s.calls
    requires s'.history.ended == s.history.ended + [e]
    ensures ToldOf(s', Sealed(s, id, o) + Sum(s.history.ended, Of(id, o)), id, o)
  {
    SumUpdate(s.savers, v, pc', ToReport(id, true));
    SumUpdate(s.savers, v, pc', ToReport(id, false));
    Entered(s.history.ended, e, id, o);
  }

  lemma ReportTells(c: Config, s: State, step: Step, id: Id, o: Outcome)
    requires Enabled(c, s, step) && step.Report?
    ensures ToldOf(Apply(c, s, step), Sealed(s, id, o) + Sum(s.history.ended, Of(id, o))
                                      + Sum(Events(c, s, step), Of(id, o)), id, o)
  {
    var s', pc := Apply(c, s, step), s.savers[step.v];
    var e: Event := (IdOf(pc.item.raw), if pc.ok then Uploaded else SaveFailed);
    ReportFrame(c, s, step, s'.savers[step.v], e);
    ReportMoves(s, s', step.v, s'.savers[step.v], e, id, o);
  }

  lemma CompressorTells(c: Config, s: State, step: Step, id: Id, o: Outcome)
    requires Enabled(c, s, step) && (step.Fail? || step.ReportFailure?)
    ensures ToldOf(Apply(c, s, step), Sealed(s, id, o) + Sum(s.history.ended, Of(id, o))
                                      + Sum(Events(c, s, step), Of(id, o)), id, o)
  {
    var s' := Apply(c, s, step);
    SumUpdate(s.compressors, step.w, s'.compressors[step.w], ToFail(id));
    if step.Fail? {
      FailuresCount(s.compressors[step.w].batch, id, o);
    } else {
      SumHead(s.compressors[step.w].failed, InTask(id));
      Entered(s.history.ended, (IdOf(s.compressors[step.w].failed[0]), CompressionFailed), id, o);
    }
  }

  /** What a submit call after its first block does to the parts that matter here. */
  ghost predicate CallMoves(s: State, s': State, i: nat, entered: seq<Event>) {
    && i < |s.calls| == |s'.calls| && s'.calls == s.calls[i := s'.calls[i]]
    && s'.savers == s.savers && s'.compressors == s.compressors
    && s'.history.ended == s.history.ended + entered
  }

  lemma CallFrame(c: Config, s: State, step: Step, entered: seq<Event>)
    requires Enabled(c, s, step) && CallStep(step) && !step.Begin?
    requires entered == if step.Notify? then [(IdOf(s.calls[step.c].victim), Evicted)] else []
    ensures CallMoves(s, Apply(c, s, step), step.c, entered)
    ensures var s' := Apply(c, s, step);
            && (step.Evict? ==> s'.calls[step.c] == Notifying(s.calls[step.c].task, s.queue.tasks[0]))
            && (!step.Evict? ==> !s'.calls[step.c].Notifying? && Events(c, s, step) == [])
            && (!step.Notify? ==> !s.calls[step.c].Notifying?)
  {
  }

  lemma EvictMoves(s: State, s': State, i: nat, id: Id, o: Outcome)
    requires CallMoves(s, s', i, []) && !s.calls[i].Notifying? && s'.calls[i].Notifying?
    ensures ToldOf(s', Sealed(s, id, o) + Sum(s.history.ended, Of(id, o))
                       + Sum([(IdOf(s'.calls[i].victim), Evicted)], Of(id, o)), id, o)
  {
    assert s'.history.ended == s.history.ended;
    SumUpdate(s.calls, i, s'.calls[i], ToNotify(id));
    OneEvent((IdOf(s'.calls[i].victim), Evicted), id, o);
  }

  lemma NotifyMoves(s: State, s': State, i: nat, id: Id, o: Outcome)
    requires i < |s.calls| && s.calls[i].Notifying?
    requires CallMoves(s, s', i, [(IdOf(s.calls[i].victim), Evicted)]) && !s'.calls[i].Notifying?
    ensures ToldOf(s', Sealed(s, id, o) + Sum(s.history.ended, Of(id, o)), id, o)
  {
    SumUpdate(s.calls, i, s'.calls[i], ToNotify(id));
    Entered(s.history.ended, (IdOf(s.calls[i].victim), Evicted), id, o);
  }

  lemma WaitMoves(s: State, s': State, i: nat, id: Id, o: Outcome)
    requires CallMoves(s, s', i, []) && !s.calls[i].Notifying? && !s'.calls[i].Notifying?
    ensures ToldOf(s', Sealed(s, id, o) + Sum(s.history.ended, Of(id, o)), id, o)
  {
    assert s'.history.ended == s.history.ended;
    SumUpdate(s.calls, i, s'.calls[i], ToNotify(id));
  }

  lemma CallTells(c: Config, s: State, step: Step, id: Id, o: Outcome)
    requires Enabled(c, s, step) && CallStep(step) && !step.Begin?
    ensures ToldOf(Apply(c, s, step), Sealed(s, id, o) + Sum(s.history.ended, Of(id, o))
                                      + Sum(Events(c, s, step), Of(id, o)), id, o)
  {
    var s' := Apply(c, s, step);
    CallFrame(c, s, step, if step.Notify? then [(IdOf(s.calls[step.c].victim), Evicted)] else []);
    if step.Evict? {
      EvictMoves(s, s', step.c, id, o);
    } else if step.Notify? {
      NotifyMoves(s, s', step.c, id, o);
    } else {
      WaitMoves(s, s', step.c, id, o);
    }
  }

  /** A refused submission is entered at once. */
  lemma RefusalMoves(s: State, s': State, e: Event, id: Id, o: Outcome)
    requires e.1 == OverRss && s'.savers == s.savers && s'.compressors == s.compressors && s'.calls == s.calls
    requires s'.history.ended == s.history.ended + [e]
    ensures ToldOf(s', Sealed(s, id, o) + Sum(s.history.ended, Of(id, o)) + Sum([e], Of(id, o)), id, o)
  {
    OneEvent(e, id, o);
    Entered(s.history.ended, e, id, o);
  }

  lemma ArrivalMoves(s: State, s': State, call: Call, id: Id, o: Outcome)
    requires call.Waiting? && s'.savers == s.savers && s'.compressors == s.compressors
    requires s'.calls == s.calls + [call] && s'.history.ended == s.history.ended
    ensures ToldOf(s', Sealed(s, id, o) + Sum(s.history.ended, Of(id, o)), id, o)
  {
    SumConcat(s.calls, [call], ToNotify(id));
    SumOne(call, ToNotify(id));
  }

  lemma BeginTells(c: Config, s: State, step: Step, id: Id, o: Outcome)
    requires Enabled(c, s, step) && step.Begin?
    ensures ToldOf(Apply(c, s, step), Sealed(s, id, o) + Sum(s.history.ended, Of(id, o))
                                      + Sum(Events(c, s, step), Of(id, o)), id, o)
  {
    var s' := Apply(c, s, step);
    if !s.ledger.Duplicate(step.path) {
      if step.overRss {
        RefusalMoves(s, s', ((step.path, s.ledger.NextVersion(step.path)), OverRss), id, o);
      } else {
        ArrivalMoves(s, s', s'.calls[|s.calls|], id, o);
      }
    }
  }

  ghost predicate SaverQuiet(s: State, s': State, v: nat) {
    && v < |s.savers| == |s'.savers| && s'.savers == s.savers[v := s'.savers[v]]
    && !s.savers[v].Reporting? && !s'.savers[v].Reporting?
  }

  ghost predicate CompressorQuiet(s: State, s': State, w: nat) {
    && w < |s.compressors| == |s'.compressors| && s'.compressors == s.compressors[w := s'.compressors[w]]
    && forall id: Id :: ToFail(id)(s.compressors[w]) == ToFail(id)(s'.compressors[w])
  }

  /** The other steps seal and enter nothing. */
  lemma QuietFate(c: Config, s: State, step: Step)
    requires Enabled(c, s, step) && !CallStep(step) && !step.EndSave? && !step.Report? && !step.Fail?
    requires !step.ReportFailure?
    ensures var s' := Apply(c, s, step);
            && s'.calls == s.calls && s'.history.ended == s.history.ended && Events(c, s, step) == []
            && (SaveStep(step) ==> s'.compressors == s.compressors && SaverQuiet(s, s', step.v))
            && (CompressionStep(step) ==> s'.savers == s.savers && CompressorQuiet(s, s', step.w))
            && (!SaveStep(step) && !CompressionStep(step) ==> s'.savers == s.savers && s'.compressors == s.compressors)
  {
  }

  lemma QuietTells(c: Config, s: State, step: Step, id: Id, o: Outcome)
    requires Enabled(c, s, step) && !CallStep(step) && !step.EndSave? && !step.Report? && !step.Fail?
    requires !step.ReportFailure?
    ensures ToldOf(Apply(c, s, step), Sealed(s, id, o) + Sum(s.history.ended, Of(id, o))
                                      + Sum(Events(c, s, step), Of(id, o)), id, o)
  {
    var s' := Apply(c, s, step);
    QuietFate(c, s, step);
    if SaveStep(step) {
      SumUpdate(s.savers, step.v, s'.savers[step.v], ToReport(id, true));
      SumUpdate(s.savers, step.v, s'.savers[step.v], ToReport(id, false));
    } else if CompressionStep(step) {
      SumUpdate(s.compressors, step.w, s'.compressors[step.w], ToFail(id));
    }
  }

  lemma StepTells(c: Config, s: State, step: Step, id: Id, o: Outcome)
    requires Enabled(c, s, step)
    ensures ToldOf(Apply(c, s, step), Sealed(s, id, o) + Sum(s.history.ended, Of(id, o))
                                      + Sum(Events(c, s, step), Of(id, o)), id, o)
  {
    if step.EndSave? {
      EndSaveTells(c, s, step, id, o);
    } else if step.Report? {
      ReportTells(c, s, step, id, o);
    } else if step.Fail? || step.ReportFailure? {
      CompressorTells(c, s, step, id, o);
    } else if step.Begin? {
      BeginTells(c, s, step, id, o);
    } else if CallStep(step) {
      CallTells(c, s, step, id, o);
    } else {
      QuietTells(c, s, step, id, o);
    }
  }

  /** On every run the entries are what happened, up to the fates still to be entered. */
  lemma {:induction false} RunTells(c: Config, s: State, steps: seq<Step>, id: Id, o: Outcome, told: nat)
    requires Run(c, s, steps) && ToldOf(s, told, id, o)
    ensures ToldOf(Exec(c, s, steps), told + Sum(Story(c, s, steps), Of(id, o)), id, o)
    decreases |steps|
  {
    if steps == [] {
    } else {
      var events := Events(c, s, steps[0]);
      StepTells(c, s, steps[0], id, o);
      RunTells(c, Apply(c, s, steps[0]), steps[1..], id, o, told + Sum(events, Of(id, o)));
      SumConcat(events, Story(c, Apply(c, s, steps[0]), steps[1..]), Of(id, o));
    }
  }

  // ---- The error map ---------------------------------------------------------------------------

  predicate Bad(outcome: Outcome) {
    outcome.SaveFailed? || outcome.CompressionFailed? || outcome.OverRss?
  }

  ghost function BadEnd(id: Id): Event -> nat {
    (e: Event) => if e.0 == id && Bad(e.1) then 1 else 0
  }

  /** A path is in error exactly if its latest version ended badly. */
  ghost predicate ErrorsAgree(s: State) {
    forall p: string :: p in s.ledger.versions ==>
      (p in s.ledger.errors <==> Sum(s.history.ended, BadEnd((p, s.ledger.versions[p]))) > 0)
  }

  lemma BadIsEnded(s: State, id: Id)
    ensures Sum(s.history.ended, BadEnd(id)) <= Sum(s.history.ended, InEnded(id))
  {
    SumBelow(s.history.ended, BadEnd(id), (e: Event) => 0, InEnded(id));
  }

  lemma BadEntered(ended: seq<Event>, e: Event, id: Id)
    ensures Sum(ended + [e], BadEnd(id)) == Sum(ended, BadEnd(id)) + BadEnd(id)(e)
  {
    SumConcat(ended, [e], BadEnd(id));
    SumOne(e, BadEnd(id));
  }

  /** Entering the end of the pending version of a path. */
  lemma SettlingAgrees(s: State, s': State, e: Event)
    requires Accounts(s) && ErrorsAgree(s) && In(s.ledger.pending, e.0) == 1
    requires s'.history.ended == s.history.ended + [e] && s'.ledger.versions == s.ledger.versions
    requires e.0.0 in s'.ledger.errors <==> Bad(e.1)
    requires forall p :: p != e.0.0 ==> (p in s'.ledger.errors <==> p in s.ledger.errors)
    ensures ErrorsAgree(s')
  {
    forall p: string | p in s'.ledger.versions
      ensures p in s'.ledger.errors <==> Sum(s'.history.ended, BadEnd((p, s'.ledger.versions[p]))) > 0
    {
      var id := (p, s.ledger.versions[p]);
      BadEntered(s.history.ended, e, id);
      if p == e.0.0 {
        assert Sum(s.history.ended, InEnded(id)) + In(s.ledger.pending, id) == Issued(s.ledger.versions, id);
        BadIsEnded(s, id);
      }
    }
  }

  lemma ReportAgrees(c: Config, s: State, step: Step)
    requires Accounts(s) && ErrorsAgree(s) && Enabled(c, s, step) && step.Report?
    ensures ErrorsAgree(Apply(c, s, step))
  {
    var s', id := Apply(c, s, step), Subject(c, s, step);
    NeverStale(c, s, step, id);
    if s.savers[step.v].ok {
      SuccessKeeps(s.ledger, id);
      SettlingAgrees(s, s', (id, Uploaded));
    } else {
      ErrorKeeps(s.ledger, id, step.error);
      SettlingAgrees(s, s', (id, SaveFailed));
    }
  }

  lemma SettleAgrees(c: Config, s: State, step: Step)
    requires Accounts(s) && ErrorsAgree(s) && Enabled(c, s, step) && Settles(step)
    ensures ErrorsAgree(Apply(c, s, step))
  {
    var s', id := Apply(c, s, step), Subject(c, s, step);
    NeverStale(c, s, step, id);
    if step.Notify? {
      EvictKeeps(s.ledger, id);
      SettlingAgrees(s, s', (id, Evicted));
    } else if step.ReportFailure? {
      ErrorKeeps(s.ledger, id, "compression failed");
      SettlingAgrees(s, s', (id, CompressionFailed));
    } else {
      ReportAgrees(c, s, step);
    }
  }

  /** Admitting a path takes its error away unless the new version is refused at once. */
  lemma AdmittingAgrees(s: State, s': State, path: string, overRss: bool)
    requires Accounts(s) && ErrorsAgree(s) && !s.ledger.Duplicate(path)
    requires s'.ledger == s.ledger.Admit(path, overRss)
    requires s'.history.ended == if overRss then s.history.ended + [((path, s.ledger.NextVersion(path)), OverRss)]
                                 else s.history.ended
    ensures ErrorsAgree(s')
  {
    var newest: Id := (path, s.ledger.NextVersion(path));
    AdmitKeeps(s.ledger, path, overRss);
    assert Sum(s.history.ended, InEnded(newest)) + In(s.ledger.pending, newest) == Issued(s.ledger.versions, newest);
    BadIsEnded(s, newest);
    forall p: string | p in s'.ledger.versions
      ensures p in s'.ledger.errors <==> Sum(s'.history.ended, BadEnd((p, s'.ledger.versions[p]))) > 0
    {
      BadEntered(s.history.ended, (newest, OverRss), (p, s'.ledger.versions[p]));
    }
  }

  lemma StepAgrees(c: Config, s: State, step: Step)
    requires Accounts(s) && ErrorsAgree(s) && Enabled(c, s, step)
    ensures ErrorsAgree(Apply(c, s, step))
  {
    if step.Begin? {
      if !s.ledger.Duplicate(step.path) {
        AdmittingAgrees(s, Apply(c, s, step), step.path, step.overRss);
      }
    } else if Settles(step) {
      SettleAgrees(c, s, step);
    } else {
      QuietStep(c, s, step);
    }
  }

  lemma {:induction false} RunAgrees(c: Config, s: State, steps: seq<Step>)
    requires Accounts(s) && ErrorsAgree(s) && Run(c, s, steps)
    ensures ErrorsAgree(Exec(c, s, steps))
    decreases |steps|
  {
    if steps == [] {
    } else {
      StepAgrees(c, s, steps[0]);
      StepKeepsAccounts(c, s, steps[0]);
      RunAgrees(c, Apply(c, s, steps[0]), steps[1..]);
    }
  }

  // ---- One fate --------------------------------------------------------------------------------

  lemma SealedIsLive(s: State, id: Id, a: Outcome, b: Outcome)
    requires a != b
    ensures Sealed(s, id, a) + Sealed(s, id, b) <= Live(s, id)
  {
    SumBelow(s.savers, ToReport(id, true), ToReport(id, false), InSaver(id));
    SumBelow(s.compressors, ToFail(id), (pc: Compressor) => 0, InCompressor(id));
    SumBelow(s.calls, ToNotify(id), (call: Call) => 0, InCall(id));
  }

  lemma EndedOnce(s: State, id: Id, a: Outcome, b: Outcome)
    requires a != b
    ensures Sum(s.history.ended, Of(id, a)) + Sum(s.history.ended, Of(id, b)) <= Sum(s.history.ended, InEnded(id))
  {
    SumBelow(s.history.ended, Of(id, a), Of(id, b), InEnded(id));
  }

  /** What a run from the start says of a version. */
  ghost function Told(c: Config, steps: seq<Step>, id: Id, o: Outcome): nat
    requires Run(c, Init(c), steps)
  {
    Sum(Story(c, Init(c), steps), Of(id, o))
  }

  lemma RunFromStart(c: Config, steps: seq<Step>, id: Id)
    requires Run(c, Init(c), steps)
    ensures Accounts(Exec(c, Init(c), steps)) && ErrorsAgree(Exec(c, Init(c), steps))
    ensures forall o: Outcome :: ToldOf(Exec(c, Init(c), steps), Told(c, steps, id, o), id, o)
  {
    InitAccounts(c);
    RunKeepsAccounts(c, Init(c), steps);
    RunAgrees(c, Init(c), steps);
    forall o: Outcome ensures ToldOf(Exec(c, Init(c), steps), Told(c, steps, id, o), id, o) {
      SumZero(Init(c).savers, ToReport(id, true));
      SumZero(Init(c).savers, ToReport(id, false));
      SumZero(Init(c).compressors, ToFail(id));
      RunTells(c, Init(c), steps, id, o, 0);
    }
  }

  /** On every run at most one thing happens to a version, once. */
  lemma OneFate(c: Config, steps: seq<Step>, id: Id, a: Outcome, b: Outcome)
    requires Run(c, Init(c), steps) && a != b
    ensures Told(c, steps, id, a) + Told(c, steps, id, b) <= 1
  {
    RunFromStart(c, steps, id);
    var s := Exec(c, Init(c), steps);
    SealedIsLive(s, id, a, b);
    EndedOnce(s, id, a, b);
    assert ToldOf(s, Told(c, steps, id, a), id, a) && ToldOf(s, Told(c, steps, id, b), id, b);
    assert Live(s, id) + Orphaned(s, id) == In(s.ledger.pending, id);
    assert Sum(s.history.ended, InEnded(id)) + In(s.ledger.pending, id) == Issued(s.ledger.versions, id);
  }

  /** A version is uploaded, and its callback runs, only if its own save returned; once that is entered
      it is uploaded exactly if it did. */
  lemma UploadedIffSaved(c: Config, steps: seq<Step>, id: Id)
    requires Run(c, Init(c), steps)
    ensures var s := Exec(c, Init(c), steps);
            && Told(c, steps, id, Uploaded) == In(s.ledger.uploaded, id) + Sum(s.savers, ToReport(id, true))
            && (In(s.ledger.uploaded, id) == 1 ==> Told(c, steps, id, Uploaded) == 1)
            && (Sum(s.history.fired, InFired(id)) > 0 ==> Told(c, steps, id, Uploaded) == 1)
  {
    RunFromStart(c, steps, id);
    var s := Exec(c, Init(c), steps);
    SumSame(s.history.ended, Of(id, Uploaded), InUploads(id));
    assert ToldOf(s, Told(c, steps, id, Uploaded), id, Uploaded);
    assert Sum(s.history.ended, InUploads(id)) == In(s.ledger.uploaded, id);
    assert Sum(s.history.fired, InFired(id)) + Sum(s.savers, InOwed(id)) == In(s.ledger.uploaded, id);
    OneFate(c, steps, id, Uploaded, SaveFailed);
  }

  /** A version whose save threw, whose batch failed to compress or which was refused is never uploaded
      and its callback never runs; once that is entered, and unless the path was submitted again, the
      path is in error. */
  lemma FailedNeverUploaded(c: Config, steps: seq<Step>, id: Id, o: Outcome)
    requires Run(c, Init(c), steps) && Bad(o) && Told(c, steps, id, o) > 0
    ensures var s := Exec(c, Init(c), steps);
            && In(s.ledger.uploaded, id) == 0 && Sum(s.history.fired, InFired(id)) == 0
            && (Sealed(s, id, o) == 0 ==>
                  && Sum(s.history.ended, Of(id, o)) == 1
                  && (id.0 in s.ledger.versions && s.ledger.versions[id.0] == id.1 ==> id.0 in s.ledger.errors))
  {
    RunFromStart(c, steps, id);
    UploadedIffSaved(c, steps, id);
    OneFate(c, steps, id, o, Uploaded);
    var s := Exec(c, Init(c), steps);
    assert ToldOf(s, Told(c, steps, id, o), id, o);
    SumBelow(s.history.ended, Of(id, o), (e: Event) => 0, BadEnd(id));
  }

  /** An eviction, too, is never an upload. */
  lemma EvictedNeverUploaded(c: Config, steps: seq<Step>, id: Id)
    requires Run(c, Init(c), steps) && Told(c, steps, id, Evicted) > 0
    ensures var s := Exec(c, Init(c), steps);
            In(s.ledger.uploaded, id) == 0 && Sum(s.history.fired, InFired(id)) == 0
  {
    UploadedIffSaved(c, steps, id);
    OneFate(c, steps, id, Evicted, Uploaded);
  }

  /** Entering a failed save records its message. */
  lemma ReportRecords(c: Config, s: State, v: nat, error: string)
    requires Accounts(s) && Enabled(c, s, Report(v, error))
    ensures var path, l' := s.savers[v].item.raw.path, Apply(c, s, Report(v, error)).ledger;
            if s.savers[v].ok then l'.Contains(path) && path !in l'.errors
            else path in l'.errors && l'.errors[path] == error && !l'.Contains(path)
  {
    NeverStale(c, s, Report(v, error), IdOf(s.savers[v].item.raw));
    if s.savers[v].ok {
      SuccessKeeps(s.ledger, IdOf(s.savers[v].item.raw));
    } else {
      ErrorKeeps(s.ledger, IdOf(s.savers[v].item.raw), error);
    }
  }

  // ---- In terms of the save itself -------------------------------------------------------------

  /** The run holds an EndSave(v, ok) taken while saver v held this version. */
  ghost predicate SaveReturned(c: Config, s: State, steps: seq<Step>, id: Id, ok: bool)
    requires Run(c, s, steps)
    decreases |steps|
  {
    && steps != []
    && (|| (exists v: nat :: steps[0] == EndSave(v, ok) && IdOf(s.savers[v].item.raw) == id)
        || SaveReturned(c, Apply(c, s, steps[0]), steps[1..], id, ok))
  }

  lemma {:induction false} StoryOfSaves(c: Config, s: State, steps: seq<Step>, id: Id, ok: bool)
    requires Run(c, s, steps)
    ensures SaveReturned(c, s, steps, id, ok) <==>
            Sum(Story(c, s, steps), Of(id, if ok then Uploaded else SaveFailed)) > 0
    decreases |steps|
  {
    if steps == [] {
    } else {
      var o: Outcome := if ok then Uploaded else SaveFailed;
      var events := Events(c, s, steps[0]);
      SumConcat(events, Story(c, Apply(c, s, steps[0]), steps[1..]), Of(id, o));
      StoryOfSaves(c, Apply(c, s, steps[0]), steps[1..], id, ok);
      if steps[0].Fail? {
        FailuresCount(s.compressors[steps[0].w].batch, id, o);
      } else if events != [] {
        OneEvent(events[0], id, o);
      }
    }
  }

  /** No version is uploaded, and no callback runs, unless the version's own save returned. Once that
      is reported the version is uploaded. */
  lemma UploadedOnlyIfSaved(c: Config, steps: seq<Step>, id: Id)
    requires Run(c, Init(c), steps)
    ensures var s := Exec(c, Init(c), steps);
            && (In(s.ledger.uploaded, id) == 1 ==> SaveReturned(c, Init(c), steps, id, true))
            && (Sum(s.history.fired, InFired(id)) > 0 ==> SaveReturned(c, Init(c), steps, id, true))
            && (SaveReturned(c, Init(c), steps, id, true) && Sum(s.savers, ToReport(id, true)) == 0 ==>
                  In(s.ledger.uploaded, id) == 1)
  {
    UploadedIffSaved(c, steps, id);
    StoryOfSaves(c, Init(c), steps, id, true);
  }

  /** A version whose save threw is never uploaded and its callback never runs. Once that is reported
      its path is in error, for as long as the path is not submitted again. */
  lemma FailedSaveNeverUploads(c: Config, steps: seq<Step>, id: Id)
    requires Run(c, Init(c), steps) && SaveReturned(c, Init(c), steps, id, false)
    ensures var s := Exec(c, Init(c), steps);
            && !SaveReturned(c, Init(c), steps, id, true)
            && In(s.ledger.uploaded, id) == 0 && Sum(s.history.fired, InFired(id)) == 0
            && (Sum(s.savers, ToReport(id, false)) == 0 ==>
                  && Sum(s.history.ended, Of(id, SaveFailed)) == 1
                  && (id.0 in s.ledger.versions && s.ledger.versions[id.0] == id.1 ==> id.0 in s.ledger.errors))
  {
    StoryOfSaves(c, Init(c), steps, id, true);
    StoryOfSaves(c, Init(c), steps, id, false);
    OneFate(c, steps, id, SaveFailed, Uploaded);
    FailedNeverUploaded(c, steps, id, SaveFailed);
  }
}
