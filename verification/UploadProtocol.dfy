/** The remote upload pipeline as a step machine: submit calls, compression workers, save workers
    and the shutdown sequence. One step is one block run under one mutex; a thread between two
    blocks is a state of its own. */
module UploadProtocol {
  import opened UploadLedger
  import opened RawQueue

  /** A compressed task waiting to be saved: the raw task it came from and its payload bytes. */
  datatype Packed = Packed(raw: Task, payload: nat)

  /** A submit call after it took a version. */
  datatype Call =
    | Waiting(task: Task)                   // at the test of Enqueue's capacity loop
    | Blocked(task: Task)                   // asleep on the capacity condition variable
    | Notifying(task: Task, victim: Task)   // evicted a queued task, not yet notified
    | Returned
    | Rejected(task: Task)                  // Enqueue threw because the manager is stopping

  datatype Compressor =
    | Idle
    | Collecting(key: string, batch: seq<Task>)
    | Compressing(key: string, batch: seq<Task>)
    | Emitting(key: string, rest: seq<Packed>)
    | Releasing(key: string, bytes: nat, rest: seq<Packed>)
    | Failing(key: string, failed: seq<Task>)
    | FailReleasing(key: string, bytes: nat, failed: seq<Task>)
    | Exited

  datatype Saver =
    | SaverIdle
    | Saving(item: Packed)
    | Reporting(item: Packed, ok: bool)
    | Succeeding(item: Packed)
    | SaverExited

  datatype Outcome = Uploaded | SaveFailed | CompressionFailed | Evicted | OverRss

  /** What has happened so far; no step reads it. */
  datatype History = History(
    ended: seq<(Id, Outcome)>,
    fired: seq<Id>,
    enqueued: seq<Task>,
    dispatched: seq<Task>,
    emitted: seq<Task>)

  datatype Config = Config(rawLimit: nat, saveLimit: nat, compressors: nat, savers: nat)

  datatype State = State(
    ledger: Ledger,
    queue: Queue,
    saveQueue: seq<Packed>,
    saveBytes: nat,
    saveStopping: bool,
    calls: seq<Call>,
    compressors: seq<Compressor>,
    savers: seq<Saver>,
    history: History)

  datatype Step =
    | Begin(path: string, groupUuid: string, size: nat, overRss: bool)
    | Enqueue(c: nat)
    | Evict(c: nat)
    | Notify(c: nat)
    | Block(c: nat)
    | Reject(c: nat)
    | Take(w: nat, proceed: bool)
    | Collect(w: nat, proceed: bool)
    | Compress(w: nat, payloads: seq<nat>)
    | Fail(w: nat)
    | Emit(w: nat)
    | Release(w: nat)
    | ReportFailure(w: nat)
    | ReleaseFailed(w: nat)
    | FinishBatch(w: nat)
    | Exit(w: nat)
    | StartSave(v: nat)
    | EndSave(v: nat, ok: bool)
    | Report(v: nat, error: string)
    | Succeed(v: nat)
    | ExitSaver(v: nat)
    | StopCompression
    | StopStorage

  function IdOf(t: Task): Id {
    (t.path, t.version)
  }

  predicate SaveRoom(c: Config, s: State, payload: nat) {
    c.saveLimit == 0 || s.saveBytes + payload <= c.saveLimit
  }

  predicate AllExited(s: State) {
    forall w :: 0 <= w < |s.compressors| ==> s.compressors[w].Exited?
  }

  /** When a thread may run a block: the condition variables' predicates and the branch taken. */
  predicate Enabled(c: Config, s: State, step: Step) {
    match step
    case Begin(_, _, _, _) => true
    case Enqueue(i) =>
      && i < |s.calls| && (s.calls[i].Waiting? || s.calls[i].Blocked?)
      && s.queue.HasRoom(c.rawLimit, s.calls[i].task.size) && !s.queue.stopping
    case Evict(i) =>
      && i < |s.calls| && s.calls[i].Waiting?
      && !s.queue.HasRoom(c.rawLimit, s.calls[i].task.size) && s.queue.tasks != []
    case Notify(i) => i < |s.calls| && s.calls[i].Notifying?
    case Block(i) =>
      && i < |s.calls| && s.calls[i].Waiting?
      && !s.queue.HasRoom(c.rawLimit, s.calls[i].task.size) && s.queue.tasks == [] && !s.queue.stopping
    case Reject(i) =>
      && i < |s.calls| && s.queue.stopping
      && (s.calls[i].Blocked?
          || (s.calls[i].Waiting?
              && (s.queue.HasRoom(c.rawLimit, s.calls[i].task.size) || s.queue.tasks == [])))
    case Take(w, proceed) =>
      && w < |s.compressors| && s.compressors[w].Idle? && s.queue.HasDispatchable()
      && (s.queue.NextKey() == "" ==> proceed)
    case Collect(w, proceed) =>
      && w < |s.compressors| && s.compressors[w].Collecting?
      && (!proceed ==> !s.queue.stopping && Matching(s.queue.tasks, s.compressors[w].key) != [])
    case Compress(w, payloads) =>
      && w < |s.compressors| && s.compressors[w].Compressing? && |payloads| == |s.compressors[w].batch|
    case Fail(w) => w < |s.compressors| && s.compressors[w].Compressing?
    case Emit(w) =>
      && w < |s.compressors| && s.compressors[w].Emitting? && s.compressors[w].rest != []
      && SaveRoom(c, s, s.compressors[w].rest[0].payload) && !s.saveStopping
    case Release(w) => w < |s.compressors| && s.compressors[w].Releasing?
    case ReportFailure(w) =>
      w < |s.compressors| && s.compressors[w].Failing? && s.compressors[w].failed != []
    case ReleaseFailed(w) => w < |s.compressors| && s.compressors[w].FailReleasing?
    case FinishBatch(w) =>
      && w < |s.compressors|
      && ((s.compressors[w].Emitting? && s.compressors[w].rest == [])
          || (s.compressors[w].Failing? && s.compressors[w].failed == []))
    case Exit(w) =>
      w < |s.compressors| && s.compressors[w].Idle? && s.queue.stopping && s.queue.tasks == []
    case StartSave(v) => v < |s.savers| && s.savers[v].SaverIdle? && s.saveQueue != []
    case EndSave(v, _) => v < |s.savers| && s.savers[v].Saving?
    case Report(v, _) => v < |s.savers| && s.savers[v].Reporting?
    case Succeed(v) => v < |s.savers| && s.savers[v].Succeeding?
    case ExitSaver(v) => v < |s.savers| && s.savers[v].SaverIdle? && s.saveStopping && s.saveQueue == []
    case StopCompression => !s.queue.stopping
    case StopStorage => !s.saveStopping && s.queue.stopping && AllExited(s)
  }

  function SetCall(s: State, i: nat, call: Call): State
    requires i < |s.calls|
  {
    s.(calls := s.calls[i := call])
  }

  function SetCompressor(s: State, w: nat, pc: Compressor): State
    requires w < |s.compressors|
  {
    s.(compressors := s.compressors[w := pc])
  }

  function SetSaver(s: State, v: nat, pc: Saver): State
    requires v < |s.savers|
  {
    s.(savers := s.savers[v := pc])
  }

  function EndTask(s: State, ledger: Ledger, id: Id, outcome: Outcome): State {
    s.(ledger := ledger, history := s.history.(ended := s.history.ended + [(id, outcome)]))
  }

  /** Submit up to the end of its locked block. */
  function ApplyBegin(s: State, path: string, groupUuid: string, size: nat, overRss: bool): State {
    if s.ledger.Duplicate(path) then s
    else
      var v := s.ledger.NextVersion(path);
      var ledger := s.ledger.Admit(path, overRss);
      if overRss then EndTask(s, ledger, (path, v), OverRss)
      else
        var task := Task(path, v, DispatchGroupKey(groupUuid, path), size);
        s.(ledger := ledger, calls := s.calls + [Waiting(task)])
  }

  function ApplyTake(s: State, w: nat, proceed: bool): State
    requires w < |s.compressors| && s.queue.HasDispatchable()
  {
    var key, batch := s.queue.NextKey(), s.queue.Batch();
    s.(queue := s.queue.AfterTake(),
       compressors := s.compressors[w := if proceed then Compressing(key, batch) else Collecting(key, batch)],
       history := s.history.(dispatched := s.history.dispatched + batch))
  }

  function ApplyCollect(s: State, w: nat, proceed: bool): State
    requires w < |s.compressors| && s.compressors[w].Collecting?
  {
    var key := s.compressors[w].key;
    var found := Matching(s.queue.tasks, key);
    var batch := s.compressors[w].batch + found;
    s.(queue := s.queue.AfterCollect(key),
       compressors := s.compressors[w := if proceed then Compressing(key, batch) else Collecting(key, batch)],
       history := s.history.(dispatched := s.history.dispatched + found))
  }

  function Pack(batch: seq<Task>, payloads: seq<nat>): (packed: seq<Packed>)
    requires |batch| == |payloads|
    ensures |packed| == |batch|
    ensures forall i :: 0 <= i < |batch| ==> packed[i] == Packed(batch[i], payloads[i])
  {
    if batch == [] then []
    else Pack(batch[..|batch| - 1], payloads[..|batch| - 1]) + [Packed(batch[|batch| - 1], payloads[|batch| - 1])]
  }

  function ApplyReport(s: State, v: nat, error: string): State
    requires v < |s.savers| && s.savers[v].Reporting?
  {
    var item := s.savers[v].item;
    var id := IdOf(item.raw);
    if s.savers[v].ok
    then EndTask(SetSaver(s, v, Succeeding(item)), s.ledger.FinalizeSuccess(id), id, Uploaded)
    else EndTask(SetSaver(s, v, SaverIdle), s.ledger.FinalizeError(id, error), id, SaveFailed)
  }

  function Apply(c: Config, s: State, step: Step): State
    requires Enabled(c, s, step)
  {
    match step
    case Begin(path, uuid, size, overRss) => ApplyBegin(s, path, uuid, size, overRss)
    case Enqueue(i) =>
      var t := s.calls[i].task;
      SetCall(s, i, Returned).(queue := s.queue.Push(t),
                               history := s.history.(enqueued := s.history.enqueued + [t]))
    case Evict(i) =>
      SetCall(s, i, Notifying(s.calls[i].task, s.queue.tasks[0])).(queue := s.queue.Evict())
    case Notify(i) =>
      var id := IdOf(s.calls[i].victim);
      EndTask(SetCall(s, i, Waiting(s.calls[i].task)), s.ledger.EvictNotice(id), id, Evicted)
    case Block(i) => SetCall(s, i, Blocked(s.calls[i].task))
    case Reject(i) => SetCall(s, i, Rejected(s.calls[i].task))
    case Take(w, proceed) => ApplyTake(s, w, proceed)
    case Collect(w, proceed) => ApplyCollect(s, w, proceed)
    case Compress(w, payloads) =>
      var pc := s.compressors[w];
      SetCompressor(s, w, Emitting(pc.key, Pack(pc.batch, payloads)))
    case Fail(w) => SetCompressor(s, w, Failing(s.compressors[w].key, s.compressors[w].batch))
    case Emit(w) =>
      var pc := s.compressors[w];
      var item := pc.rest[0];
      SetCompressor(s, w, Releasing(pc.key, item.raw.size, pc.rest[1..])).(
        saveQueue := s.saveQueue + [item], saveBytes := s.saveBytes + item.payload,
        history := s.history.(emitted := s.history.emitted + [item.raw]))
    case Release(w) =>
      var pc := s.compressors[w];
      SetCompressor(s, w, Emitting(pc.key, pc.rest)).(queue := s.queue.Release(pc.bytes))
    case ReportFailure(w) =>
      var pc := s.compressors[w];
      var t := pc.failed[0];
      EndTask(SetCompressor(s, w, FailReleasing(pc.key, t.size, pc.failed[1..])),
              s.ledger.FinalizeError(IdOf(t), "compression failed"), IdOf(t), CompressionFailed)
    case ReleaseFailed(w) =>
      var pc := s.compressors[w];
      SetCompressor(s, w, Failing(pc.key, pc.failed)).(queue := s.queue.Release(pc.bytes))
    case FinishBatch(w) =>
      var key := s.compressors[w].key;
      SetCompressor(s, w, Idle).(
        queue := if key == "" then s.queue else s.queue.(active := s.queue.active - {key}))
    case Exit(w) => SetCompressor(s, w, Exited)
    case StartSave(v) => SetSaver(s, v, Saving(s.saveQueue[0])).(saveQueue := s.saveQueue[1..])
    case EndSave(v, ok) =>
      var item := s.savers[v].item;
      SetSaver(s, v, Reporting(item, ok)).(saveBytes := Less(s.saveBytes, item.payload))
    case Report(v, error) => ApplyReport(s, v, error)
    case Succeed(v) =>
      var id := IdOf(s.savers[v].item.raw);
      SetSaver(s, v, SaverIdle).(history := s.history.(fired := s.history.fired + [id]))
    case ExitSaver(v) => SetSaver(s, v, SaverExited)
    case StopCompression => s.(queue := s.queue.(stopping := true))
    case StopStorage => s.(saveStopping := true)
  }

  /** The state after construction: all worker threads idle, everything empty. */
  function Init(c: Config): State {
    State(EMPTY, Queue.Queue([], 0, {}, false), [], 0, false, [],
          seq(c.compressors, i => Idle), seq(c.savers, i => SaverIdle), History([], [], [], [], []))
  }

  /** `steps` can be taken one after the other from `s`. */
  ghost predicate Run(c: Config, s: State, steps: seq<Step>)
    decreases |steps|
  {
    steps == [] || (Enabled(c, s, steps[0]) && Run(c, Apply(c, s, steps[0]), steps[1..]))
  }

  ghost function Exec(c: Config, s: State, steps: seq<Step>): State
    requires Run(c, s, steps)
    decreases |steps|
  {
    if steps == [] then s else Exec(c, Apply(c, s, steps[0]), steps[1..])
  }
}
