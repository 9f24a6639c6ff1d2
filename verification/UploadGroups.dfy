/** Group dispatch: mutual exclusion per group, homogeneous batches, and the order of a group's
    tasks from the raw queue to the save queue. */
module UploadGroups {
  import opened Totals
  import opened RawQueue
  import opened UploadProtocol
  import opened UploadAccounts

  predicate Busy(pc: Compressor) {
    !pc.Idle? && !pc.Exited?
  }

  /** The tasks a worker still has to hand over, in order. */
  ghost function Tasks(pc: Compressor): seq<Task> {
    match pc
    case Idle => []
    case Exited => []
    case Collecting(_, batch) => batch
    case Compressing(_, batch) => batch
    case Emitting(_, rest) => Raws(rest)
    case Releasing(_, _, rest) => Raws(rest)
    case Failing(_, failed) => failed
    case FailReleasing(_, _, failed) => failed
  }

  ghost function Raws(ps: seq<Packed>): (ts: seq<Task>)
    ensures |ts| == |ps| && forall i :: 0 <= i < |ps| ==> ts[i] == ps[i].raw
  {
    seq(|ps|, i requires 0 <= i < |ps| => ps[i].raw)
  }

  ghost function HasKey(key: string): Compressor -> nat {
    (pc: Compressor) => if Busy(pc) && pc.key == key then 1 else 0
  }

  /** The active keys are exactly the keys of busy workers, each held by one worker. */
  ghost predicate Exclusive(s: State) {
    && "" !in s.queue.active
    && forall key: string :: key != "" ==>
         Sum(s.compressors, HasKey(key)) == if key in s.queue.active then 1 else 0
  }

  /** All tasks of a batch have the worker's key; a batch without a group is one task and is not
      collected. */
  ghost predicate Homogeneous(pc: Compressor) {
    Busy(pc) ==>
      && (forall t :: t in Tasks(pc) ==> t.group == pc.key)
      && (pc.key == "" ==> |Tasks(pc)| <= 1 && !pc.Collecting?)
      && (pc.Collecting? || pc.Compressing? ==> Tasks(pc) != [])
  }

  ghost predicate AllHomogeneous(s: State) {
    forall w :: 0 <= w < |s.compressors| ==> Homogeneous(s.compressors[w])
  }

  /** Of every group, the dispatched tasks followed by the queued ones are a subsequence of the
      enqueued ones: eviction may drop tasks, nothing reorders them. */
  ghost predicate QueueOrdered(s: State) {
    forall key: string ::
      Subsequence(Matching(s.history.dispatched, key) + Matching(s.queue.tasks, key),
                  Matching(s.history.enqueued, key))
  }

  /** `ts` may still follow the emitted tasks of a group without leaving the dispatch order. */
  ghost predicate Ordered(h: History, key: string, ts: seq<Task>) {
    Subsequence(Matching(h.emitted, key) + ts, Matching(h.dispatched, key))
  }

  /** Of every real group, the emitted tasks followed by those its worker still holds are a
      subsequence of the dispatched ones. */
  ghost predicate EmitOrdered(s: State) {
    forall key: string :: key != "" ==> KeyOrdered(s, key)
  }

  ghost predicate KeyOrdered(s: State, key: string) {
    && Ordered(s.history, key, [])
    && forall w :: 0 <= w < |s.compressors| && Busy(s.compressors[w]) && s.compressors[w].key == key ==>
         Ordered(s.history, key, Tasks(s.compressors[w]))
  }

  ghost predicate Groups(s: State) {
    Exclusive(s) && AllHomogeneous(s) && QueueOrdered(s) && EmitOrdered(s)
  }

  // ---- Mutual exclusion ------------------------------------------------------------------------

  /** No two busy workers share a group, and a busy worker's group is active. */
  lemma OneWorkerPerGroup(s: State, i: nat, j: nat)
    requires Exclusive(s) && i < |s.compressors| && j < |s.compressors|
    requires Busy(s.compressors[i]) && s.compressors[i].key != ""
    ensures s.compressors[i].key in s.queue.active
    ensures i != j && Busy(s.compressors[j]) ==> s.compressors[j].key != s.compressors[i].key
  {
    var key := s.compressors[i].key;
    SumUpdate(s.compressors, i, Idle, HasKey(key));
    if i < j {
      SumOfTwo(s.compressors, i, j, HasKey(key));
    } else if j < i {
      SumOfTwo(s.compressors, j, i, HasKey(key));
    }
  }

  lemma NextKeyFree(q: Queue)
    requires q.HasDispatchable()
    ensures q.NextKey() != "" ==> q.NextKey() !in q.active
    ensures q.AfterTake().active == if q.NextKey() == "" then q.active else q.active + {q.NextKey()}
  {
    BatchShape(q);
  }

  /** A worker takes a free key, gives its key up, or keeps it. */
  ghost predicate KeysMove(pc: Compressor, pc': Compressor, active: set<string>, active': set<string>) {
    || (Busy(pc') && !Busy(pc) && (pc'.key != "" ==> pc'.key !in active)
        && active' == active + if pc'.key == "" then {} else {pc'.key})
    || (Busy(pc) && !Busy(pc') && active' == active - if pc.key == "" then {} else {pc.key})
    || (Busy(pc) == Busy(pc') && (Busy(pc) ==> pc.key == pc'.key) && active' == active)
  }

  lemma KeyEffect(c: Config, s: State, step: Step)
    requires Enabled(c, s, step) && CompressionStep(step)
    ensures var s' := Apply(c, s, step); var pc, pc' := s.compressors[step.w], s'.compressors[step.w];
            && s'.compressors == s.compressors[step.w := pc']
            && KeysMove(pc, pc', s.queue.active, s'.queue.active)
  {
    if step.Take? {
      NextKeyFree(s.queue);
    }
  }

  lemma KeyCounted(ws: seq<Compressor>, w: nat, pc: Compressor, active: set<string>, active': set<string>, key: string)
    requires w < |ws| && key != "" && KeysMove(ws[w], pc, active, active')
    requires Sum(ws, HasKey(key)) == if key in active then 1 else 0
    ensures Sum(ws[w := pc], HasKey(key)) == if key in active' then 1 else 0
  {
    SumUpdate(ws, w, pc, HasKey(key));
  }

  lemma StepKeepsExclusive(c: Config, s: State, step: Step)
    requires Exclusive(s) && Enabled(c, s, step)
    ensures Exclusive(Apply(c, s, step))
  {
    var s' := Apply(c, s, step);
    if CompressionStep(step) {
      KeyEffect(c, s, step);
      forall key: string | key != ""
        ensures Sum(s'.compressors, HasKey(key)) == if key in s'.queue.active then 1 else 0
      {
        KeyCounted(s.compressors, step.w, s'.compressors[step.w], s.queue.active, s'.queue.active, key);
      }
    } else {
      QuietKeys(c, s, step);
    }
  }

  lemma QuietKeys(c: Config, s: State, step: Step)
    requires Enabled(c, s, step) && !CompressionStep(step)
    ensures Apply(c, s, step).compressors == s.compressors && Apply(c, s, step).queue.active == s.queue.active
  {
  }

  // ---- Homogeneous batches ---------------------------------------------------------------------

  lemma DispatchHomogeneous(c: Config, s: State, step: Step)
    requires AllHomogeneous(s) && Enabled(c, s, step) && (step.Take? || step.Collect?)
    ensures Homogeneous(Apply(c, s, step).compressors[step.w])
  {
    if step.Take? {
      BatchShape(s.queue);
    } else {
      MatchingKeys(s.queue.tasks, s.compressors[step.w].key);
    }
  }

  lemma PackHomogeneous(key: string, batch: seq<Task>, payloads: seq<nat>)
    requires Homogeneous(Compressing(key, batch)) && |payloads| == |batch|
    ensures Homogeneous(Emitting(key, Pack(batch, payloads)))
  {
    assert Raws(Pack(batch, payloads)) == batch;
  }

  lemma RestHomogeneous(key: string, rest: seq<Packed>, bytes: nat)
    requires Homogeneous(Emitting(key, rest)) && rest != []
    ensures Homogeneous(Releasing(key, bytes, rest[1..]))
  {
    assert Raws(rest[1..]) == Raws(rest)[1..];
  }

  lemma WorkerHomogeneous(c: Config, s: State, step: Step)
    requires AllHomogeneous(s) && Enabled(c, s, step) && CompressionStep(step)
    ensures Homogeneous(Apply(c, s, step).compressors[step.w])
  {
    var pc := s.compressors[step.w];
    if step.Take? || step.Collect? {
      DispatchHomogeneous(c, s, step);
    } else if step.Compress? {
      PackHomogeneous(pc.key, pc.batch, step.payloads);
    } else if step.Emit? {
      RestHomogeneous(pc.key, pc.rest, pc.rest[0].raw.size);
    }
  }

  lemma StepKeepsHomogeneous(c: Config, s: State, step: Step)
    requires AllHomogeneous(s) && Enabled(c, s, step)
    ensures AllHomogeneous(Apply(c, s, step))
  {
    if CompressionStep(step) {
      WorkerHomogeneous(c, s, step);
    }
  }

  // ---- Order in the raw queue ------------------------------------------------------------------

  lemma AppendToBoth(d: seq<Task>, q: seq<Task>, e: seq<Task>, more: seq<Task>)
    requires Subsequence(d + q, e)
    ensures Subsequence(d + (q + more), e + more)
  {
    SubsequenceAppend(d + q, e, more);
    assert d + (q + more) == (d + q) + more;
  }

  lemma EnqueueOrdered(s: State, t: Task, key: string)
    requires QueueOrdered(s)
    ensures Subsequence(Matching(s.history.dispatched, key) + Matching(s.queue.tasks + [t], key),
                        Matching(s.history.enqueued + [t], key))
  {
    var d, q, e := Matching(s.history.dispatched, key), Matching(s.queue.tasks, key), Matching(s.history.enqueued, key);
    MatchingConcat(s.queue.tasks, [t], key);
    MatchingConcat(s.history.enqueued, [t], key);
    AppendToBoth(d, q, e, Matching([t], key));
  }

  lemma DropMiddle(d: seq<Task>, t: Task, rest: seq<Task>, e: seq<Task>)
    requires Subsequence(d + ([t] + rest), e)
    ensures Subsequence(d + rest, e)
  {
    var all := d + ([t] + rest);
    SubsequenceDelete(all, |d|, e);
    assert all[..|d|] + all[|d| + 1..] == d + rest;
  }

  lemma EvictOrdered(s: State, key: string)
    requires QueueOrdered(s) && s.queue.tasks != []
    ensures Subsequence(Matching(s.history.dispatched, key) + Matching(s.queue.tasks[1..], key),
                        Matching(s.history.enqueued, key))
  {
    var d, e := Matching(s.history.dispatched, key), Matching(s.history.enqueued, key);
    var t, rest := s.queue.tasks[0], s.queue.tasks[1..];
    assert s.queue.tasks == [t] + rest;
    MatchingConcat([t], rest, key);
    MatchingOne(t, key);
    if t.group == key {
      DropMiddle(d, t, Matching(rest, key), e);
    } else {
      assert [] + Matching(rest, key) == Matching(rest, key);
    }
  }

  /** Moving the front of every group from the queue to the dispatched tasks. */
  lemma DispatchOrdered(s: State, moved: seq<Task>, left: seq<Task>, key: string)
    requires QueueOrdered(s) && Matching(moved, key) + Matching(left, key) == Matching(s.queue.tasks, key)
    ensures Subsequence(Matching(s.history.dispatched + moved, key) + Matching(left, key),
                        Matching(s.history.enqueued, key))
  {
    MatchingConcat(s.history.dispatched, moved, key);
    var d := Matching(s.history.dispatched, key);
    assert (d + Matching(moved, key)) + Matching(left, key) == d + (Matching(moved, key) + Matching(left, key));
  }

  lemma StepKeepsQueueOrdered(c: Config, s: State, step: Step)
    requires QueueOrdered(s) && Enabled(c, s, step)
    ensures QueueOrdered(Apply(c, s, step))
  {
    forall key: string
      ensures var s' := Apply(c, s, step);
              Subsequence(Matching(s'.history.dispatched, key) + Matching(s'.queue.tasks, key),
                          Matching(s'.history.enqueued, key))
    {
      if step.Enqueue? {
        EnqueueOrdered(s, s.calls[step.c].task, key);
      } else if step.Evict? {
        EvictOrdered(s, key);
      } else if step.Take? {
        TakeKeepsOrder(s.queue, key);
        DispatchOrdered(s, s.queue.Batch(), s.queue.AfterTake().tasks, key);
      } else if step.Collect? {
        var group := s.compressors[step.w].key;
        CollectKeepsOrder(s.queue, group, key);
        DispatchOrdered(s, Matching(s.queue.tasks, group), Others(s.queue.tasks, group), key);
      } else {
        QuietQueue(c, s, step);
      }
    }
  }

  lemma QuietQueue(c: Config, s: State, step: Step)
    requires Enabled(c, s, step) && !step.Enqueue? && !step.Evict? && !step.Take? && !step.Collect?
    ensures var s' := Apply(c, s, step);
            && s'.history.dispatched == s.history.dispatched && s'.history.enqueued == s.history.enqueued
            && s'.queue.tasks == s.queue.tasks
  {
  }

  // ---- Order up to the save queue --------------------------------------------------------------

  lemma {:induction false} MatchingAll(ts: seq<Task>, key: string)
    requires forall t :: t in ts ==> t.group == key
    ensures Matching(ts, key) == ts
  {
    if ts == [] {
    } else {
      MatchingAll(ts[..|ts| - 1], key);
      assert ts == ts[..|ts| - 1] + [ts[|ts| - 1]];
    }
  }

  /** Dispatching tasks: those of the group may be appended, the others do not matter. */
  lemma OrderedDispatch(h: History, key: string, ts: seq<Task>, moved: seq<Task>)
    requires Ordered(h, key, ts)
    ensures Ordered(h.(dispatched := h.dispatched + moved), key, ts + Matching(moved, key))
    ensures Ordered(h.(dispatched := h.dispatched + moved), key, ts)
  {
    MatchingConcat(h.dispatched, moved, key);
    AppendBoth(Matching(h.emitted, key), ts, Matching(h.dispatched, key), Matching(moved, key));
  }

  lemma AppendBoth(e: seq<Task>, ts: seq<Task>, d: seq<Task>, m: seq<Task>)
    requires Subsequence(e + ts, d)
    ensures Subsequence(e + (ts + m), d + m) && Subsequence(e + ts, d + m)
  {
    SubsequenceAppend(e + ts, d, m);
    assert (e + ts) + m == e + (ts + m);
    SubsequenceGrow(e + ts, d, m);
  }

  /** Emitting the next task of the group, or a task of another group. */
  lemma OrderedEmit(h: History, key: string, ts: seq<Task>, t: Task)
    requires if t.group == key then Ordered(h, key, [t] + ts) else Ordered(h, key, ts)
    ensures Ordered(h.(emitted := h.emitted + [t]), key, ts)
  {
    var e := Matching(h.emitted, key);
    MatchingConcat(h.emitted, [t], key);
    MatchingOne(t, key);
    assert t.group == key ==> (e + [t]) + ts == e + ([t] + ts);
    assert t.group != key ==> e + [] == e;
  }

  lemma OrderedEmitOwn(h: History, t: Task, ts: seq<Task>)
    requires Ordered(h, t.group, [t] + ts)
    ensures var h' := h.(emitted := h.emitted + [t]);
            Ordered(h', t.group, ts) && Ordered(h', t.group, [])
  {
    OrderedEmit(h, t.group, ts, t);
    var e := Matching(h.emitted + [t], t.group);
    SubsequencePrefix(e, ts, Matching(h.dispatched, t.group));
    assert e + [] == e;
  }

  lemma OrderedTail(h: History, key: string, ts: seq<Task>)
    requires ts != [] && Ordered(h, key, ts)
    ensures Ordered(h, key, ts[1..]) && Ordered(h, key, [])
  {
    var e := Matching(h.emitted, key);
    SubsequenceDelete(e + ts, |e|, Matching(h.dispatched, key));
    assert (e + ts)[..|e|] + (e + ts)[|e| + 1..] == e + ts[1..];
    SubsequencePrefix(e, ts, Matching(h.dispatched, key));
    assert e + [] == e;
  }

  lemma TakeEmitOrdered(c: Config, s: State, step: Step, key: string)
    requires KeyOrdered(s, key) && Enabled(c, s, step) && step.Take? && key != ""
    ensures KeyOrdered(Apply(c, s, step), key)
  {
    var s' := Apply(c, s, step);
    var batch := s.queue.Batch();
    BatchShape(s.queue);
    OrderedDispatch(s.history, key, [], batch);
    assert [] + Matching(batch, key) == Matching(batch, key);
    forall w | 0 <= w < |s'.compressors| && Busy(s'.compressors[w]) && s'.compressors[w].key == key
      ensures Ordered(s'.history, key, Tasks(s'.compressors[w]))
    {
      if w == step.w {
        MatchingAll(batch, key);
      } else {
        OrderedDispatch(s.history, key, Tasks(s.compressors[w]), batch);
      }
    }
  }

  lemma CollectEmitOrdered(c: Config, s: State, step: Step, key: string)
    requires KeyOrdered(s, key) && Enabled(c, s, step) && step.Collect? && key != ""
    ensures KeyOrdered(Apply(c, s, step), key)
  {
    var s' := Apply(c, s, step);
    var found := Matching(s.queue.tasks, s.compressors[step.w].key);
    OrderedDispatch(s.history, key, [], found);
    forall w | 0 <= w < |s'.compressors| && Busy(s'.compressors[w]) && s'.compressors[w].key == key
      ensures Ordered(s'.history, key, Tasks(s'.compressors[w]))
    {
      OrderedDispatch(s.history, key, Tasks(s.compressors[w]), found);
      if w == step.w {
        MatchingKeys(s.queue.tasks, key);
        MatchingAll(found, key);
      }
    }
  }

  lemma SoleWorker(s: State, w: nat)
    requires Exclusive(s) && w < |s.compressors| && Busy(s.compressors[w]) && s.compressors[w].key != ""
    ensures forall v :: 0 <= v < |s.compressors| && Busy(s.compressors[v]) ==>
              s.compressors[v].key == s.compressors[w].key ==> v == w
  {
    forall v | 0 <= v < |s.compressors| && Busy(s.compressors[v]) && s.compressors[v].key == s.compressors[w].key
      ensures v == w
    {
      OneWorkerPerGroup(s, w, v);
    }
  }

  lemma EmitTasks(key: string, rest: seq<Packed>)
    requires Homogeneous(Emitting(key, rest)) && rest != []
    ensures rest[0].raw.group == key && Raws(rest) == [rest[0].raw] + Raws(rest[1..])
  {
    assert rest[0].raw == Raws(rest)[0] && rest[0].raw in Tasks(Emitting(key, rest));
  }

  lemma EmitEffect(c: Config, s: State, step: Step)
    requires Enabled(c, s, step) && step.Emit? && Homogeneous(s.compressors[step.w])
    ensures var s' := Apply(c, s, step); var pc := s.compressors[step.w]; var t := pc.rest[0].raw;
            && s'.history == s.history.(emitted := s.history.emitted + [t])
            && t.group == pc.key && Tasks(pc) == [t] + Tasks(s'.compressors[step.w])
            && s'.compressors == s.compressors[step.w := s'.compressors[step.w]]
            && Busy(s'.compressors[step.w]) && s'.compressors[step.w].key == pc.key
  {
    EmitTasks(s.compressors[step.w].key, s.compressors[step.w].rest);
  }

  /** Emitting a task of the group itself: only its own worker holds tasks of it. */
  lemma EmitOwnGroup(c: Config, s: State, step: Step)
    requires Enabled(c, s, step) && step.Emit? && s.compressors[step.w].key != ""
    requires KeyOrdered(s, s.compressors[step.w].key) && Exclusive(s) && AllHomogeneous(s)
    ensures KeyOrdered(Apply(c, s, step), s.compressors[step.w].key)
  {
    EmitEffect(c, s, step);
    SoleWorker(s, step.w);
    var s' := Apply(c, s, step);
    OrderedEmitOwn(s.history, s.compressors[step.w].rest[0].raw, Tasks(s'.compressors[step.w]));
  }

  lemma EmitOtherGroup(c: Config, s: State, step: Step, key: string)
    requires Enabled(c, s, step) && step.Emit? && s.compressors[step.w].key != key
    requires KeyOrdered(s, key) && AllHomogeneous(s)
    ensures KeyOrdered(Apply(c, s, step), key)
  {
    var s' := Apply(c, s, step);
    var t := s.compressors[step.w].rest[0].raw;
    EmitEffect(c, s, step);
    OrderedEmit(s.history, key, [], t);
    forall w | 0 <= w < |s'.compressors| && Busy(s'.compressors[w]) && s'.compressors[w].key == key
      ensures Ordered(s'.history, key, Tasks(s'.compressors[w]))
    {
      OrderedEmit(s.history, key, Tasks(s.compressors[w]), t);
    }
  }

  lemma QuietEmitOrdered(c: Config, s: State, step: Step, key: string)
    requires KeyOrdered(s, key) && Enabled(c, s, step) && !step.Take? && !step.Collect? && !step.Emit?
    ensures KeyOrdered(Apply(c, s, step), key)
  {
    var s' := Apply(c, s, step);
    QuietWorkers(c, s, step);
    forall w | 0 <= w < |s'.compressors| && Busy(s'.compressors[w]) && s'.compressors[w].key == key
      ensures Ordered(s'.history, key, Tasks(s'.compressors[w]))
    {
      var pc := s.compressors[w];
      if Tasks(pc) != [] {
        OrderedTail(s.history, key, Tasks(pc));
      }
    }
  }

  lemma QuietWorkers(c: Config, s: State, step: Step)
    requires Enabled(c, s, step) && !step.Take? && !step.Collect? && !step.Emit?
    ensures var s' := Apply(c, s, step);
            && s'.history.emitted == s.history.emitted && s'.history.dispatched == s.history.dispatched
            && |s'.compressors| == |s.compressors|
            && forall w :: 0 <= w < |s'.compressors| && Busy(s'.compressors[w]) ==>
                 && Busy(s.compressors[w]) && s'.compressors[w].key == s.compressors[w].key
                 && (Tasks(s'.compressors[w]) == Tasks(s.compressors[w])
                     || (Tasks(s.compressors[w]) != [] && Tasks(s'.compressors[w]) == Tasks(s.compressors[w])[1..]))
  {
    if step.Compress? {
      var pc := s.compressors[step.w];
      assert Raws(Pack(pc.batch, step.payloads)) == pc.batch;
    }
  }

  lemma StepKeepsEmitOrdered(c: Config, s: State, step: Step)
    requires Groups(s) && Enabled(c, s, step)
    ensures EmitOrdered(Apply(c, s, step))
  {
    forall key: string | key != "" ensures KeyOrdered(Apply(c, s, step), key) {
      if step.Take? {
        TakeEmitOrdered(c, s, step, key);
      } else if step.Collect? {
        CollectEmitOrdered(c, s, step, key);
      } else if step.Emit? {
        if s.compressors[step.w].key == key {
          EmitOwnGroup(c, s, step);
        } else {
          EmitOtherGroup(c, s, step, key);
        }
      } else {
        QuietEmitOrdered(c, s, step, key);
      }
    }
  }

  // ---- Over every run --------------------------------------------------------------------------

  lemma StepKeepsGroups(c: Config, s: State, step: Step)
    requires Groups(s) && Enabled(c, s, step)
    ensures Groups(Apply(c, s, step))
  {
    StepKeepsExclusive(c, s, step);
    StepKeepsHomogeneous(c, s, step);
    StepKeepsQueueOrdered(c, s, step);
    StepKeepsEmitOrdered(c, s, step);
  }

  lemma InitGroups(c: Config)
    ensures Groups(Init(c))
  {
    forall key: string ensures Sum(Init(c).compressors, HasKey(key)) == 0 {
      SumZero(Init(c).compressors, HasKey(key));
    }
  }

  lemma {:induction false} RunKeepsGroups(c: Config, s: State, steps: seq<Step>)
    requires Groups(s) && Run(c, s, steps)
    ensures Groups(Exec(c, s, steps))
    decreases |steps|
  {
    if steps == [] {
    } else {
      StepKeepsGroups(c, s, steps[0]);
      RunKeepsGroups(c, Apply(c, s, steps[0]), steps[1..]);
    }
  }

  /** End to end: the tasks of a real group reach the save queue in the order in which they were
      enqueued, whatever the interleaving. */
  lemma GroupFifo(c: Config, steps: seq<Step>, key: string)
    requires Run(c, Init(c), steps) && key != ""
    ensures var h := Exec(c, Init(c), steps).history;
            Subsequence(Matching(h.emitted, key), Matching(h.enqueued, key))
  {
    InitGroups(c);
    RunKeepsGroups(c, Init(c), steps);
    var s := Exec(c, Init(c), steps);
    var h := s.history;
    var d := Matching(h.dispatched, key);
    assert KeyOrdered(s, key);
    assert Matching(h.emitted, key) + [] == Matching(h.emitted, key);
    SubsequencePrefix(d, Matching(s.queue.tasks, key), Matching(h.enqueued, key));
    SubsequenceTrans(Matching(h.emitted, key), d, Matching(h.enqueued, key));
  }
}
