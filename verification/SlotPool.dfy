/** The shared buffer pool between the main process and the offload workers: slot indices travel from
    the free queue through a submitter, a request message, a worker and the done queue back to the
    free queue. */
module SlotPool {
  import opened Totals

  type Data = seq<int>

  /** What a request names: its slot and length, and, for the record, the data its submitter copied. */
  datatype Req = Req(slot: nat, length: nat, data: Data)

  datatype Message = Request(req: Req) | Shutdown

  datatype Submitter = Idle(todo: seq<Data>)
                     | Acquired(slot: nat, todo: seq<Data>)
                     | Copied(slot: nat, data: Data, todo: seq<Data>)

  datatype Worker = Waiting
                  | Holding(req: Req)
                  | Cloned(req: Req, clone: Data)
                  | HandedBack(req: Req, clone: Data)
                  | Exited

  datatype Reclaimer = Empty | Carrying(slot: nat)

  /** `posted` and `taken` are the messages put on and got from the request queue, `clones` what the
      workers cloned with what had been submitted, `late` the slots whose handler raised after handing
      its slot back, `leaked` those lost by a submitter. */
  datatype State = State(
    slots: nat, maxLength: nat, queueSize: nat,
    free: seq<nat>, submitters: seq<Submitter>, requests: seq<Message>, workers: seq<Worker>,
    done: seq<nat>, reclaimer: Reclaimer, buffers: seq<Data>,
    leaked: seq<nat>, posted: seq<Message>, taken: seq<Message>, clones: seq<(Data, Data)>, late: seq<nat>)

  datatype Step =
    | Acquire(i: nat)
    | Copy(i: nat)
    | Put(i: nat)
    | SendShutdown
    | Take(w: nat)
    | Clone(w: nat)
    | RaiseEarly(w: nat)
    | HandBack(w: nat)
    | Finish(w: nat)
    | RaiseLate(w: nat)
    | Get
    | Release

  ghost predicate Enabled(s: State, step: Step) {
    match step
    case Acquire(i) => i < |s.submitters| && s.submitters[i].Idle? && s.submitters[i].todo != [] && s.free != []
    case Copy(i) => i < |s.submitters| && s.submitters[i].Acquired? && s.submitters[i].todo != []
    case Put(i) => i < |s.submitters| && s.submitters[i].Copied? && |s.requests| < s.queueSize
    case SendShutdown => |s.requests| < s.queueSize
    case Take(w) => w < |s.workers| && s.workers[w].Waiting? && s.requests != []
    case Clone(w) => w < |s.workers| && s.workers[w].Holding?
    case RaiseEarly(w) => w < |s.workers| && (s.workers[w].Holding? || s.workers[w].Cloned?)
    case HandBack(w) => w < |s.workers| && s.workers[w].Cloned?
    case Finish(w) => w < |s.workers| && s.workers[w].HandedBack?
    case RaiseLate(w) => w < |s.workers| && s.workers[w].HandedBack?
    case Get => s.reclaimer.Empty? && s.done != []
    case Release => s.reclaimer.Carrying?
  }

  /** `buffer[:n]`. */
  ghost function Slice(buffer: Data, n: nat): Data {
    if n <= |buffer| then buffer[..n] else buffer
  }

  /** The first rows of a buffer overwritten. */
  ghost function CopiedInto(buffers: seq<Data>, slot: nat, data: Data): seq<Data> {
    if slot < |buffers| && |data| <= |buffers[slot]|
    then buffers[slot := data + buffers[slot][|data|..]] else buffers
  }

  /** A copy longer than the buffer raises in the submitter, which then no longer knows its slot. */
  ghost function Apply(s: State, step: Step): State
    requires Enabled(s, step)
  {
    match step
    case Acquire(i) =>
      s.(free := s.free[1..], submitters := s.submitters[i := Acquired(s.free[0], s.submitters[i].todo)])
    case Copy(i) =>
      var slot, data, rest := s.submitters[i].slot, s.submitters[i].todo[0], s.submitters[i].todo[1..];
      if |data| <= s.maxLength then
        s.(buffers := CopiedInto(s.buffers, slot, data), submitters := s.submitters[i := Copied(slot, data, rest)])
      else
        s.(submitters := s.submitters[i := Idle(rest)], leaked := s.leaked + [slot])
    case Put(i) =>
      var msg := Request(Req(s.submitters[i].slot, |s.submitters[i].data|, s.submitters[i].data));
      s.(submitters := s.submitters[i := Idle(s.submitters[i].todo)],
         requests := s.requests + [msg], posted := s.posted + [msg])
    case SendShutdown =>
      s.(requests := s.requests + [Shutdown], posted := s.posted + [Shutdown])
    case Take(w) =>
      var msg := s.requests[0];
      s.(requests := s.requests[1..], taken := s.taken + [msg],
         workers := s.workers[w := if msg.Shutdown? then Exited else Holding(msg.req)])
    case Clone(w) =>
      var req := s.workers[w].req;
      var clone := if req.slot < |s.buffers| then Slice(s.buffers[req.slot], req.length) else [];
      s.(workers := s.workers[w := Cloned(req, clone)], clones := s.clones + [(req.data, clone)])
    case RaiseEarly(w) =>
      s.(workers := s.workers[w := Waiting], done := s.done + [s.workers[w].req.slot])
    case HandBack(w) =>
      s.(workers := s.workers[w := HandedBack(s.workers[w].req, s.workers[w].clone)],
         done := s.done + [s.workers[w].req.slot])
    case Finish(w) =>
      s.(workers := s.workers[w := Waiting])
    case RaiseLate(w) =>
      s.(workers := s.workers[w := Waiting], done := s.done + [s.workers[w].req.slot],
         late := s.late + [s.workers[w].req.slot])
    case Get =>
      s.(done := s.done[1..], reclaimer := Carrying(s.done[0]))
    case Release =>
      s.(free := s.free + [s.reclaimer.slot], reclaimer := Empty)
  }

  ghost predicate Init(s: State) {
    && |s.free| == |s.buffers| == s.slots && (forall k :: 0 <= k < s.slots ==> s.free[k] == k)
    && (forall k :: 0 <= k < s.slots ==> |s.buffers[k]| == s.maxLength)
    && (forall i :: 0 <= i < |s.submitters| ==> s.submitters[i].Idle?)
    && (forall w :: 0 <= w < |s.workers| ==> s.workers[w].Waiting?)
    && s.requests == [] && s.done == [] && s.reclaimer == Empty
    && s.leaked == [] && s.posted == [] && s.taken == [] && s.clones == [] && s.late == []
  }

  /** `steps` is a run from `s`. */
  ghost predicate Run(s: State, steps: seq<Step>)
    decreases |steps|
  {
    steps == [] || (Enabled(s, steps[0]) && Run(Apply(s, steps[0]), steps[1..]))
  }

  ghost function Exec(s: State, steps: seq<Step>): State
    requires Run(s, steps)
    decreases |steps|
  {
    if steps == [] then s else Exec(Apply(s, steps[0]), steps[1..])
  }

  // ---- Where a slot is -------------------------------------------------------------------------

  ghost function Is(slot: nat): nat -> nat {
    (n: nat) => if n == slot then 1 else 0
  }

  ghost function InSubmitter(slot: nat): Submitter -> nat {
    (p: Submitter) => if !p.Idle? && p.slot == slot then 1 else 0
  }

  ghost function InMessage(slot: nat): Message -> nat {
    (m: Message) => if m.Request? && m.req.slot == slot then 1 else 0
  }

  ghost function InWorker(slot: nat): Worker -> nat {
    (w: Worker) => if (w.Holding? || w.Cloned?) && w.req.slot == slot then 1 else 0
  }

  ghost function InReclaimer(r: Reclaimer, slot: nat): nat {
    if r == Carrying(slot) then 1 else 0
  }

  /** In how many places a slot is: free queue, submitter, request message, worker, done queue,
      reclaimer, or lost. */
  ghost function Places(s: State, slot: nat): nat {
    Sum(s.free, Is(slot)) + Sum(s.submitters, InSubmitter(slot)) + Sum(s.requests, InMessage(slot))
    + Sum(s.workers, InWorker(slot)) + Sum(s.done, Is(slot)) + InReclaimer(s.reclaimer, slot)
    + Sum(s.leaked, Is(slot))
  }

  /** Every slot is in one place, plus one for each time its handler raised late. */
  ghost predicate Conserved(s: State) {
    forall slot: nat :: Places(s, slot) == (if slot < s.slots then 1 else 0) + Sum(s.late, Is(slot))
  }

  lemma Appended(xs: seq<nat>, x: nat, slot: nat)
    ensures Sum(xs + [x], Is(slot)) == Sum(xs, Is(slot)) + Is(slot)(x)
  {
    SumConcat(xs, [x], Is(slot));
    SumOne(x, Is(slot));
  }

  lemma Posted(ms: seq<Message>, m: Message, slot: nat)
    ensures Sum(ms + [m], InMessage(slot)) == Sum(ms, InMessage(slot)) + InMessage(slot)(m)
  {
    SumConcat(ms, [m], InMessage(slot));
    SumOne(m, InMessage(slot));
  }

  lemma SubmitterPlaces(s: State, step: Step, slot: nat)
    requires Enabled(s, step) && (step.Acquire? || step.Copy? || step.Put? || step.SendShutdown?)
    ensures Places(Apply(s, step), slot) == Places(s, slot)
  {
    if !step.SendShutdown? {
      SumUpdate(s.submitters, step.i, Apply(s, step).submitters[step.i], InSubmitter(slot));
    }
    match step
    case Acquire(i) => SumHead(s.free, Is(slot));
    case Copy(i) => Appended(s.leaked, s.submitters[i].slot, slot);
    case Put(i) =>
      Posted(s.requests, Request(Req(s.submitters[i].slot, |s.submitters[i].data|, s.submitters[i].data)), slot);
    case SendShutdown => Posted(s.requests, Shutdown, slot);
  }

  lemma WorkerPlaces(s: State, step: Step, slot: nat)
    requires Enabled(s, step)
    requires step.Take? || step.Clone? || step.RaiseEarly? || step.HandBack? || step.Finish? || step.RaiseLate?
    ensures Places(Apply(s, step), slot)
            == Places(s, slot) + if step.RaiseLate? && s.workers[step.w].req.slot == slot then 1 else 0
  {
    SumUpdate(s.workers, step.w, Apply(s, step).workers[step.w], InWorker(slot));
    if step.Take? {
      SumHead(s.requests, InMessage(slot));
    } else if step.RaiseEarly? || step.HandBack? || step.RaiseLate? {
      Appended(s.done, s.workers[step.w].req.slot, slot);
    }
  }

  lemma ReclaimerPlaces(s: State, step: Step, slot: nat)
    requires Enabled(s, step) && (step.Get? || step.Release?)
    ensures Places(Apply(s, step), slot) == Places(s, slot)
  {
    if step.Get? {
      SumHead(s.done, Is(slot));
    } else {
      Appended(s.free, s.reclaimer.slot, slot);
    }
  }

  lemma StepConserves(s: State, step: Step)
    requires Enabled(s, step) && Conserved(s)
    ensures Conserved(Apply(s, step))
  {
    var after := Apply(s, step);
    forall slot: nat
      ensures Places(after, slot) == (if slot < after.slots then 1 else 0) + Sum(after.late, Is(slot))
    {
      if step.Get? || step.Release? {
        ReclaimerPlaces(s, step, slot);
      } else if step.Acquire? || step.Copy? || step.Put? || step.SendShutdown? {
        SubmitterPlaces(s, step, slot);
      } else {
        WorkerPlaces(s, step, slot);
        if step.RaiseLate? {
          Appended(s.late, s.workers[step.w].req.slot, slot);
        }
      }
    }
  }

  // ---- What the workers clone ------------------------------------------------------------------

  /** The slot still holds what was copied into it. */
  ghost predicate Loaded(buffers: seq<Data>, slot: nat, data: Data) {
    slot < |buffers| && |data| <= |buffers[slot]| && buffers[slot][..|data|] == data
  }

  ghost predicate ReqLoaded(buffers: seq<Data>, req: Req) {
    req.length == |req.data| && Loaded(buffers, req.slot, req.data)
  }

  ghost predicate SubmitterIntact(buffers: seq<Data>, p: Submitter) {
    p.Copied? ==> Loaded(buffers, p.slot, p.data)
  }

  ghost predicate MessageIntact(buffers: seq<Data>, m: Message) {
    m.Request? ==> ReqLoaded(buffers, m.req)
  }

  ghost predicate WorkerIntact(buffers: seq<Data>, w: Worker) {
    && (w.Holding? ==> ReqLoaded(buffers, w.req))
    && (w.Cloned? || w.HandedBack? ==> w.clone == w.req.data)
  }

  /** Everything in transit is intact, and every clone made is what had been submitted. */
  ghost predicate Intact(s: State) {
    && |s.buffers| == s.slots && (forall k :: 0 <= k < s.slots ==> |s.buffers[k]| == s.maxLength)
    && (forall i :: 0 <= i < |s.submitters| ==> SubmitterIntact(s.buffers, s.submitters[i]))
    && (forall k :: 0 <= k < |s.requests| ==> MessageIntact(s.buffers, s.requests[k]))
    && (forall w :: 0 <= w < |s.workers| ==> WorkerIntact(s.buffers, s.workers[w]))
    && (forall k :: 0 <= k < |s.clones| ==> s.clones[k].0 == s.clones[k].1)
  }

  /** Without late raises a slot held by a submitter is nowhere else. */
  lemma SoleHolder(s: State, i: nat)
    requires Conserved(s) && s.late == [] && i < |s.submitters| && !s.submitters[i].Idle?
    ensures s.submitters[i].slot < s.slots
    ensures forall j :: 0 <= j < |s.submitters| && j != i ==> InSubmitter(s.submitters[i].slot)(s.submitters[j]) == 0
    ensures forall k :: 0 <= k < |s.requests| ==> InMessage(s.submitters[i].slot)(s.requests[k]) == 0
    ensures forall w :: 0 <= w < |s.workers| ==> InWorker(s.submitters[i].slot)(s.workers[w]) == 0
  {
    var slot := s.submitters[i].slot;
    assert Places(s, slot) <= 1;
    SumUpdate(s.submitters, i, s.submitters[i], InSubmitter(slot));
    forall j | 0 <= j < |s.submitters| && j != i ensures InSubmitter(slot)(s.submitters[j]) == 0 {
      SumOfTwo(s.submitters, if i < j then i else j, if i < j then j else i, InSubmitter(slot));
    }
    forall k | 0 <= k < |s.requests| ensures InMessage(slot)(s.requests[k]) == 0 {
      SumUpdate(s.requests, k, s.requests[k], InMessage(slot));
    }
    forall w | 0 <= w < |s.workers| ensures InWorker(slot)(s.workers[w]) == 0 {
      SumUpdate(s.workers, w, s.workers[w], InWorker(slot));
    }
  }

  lemma OtherSlot(buffers: seq<Data>, slot: nat, data: Data, other: nat, kept: Data)
    requires slot != other && Loaded(buffers, other, kept)
    ensures Loaded(CopiedInto(buffers, slot, data), other, kept)
  {
  }

  lemma CopyIntact(s: State, i: nat)
    requires Enabled(s, Copy(i)) && Conserved(s) && s.late == [] && Intact(s)
    ensures Intact(Apply(s, Copy(i)))
  {
    SoleHolder(s, i);
    var slot, data := s.submitters[i].slot, s.submitters[i].todo[0];
    var after := Apply(s, Copy(i));
    if |data| <= s.maxLength {
      assert Loaded(after.buffers, slot, data);
      forall j | 0 <= j < |s.submitters| && j != i ensures SubmitterIntact(after.buffers, s.submitters[j]) {
        if s.submitters[j].Copied? { OtherSlot(s.buffers, slot, data, s.submitters[j].slot, s.submitters[j].data); }
      }
      forall k | 0 <= k < |s.requests| ensures MessageIntact(after.buffers, s.requests[k]) {
        if s.requests[k].Request? { OtherSlot(s.buffers, slot, data, s.requests[k].req.slot, s.requests[k].req.data); }
      }
      forall w | 0 <= w < |s.workers| ensures WorkerIntact(after.buffers, s.workers[w]) {
        if s.workers[w].Holding? { OtherSlot(s.buffers, slot, data, s.workers[w].req.slot, s.workers[w].req.data); }
      }
    }
  }

  lemma StepIntact(s: State, step: Step)
    requires Enabled(s, step) && Conserved(s) && s.late == [] && Intact(s)
    ensures Intact(Apply(s, step))
  {
    if step.Copy? {
      CopyIntact(s, step.i);
    }
  }

  // ---- Order of messages -----------------------------------------------------------------------

  ghost function HasExited(): Worker -> nat {
    (w: Worker) => if w.Exited? then 1 else 0
  }

  ghost function IsShutdown(): Message -> nat {
    (m: Message) => if m.Shutdown? then 1 else 0
  }

  /** Messages are taken in the order they were put, and each exit consumed one shutdown message. */
  ghost predicate Fifo(s: State) {
    s.posted == s.taken + s.requests && Sum(s.workers, HasExited()) == Sum(s.taken, IsShutdown())
  }

  lemma StepOrder(s: State, step: Step)
    requires Enabled(s, step) && s.posted == s.taken + s.requests
    ensures Apply(s, step).posted == Apply(s, step).taken + Apply(s, step).requests
  {
    if step.Take? {
      assert s.requests == [s.requests[0]] + s.requests[1..];
    }
  }

  lemma StepExits(s: State, step: Step)
    requires Enabled(s, step) && Sum(s.workers, HasExited()) == Sum(s.taken, IsShutdown())
    ensures Sum(Apply(s, step).workers, HasExited()) == Sum(Apply(s, step).taken, IsShutdown())
  {
    if step.Take? {
      SumConcat(s.taken, [s.requests[0]], IsShutdown());
      SumOne(s.requests[0], IsShutdown());
    }
    if step.Take? || step.Clone? || step.RaiseEarly? || step.HandBack? || step.Finish? || step.RaiseLate? {
      SumUpdate(s.workers, step.w, Apply(s, step).workers[step.w], HasExited());
    }
  }

  lemma StepFifo(s: State, step: Step)
    requires Enabled(s, step) && Fifo(s)
    ensures Fifo(Apply(s, step))
  {
    StepOrder(s, step);
    StepExits(s, step);
  }

  // ---- Every run -------------------------------------------------------------------------------

  ghost predicate Inv(s: State) {
    Conserved(s) && Fifo(s) && (s.late == [] ==> Intact(s))
  }

  lemma {:induction false} FreeSlots(free: seq<nat>, n: nat, slot: nat)
    requires n <= |free| && forall k :: 0 <= k < |free| ==> free[k] == k
    ensures Sum(free[..n], Is(slot)) == if slot < n then 1 else 0
  {
    if n == 0 {
      assert free[..0] == [];
    } else {
      assert free[..n][..n - 1] == free[..n - 1];
      FreeSlots(free, n - 1, slot);
    }
  }

  lemma InitInv(s: State)
    requires Init(s)
    ensures Inv(s)
  {
    forall slot: nat ensures Places(s, slot) == if slot < s.slots then 1 else 0 {
      FreeSlots(s.free, s.slots, slot);
      assert s.free[..s.slots] == s.free;
      SumZero(s.submitters, InSubmitter(slot));
      SumZero(s.workers, InWorker(slot));
    }
    SumZero(s.workers, HasExited());
  }

  lemma LateOnlyGrows(s: State, step: Step)
    requires Enabled(s, step)
    ensures |s.late| <= |Apply(s, step).late|
  {
  }

  lemma {:induction false} RunKeepsInv(s: State, steps: seq<Step>)
    requires Inv(s) && Run(s, steps)
    ensures Inv(Exec(s, steps)) && |s.late| <= |Exec(s, steps).late|
    decreases |steps|
  {
    if steps == [] {
    } else {
      StepConserves(s, steps[0]);
      StepFifo(s, steps[0]);
      LateOnlyGrows(s, steps[0]);
      if s.late == [] {
        StepIntact(s, steps[0]);
      }
      RunKeepsInv(Apply(s, steps[0]), steps[1..]);
    }
  }

  /** On every run the slots are each in exactly one place if and only if no handler has raised after
      handing its slot back. */
  lemma OnePlaceIffNoLateRaise(s: State, steps: seq<Step>)
    requires Init(s) && Run(s, steps)
    ensures var t := Exec(s, steps);
            (forall slot: nat :: Places(t, slot) == if slot < t.slots then 1 else 0) <==> t.late == []
  {
    InitInv(s);
    RunKeepsInv(s, steps);
    var t := Exec(s, steps);
    if t.late != [] {
      SumUpdate(t.late, 0, t.late[0], Is(t.late[0]));
      assert Places(t, t.late[0]) != if t.late[0] < t.slots then 1 else 0;
    }
  }

  /** On every run without late raises each worker clones exactly what the submitter copied. */
  lemma ClonesAreWhatWasSubmitted(s: State, steps: seq<Step>, k: nat)
    requires Init(s) && Run(s, steps) && Exec(s, steps).late == [] && k < |Exec(s, steps).clones|
    ensures Exec(s, steps).clones[k].0 == Exec(s, steps).clones[k].1
  {
    InitInv(s);
    RunKeepsInv(s, steps);
  }

  /** Once any worker has exited, every request put before the first shutdown message was taken. */
  lemma EarlierRequestsTaken(s: State, steps: seq<Step>, w: nat, k: nat)
    requires Init(s) && Run(s, steps)
    requires var t := Exec(s, steps);
             && w < |t.workers| && t.workers[w].Exited? && k < |t.posted|
             && forall j :: 0 <= j <= k ==> t.posted[j].Request?
    ensures var t := Exec(s, steps);
            k < |t.taken| && t.taken[k] == t.posted[k]
  {
    InitInv(s);
    RunKeepsInv(s, steps);
    var t := Exec(s, steps);
    SumUpdate(t.workers, w, t.workers[w], HasExited());
    var j := SumPositive(t.taken, IsShutdown());
    assert t.posted[j] == t.taken[j];
  }

  /** The workers exit one per shutdown message, so at most as many exit as messages were sent. */
  lemma ExitsMatchShutdowns(s: State, steps: seq<Step>)
    requires Init(s) && Run(s, steps)
    ensures var t := Exec(s, steps);
            Sum(t.workers, HasExited()) + Sum(t.requests, IsShutdown()) == Sum(t.posted, IsShutdown())
  {
    InitInv(s);
    RunKeepsInv(s, steps);
    var t := Exec(s, steps);
    SumConcat(t.taken, t.requests, IsShutdown());
  }

  // ---- What a clone holds on any run -----------------------------------------------------------

  /** The data last copied into each slot. */
  type Last = map<nat, Data>

  ghost function NextLast(s: State, step: Step, last: Last): Last
    requires Enabled(s, step)
  {
    if step.Copy? && |s.submitters[step.i].todo[0]| <= s.maxLength
    then last[s.submitters[step.i].slot := s.submitters[step.i].todo[0]]
    else last
  }

  ghost function LastAfter(s: State, steps: seq<Step>, last: Last): Last
    requires Run(s, steps)
    decreases |steps|
  {
    if steps == [] then last else LastAfter(Apply(s, steps[0]), steps[1..], NextLast(s, steps[0], last))
  }

  ghost predicate ReqCopied(s: State, last: Last, req: Req) {
    req.slot in last && req.slot < s.slots && req.length == |req.data| <= s.maxLength
  }

  ghost predicate SubmitterCopied(s: State, last: Last, p: Submitter) {
    && (!p.Idle? ==> p.slot < s.slots)
    && (p.Copied? ==> p.slot in last && |p.data| <= s.maxLength)
  }

  /** Every buffer starts with what was last copied into it, and everything in transit names a slot that
      was copied into. */
  ghost predicate Remembers(s: State, last: Last) {
    && |s.buffers| == s.slots && (forall k :: 0 <= k < s.slots ==> |s.buffers[k]| == s.maxLength)
    && (forall slot :: slot in last ==> Loaded(s.buffers, slot, last[slot]))
    && (forall k :: 0 <= k < |s.free| ==> s.free[k] < s.slots)
    && (forall k :: 0 <= k < |s.done| ==> s.done[k] < s.slots)
    && (s.reclaimer.Carrying? ==> s.reclaimer.slot < s.slots)
    && (forall i :: 0 <= i < |s.submitters| ==> SubmitterCopied(s, last, s.submitters[i]))
    && (forall k :: 0 <= k < |s.requests| && s.requests[k].Request? ==> ReqCopied(s, last, s.requests[k].req))
    && (forall w :: 0 <= w < |s.workers| && !s.workers[w].Waiting? && !s.workers[w].Exited? ==>
          ReqCopied(s, last, s.workers[w].req))
  }

  lemma CopyRemembered(s: State, i: nat, last: Last)
    requires Enabled(s, Copy(i)) && Remembers(s, last)
    ensures Remembers(Apply(s, Copy(i)), NextLast(s, Copy(i), last))
  {
    assert SubmitterCopied(s, last, s.submitters[i]);
    var slot, data := s.submitters[i].slot, s.submitters[i].todo[0];
    if |data| <= s.maxLength {
      assert Loaded(CopiedInto(s.buffers, slot, data), slot, data);
      forall other | other in last && other != slot
        ensures Loaded(CopiedInto(s.buffers, slot, data), other, last[other])
      {
        OtherSlot(s.buffers, slot, data, other, last[other]);
      }
    }
  }

  lemma StepRemembered(s: State, step: Step, last: Last)
    requires Enabled(s, step) && Remembers(s, last)
    ensures Remembers(Apply(s, step), NextLast(s, step, last))
  {
    if step.Copy? {
      CopyRemembered(s, step.i, last);
    }
  }

  lemma {:induction false} RunRemembered(s: State, steps: seq<Step>, last: Last)
    requires Remembers(s, last) && Run(s, steps)
    ensures Remembers(Exec(s, steps), LastAfter(s, steps, last))
    decreases |steps|
  {
    if steps == [] {
    } else {
      StepRemembered(s, steps[0], last);
      RunRemembered(Apply(s, steps[0]), steps[1..], NextLast(s, steps[0], last));
    }
  }

  lemma SliceStarts(buffer: Data, front: Data, n: nat)
    requires front <= buffer && n <= |buffer|
    ensures |Slice(buffer, n)| == n
    ensures forall r :: 0 <= r < n && r < |front| ==> Slice(buffer, n)[r] == front[r]
    ensures n <= |front| ==> Slice(buffer, n) == front[..n]
  {
  }

  /** Whatever raised before, a clone starts with the rows last copied into its slot. Where those are at
      least as many as were asked for, the clone is what its own submitter copied exactly if that is
      where they start. */
  lemma CloneIsLastCopy(s: State, steps: seq<Step>, w: nat)
    requires Init(s) && Run(s, steps) && Enabled(Exec(s, steps), Clone(w))
    ensures var t := Exec(s, steps); var req := t.workers[w].req; var last := LastAfter(s, steps, map[]);
            var clone := Apply(t, Clone(w)).workers[w].clone;
            && req.slot in last && |clone| == |req.data|
            && (forall r :: 0 <= r < |clone| && r < |last[req.slot]| ==> clone[r] == last[req.slot][r])
            && (|req.data| <= |last[req.slot]| ==> (clone == req.data <==> req.data <= last[req.slot]))
  {
    RunRemembered(s, steps, map[]);
    var t := Exec(s, steps);
    var req, last := t.workers[w].req, LastAfter(s, steps, map[]);
    assert ReqCopied(t, last, req) && Loaded(t.buffers, req.slot, last[req.slot]);
    SliceStarts(t.buffers[req.slot], last[req.slot], req.length);
  }

  // ---- Oversize submissions --------------------------------------------------------------------

  ghost predicate TodoFits(p: Submitter, maxLength: nat) {
    forall k :: 0 <= k < |p.todo| ==> |p.todo[k]| <= maxLength
  }

  /** No slot is lost on any run whose submissions all fit a buffer. */
  lemma {:induction false} NothingLeaks(s: State, steps: seq<Step>)
    requires Run(s, steps) && s.leaked == []
    requires forall i :: 0 <= i < |s.submitters| ==> TodoFits(s.submitters[i], s.maxLength)
    ensures Exec(s, steps).leaked == []
    decreases |steps|
  {
    if steps == [] {
    } else {
      var after := Apply(s, steps[0]);
      forall i | 0 <= i < |after.submitters| ensures TodoFits(after.submitters[i], after.maxLength) {
        assert TodoFits(s.submitters[i], s.maxLength);
      }
      NothingLeaks(after, steps[1..]);
    }
  }

  lemma {:induction false} LeakedStays(s: State, steps: seq<Step>, slot: nat)
    requires Run(s, steps)
    ensures Sum(s.leaked, Is(slot)) <= Sum(Exec(s, steps).leaked, Is(slot))
    decreases |steps|
  {
    if steps == [] {
    } else {
      if steps[0].Copy? {
        Appended(s.leaked, s.submitters[steps[0].i].slot, slot);
      }
      LeakedStays(Apply(s, steps[0]), steps[1..], slot);
    }
  }

  /** One submission longer than a buffer loses its slot for good: no run without late raises brings
      the slot back to the free queue. */
  lemma OversizeLosesSlot(s: State, i: nat, steps: seq<Step>)
    requires Inv(s) && Enabled(s, Copy(i)) && |s.submitters[i].todo[0]| > s.maxLength
    requires Run(Apply(s, Copy(i)), steps) && Exec(Apply(s, Copy(i)), steps).late == []
    ensures s.submitters[i].slot !in Exec(Apply(s, Copy(i)), steps).free
  {
    var slot := s.submitters[i].slot;
    var lost := Apply(s, Copy(i));
    StepConserves(s, Copy(i));
    StepFifo(s, Copy(i));
    LateOnlyGrows(s, Copy(i));
    RunKeepsInv(lost, steps);
    if s.late == [] {
      StepIntact(s, Copy(i));
    }
    Appended(s.leaked, slot, slot);
    LeakedStays(lost, steps, slot);
    var t := Exec(lost, steps);
    assert Places(t, slot) <= 1;
    forall k | 0 <= k < |t.free| ensures t.free[k] != slot {
      SumUpdate(t.free, k, t.free[k], Is(slot));
    }
  }

  // ---- A late raise ----------------------------------------------------------------------------

  lemma Prepend(s: State, step: Step, rest: seq<Step>) returns (steps: seq<Step>)
    requires Enabled(s, step) && Run(Apply(s, step), rest)
    ensures Run(s, steps) && Exec(s, steps) == Exec(Apply(s, step), rest)
  {
    steps := [step] + rest;
    assert steps[1..] == rest;
  }

  lemma {:induction false} Append(s: State, first: seq<Step>, second: seq<Step>) returns (steps: seq<Step>)
    requires Run(s, first) && Run(Exec(s, first), second)
    ensures Run(s, steps) && Exec(s, steps) == Exec(Exec(s, first), second)
    decreases |first|
  {
    if first == [] {
      steps := second;
    } else {
      var rest := Append(Apply(s, first[0]), first[1..], second);
      steps := Prepend(s, first[0], rest);
    }
  }

  /** The only submitter sends its next data through slot 0. */
  lemma Submits(s: State, x: Data, todo: seq<Data>, more: seq<nat>) returns (steps: seq<Step>)
    requires s.submitters == [Idle([x] + todo)] && s.free == [0] + more
    requires |x| == s.maxLength && |s.buffers| == 1 && |s.buffers[0]| == s.maxLength && |s.requests| < s.queueSize
    ensures Run(s, steps)
    ensures Exec(s, steps) == s.(free := more, submitters := [Idle(todo)], buffers := [x],
                                 requests := s.requests + [Request(Req(0, |x|, x))],
                                 posted := s.posted + [Request(Req(0, |x|, x))])
  {
    assert ([x] + todo)[0] == x && ([x] + todo)[1..] == todo;
    assert s.free[1..] == more;
    var s1 := Apply(s, Acquire(0));
    assert s1 == s.(free := more, submitters := [Acquired(0, [x] + todo)]);
    var s2 := Apply(s1, Copy(0));
    assert CopiedInto(s.buffers, 0, x) == [x] by {
      assert x + s.buffers[0][|x|..] == x;
    }
    assert s2 == s1.(buffers := [x], submitters := [Copied(0, x, todo)]);
    var e3 := Prepend(s2, Put(0), []);
    var e2 := Prepend(s1, Copy(0), e3);
    steps := Prepend(s, Acquire(0), e2);
  }

  /** The only worker handles the one request and raises after handing its slot back. */
  lemma RaisesLate(s: State, req: Req) returns (steps: seq<Step>)
    requires s.workers == [Waiting] && s.requests == [Request(req)] && s.done == [] && s.reclaimer == Empty
    requires req.slot == 0 && s.buffers == [req.data] && req.length == |req.data| && s.free == []
    ensures Run(s, steps)
    ensures Exec(s, steps) == s.(requests := [], taken := s.taken + [Request(req)], free := [0, 0],
                                 clones := s.clones + [(req.data, req.data)], late := s.late + [0])
  {
    var s1 := Apply(s, Take(0));
    assert s1 == s.(requests := [], taken := s.taken + [Request(req)], workers := [Holding(req)]);
    var s2 := Apply(s1, Clone(0));
    assert Slice(req.data, req.length) == req.data;
    assert s2 == s1.(workers := [Cloned(req, req.data)], clones := s.clones + [(req.data, req.data)]);
    var s3 := Apply(s2, HandBack(0));
    assert s3 == s2.(workers := [HandedBack(req, req.data)], done := [0]);
    var s4 := Apply(s3, RaiseLate(0));
    assert s4 == s3.(workers := [Waiting], done := [0, 0], late := s.late + [0]);
    var e4 := ReclaimsTwice(s4);
    var e3 := Prepend(s3, RaiseLate(0), e4);
    var e2 := Prepend(s2, HandBack(0), e3);
    var e1 := Prepend(s1, Clone(0), e2);
    steps := Prepend(s, Take(0), e1);
  }

  lemma ReclaimsTwice(s: State) returns (steps: seq<Step>)
    requires s.done == [0, 0] && s.reclaimer == Empty && s.free == []
    ensures Run(s, steps) && Exec(s, steps) == s.(done := [], free := [0, 0])
  {
    var s1 := Apply(s, Get);
    assert s1 == s.(done := [0], reclaimer := Carrying(0));
    var s2 := Apply(s1, Release);
    assert s2 == s.(done := [0], free := [0]);
    var s3 := Apply(s2, Get);
    assert s3 == s2.(done := [], reclaimer := Carrying(0));
    var e3 := Prepend(s3, Release, []);
    var e2 := Prepend(s2, Get, e3);
    var e1 := Prepend(s1, Release, e2);
    steps := Prepend(s, Get, e1);
  }

  lemma ClonesNext(s: State, req: Req, more: seq<Message>, buffer: Data) returns (steps: seq<Step>)
    requires s.workers == [Waiting] && s.requests == [Request(req)] + more
    requires req.slot == 0 && s.buffers == [buffer] && req.length == |buffer|
    ensures Run(s, steps) && Exec(s, steps).clones == s.clones + [(req.data, buffer)]
    ensures Exec(s, steps).late == s.late
  {
    var s1 := Apply(s, Take(0));
    assert s1.workers == [Holding(req)] && s1.buffers == [buffer] && s1.clones == s.clones;
    assert Slice(buffer, req.length) == buffer;
    var e1 := Prepend(s1, Clone(0), []);
    steps := Prepend(s, Take(0), e1);
  }

  /** One late raise is enough for a worker to clone another request's data: with a single slot, the
      second request's clone is the third request's data. */
  lemma LateRaiseMixesRequests(a: Data, b: Data, c: Data, junk: Data) returns (s: State, steps: seq<Step>)
    requires |a| == |b| == |c| == |junk|
    ensures Init(s) && s.slots == 1 && Run(s, steps) && |Exec(s, steps).late| == 1
    ensures (b, c) in Exec(s, steps).clones
  {
    s := State(1, |a|, 2, [0], [Idle([a] + ([b] + ([c] + [])))], [], [Waiting], [], Empty, [junk], [], [], [], [], []);
    var req := (x: Data) => Req(0, |x|, x);
    var e1 := Submits(s, a, [b] + ([c] + []), []);
    var s1 := Exec(s, e1);
    var e2 := RaisesLate(s1, req(a));
    var s2 := Exec(s1, e2);
    assert [0, 0] == [0] + [0];
    var e3 := Submits(s2, b, [c] + [], [0]);
    var s3 := Exec(s2, e3);
    assert [0] == [0] + [];
    var e4 := Submits(s3, c, [], []);
    var s4 := Exec(s3, e4);
    assert s4.requests == [Request(req(b))] + [Request(req(c))];
    var e5 := ClonesNext(s4, req(b), [Request(req(c))], c);
    var t4 := Append(s3, e4, e5);
    var t3 := Append(s2, e3, t4);
    var t2 := Append(s1, e2, t3);
    steps := Append(s, e1, t2);
  }
}
