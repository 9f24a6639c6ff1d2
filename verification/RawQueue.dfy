/** The queue of `CompressionManager`: group dispatch, batching and eviction. */
module RawQueue {
  import opened Totals
  import opened KeySvNames

  /** A raw task; `group` is its dispatch key. */
  datatype Task = Task(path: string, version: nat, group: string, size: nat)

  /** `DispatchGroupKey`: tasks with the same non-empty key are compressed together and never
      concurrently. */
  function DispatchGroupKey(groupUuid: string, path: string): string {
    if groupUuid == "" then "" else groupUuid + "|layer=" + IntToDec(LayerIdx(path))
  }

  /** Two tasks are dispatched as one group exactly if they have the same uuid and the same layer; a task
      without a uuid is in no group. */
  lemma GroupKeysAgree(u1: string, p1: string, u2: string, p2: string)
    ensures DispatchGroupKey(u1, p1) == "" <==> u1 == ""
    ensures u1 != "" && u2 != "" ==>
              (DispatchGroupKey(u1, p1) == DispatchGroupKey(u2, p2) <==> u1 == u2 && LayerIdx(p1) == LayerIdx(p2))
  {
    if u1 != "" && u2 != "" && DispatchGroupKey(u1, p1) == DispatchGroupKey(u2, p2) {
      GroupKeyParts(u1, LayerIdx(p1), u2, LayerIdx(p2));
    }
  }

  lemma GroupKeyParts(u1: string, l1: int, u2: string, l2: int)
    requires u1 + "|layer=" + IntToDec(l1) == u2 + "|layer=" + IntToDec(l2)
    ensures u1 == u2 && l1 == l2
  {
    var d1, d2 := IntToDec(l1), IntToDec(l2);
    IntToDecChars(l1);
    IntToDecChars(l2);
    assert "|layer=" == "|layer" + ['='];
    assert u1 + "|layer=" + d1 == (u1 + "|layer") + ['='] + d1;
    assert u2 + "|layer=" + d2 == (u2 + "|layer") + ['='] + d2;
    SplitAtLast(u1 + "|layer", d1, u2 + "|layer", d2, '=');
    assert (u1 + "|layer")[..|u1|] == u1 && (u2 + "|layer")[..|u2|] == u2;
    IntToDecInjective(l1, l2);
  }

  predicate Dispatchable(t: Task, active: set<string>) {
    t.group == "" || t.group !in active
  }

  /** Saturating subtraction, as every byte counter here is decreased. */
  function Less(total: nat, bytes: nat): nat {
    if total >= bytes then total - bytes else 0
  }

  /** The tasks with a given key, in queue order, and the ones without it. */
  function Matching(q: seq<Task>, key: string): seq<Task> {
    if q == [] then []
    else Matching(q[..|q| - 1], key) + (if q[|q| - 1].group == key then [q[|q| - 1]] else [])
  }

  function Others(q: seq<Task>, key: string): seq<Task> {
    if q == [] then []
    else Others(q[..|q| - 1], key) + (if q[|q| - 1].group == key then [] else [q[|q| - 1]])
  }

  /** The index of the first dispatchable task, the queue length if there is none. */
  function FirstDispatchable(q: seq<Task>, active: set<string>): (i: nat)
    ensures i <= |q|
    ensures i < |q| ==> Dispatchable(q[i], active)
    ensures forall k :: 0 <= k < i ==> !Dispatchable(q[k], active)
  {
    if q == [] then 0
    else
      var i := FirstDispatchable(q[..|q| - 1], active);
      if i < |q| - 1 || Dispatchable(q[|q| - 1], active) then i else |q|
  }

  datatype Queue = Queue(tasks: seq<Task>, bytes: nat, active: set<string>, stopping: bool)
  {
    predicate HasDispatchable() {
      exists i :: 0 <= i < |tasks| && Dispatchable(tasks[i], active)
    }

    predicate HasRoom(limit: nat, size: nat) {
      limit == 0 || bytes + size <= limit
    }

    function Push(t: Task): Queue {
      this.(tasks := tasks + [t], bytes := bytes + t.size)
    }

    function Evict(): Queue
      requires tasks != []
    {
      this.(tasks := tasks[1..], bytes := Less(bytes, tasks[0].size))
    }

    /** The same queue with more bytes charged to it. */
    function Charged(size: nat): Queue {
      this.(bytes := bytes + size)
    }

    function Release(size: nat): Queue {
      this.(bytes := Less(bytes, size))
    }

    /** The key a take would dispatch. */
    function NextKey(): string
      requires HasDispatchable()
    {
      FirstMeansFirst(tasks, active);
      tasks[FirstDispatchable(tasks, active)].group
    }

    /** A take without a group removes one task; a take for a group removes all its tasks. */
    function Batch(): seq<Task>
      requires HasDispatchable()
    {
      FirstMeansFirst(tasks, active);
      if NextKey() == "" then [tasks[FirstDispatchable(tasks, active)]] else Matching(tasks, NextKey())
    }

    function AfterTake(): Queue
      requires HasDispatchable()
    {
      FirstMeansFirst(tasks, active);
      var i := FirstDispatchable(tasks, active);
      if NextKey() == "" then this.(tasks := tasks[..i] + tasks[i + 1..])
      else this.(tasks := Others(tasks, NextKey()), active := active + {NextKey()})
    }

    function AfterCollect(key: string): Queue {
      this.(tasks := Others(tasks, key))
    }
  }

  lemma FirstMeansFirst(q: seq<Task>, active: set<string>)
    ensures FirstDispatchable(q, active) < |q| <==> exists i :: 0 <= i < |q| && Dispatchable(q[i], active)
  {
    if FirstDispatchable(q, active) < |q| {
      assert Dispatchable(q[FirstDispatchable(q, active)], active);
    }
  }

  // ---- Laws of the split -------------------------------------------------------------------

  lemma {:induction false} MatchingConcat(xs: seq<Task>, ys: seq<Task>, key: string)
    ensures Matching(xs + ys, key) == Matching(xs, key) + Matching(ys, key)
    ensures Others(xs + ys, key) == Others(xs, key) + Others(ys, key)
  {
    if ys == [] {
      assert xs + ys == xs;
    } else {
      var n := |ys| - 1;
      assert (xs + ys)[..|xs| + n] == xs + ys[..n];
      MatchingConcat(xs, ys[..n], key);
    }
  }

  lemma {:induction false} MatchingKeys(q: seq<Task>, key: string)
    ensures forall t :: t in Matching(q, key) ==> t in q && t.group == key
    ensures forall t :: t in Others(q, key) ==> t in q && t.group != key
    ensures forall t :: t in q && t.group == key ==> t in Matching(q, key)
    ensures forall t :: t in q && t.group != key ==> t in Others(q, key)
  {
    if q == [] {
    } else {
      MatchingKeys(q[..|q| - 1], key);
      assert q == q[..|q| - 1] + [q[|q| - 1]];
    }
  }

  lemma {:induction false} SplitSum(q: seq<Task>, key: string, f: Task -> nat)
    ensures Sum(q, f) == Sum(Matching(q, key), f) + Sum(Others(q, key), f)
  {
    if q == [] {
    } else {
      var n := |q| - 1;
      SplitSum(q[..n], key, f);
      var t := q[n];
      SumOne(t, f);
      SumConcat(Matching(q[..n], key), if t.group == key then [t] else [], f);
      SumConcat(Others(q[..n], key), if t.group == key then [] else [t], f);
    }
  }

  /** Selecting one key from what another selection left over. */
  lemma {:induction false} MatchingOfSplit(q: seq<Task>, key: string, other: string)
    ensures Matching(Matching(q, key), other) == if key == other then Matching(q, key) else []
    ensures Matching(Others(q, key), other) == if key == other then [] else Matching(q, other)
  {
    if q == [] {
    } else {
      var n := |q| - 1;
      MatchingOfSplit(q[..n], key, other);
      var t := q[n];
      MatchingConcat(Matching(q[..n], key), if t.group == key then [t] else [], other);
      MatchingConcat(Others(q[..n], key), if t.group == key then [] else [t], other);
      MatchingOne(t, other);
    }
  }

  lemma MatchingOne(t: Task, key: string)
    ensures Matching([t], key) == if t.group == key then [t] else []
    ensures Others([t], key) == if t.group == key then [] else [t]
  {
    assert [t][..0] == [];
  }

  lemma {:induction false} MatchingNone(q: seq<Task>, key: string)
    requires forall k :: 0 <= k < |q| ==> q[k].group != key
    ensures Matching(q, key) == [] && Others(q, key) == q
  {
    if q == [] {
    } else {
      MatchingNone(q[..|q| - 1], key);
      assert q == q[..|q| - 1] + [q[|q| - 1]];
    }
  }

  /** A task skipped before the first dispatchable one never has the dispatched key. */
  lemma TakeSkipsOtherKeys(q: seq<Task>, active: set<string>)
    requires FirstDispatchable(q, active) < |q|
    ensures var i := FirstDispatchable(q, active);
            forall k :: 0 <= k < i ==> q[k].group != q[i].group
  {
  }

  /** Selecting from a queue around one of its tasks. */
  lemma MatchingMiddle(l: seq<Task>, t: Task, r: seq<Task>, key: string)
    ensures Matching(l + [t] + r, key)
            == Matching(l, key) + (if t.group == key then [t] else []) + Matching(r, key)
    ensures Others(l + [t] + r, key)
            == Others(l, key) + (if t.group == key then [] else [t]) + Others(r, key)
  {
    MatchingConcat(l + [t], r, key);
    MatchingConcat(l, [t], key);
    MatchingOne(t, key);
  }

  lemma EmptyConcat(ts: seq<Task>)
    ensures [] + ts == ts && ts + [] == ts
  {
  }

  /** Removing the first task of a group. */
  lemma RemoveFirst(l: seq<Task>, t: Task, r: seq<Task>)
    requires forall k :: 0 <= k < |l| ==> l[k].group != t.group
    ensures Matching(l + [t] + r, t.group) == [t] + Matching(l + r, t.group)
    ensures Others(l + [t] + r, t.group) == Others(l + r, t.group)
  {
    MatchingNone(l, t.group);
    MatchingMiddle(l, t, r, t.group);
    MatchingConcat(l, r, t.group);
    EmptyConcat(Matching(r, t.group));
    EmptyConcat(l);
  }

  lemma RemoveFirstFrom(q: seq<Task>, l: seq<Task>, t: Task, r: seq<Task>)
    requires q == l + [t] + r && forall k :: 0 <= k < |l| ==> l[k].group != t.group
    ensures Matching(q, t.group) == [t] + Matching(l + r, t.group)
    ensures Others(q, t.group) == Others(l + r, t.group)
  {
    RemoveFirst(l, t, r);
  }

  lemma Around(q: seq<Task>, i: nat)
    requires i < |q|
    ensures q == q[..i] + [q[i]] + q[i + 1..]
  {
  }

  lemma MatchingRemoveFirst(q: seq<Task>, i: nat)
    requires i < |q| && forall k :: 0 <= k < i ==> q[k].group != q[i].group
    ensures Matching(q, q[i].group) == [q[i]] + Matching(q[..i] + q[i + 1..], q[i].group)
    ensures Others(q, q[i].group) == Others(q[..i] + q[i + 1..], q[i].group)
  {
    Around(q, i);
    RemoveFirstFrom(q, q[..i], q[i], q[i + 1..]);
  }

  /** Removing a task of another group. */
  lemma MatchingRemoveOther(q: seq<Task>, i: nat, key: string)
    requires i < |q| && q[i].group != key
    ensures Matching(q, key) == Matching(q[..i] + q[i + 1..], key)
  {
    var l, r := q[..i], q[i + 1..];
    MatchingMiddle(l, q[i], r, key);
    MatchingConcat(l, r, key);
    assert q == l + [q[i]] + r;
    assert Matching(l, key) + [] == Matching(l, key);
  }

  /** Taking the first task without a group. */
  lemma TakeOneKeepsOrder(q: seq<Task>, i: nat, key: string)
    requires i < |q| && q[i].group == "" && forall k :: 0 <= k < i ==> q[k].group != ""
    ensures Matching([q[i]], key) + Matching(q[..i] + q[i + 1..], key) == Matching(q, key)
  {
    MatchingOne(q[i], key);
    if key == "" {
      MatchingRemoveFirst(q, i);
    } else {
      MatchingRemoveOther(q, i, key);
    }
  }

  /** Taking a batch keeps the order of every group: the batch comes first, then what is left. */
  lemma TakeKeepsOrder(q: Queue, key: string)
    requires q.HasDispatchable()
    ensures Matching(q.Batch(), key) + Matching(q.AfterTake().tasks, key) == Matching(q.tasks, key)
  {
    FirstMeansFirst(q.tasks, q.active);
    if q.NextKey() == "" {
      var i := FirstDispatchable(q.tasks, q.active);
      TakeSkipsOtherKeys(q.tasks, q.active);
      TakeOneKeepsOrder(q.tasks, i, key);
    } else {
      MatchingOfSplit(q.tasks, q.NextKey(), key);
    }
  }

  lemma CollectKeepsOrder(q: Queue, collected: string, key: string)
    ensures Matching(Matching(q.tasks, collected), key) + Matching(q.AfterCollect(collected).tasks, key)
            == Matching(q.tasks, key)
  {
    MatchingOfSplit(q.tasks, collected, key);
  }

  /** A batch is homogeneous, non-empty, and a singleton without a group. */
  lemma BatchShape(q: Queue)
    requires q.HasDispatchable()
    ensures q.Batch() != [] && (forall t :: t in q.Batch() ==> t.group == q.NextKey() && t in q.tasks)
    ensures q.NextKey() == "" ==> |q.Batch()| == 1 && q.AfterTake().active == q.active
    ensures q.NextKey() != "" ==> q.NextKey() !in q.active && q.AfterTake().active == q.active + {q.NextKey()}
  {
    FirstMeansFirst(q.tasks, q.active);
    MatchingKeys(q.tasks, q.NextKey());
    assert q.tasks[FirstDispatchable(q.tasks, q.active)] in q.tasks;
  }

  lemma RemoveSum(ts: seq<Task>, i: nat, f: Task -> nat)
    requires i < |ts|
    ensures Sum(ts, f) == Sum([ts[i]], f) + Sum(ts[..i] + ts[i + 1..], f)
  {
    Around(ts, i);
    SumConcat(ts[..i] + [ts[i]], ts[i + 1..], f);
    SumConcat(ts[..i], [ts[i]], f);
    SumConcat(ts[..i], ts[i + 1..], f);
  }

  lemma TakeConserves(q: Queue, f: Task -> nat)
    requires q.HasDispatchable()
    ensures Sum(q.tasks, f) == Sum(q.Batch(), f) + Sum(q.AfterTake().tasks, f)
  {
    FirstMeansFirst(q.tasks, q.active);
    if q.NextKey() == "" {
      RemoveSum(q.tasks, FirstDispatchable(q.tasks, q.active), f);
    } else {
      SplitSum(q.tasks, q.NextKey(), f);
    }
  }

  /** One step of a scan that drops the tasks of a group from a queue in place. */
  lemma ScanOne(q: seq<Task>, i: nat, all: seq<Task>, n: nat, key: string)
    requires i < |q| && n <= |all| && q[..i] == Others(all[..n], key) && q[i..] == all[n..]
    ensures n < |all| && q[i] == all[n]
    ensures var cut := q[..i] + q[i + 1..];
            if q[i].group == key
            then && cut[..i] == Others(all[..n + 1], key) && cut[i..] == all[n + 1..]
                 && Matching(all[..n + 1], key) == Matching(all[..n], key) + [q[i]]
            else && q[..i + 1] == Others(all[..n + 1], key) && q[i + 1..] == all[n + 1..]
                 && Matching(all[..n + 1], key) == Matching(all[..n], key)
  {
    assert q[i] == q[i..][0] == all[n..][0];
    assert q[i + 1..] == q[i..][1..] == all[n..][1..] == all[n + 1..];
    SplitOne(all, n, key);
    var cut := q[..i] + q[i + 1..];
    assert cut[..i] == q[..i] && cut[i..] == q[i + 1..];
    assert q[..i + 1] == q[..i] + [q[i]];
  }

  lemma SplitOne(all: seq<Task>, n: nat, key: string)
    requires n < |all|
    ensures Matching(all[..n + 1], key)
            == if all[n].group == key then Matching(all[..n], key) + [all[n]] else Matching(all[..n], key)
    ensures Others(all[..n + 1], key)
            == if all[n].group == key then Others(all[..n], key) else Others(all[..n], key) + [all[n]]
  {
    var front := all[..n + 1];
    assert front[..n] == all[..n] && front[n] == all[n];
    EmptyConcat(Matching(all[..n], key));
    EmptyConcat(Others(all[..n], key));
  }

  // ---- The manager's own loops --------------------------------------------------------------

  /** `CompressionManager`: each method is one block under `mutex_`. */
  class CompressionManager {
    var taskQueue: seq<Task>
    var currentQueueBytes: nat
    var activeGroupKeys: set<string>
    var stopping: bool

    ghost function View(): Queue
      reads this
    {
      Queue.Queue(taskQueue, currentQueueBytes, activeGroupKeys, stopping)
    }

    constructor ()
      ensures View() == Queue.Queue([], 0, {}, false)
    {
      taskQueue, currentQueueBytes, activeGroupKeys, stopping := [], 0, {}, false;
    }

    method HasDispatchableTaskLocked() returns (found: bool)
      ensures found == View().HasDispatchable()
    {
      var i := 0;
      while i < |taskQueue|
        invariant i <= |taskQueue|
        invariant forall k :: 0 <= k < i ==> !Dispatchable(taskQueue[k], activeGroupKeys)
      {
        var groupKey := taskQueue[i].group;
        if groupKey == "" || groupKey !in activeGroupKeys {
          return true;
        }
        i := i + 1;
      }
      found := false;
    }

    /** `collect_ready`: move every queued task of the group to the batch. */
    method CollectReady(batch: seq<Task>, groupKey: string) returns (grown: seq<Task>)
      modifies this`taskQueue
      ensures grown == batch + Matching(old(taskQueue), groupKey)
      ensures View() == old(View()).AfterCollect(groupKey)
    {
      grown := batch;
      ghost var all := taskQueue;
      var i := 0;
      ghost var scanned := 0;
      while i < |taskQueue|
        invariant 0 <= i <= |taskQueue| && i <= scanned <= |all|
        invariant taskQueue[..i] == Others(all[..scanned], groupKey)
        invariant taskQueue[i..] == all[scanned..]
        invariant grown == batch + Matching(all[..scanned], groupKey)
        decreases |taskQueue| - i
      {
        ScanOne(taskQueue, i, all, scanned, groupKey);
        if taskQueue[i].group == groupKey {
          grown := grown + [taskQueue[i]];
          taskQueue := taskQueue[..i] + taskQueue[i + 1..];
        } else {
          i := i + 1;
        }
        scanned := scanned + 1;
      }
      assert taskQueue[..i] == taskQueue;
      assert |all[scanned..]| == 0;
      assert all[..scanned] == all;
    }

    /** `TakeDispatchableTasksLocked` up to the first wait: empty exactly when nothing is
        dispatchable, otherwise the specified batch. */
    method TakeDispatchableTasksLocked() returns (batch: seq<Task>)
      modifies this`taskQueue, this`activeGroupKeys
      ensures (batch != []) == old(View()).HasDispatchable()
      ensures old(View()).HasDispatchable() ==>
                batch == old(View()).Batch() && View() == old(View()).AfterTake()
      ensures !old(View()).HasDispatchable() ==> View() == old(View())
    {
      ghost var before := View();
      FirstMeansFirst(taskQueue, activeGroupKeys);
      var i := 0;
      while i < |taskQueue|
        invariant i <= |taskQueue| && View() == before
        invariant forall k :: 0 <= k < i ==> !Dispatchable(taskQueue[k], activeGroupKeys)
      {
        var groupKey := taskQueue[i].group;
        if groupKey != "" && groupKey in activeGroupKeys {
          i := i + 1;
          continue;
        }
        assert Dispatchable(taskQueue[i], activeGroupKeys);
        assert FirstDispatchable(taskQueue, activeGroupKeys) == i;
        BatchShape(before);
        TakeSkipsOtherKeys(taskQueue, activeGroupKeys);
        MatchingRemoveFirst(taskQueue, i);
        var task := taskQueue[i];
        taskQueue := taskQueue[..i] + taskQueue[i + 1..];
        if groupKey == "" {
          return [task];
        }
        activeGroupKeys := activeGroupKeys + {groupKey};
        batch := CollectReady([task], groupKey);
        return;
      }
      batch := [];
    }

    method EvictOneQueuedTaskLocked() returns (evicted: bool, task: Task)
      modifies this`taskQueue, this`currentQueueBytes
      ensures evicted == (old(taskQueue) != [])
      ensures evicted ==> task == old(taskQueue)[0] && View() == old(View()).Evict()
      ensures !evicted ==> View() == old(View())
    {
      if taskQueue == [] {
        return false, Task("", 0, "", 0);
      }
      task := taskQueue[0];
      taskQueue := taskQueue[1..];
      if currentQueueBytes >= task.size {
        currentQueueBytes := currentQueueBytes - task.size;
      } else {
        currentQueueBytes := 0;
      }
      evicted := true;
    }

    /** Releasing undoes a charge of the same size; it never frees more than is charged. */
    method ReleaseBytes(size: nat)
      modifies this`currentQueueBytes
      ensures View() == old(View()).Release(size)
      ensures forall q: Queue :: old(View()) == q.Charged(size) ==> View() == q
      ensures old(View()).bytes < size <==> View().Charged(size) != old(View())
    {
      if currentQueueBytes >= size {
        currentQueueBytes := currentQueueBytes - size;
      } else {
        currentQueueBytes := 0;
      }
    }
  }
}
