/**
  The maintenance tasks of one lake branch: building the task list from the
  configuration, resolving the branch head, and the two consumer loops that
  drain a scan's work items into the lake's Compact and ApplyIndexRules calls.

  The lake, the scans and the configuration resolver are not modelled; each
  enters as a parameter holding what it returned.
*/
module LakeManage {
  import opened Base

  /** A KSUID, the lake's identifier of commits and data objects. */
  type Ksuid = nat

  /** `ksuid.Nil`, the all-zero KSUID. */
  const NilKsuid: Ksuid := 0

  /** A `time.Time`; opaque here. */
  datatype Time = Time(unixNanos: int)

  /** The zap level of a task's completion log line. */
  datatype Level = Debug | Info

  datatype Pool = Pool(name: string, id: Ksuid)
  datatype Rule = Rule(name: string)

  /** The per-pool settings resolved by `Config.poolConfig`; the cold thresholds are durations in nanoseconds. */
  datatype CompactConfig = CompactConfig(coldThreshold: int)
  datatype IndexConfig = IndexConfig(coldThreshold: int, rules: seq<Rule>)
  datatype PoolSettings = PoolSettings(branchName: string, compact: CompactConfig, index: IndexConfig)

  /** The two switches of the global configuration that decide which tasks exist:
      `c.Compact.Disabled` and the value of `c.Index.Enabled()`. */
  datatype Config = Config(compactDisabled: bool, indexEnabled: bool)

  datatype Task = CompactTask | IndexTask

  datatype DataObject = DataObject(id: Ksuid)

  /** A group of objects the compaction scan found to be compactable together. */
  datatype Run = Run(objects: seq<DataObject>)

  /** One object with the index rules it still lacks. */
  datatype ObjectIndexes = ObjectIndexes(dataObject: DataObject, needsIndex: seq<Rule>)

  /** What a scan delivered on its channel, in order, and what it returned when it finished. */
  datatype Scan<T> = Scan(items: seq<T>, nextcold: Option<Time>, err: Option<Error>)

  /** The arguments of one `lake.Compact` call. */
  datatype CompactCall = CompactCall(pool: Ksuid, branch: string, objectIDs: seq<Ksuid>)

  /** The arguments of one `lake.ApplyIndexRules` call. */
  datatype IndexCall = IndexCall(rules: seq<Rule>, pool: Ksuid, branch: string, objectIDs: seq<Ksuid>)

  /** The `(*time.Time, error)` pair a task's run returns. */
  datatype TaskResult = TaskResult(nextcold: Option<Time>, err: Option<Error>)

  /** `Run.ObjectIDs()`: the IDs of the run's objects, in order. */
  function ObjectIDs(objects: seq<DataObject>): (ids: seq<Ksuid>)
    ensures |ids| == |objects|
    ensures forall i :: 0 <= i < |objects| ==> ids[i] == objects[i].id
  {
    seq(|objects|, i requires 0 <= i < |objects| => objects[i].id)
  }

  function RunSize(run: Run): nat { |run.objects| }

  function RuleCount(o: ObjectIndexes): nat { |o.needsIndex| }

  /** The sum of `size` over the items of `s`. */
  function TotalSize<T>(s: seq<T>, size: T -> nat): nat
  {
    if s == [] then 0 else TotalSize(s[..|s| - 1], size) + size(s[|s| - 1])
  }

  lemma {:induction false} TotalSizeAppend<T>(a: seq<T>, b: seq<T>, size: T -> nat)
    ensures TotalSize(a + b, size) == TotalSize(a, size) + TotalSize(b, size)
  {
    if b == [] {
      assert a + b == a;
    } else {
      assert (a + b)[..|a + b| - 1] == a + b[..|b| - 1];
      TotalSizeAppend(a, b[..|b| - 1], size);
    }
  }

  /** A total is zero exactly when every item has size zero. */
  lemma {:induction false} TotalSizeZero<T>(s: seq<T>, size: T -> nat)
    ensures TotalSize(s, size) == 0 <==> forall i :: 0 <= i < |s| ==> size(s[i]) == 0
  {
    if s != [] {
      TotalSizeZero(s[..|s| - 1], size);
    }
  }

  /** How many of `calls`, issued one after another, the lake accepts before the first
      one it rejects: the index of that call, or `|calls|` when it rejects none.
      `sink(n, c)` is the lake's reply to its n-th call (counting from 0), made with arguments `c`. */
  function Accepted<C>(calls: seq<C>, sink: (nat, C) -> Result<Ksuid>): (k: nat)
    ensures k <= |calls|
    ensures forall j :: 0 <= j < k ==> sink(j, calls[j]).Ok?
    ensures k < |calls| ==> sink(k, calls[k]).Err?
  {
    if calls == [] then 0
    else
      var n := |calls| - 1;
      var k := Accepted(calls[..n], sink);
      if k < n then k
      else if sink(n, calls[n]).Err? then n
      else n + 1
  }

  /** The level of the completion log line: Info when the task did some work, Debug otherwise. */
  function CompletionLevel(count: nat): Level
  {
    if count == 0 then Debug else Info
  }

  class Branch {
    const compact: CompactConfig
    const index: IndexConfig
    const pool: Pool
    const name: string
    var tasks: seq<Task>

    constructor (pool: Pool, settings: PoolSettings)
      ensures this.pool == pool && name == settings.branchName
      ensures compact == settings.compact && index == settings.index
      ensures tasks == []
    {
      this.pool := pool;
      name := settings.branchName;
      compact := settings.compact;
      index := settings.index;
      tasks := [];
    }

    /** `branch.head`: the commit the branch points at, looked up through the lake
        (`lookup(poolName, branchName)` is `LookupBranchByName`'s answer). */
    method Head(lookup: (string, string) -> Result<Ksuid>) returns (commit: Ksuid, err: Option<Error>)
      ensures lookup(pool.name, name).Err? ==> commit == NilKsuid && err == Some(lookup(pool.name, name).error)
      ensures lookup(pool.name, name).Ok? ==> commit == lookup(pool.name, name).value && err == None
    {
      var reply := lookup(pool.name, name);
      if reply.Err? {
        return NilKsuid, Some(reply.error);
      }
      return reply.value, None;
    }

    /** The Compact calls this branch issues for `runs`, one per run, in order. */
    function CompactCalls(runs: seq<Run>): (calls: seq<CompactCall>)
      ensures |calls| == |runs|
      ensures forall i :: 0 <= i < |runs| ==> calls[i] == CompactCall(pool.id, name, ObjectIDs(runs[i].objects))
    {
      seq(|runs|, i requires 0 <= i < |runs| => CompactCall(pool.id, name, ObjectIDs(runs[i].objects)))
    }

    /** The ApplyIndexRules calls this branch issues for `items`, one per object, in order. */
    function IndexCalls(items: seq<ObjectIndexes>): (calls: seq<IndexCall>)
      ensures |calls| == |items|
      ensures forall i :: 0 <= i < |items| ==>
        calls[i] == IndexCall(items[i].needsIndex, pool.id, name, [items[i].dataObject.id])
    {
      seq(|items|, i requires 0 <= i < |items| => IndexCall(items[i].needsIndex, pool.id, name, [items[i].dataObject.id]))
    }

    /**
      `compactTask.run`. `openErr` is the error of opening the pool's data-object iterator,
      `scan` what the compaction scan streamed and returned, and `lake(n, c)` the lake's
      reply to its n-th Compact call. Besides the task's result it returns the Compact
      calls made, the `found` and `compacted` counters, and the level of the completion
      log line (None when the task returns before logging it).
    */
    method RunCompact(openErr: Option<Error>, scan: Scan<Run>, lake: (nat, CompactCall) -> Result<Ksuid>)
      returns (res: TaskResult, calls: seq<CompactCall>, found: nat, compacted: nat, level: Option<Level>)
      ensures openErr.Some? ==> res == TaskResult(None, openErr) && calls == [] && found == 0 && compacted == 0 && level == None
      ensures openErr.None? ==>
        var want := CompactCalls(scan.items);
        var k := Accepted(want, lake);
        && found == k
        && compacted == TotalSize(scan.items[..k], RunSize)
        && (k < |want| ==> calls == want[..k + 1] && res == TaskResult(None, Some(lake(k, want[k]).error)) && level == None)
        && (k == |want| ==> calls == want && res == TaskResult(scan.nextcold, scan.err) && level == Some(CompletionLevel(compacted)))
      ensures openErr.None? && level.Some? ==>
        (level == Some(Info) <==> exists i :: 0 <= i < |scan.items| && |scan.items[i].objects| > 0)
    {
      calls, found, compacted, level := [], 0, 0, None;
      if openErr.Some? {
        return TaskResult(None, openErr), calls, found, compacted, level;
      }
      var runs := scan.items;
      ghost var want := CompactCalls(runs);
      for i := 0 to |runs|
        invariant calls == want[..i]
        invariant found == i
        invariant compacted == TotalSize(runs[..i], RunSize)
        invariant forall j :: 0 <= j < i ==> lake(j, want[j]).Ok?
      {
        var call := CompactCall(pool.id, name, ObjectIDs(runs[i].objects));
        calls := calls + [call];
        var reply := lake(i, call);
        if reply.Err? {
          res := TaskResult(None, Some(reply.error));
          return;
        }
        found := found + 1;
        compacted := compacted + |runs[i].objects|;
        assert runs[..i + 1][..i] == runs[..i];
      }
      assert runs[..|runs|] == runs;
      TotalSizeZero(runs, RunSize);
      level := Some(CompletionLevel(compacted));
      res := TaskResult(scan.nextcold, scan.err);
    }

    /**
      `indexTask.run`. `scan` is what the index scan streamed and returned, and
      `lake(n, c)` the lake's reply to its n-th ApplyIndexRules call. Besides the task's
      result it returns the calls made, the `objects` and `newindexes` counters, and the
      level of the completion log line (None when the task returns before logging it).
    */
    method RunIndex(scan: Scan<ObjectIndexes>, lake: (nat, IndexCall) -> Result<Ksuid>)
      returns (res: TaskResult, calls: seq<IndexCall>, objects: nat, newindexes: nat, level: Option<Level>)
      ensures
        var want := IndexCalls(scan.items);
        var k := Accepted(want, lake);
        && objects == k
        && newindexes == TotalSize(scan.items[..k], RuleCount)
        && (k < |want| ==> calls == want[..k + 1] && res == TaskResult(None, Some(lake(k, want[k]).error)) && level == None)
        && (k == |want| ==> calls == want && res == TaskResult(scan.nextcold, scan.err) && level == Some(CompletionLevel(objects)))
      ensures level.Some? ==> (level == Some(Info) <==> scan.items != [])
    {
      calls, objects, newindexes, level := [], 0, 0, None;
      var items := scan.items;
      ghost var want := IndexCalls(items);
      for i := 0 to |items|
        invariant calls == want[..i]
        invariant objects == i
        invariant newindexes == TotalSize(items[..i], RuleCount)
        invariant forall j :: 0 <= j < i ==> lake(j, want[j]).Ok?
      {
        var o := items[i];
        var call := IndexCall(o.needsIndex, pool.id, name, [o.dataObject.id]);
        calls := calls + [call];
        var reply := lake(i, call);
        if reply.Err? {
          res := TaskResult(None, Some(reply.error));
          return;
        }
        objects := objects + 1;
        newindexes := newindexes + |o.needsIndex|;
        assert items[..i + 1][..i] == items[..i];
      }
      assert items[..|items|] == items;
      level := Some(CompletionLevel(objects));
      res := TaskResult(scan.nextcold, scan.err);
    }
  }

  /**
    `newBranch`. `resolved` is what `c.poolConfig(pool, indexes)` returned. On success the
    branch holds a compaction task unless compaction is disabled and an indexing task when
    indexing is enabled, compaction first.
  */
  method NewBranch(c: Config, pool: Pool, resolved: Result<PoolSettings>) returns (b: Branch?, err: Option<Error>)
    ensures resolved.Err? ==> b == null && err == Some(resolved.error)
    ensures resolved.Ok? ==> b != null && fresh(b) && err == None
    ensures resolved.Ok? ==> b.pool == pool && b.name == resolved.value.branchName
    ensures resolved.Ok? ==> b.compact == resolved.value.compact && b.index == resolved.value.index
    ensures resolved.Ok? ==> (CompactTask in b.tasks <==> !c.compactDisabled) && (IndexTask in b.tasks <==> c.indexEnabled)
    ensures resolved.Ok? ==> forall i, j :: 0 <= i < j < |b.tasks| ==> b.tasks[i] == CompactTask && b.tasks[j] == IndexTask
  {
    if resolved.Err? {
      return null, Some(resolved.error);
    }
    b := new Branch(pool, resolved.value);
    if !c.compactDisabled {
      b.tasks := b.tasks + [CompactTask];
    }
    if c.indexEnabled {
      b.tasks := b.tasks + [IndexTask];
    }
    err := None;
  }
}
