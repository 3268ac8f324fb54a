/**
 * The Firestore run store. Updates rewrite the whole document they read, so two of them can undo
 * each other; every mutation therefore waits for the settlement of the one enqueued before it. The
 * steps are the store's awaits: a mutation can be suspended, or fail, at each of them.
 */
module RunStore {
  /** A run record, or a partial one: its fields by name. */
  type Record = map<string, string>
  type Docs = map<string, Record>

  datatype Op = Create(id: string, run: Record) | Update(id: string, patch: Record)

  /** A settled mutation is resolved (with the clock reading it stamped) or rejected. */
  datatype Stage = Waiting | Running | Holding(read: Record) | Resolved(now: string) | Rejected

  datatype Task = Task(op: Op, stage: Stage)

  predicate Settled(t: Task) {
    t.stage.Resolved? || t.stage.Rejected?
  }

  /** `chain` lists the mutations in the order they were enqueued. */
  datatype State = State(docs: Docs, chain: seq<Task>)

  datatype Step = Enqueue(op: Op) | Start(task: nat) | Read(task: nat) | Write(task: nat, now: string) | Fault(task: nat)

  function Patched(r: Record, patch: Record, now: string): Record {
    (r + patch)["updatedAt" := now]
  }

  /** With `serialised` false a mutation starts at once, as it would without the chain. */
  function Take(serialised: bool, s: State, step: Step): State {
    if step.Enqueue? then s.(chain := s.chain + [Task(step.op, Waiting)])
    else if step.task >= |s.chain| then s
    else
      var i := step.task;
      var op := s.chain[i].op;
      match (step, s.chain[i].stage)
      case (Start(_), Waiting) =>
        if !serialised || i == 0 || Settled(s.chain[i - 1]) then Moved(s, i, Running) else s
      case (Read(_), Running) =>
        if op.Create? then s
        else Moved(s, i, if op.id in s.docs then Holding(s.docs[op.id]) else Rejected)
      case (Write(_, now), Running) =>
        if op.Update? then s
        else if op.id in s.docs then Moved(s, i, Rejected)
        else Moved(s, i, Resolved(now)).(docs := s.docs[op.id := op.run])
      case (Write(_, now), Holding(read)) =>
        if op.Create? then s
        else Moved(s, i, Resolved(now)).(docs := s.docs[op.id := Patched(read, op.patch, now)])
      case (Fault(_), Running) => Moved(s, i, Rejected)
      case (Fault(_), Holding(_)) => Moved(s, i, Rejected)
      case _ => s
  }

  function Moved(s: State, i: nat, stage: Stage): State
    requires i < |s.chain|
  {
    s.(chain := s.chain[i := s.chain[i].(stage := stage)])
  }

  function Exec(serialised: bool, s: State, schedule: seq<Step>): State {
    if schedule == [] then s
    else Take(serialised, Exec(serialised, s, schedule[..|schedule| - 1]), schedule[|schedule| - 1])
  }

  predicate Active(t: Task) {
    t.stage.Running? || t.stage.Holding?
  }

  /** Settled mutations first, then at most one in its critical section, then those that wait. */
  predicate InOrder(chain: seq<Task>) {
    forall i, j :: 0 <= i < j < |chain| && !chain[j].stage.Waiting? ==> Settled(chain[i])
  }

  /** The atomic store: each resolved mutation patches the document as it then stands. */
  function Replay(docs: Docs, chain: seq<Task>): Docs {
    if chain == [] then docs
    else
      var before, t := Replay(docs, chain[..|chain| - 1]), chain[|chain| - 1];
      if !t.stage.Resolved? then before
      else match t.op
        case Create(id, run) => before[id := run]
        case Update(id, patch) =>
          if id in before then before[id := Patched(before[id], patch, t.stage.now)] else before
  }

  /** An update resolves only on a document that exists. */
  ghost predicate Grounded(docs: Docs, chain: seq<Task>) {
    forall i :: 0 <= i < |chain| && chain[i].stage.Resolved? && chain[i].op.Update? ==>
      chain[i].op.id in Replay(docs, chain[..i])
  }

  ghost predicate Inv(docs: Docs, s: State) {
    && InOrder(s.chain)
    && s.docs == Replay(docs, s.chain) && Grounded(docs, s.chain)
    && forall i :: 0 <= i < |s.chain| && s.chain[i].stage.Holding? ==>
         s.chain[i].op.Update? && s.chain[i].op.id in s.docs && s.docs[s.chain[i].op.id] == s.chain[i].stage.read
  }

  /** Mutations that have not resolved contribute nothing. */
  lemma {:induction false} ReplayPrefix(docs: Docs, chain: seq<Task>, n: nat)
    requires n <= |chain| && forall i :: n <= i < |chain| ==> !chain[i].stage.Resolved?
    ensures Replay(docs, chain) == Replay(docs, chain[..n])
  {
    if n < |chain| {
      ReplayPrefix(docs, chain[..|chain| - 1], n);
      assert chain[..|chain| - 1][..n] == chain[..n];
    } else {
      assert chain[..n] == chain;
    }
  }

  lemma ReplayMoved(docs: Docs, s: State, i: nat, stage: Stage)
    requires i < |s.chain| && !Settled(s.chain[i]) && InOrder(s.chain)
    ensures var c := s.chain[..i];
            && Replay(docs, s.chain) == Replay(docs, c)
            && Replay(docs, Moved(s, i, stage).chain) == Replay(docs, c + [s.chain[i].(stage := stage)])
  {
    ReplayPrefix(docs, s.chain, i);
    var moved := Moved(s, i, stage).chain;
    assert forall j :: i < j < |s.chain| ==> !s.chain[j].stage.Resolved? && moved[j] == s.chain[j];
    ReplayPrefix(docs, moved, i + 1);
    assert moved[..i + 1] == s.chain[..i] + [s.chain[i].(stage := stage)];
  }

  lemma MoveKeepsGrounded(docs: Docs, s: State, i: nat, stage: Stage)
    requires i < |s.chain| && !Settled(s.chain[i]) && InOrder(s.chain) && Grounded(docs, s.chain)
    requires stage.Resolved? && s.chain[i].op.Update? ==> s.chain[i].op.id in Replay(docs, s.chain[..i])
    ensures Grounded(docs, Moved(s, i, stage).chain)
  {
    var moved := Moved(s, i, stage).chain;
    forall j | 0 <= j < |moved| && moved[j].stage.Resolved? && moved[j].op.Update?
      ensures moved[j].op.id in Replay(docs, moved[..j])
    {
      assert j <= i;
      assert moved[..j] == s.chain[..j];
    }
  }

  lemma StillReplays(docs: Docs, s: State, i: nat, stage: Stage)
    requires i < |s.chain| && !Settled(s.chain[i]) && InOrder(s.chain) && !stage.Resolved?
    ensures Replay(docs, Moved(s, i, stage).chain) == Replay(docs, s.chain)
  {
    ReplayMoved(docs, s, i, stage);
    assert (s.chain[..i] + [s.chain[i].(stage := stage)])[..i] == s.chain[..i];
  }

  /** A mutation that gets nowhere, or only as far as its read, changes no document. */
  lemma MoveKeepsInv(docs: Docs, s: State, i: nat, stage: Stage)
    requires Inv(docs, s) && i < |s.chain| && !Settled(s.chain[i]) && (i == 0 || Settled(s.chain[i - 1]))
    requires stage.Running? || stage.Rejected?
             || (stage.Holding? && s.chain[i].op.Update? && s.chain[i].op.id in s.docs && stage.read == s.docs[s.chain[i].op.id])
    ensures Inv(docs, Moved(s, i, stage))
  {
    StillReplays(docs, s, i, stage);
    MoveKeepsGrounded(docs, s, i, stage);
  }

  /** A mutation that lands is the next atomic patch. */
  lemma LandKeepsInv(docs: Docs, s: State, i: nat, now: string)
    requires Inv(docs, s) && i < |s.chain| && Active(s.chain[i])
    requires s.chain[i].op.Update? ==> s.chain[i].op.id in s.docs
    ensures var op := s.chain[i].op;
            Inv(docs, Moved(s, i, Resolved(now)).(docs :=
              if op.Create? then s.docs[op.id := op.run] else s.docs[op.id := Patched(s.docs[op.id], op.patch, now)]))
  {
    ReplayMoved(docs, s, i, Resolved(now));
    assert (s.chain[..i] + [s.chain[i].(stage := Resolved(now))])[..i] == s.chain[..i];
    assert Replay(docs, s.chain[..i]) == s.docs;
    MoveKeepsGrounded(docs, s, i, Resolved(now));
  }

  lemma TakeKeepsInv(docs: Docs, s: State, step: Step)
    requires Inv(docs, s)
    ensures Inv(docs, Take(true, s, step))
  {
    if step.Enqueue? {
      var longer := Take(true, s, step).chain;
      assert longer[..|s.chain|] == s.chain;
      assert forall i :: 0 <= i <= |s.chain| ==> longer[..i] == s.chain[..i];
    } else if step.task < |s.chain| && Take(true, s, step) != s {
      var i := step.task;
      if step.Write? && Take(true, s, step).chain[i].stage.Resolved? {
        LandKeepsInv(docs, s, i, step.now);
      } else {
        MoveKeepsInv(docs, s, i, Take(true, s, step).chain[i].stage);
      }
    }
  }

  lemma {:induction false} ExecInv(s: State, schedule: seq<Step>)
    requires s.chain == []
    ensures Inv(s.docs, Exec(true, s, schedule))
  {
    if schedule != [] {
      ExecInv(s, schedule[..|schedule| - 1]);
      TakeKeepsInv(s.docs, Exec(true, s, schedule[..|schedule| - 1]), schedule[|schedule| - 1]);
    }
  }

  /** However mutations are suspended and fail, no two are ever in their critical sections. */
  lemma MutualExclusion(s: State, schedule: seq<Step>, i: nat, j: nat)
    requires s.chain == []
    requires i < |Exec(true, s, schedule).chain| && j < |Exec(true, s, schedule).chain|
    requires Active(Exec(true, s, schedule).chain[i]) && Active(Exec(true, s, schedule).chain[j])
    ensures i == j
  {
    ExecInv(s, schedule);
  }

  /** The documents are the fold of the resolved mutations in the order they were enqueued. */
  lemma SerialisedIsAtomic(s: State, schedule: seq<Step>)
    requires s.chain == []
    ensures Exec(true, s, schedule).docs == Replay(s.docs, Exec(true, s, schedule).chain)
  {
    ExecInv(s, schedule);
  }

  function StepOf(t: Task, i: nat, now: string): Step {
    match t.stage
    case Waiting => Start(i)
    case Running => if t.op.Update? then Read(i) else Write(i, now)
    case _ => Write(i, now)
  }

  /** How many more steps a mutation can take. */
  function Remaining(t: Task): nat {
    match t.stage
    case Waiting => 3
    case Running => 2
    case Holding(_) => 1
    case _ => 0
  }

  /** A failed mutation never blocks the chain: the first unsettled one always has its next step enabled. */
  lemma NeverBlocked(s: State, schedule: seq<Step>, i: nat, now: string)
    requires s.chain == []
    requires i < |Exec(true, s, schedule).chain| && !Settled(Exec(true, s, schedule).chain[i])
    requires forall j :: 0 <= j < i ==> Settled(Exec(true, s, schedule).chain[j])
    ensures var s' := Exec(true, s, schedule);
            var next := Take(true, s', StepOf(s'.chain[i], i, now));
            Remaining(next.chain[i]) < Remaining(s'.chain[i]) && next.chain[..i] == s'.chain[..i]
  {
    ExecInv(s, schedule);
  }

  // ----- which write a field shows ------------------------------------------------------------------

  /** Whether a mutation, once resolved, decides field `f` of document `id`. */
  predicate Touches(t: Task, id: string, f: string) {
    t.stage.Resolved? && t.op.id == id && (t.op.Create? || f in t.op.patch)
  }

  /**
   * A resolved patch's field keeps its value until a LATER-enqueued mutation writes that field: one
   * enqueued earlier can no longer revert it, whenever it was issued or however long it took.
   */
  lemma {:induction false} LaterWriterWins(docs: Docs, chain: seq<Task>, i: nat, f: string)
    requires i < |chain| && chain[i].stage.Resolved? && chain[i].op.Update? && f in chain[i].op.patch && f != "updatedAt"
    requires chain[i].op.id in Replay(docs, chain[..i])
    requires forall j :: i < j < |chain| ==> !Touches(chain[j], chain[i].op.id, f)
    ensures var id := chain[i].op.id;
            id in Replay(docs, chain) && f in Replay(docs, chain)[id] && Replay(docs, chain)[id][f] == chain[i].op.patch[f]
  {
    var shorter := chain[..|chain| - 1];
    if i < |chain| - 1 {
      assert shorter[..i] == chain[..i];
      LaterWriterWins(docs, shorter, i, f);
      assert !Touches(chain[|chain| - 1], chain[i].op.id, f);
    }
  }

  /** A document that exists still does after any later mutations. */
  lemma {:induction false} DocsPersist(docs: Docs, chain: seq<Task>, id: string)
    requires id in docs
    ensures id in Replay(docs, chain)
  {
    if chain != [] {
      DocsPersist(docs, chain[..|chain| - 1], id);
    }
  }

  // ----- one run among others -----------------------------------------------------------------------

  /** The mutations of one document, in order. */
  function TasksOn(chain: seq<Task>, id: string): seq<Task> {
    if chain == [] then []
    else
      var front, last := TasksOn(chain[..|chain| - 1], id), chain[|chain| - 1];
      if last.op.id == id then front + [last] else front
  }

  ghost predicate SameAt(a: Docs, b: Docs, id: string) {
    (id in a <==> id in b) && (id in a ==> a[id] == b[id])
  }

  /** A document is what its own mutations make it, whatever happens to the others. */
  lemma {:induction false} ReplayLocal(docs: Docs, chain: seq<Task>, id: string)
    ensures SameAt(Replay(docs, chain), Replay(docs, TasksOn(chain, id)), id)
  {
    if chain != [] {
      var front, last := chain[..|chain| - 1], chain[|chain| - 1];
      ReplayLocal(docs, front, id);
      assert (TasksOn(front, id) + [last])[..|TasksOn(front, id)|] == TasksOn(front, id);
    }
  }

  lemma {:induction false} GroundedOn(docs: Docs, chain: seq<Task>, id: string)
    requires Grounded(docs, chain)
    ensures Grounded(docs, TasksOn(chain, id))
  {
    if chain != [] {
      var front, last := chain[..|chain| - 1], chain[|chain| - 1];
      assert forall i :: 0 <= i < |front| ==> front[..i] == chain[..i];
      GroundedOn(docs, front, id);
      ReplayLocal(docs, front, id);
      var mine, before := TasksOn(chain, id), TasksOn(front, id);
      forall i | 0 <= i < |mine| && mine[i].stage.Resolved? && mine[i].op.Update?
        ensures mine[i].op.id in Replay(docs, mine[..i])
      {
        assert mine[..i] == before[..i];
        assert before[..|before|] == before;
        assert chain[|chain| - 1] == last;
      }
    }
  }

  function Patches(id: string, field: string, values: seq<string>): (ops: seq<Op>)
    ensures |ops| == |values| && forall i :: 0 <= i < |ops| ==> ops[i] == Update(id, map[field := values[i]])
  {
    seq(|values|, i requires 0 <= i < |values| => Update(id, map[field := values[i]]))
  }

  /**
   * The mutations a run's record sees in its life: its creation, running, the conversation after each
   * turn (fire and forget), the terminal result and, when that is rejected, the failure that is
   * written instead, the workspace note when there is one, and the failure its caller writes when
   * something throws after all that.
   */
  function RunWrites(id: string, created: seq<Record>, turns: seq<string>, attempts: seq<Record>, note: seq<string>,
                     caught: seq<Record>): seq<Op>
  {
    seq(|created|, i requires 0 <= i < |created| => Create(id, created[i]))
    + [Update(id, map["status" := "running"])]
    + Patches(id, "messages", turns)
    + seq(|attempts|, i requires 0 <= i < |attempts| => Update(id, attempts[i]))
    + Patches(id, "output", note)
    + seq(|caught|, i requires 0 <= i < |caught| => Update(id, caught[i]))
  }

  predicate HasOps(chain: seq<Task>, ops: seq<Op>) {
    |chain| == |ops| && forall i :: 0 <= i < |ops| ==> chain[i].op == ops[i]
  }

  /** Where the last terminal attempt stands among a run's own mutations. */
  function LastAttempt(created: seq<Record>, turns: seq<string>, attempts: seq<Record>): int {
    |created| + |turns| + |attempts|
  }

  /** A resolved status write that no later one overrides is what the record shows. */
  lemma StatusShows(docs: Docs, chain: seq<Task>, id: string, i: nat, r: Record)
    requires Grounded(docs, chain) && i < |chain| && chain[i].op == Update(id, r) && chain[i].stage.Resolved? && "status" in r
    requires forall j :: i < j < |chain| ==> !Touches(chain[j], id, "status")
    ensures var end := Replay(docs, chain);
            id in end && "status" in end[id] && end[id]["status"] == r["status"]
  {
    assert "status"[0] != "updatedAt"[0];
    LaterWriterWins(docs, chain, i, "status");
  }

  lemma NoteTouchesNoStatus(t: Task, id: string, note: string)
    requires t.op == Update(id, map["output" := note])
    ensures !Touches(t, id, "status")
  {
    assert "status"[0] != "output"[0];
  }

  /** A run's own mutations, its last terminal attempt accepted, and at most one failure caught after them. */
  ghost predicate RanTo(mine: seq<Task>, id: string, created: seq<Record>, turns: seq<string>, attempts: seq<Record>,
                        note: seq<string>, caught: seq<Record>)
  {
    && HasOps(mine, RunWrites(id, created, turns, attempts, note, caught))
    && attempts != [] && "status" in attempts[|attempts| - 1]
    && |caught| <= 1 && (caught != [] ==> "status" in caught[0])
    && mine[LastAttempt(created, turns, attempts)].stage.Resolved?
  }

  /** The last terminal write, unless the failure caught after it was accepted. */
  function LastStatus(mine: seq<Task>, attempts: seq<Record>, caught: seq<Record>): Record
    requires mine != [] && attempts != []
  {
    if caught != [] && mine[|mine| - 1].stage.Resolved? then caught[0] else attempts[|attempts| - 1]
  }

  ghost predicate Shows(docs: Docs, id: string, r: Record) {
    "status" in r && id in docs && "status" in docs[id] && docs[id]["status"] == r["status"]
  }

  lemma TerminalWriteLast(docs: Docs, mine: seq<Task>, id: string, created: seq<Record>, turns: seq<string>,
                          attempts: seq<Record>, note: seq<string>, caught: seq<Record>)
    requires RanTo(mine, id, created, turns, attempts, note, caught) && Grounded(docs, mine)
    ensures Shows(Replay(docs, mine), id, LastStatus(mine, attempts, caught))
  {
    var ops, last := RunWrites(id, created, turns, attempts, note, caught), LastAttempt(created, turns, attempts);
    if caught != [] && mine[|mine| - 1].stage.Resolved? {
      assert ops[|ops| - 1] == Update(id, caught[0]);
      StatusShows(docs, mine, id, |mine| - 1, caught[0]);
    } else {
      assert ops[last] == Update(id, attempts[|attempts| - 1]);
      forall j | last < j < |mine|
        ensures !Touches(mine[j], id, "status")
      {
        if j <= last + |note| {
          assert ops[j] == Update(id, map["output" := note[j - last - 1]]);
          NoteTouchesNoStatus(mine[j], id, note[j - last - 1]);
        }
      }
      StatusShows(docs, mine, id, last, attempts[|attempts| - 1]);
    }
  }

  /** What a record ends as is told by its own mutations alone. */
  lemma OwnHistory(s: State, schedule: seq<Step>, id: string)
    requires s.chain == []
    ensures var mine := TasksOn(Exec(true, s, schedule).chain, id);
            Grounded(s.docs, mine) && SameAt(Exec(true, s, schedule).docs, Replay(s.docs, mine), id)
  {
    ExecInv(s, schedule);
    GroundedOn(s.docs, Exec(true, s, schedule).chain, id);
    ReplayLocal(s.docs, Exec(true, s, schedule).chain, id);
  }

  /**
   * A run whose last terminal write is accepted reads terminal from then on: no conversation write
   * still in flight, and no workspace note, reverts it; only an accepted failure of its caller's
   * replaces it. The chain may hold any other runs' mutations in between, and the run may have been
   * created through it.
   */
  lemma TerminalStatusSticks(s: State, schedule: seq<Step>, id: string, created: seq<Record>, turns: seq<string>,
                             attempts: seq<Record>, note: seq<string>, caught: seq<Record>)
    requires s.chain == [] && RanTo(TasksOn(Exec(true, s, schedule).chain, id), id, created, turns, attempts, note, caught)
    ensures Shows(Exec(true, s, schedule).docs, id, LastStatus(TasksOn(Exec(true, s, schedule).chain, id), attempts, caught))
  {
    OwnHistory(s, schedule, id);
    TerminalWriteLast(s.docs, TasksOn(Exec(true, s, schedule).chain, id), id, created, turns, attempts, note, caught);
  }

  // ----- why the chain is there ---------------------------------------------------------------------

  const RUNNING: Record := map["status" := "running"]
  const PROGRESS := Update("r", map["messages" := "m"])
  const DONE := Update("r", map["status" := "completed"])

  function Racing(docs: Record, progress: Stage, done: Stage): State {
    State(map["r" := docs], [Task(PROGRESS, progress), Task(DONE, done)])
  }

  lemma ProgressReads(r: Record, done: Stage)
    ensures Take(false, Racing(r, Waiting, done), Start(0)) == Racing(r, Running, done)
    ensures Take(false, Racing(r, Running, done), Read(0)) == Racing(r, Holding(r), done)
  {
  }

  lemma DoneReads(r: Record, progress: Stage)
    ensures Take(false, Racing(r, progress, Waiting), Start(1)) == Racing(r, progress, Running)
    ensures Take(false, Racing(r, progress, Running), Read(1)) == Racing(r, progress, Holding(r))
  {
  }

  lemma ProgressLands(r: Record, read: Record, done: Stage, now: string)
    ensures Take(false, Racing(r, Holding(read), done), Write(0, now))
         == Racing(Patched(read, PROGRESS.patch, now), Resolved(now), done)
  {
  }

  lemma DoneLands(r: Record, progress: Stage, read: Record, now: string)
    ensures Take(false, Racing(r, progress, Holding(read)), Write(1, now))
         == Racing(Patched(read, DONE.patch, now), progress, Resolved(now))
  {
  }

  lemma BothEnqueued(s0: State)
    requires s0 == State(map["r" := RUNNING], [])
    ensures Exec(false, s0, [Enqueue(PROGRESS)] + [Enqueue(DONE)]) == Racing(RUNNING, Waiting, Waiting)
  {
    assert [] + [Enqueue(PROGRESS)] == [Enqueue(PROGRESS)];
    ExecAppend(false, s0, [], Enqueue(PROGRESS));
    ExecAppend(false, s0, [Enqueue(PROGRESS)], Enqueue(DONE));
  }

  lemma ExecTwo(s: State, before: seq<Step>, first: Step, second: Step)
    ensures Exec(false, s, before + [first] + [second]) == Take(false, Take(false, Exec(false, s, before), first), second)
  {
    ExecAppend(false, s, before, first);
    ExecAppend(false, s, before + [first], second);
  }

  lemma BothRead(s0: State, enqueued: seq<Step>)
    requires Exec(false, s0, enqueued) == Racing(RUNNING, Waiting, Waiting)
    ensures Exec(false, s0, enqueued + [Start(0)] + [Read(0)] + [Start(1)] + [Read(1)])
         == Racing(RUNNING, Holding(RUNNING), Holding(RUNNING))
  {
    ExecTwo(s0, enqueued, Start(0), Read(0));
    ProgressReads(RUNNING, Waiting);
    ExecTwo(s0, enqueued + [Start(0)] + [Read(0)], Start(1), Read(1));
    DoneReads(RUNNING, Holding(RUNNING));
  }

  lemma BothLand(s0: State, read: seq<Step>)
    requires Exec(false, s0, read) == Racing(RUNNING, Holding(RUNNING), Holding(RUNNING))
    ensures Exec(false, s0, read + [Write(1, "t1")] + [Write(0, "t2")])
         == Racing(Patched(RUNNING, PROGRESS.patch, "t2"), Resolved("t2"), Resolved("t1"))
  {
    ExecTwo(s0, read, Write(1, "t1"), Write(0, "t2"));
    DoneLands(RUNNING, Holding(RUNNING), RUNNING, "t1");
    ProgressLands(Patched(RUNNING, DONE.patch, "t1"), RUNNING, Resolved("t1"), "t2");
  }

  /**
   * Without the chain, a conversation write that read the record before the terminal write and lands
   * after it puts the run back to running, for good.
   */
  lemma UnserialisedReverts()
    ensures var racy := [Enqueue(PROGRESS)] + [Enqueue(DONE)] + [Start(0)] + [Read(0)] + [Start(1)] + [Read(1)]
                        + [Write(1, "t1")] + [Write(0, "t2")];
            Exec(false, State(map["r" := RUNNING], []), racy)
              == Racing(map["status" := "running", "messages" := "m", "updatedAt" := "t2"], Resolved("t2"), Resolved("t1"))
  {
    var s0 := State(map["r" := RUNNING], []);
    var enqueued := [Enqueue(PROGRESS)] + [Enqueue(DONE)];
    BothEnqueued(s0);
    BothRead(s0, enqueued);
    BothLand(s0, enqueued + [Start(0)] + [Read(0)] + [Start(1)] + [Read(1)]);
    assert Patched(RUNNING, PROGRESS.patch, "t2") == map["status" := "running", "messages" := "m", "updatedAt" := "t2"];
  }

  lemma ExecAppend(serialised: bool, s: State, schedule: seq<Step>, step: Step)
    ensures Exec(serialised, s, schedule + [step]) == Take(serialised, Exec(serialised, s, schedule), step)
  {
    assert (schedule + [step])[..|schedule|] == schedule;
  }

  // ----- the store object ----------------------------------------------------------------------------

  class FirestoreRunStore {
    var docs: Docs
    var chain: seq<Task>

    constructor (docs: Docs)
      ensures this.docs == docs && chain == []
    {
      this.docs, chain := docs, [];
    }

    function View(): State
      reads this
    {
      State(docs, chain)
    }

    /** Enqueues a mutation behind all prior ones. */
    method Serialize(op: Op) returns (task: nat)
      modifies this
      ensures task == |old(chain)| && View() == Take(true, old(View()), Enqueue(op))
    {
      task := |chain|;
      chain := chain + [Task(op, Waiting)];
    }

    /** The critical section of a create whose predecessor has settled: one conditional insert. */
    method ExecuteCreate(task: nat, fails: bool, now: string)
      requires task < |chain| && chain[task] == Task(chain[task].op, Waiting) && chain[task].op.Create?
      requires task == 0 || Settled(chain[task - 1])
      modifies this
      ensures View() == Take(true, Take(true, old(View()), Start(task)), if fails then Fault(task) else Write(task, now))
      ensures var op := old(chain[task].op);
              docs == if fails || op.id in old(docs) then old(docs) else old(docs)[op.id := op.run]
    {
      var op := chain[task].op;
      if fails || op.id in docs {
        chain := chain[task := Task(op, Rejected)];
      } else {
        docs := docs[op.id := op.run];
        chain := chain[task := Task(op, Resolved(now))];
      }
    }

    /** The critical section of an update: a read, then a rewrite of the whole record it read. */
    method ExecuteUpdate(task: nat, readFails: bool, writeFails: bool, now: string)
      requires task < |chain| && chain[task] == Task(chain[task].op, Waiting) && chain[task].op.Update?
      requires task == 0 || Settled(chain[task - 1])
      modifies this
      ensures var read := Take(true, Take(true, old(View()), Start(task)), if readFails then Fault(task) else Read(task));
              View() == Take(true, read, if writeFails then Fault(task) else Write(task, now))
      ensures var op := old(chain[task].op);
              docs == if readFails || writeFails || op.id !in old(docs) then old(docs)
                      else old(docs)[op.id := Patched(old(docs)[op.id], op.patch, now)]
    {
      var op := chain[task].op;
      if readFails || op.id !in docs {
        chain := chain[task := Task(op, Rejected)];
        return;
      }
      var current := docs[op.id];
      if writeFails {
        chain := chain[task := Task(op, Rejected)];
        return;
      }
      docs := docs[op.id := Patched(current, op.patch, now)];
      chain := chain[task := Task(op, Resolved(now))];
    }
  }
}
