/**
 * The Firestore spend counter under contention. Each document is a versioned cell; any number of
 * processes run `casAdd` on it, interleaved at every read and every preconditioned PATCH. A
 * schedule is any sequence of steps; a step that is not enabled changes nothing.
 */
module CasStore {
  import opened Common
  import opened SpendStores
  import opened Sums

  const MAX_CAS_ATTEMPTS: nat := 8

  /** The document: absent, or a total stamped with the update it was written by. */
  datatype Doc = Absent | Doc(total: real, updateTime: nat)

  /** What a read reports; a missing document reads as zero. */
  function TotalOf(d: Doc): real {
    if d.Doc? then d.total else 0.0
  }

  datatype Op = Op(delta: real, ceiling: Option<real>)

  predicate Breaches(op: Op, total: real) {
    op.ceiling.Some? && total + op.delta > op.ceiling.value
  }

  /** The PATCH precondition: an existing document unchanged since the read, a missing one still missing. */
  predicate PreconditionHolds(seen: Doc, now: Doc) {
    if seen.Doc? then now.Doc? && now.updateTime == seen.updateTime else now.Absent?
  }

  /** `born` is how many commits there were when the call began. */
  datatype Phase =
    | Idle
    | Reading(attempt: nat, born: nat)
    | Writing(attempt: nat, born: nat, seen: Doc)   // about to PATCH what it computed from `seen`
    | Added(total: real)
    | Breached                                      // returned null
    | Exhausted(born: nat)                          // threw after the last attempt
    | Faulted                                       // threw on any other status

  datatype Proc = Proc(op: Op, phase: Phase)

  /** `log` lists the processes whose PATCH succeeded, in order. */
  datatype State = State(doc: Doc, procs: seq<Proc>, log: seq<nat>)

  datatype Step = Call(proc: nat) | Read(proc: nat) | Patch(proc: nat) | Fault(proc: nat)

  function Take(s: State, step: Step): State {
    if step.proc >= |s.procs| then s
    else
      var i := step.proc;
      var p := s.procs[i];
      match (step, p.phase)
      case (Call(_), Idle) => s.(procs := s.procs[i := p.(phase := Reading(0, |s.log|))])
      case (Read(_), Reading(attempt, born)) =>
        s.(procs := s.procs[i := p.(phase := if Breaches(p.op, TotalOf(s.doc)) then Breached
                                             else Writing(attempt, born, s.doc))])
      case (Patch(_), Writing(attempt, born, seen)) =>
        var next := TotalOf(seen) + p.op.delta;
        if PreconditionHolds(seen, s.doc) then
          State(Doc(next, |s.log| + 1), s.procs[i := p.(phase := Added(next))], s.log + [i])
        else
          s.(procs := s.procs[i := p.(phase := if attempt + 1 < MAX_CAS_ATTEMPTS then Reading(attempt + 1, born)
                                               else Exhausted(born))])
      case (Fault(_), Reading(_, _)) => s.(procs := s.procs[i := p.(phase := Faulted)])
      case (Fault(_), Writing(_, _, _)) => s.(procs := s.procs[i := p.(phase := Faulted)])
      case _ => s
  }

  function Exec(s: State, schedule: seq<Step>): State {
    if schedule == [] then s
    else Take(Exec(s, schedule[..|schedule| - 1]), schedule[|schedule| - 1])
  }

  /** No call has begun, and no commit is younger than the document. */
  ghost predicate Start(s: State) {
    && s.log == [] && (s.doc.Doc? ==> s.doc.updateTime == 0)
    && forall i :: 0 <= i < |s.procs| ==> s.procs[i].phase.Idle?
  }

  // ----- what every reachable state satisfies --------------------------------------------------

  /** How many commits a read of `d` comes after. */
  function Age(d: Doc): nat {
    if d.Doc? then d.updateTime else 0
  }

  ghost predicate ProcInv(s: State, i: nat)
    requires i < |s.procs|
  {
    && (!s.procs[i].phase.Added? ==> i !in s.log)
    && match s.procs[i].phase
       case Reading(attempt, born) => attempt < MAX_CAS_ATTEMPTS && born + attempt <= |s.log|
       case Writing(attempt, born, seen) =>
         && attempt < MAX_CAS_ATTEMPTS && born + attempt <= Age(seen) <= |s.log|
         && (Age(seen) == |s.log| ==> seen == s.doc) && (seen.Doc? ==> s.doc.Doc?)
         && !Breaches(s.procs[i].op, TotalOf(seen))
       case Exhausted(born) => born + MAX_CAS_ATTEMPTS <= |s.log|
       case _ => true
  }

  ghost predicate Inv(s: State) {
    && Age(s.doc) == |s.log|
    && forall i :: 0 <= i < |s.procs| ==> ProcInv(s, i)
  }

  lemma TakeKeepsInv(s: State, step: Step)
    requires Inv(s)
    ensures Inv(Take(s, step))
    ensures |Take(s, step).procs| == |s.procs|
  {
    var s' := Take(s, step);
    if step.proc < |s.procs| {
      forall i | 0 <= i < |s.procs|
        ensures ProcInv(s', i)
      {
        assert ProcInv(s, i) && ProcInv(s, step.proc);
      }
    }
  }

  lemma {:induction false} ExecInv(s: State, schedule: seq<Step>)
    requires Start(s)
    ensures Inv(Exec(s, schedule))
    ensures Ops(Exec(s, schedule)) == Ops(s)
  {
    if schedule != [] {
      ExecInv(s, schedule[..|schedule| - 1]);
      TakeKeepsInv(Exec(s, schedule[..|schedule| - 1]), schedule[|schedule| - 1]);
    }
  }

  /**
   * Giving up is always somebody else's progress: each lost attempt had another process commit in
   * its window, so a call that exhausts its attempts saw at least eight commits by others.
   */
  lemma ExhaustionNeedsEightForeignCommits(s: State, schedule: seq<Step>, i: nat)
    requires Start(s) && i < |Exec(s, schedule).procs|
    requires Exec(s, schedule).procs[i].phase.Exhausted?
    ensures var s' := Exec(s, schedule);
            var born := s'.procs[i].phase.born;
            && born + 8 <= |s'.log|
            && forall c :: born <= c < |s'.log| ==> s'.log[c] != i
  {
    ExecInv(s, schedule);
    assert ProcInv(Exec(s, schedule), i);
  }

  // ----- refinement of the atomic store ----------------------------------------------------------

  datatype Answer = Pending | Total(total: real) | Null | Threw

  /** The store the port promises: one number, and the answer each call got. */
  datatype Atomic = Atomic(total: real, answers: seq<Answer>)

  /** A conditional add that happens all at once, or a failure that writes nothing. */
  datatype Move = AddIfFits(proc: nat) | Fail(proc: nat)

  const COUNTER := Key("", "")

  /** What the port answers on a counter with this total: its conditional add, or its addition when there is no ceiling. */
  function PortAnswer(total: real, op: Op): Option<real> {
    var t: Table := map[COUNTER := total];
    if op.ceiling.None? then Some(Get(Add(t, COUNTER, op.delta), COUNTER))
    else ConditionalAdd(t, COUNTER, op.delta, op.ceiling.value).total
  }

  /** It is refused exactly above the ceiling, and otherwise answers the sum. */
  lemma PortAdds(total: real, op: Op)
    ensures PortAnswer(total, op)
         == if op.ceiling.Some? && total + op.delta > op.ceiling.value then None else Some(total + op.delta)
  {
  }

  function AtomicMove(ops: seq<Op>, a: Atomic, m: Move): Atomic
    requires |ops| == |a.answers|
  {
    if m.proc >= |ops| || !a.answers[m.proc].Pending? then a
    else match m
      case Fail(i) => a.(answers := a.answers[i := Threw])
      case AddIfFits(i) =>
        var answer := PortAnswer(a.total, ops[i]);
        if answer.None? then a.(answers := a.answers[i := Null])
        else Atomic(answer.value, a.answers[i := Total(answer.value)])
  }

  function AtomicExec(ops: seq<Op>, a: Atomic, moves: seq<Move>): (b: Atomic)
    requires |ops| == |a.answers|
    ensures |b.answers| == |ops|
  {
    if moves == [] then a
    else AtomicMove(ops, AtomicExec(ops, a, moves[..|moves| - 1]), moves[|moves| - 1])
  }

  function AnswerOf(p: Proc): Answer {
    match p.phase
    case Added(total) => Total(total)
    case Breached => Null
    case Exhausted(_) => Threw
    case Faulted => Threw
    case _ => Pending
  }

  function Abstract(s: State): Atomic {
    Atomic(TotalOf(s.doc), seq(|s.procs|, i requires 0 <= i < |s.procs| => AnswerOf(s.procs[i])))
  }

  function Ops(s: State): seq<Op> {
    seq(|s.procs|, i requires 0 <= i < |s.procs| => s.procs[i].op)
  }

  /** The instant a call takes effect: the read that sees a breach, the PATCH that lands, the throw. */
  function EffectOf(s: State, step: Step): seq<Move> {
    if step.proc >= |s.procs| || AnswerOf(Take(s, step).procs[step.proc]).Pending?
       || !AnswerOf(s.procs[step.proc]).Pending?
    then []
    else if AnswerOf(Take(s, step).procs[step.proc]).Threw? then [Fail(step.proc)]
    else [AddIfFits(step.proc)]
  }

  function Effects(s: State, schedule: seq<Step>): seq<Move> {
    if schedule == [] then []
    else
      var before := schedule[..|schedule| - 1];
      Effects(s, before) + EffectOf(Exec(s, before), schedule[|schedule| - 1])
  }

  lemma TakeRefines(s: State, step: Step)
    requires Inv(s)
    ensures var moves := EffectOf(s, step);
            Abstract(Take(s, step)) ==
              if moves == [] then Abstract(s) else AtomicMove(Ops(s), Abstract(s), moves[0])
  {
    if step.proc < |s.procs| {
      var i := step.proc;
      assert ProcInv(s, i);
      var p := s.procs[i];
      var s' := Take(s, step);
      assert Abstract(s').answers == Abstract(s).answers[i := AnswerOf(s'.procs[i])];
      assert Abstract(s).answers[i] == AnswerOf(p) && Ops(s)[i] == p.op;
      PortAdds(TotalOf(s.doc), p.op);
      assert Abstract(s).answers[i := AnswerOf(p)] == Abstract(s).answers;
    }
  }

  /**
   * Every execution of the optimistic loop, by any number of processes, is the execution of atomic
   * conditional adds taken at the calls' effect instants: same total, same answers. A null or a
   * throw wrote nothing.
   */
  lemma {:induction false} CasRefinesAtomic(s: State, schedule: seq<Step>)
    requires Start(s)
    ensures AtomicExec(Ops(s), Abstract(s), Effects(s, schedule)) == Abstract(Exec(s, schedule))
  {
    if schedule != [] {
      var before, step := schedule[..|schedule| - 1], schedule[|schedule| - 1];
      CasRefinesAtomic(s, before);
      ExecInv(s, before);
      TakeRefines(Exec(s, before), step);
      var effects, moves := Effects(s, before), EffectOf(Exec(s, before), step);
      if moves == [] {
        assert effects + moves == effects;
      } else {
        assert (effects + moves)[..|effects + moves| - 1] == effects;
      }
    }
  }

  /** A call is answered null exactly by a read that finds a total its delta would take above the ceiling. */
  lemma NullOnlyAboveCeiling(s: State, step: Step, i: nat)
    requires i < |s.procs| && !s.procs[i].phase.Breached?
    ensures var op := s.procs[i].op;
            i < |Take(s, step).procs| && (Take(s, step).procs[i].phase.Breached?
                                          <==> step == Read(i) && s.procs[i].phase.Reading?
                                               && op.ceiling.Some? && TotalOf(s.doc) + op.delta > op.ceiling.value)
  {
  }

  ghost predicate Answered(p: Proc) {
    p.phase.Added? && p.op.ceiling.Some? ==> p.phase.total <= p.op.ceiling.value
  }

  lemma TakeStaysUnder(s: State, step: Step, i: nat)
    requires Inv(s) && i < |s.procs| && Answered(s.procs[i])
    ensures i < |Take(s, step).procs| && Answered(Take(s, step).procs[i])
  {
    assert ProcInv(s, i);
  }

  /** Over every schedule, a call with a ceiling that returned a total returned one within it. */
  lemma {:induction false} StaysUnderCeiling(s: State, schedule: seq<Step>, i: nat)
    requires Start(s) && i < |s.procs|
    ensures i < |Exec(s, schedule).procs| && Exec(s, schedule).procs[i].op == s.procs[i].op
    ensures var p := Exec(s, schedule).procs[i];
            p.phase.Added? && p.op.ceiling.Some? ==> p.phase.total <= p.op.ceiling.value
  {
    if schedule != [] {
      var before := schedule[..|schedule| - 1];
      StaysUnderCeiling(s, before, i);
      ExecInv(s, before);
      assert Answered(Exec(s, before).procs[i]);
      TakeStaysUnder(Exec(s, before), schedule[|schedule| - 1], i);
    }
  }

  function AddedBy(): Proc -> real {
    (p: Proc) => if p.phase.Added? then p.op.delta else 0.0
  }

  /** No update is lost: the total is what it was plus the deltas of the calls that returned one. */
  lemma {:induction false} NoLostUpdate(s: State, schedule: seq<Step>)
    requires Start(s)
    ensures TotalOf(Exec(s, schedule).doc) == TotalOf(s.doc) + Sum(Exec(s, schedule).procs, AddedBy())
  {
    if schedule == [] {
      SumZero(s.procs, AddedBy());
    } else {
      var before, step := Exec(s, schedule[..|schedule| - 1]), schedule[|schedule| - 1];
      NoLostUpdate(s, schedule[..|schedule| - 1]);
      ExecInv(s, schedule[..|schedule| - 1]);
      if step.proc < |before.procs| {
        assert ProcInv(before, step.proc);
        SumUpdate(before.procs, step.proc, Take(before, step).procs[step.proc], AddedBy());
      }
    }
  }

  // ----- the loop's attempts are the machine's --------------------------------------------------

  function InPhase(s: State, i: nat, phase: Phase): State
    requires i < |s.procs|
  {
    s.(procs := s.procs[i := s.procs[i].(phase := phase)])
  }

  /** An attempt reads; a breach ends the call there. */
  lemma AttemptReads(s: State, i: nat)
    requires i < |s.procs| && s.procs[i].phase.Reading?
    ensures var p := s.procs[i];
            Take(s, Read(i)) == InPhase(s, i, if p.op.ceiling.Some? && TotalOf(s.doc) + p.op.delta > p.op.ceiling.value
                                              then Breached else Writing(p.phase.attempt, p.phase.born, s.doc))
  {
  }

  /**
   * And, whatever others did in between, it commits what it read plus its delta exactly when nobody
   * overtook it, and otherwise goes on to the next attempt or gives up after the eighth.
   */
  lemma AttemptWrites(s: State, i: nat)
    requires Inv(s) && i < |s.procs| && s.procs[i].phase.Writing?
    ensures var Writing(attempt, born, seen) := s.procs[i].phase;
            var next := TotalOf(seen) + s.procs[i].op.delta;
            if s.doc == seen
            then Take(s, Patch(i)) == InPhase(s, i, Added(next)).(doc := Doc(next, |s.log| + 1), log := s.log + [i])
            else Take(s, Patch(i)) == InPhase(s, i, if attempt + 1 < MAX_CAS_ATTEMPTS then Reading(attempt + 1, born) else Exhausted(born))
  {
    assert ProcInv(s, i);
  }

  /** A call that runs alone is one atomic conditional add. */
  lemma SoloCall(s: State, i: nat)
    requires Inv(s) && i < |s.procs| && s.procs[i].phase.Idle?
    ensures var p := s.procs[i];
            var s' := Take(Take(Take(s, Call(i)), Read(i)), Patch(i));
            match PortAnswer(TotalOf(s.doc), p.op)
            case None => s' == InPhase(s, i, Breached)
            case Some(total) => s'.procs[i].phase == Added(total) && TotalOf(s'.doc) == total
  {
    PortAdds(TotalOf(s.doc), s.procs[i].op);
    var called := Take(s, Call(i));
    assert called == InPhase(s, i, Reading(0, |s.log|));
    TakeKeepsInv(s, Call(i));
    AttemptReads(called, i);
    if !Breaches(s.procs[i].op, TotalOf(s.doc)) {
      TakeKeepsInv(called, Read(i));
      AttemptWrites(Take(called, Read(i)), i);
    }
  }

  // ----- the loop itself --------------------------------------------------------------------------

  datatype CasResult = Committed(total: real) | RefusedNull | GaveUp

  /** What attempt `a` reads when every earlier one was overtaken: the last total others wrote. */
  function SeenTotal(d: Doc, rivals: seq<seq<real>>, a: nat): real
    requires a <= |rivals|
    requires forall b :: 0 <= b < a ==> rivals[b] != []
  {
    if a == 0 then TotalOf(d) else rivals[a - 1][|rivals[a - 1]| - 1]
  }

  /** Everything others write before attempt `a`'s PATCH when every earlier one was overtaken. */
  function Overtaking(rivals: seq<seq<real>>, a: nat): seq<real>
    requires a <= |rivals|
  {
    if a == 0 then [] else Overtaking(rivals, a - 1) + rivals[a - 1]
  }

  class SpendDocument {
    var doc: Doc
    /** How many writes the document has had; each stamps a fresh update time. */
    var writes: nat

    predicate Valid()
      reads this
    {
      Age(doc) == writes
    }

    constructor ()
      ensures Valid() && doc == Absent
    {
      doc, writes := Absent, 0;
    }

    /** Other processes' successful writes. */
    method OthersWrite(totals: seq<real>)
      requires Valid()
      modifies this
      ensures Valid() && writes == old(writes) + |totals|
      ensures doc == if totals == [] then old(doc) else Doc(totals[|totals| - 1], writes)
    {
      writes := writes + |totals|;
      if totals != [] {
        doc := Doc(totals[|totals| - 1], writes);
      }
    }

    /**
     * The bounded retry loop of one caller; `rivals[a]` is what others write between attempt `a`'s
     * read and its PATCH. Attempt `last` is the one that decided: all before it were overtaken.
     */
    method CasAdd(op: Op, rivals: seq<seq<real>>) returns (r: CasResult, last: nat)
      requires Valid() && |rivals| == MAX_CAS_ATTEMPTS
      modifies this
      ensures Valid() && last < 8
      ensures r.Committed? ==> writes == old(writes) + |Overtaking(rivals, last)| + 1
      ensures forall b :: 0 <= b < last ==> rivals[b] != []
      ensures forall b :: 0 <= b < last ==> PortAnswer(SeenTotal(old(doc), rivals, b), op).Some?
      ensures r.RefusedNull? <==> PortAnswer(SeenTotal(old(doc), rivals, last), op).None?
      ensures r.Committed? <==> PortAnswer(SeenTotal(old(doc), rivals, last), op).Some? && rivals[last] == []
      ensures r.Committed? ==> PortAnswer(SeenTotal(old(doc), rivals, last), op) == Some(r.total) && TotalOf(doc) == r.total
      ensures r.GaveUp? ==> last == 7 && writes >= old(writes) + 8
      ensures !r.Committed? ==> TotalOf(doc) == if r.GaveUp? then rivals[last][|rivals[last]| - 1]
                                                else SeenTotal(old(doc), rivals, last)
    {
      last := 0;
      while true
        invariant Valid() && last < MAX_CAS_ATTEMPTS && writes >= old(writes) + last
        invariant writes == old(writes) + |Overtaking(rivals, last)|
        invariant forall b :: 0 <= b < last ==> rivals[b] != []
        invariant forall b :: 0 <= b < last ==> PortAnswer(SeenTotal(old(doc), rivals, b), op).Some?
        invariant TotalOf(doc) == SeenTotal(old(doc), rivals, last)
        decreases MAX_CAS_ATTEMPTS - last
      {
        var seen := doc;
        var next := (if seen.Doc? then seen.total else 0.0) + op.delta;
        PortAdds(TotalOf(seen), op);
        if op.ceiling.Some? && next > op.ceiling.value {
          return RefusedNull, last;
        }
        OthersWrite(rivals[last]);
        if PreconditionHolds(seen, doc) {
          writes := writes + 1;
          doc := Doc(next, writes);
          return Committed(next), last;
        }
        if last + 1 == MAX_CAS_ATTEMPTS {
          return GaveUp, last;
        }
        last := last + 1;
      }
    }
  }
}
