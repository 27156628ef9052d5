/** Starting durable plans: locks are acquired all or nothing, one store request at a time. */
module DurableStart {
  import opened Basics
  import opened CustomObjects

  type RunId = Name
  type DefinitionId = Name

  datatype Lock = Lock(definitionId: DefinitionId, owner: RunId, token: nat)

  datatype Stage = Preflight | Envelope | Queueing

  datatype Reason = NotAcquired | NotPrepared(stage: Stage) | NotStarted | WorkflowFinished

  /** Locks in `left` are released from the last to the first; `failures` could not be released. */
  datatype Pc =
    | Acquiring(held: seq<Lock>, todo: seq<DefinitionId>)
    | Preparing(held: seq<Lock>, stage: Stage)
    | StartingWorkflow(held: seq<Lock>)
    | MarkingFailed(held: seq<Lock>)
    | Running(held: seq<Lock>)
    | ReadingLock(left: seq<Lock>, failures: seq<Lock>, reason: Reason)
    | DeletingLock(left: seq<Lock>, version: nat, failures: seq<Lock>, reason: Reason)
    | Over(failures: seq<Lock>, reason: Reason)
  {
    /** The locks this start has created and not released. */
    function Holds(): seq<Lock> {
      match this
      case ReadingLock(left, failures, _) => left + failures
      case DeletingLock(left, _, failures, _) => left + failures
      case Over(failures, _) => failures
      case _ => held
    }
  }

  type Locks = map<DefinitionId, Stored<Lock>>

  /** Whether the caller has recorded the workflow's execution identity with the run. */
  datatype Attachment = NotYet | Attached | AttachFailed

  datatype Plan = Plan(scope: seq<DefinitionId>, pc: Pc, attachment: Attachment)

  datatype Machine = Machine(locks: Locks, plans: map<RunId, Plan>)

  const EMPTY: Machine := Machine(map[], map[])

  function Release(held: seq<Lock>, reason: Reason): Pc { ReadingLock(held, [], reason) }

  function AcquiredAll(held: seq<Lock>, todo: seq<DefinitionId>): Pc {
    if todo == [] then Preparing(held, Preflight) else Acquiring(held, todo)
  }

  /** Go on with the locks before the last of `left`. */
  function NextRelease(left: seq<Lock>, failures: seq<Lock>, reason: Reason): Pc
    requires left != []
  {
    ReadingLock(left[..|left| - 1], failures, reason)
  }

  /** One step of the start of run `r`; `ok` says whether the request or call succeeds. */
  function Step(locks: Locks, r: RunId, pc: Pc, ok: bool, token: nat): (Locks, Pc) {
    match pc
    case Acquiring(held, todo) =>
      if todo == [] then (locks, Preparing(held, Preflight))
      else if ok && Accepts(locks, todo[0], Some(0)) then
        var lock := Lock(todo[0], r, token);
        (Posted(locks, todo[0], lock), AcquiredAll(held + [lock], todo[1..]))
      else (locks, Release(held, NotAcquired))
    case Preparing(held, stage) =>
      if !ok then (locks, Release(held, NotPrepared(stage)))
      else
        (match stage
         case Preflight => (locks, Preparing(held, Envelope))
         case Envelope => (locks, Preparing(held, Queueing))
         case Queueing => (locks, StartingWorkflow(held)))
    case StartingWorkflow(held) => (locks, if ok then Running(held) else MarkingFailed(held))
    case MarkingFailed(held) => (locks, Release(held, NotStarted))
    case Running(held) => (locks, Release(held, WorkflowFinished))
    case ReadingLock(left, failures, reason) =>
      if left == [] then (locks, Over(failures, reason))
      else
        var lock := left[|left| - 1];
        if !ok then (locks, NextRelease(left, failures + [lock], reason))
        else if lock.definitionId !in locks then (locks, NextRelease(left, failures, reason))
        else if locks[lock.definitionId].value != lock then (locks, NextRelease(left, failures + [lock], reason))
        else (locks, DeletingLock(left, locks[lock.definitionId].version, failures, reason))
    case DeletingLock(left, version, failures, reason) =>
      if left == [] then (locks, Over(failures, reason))
      else
        var lock := left[|left| - 1];
        (match Delete(locks, lock.definitionId, version)
         case Ok(locks') => if ok then (locks', NextRelease(left, failures, reason))
                            else (locks, NextRelease(left, failures + [lock], reason))
         case Err(_) => (locks, NextRelease(left, failures + [lock], reason)))
    case Over(_, _) => (locks, pc)
  }

  /** The caller attaches the execution while the accepted workflow already runs and may finish. */
  datatype Move =
    | Begin(runId: RunId, scope: seq<DefinitionId>)
    | Continue(runId: RunId, ok: bool, token: nat)
    | Attach(runId: RunId, ok: bool)

  predicate WorkflowAccepted(pc: Pc) {
    || pc.Running?
    || ((pc.ReadingLock? || pc.DeletingLock? || pc.Over?) && pc.reason == WorkflowFinished)
  }

  ghost predicate Next(m: Machine, move: Move, m': Machine) {
    match move
    case Begin(r, scope) => r !in m.plans && m' == m.(plans := m.plans[r := Plan(scope, AcquiredAll([], scope), NotYet)])
    case Continue(r, ok, token) =>
      && r in m.plans
      && var (locks, pc) := Step(m.locks, r, m.plans[r].pc, ok, token);
      m' == Machine(locks, m.plans[r := m.plans[r].(pc := pc)])
    case Attach(r, ok) =>
      && r in m.plans && m.plans[r].attachment.NotYet? && WorkflowAccepted(m.plans[r].pc)
      && m' == m.(plans := m.plans[r := m.plans[r].(attachment := if ok then Attached else AttachFailed)])
  }

  // ---------- The invariant ----------

  ghost predicate DistinctDefinitions(held: seq<Lock>) {
    forall i, j :: 0 <= i < j < |held| ==> held[i].definitionId != held[j].definitionId
  }

  /** Every lock a start holds is stored, unchanged, under its definition. */
  ghost predicate HoldsStored(locks: Locks, r: RunId, held: seq<Lock>) {
    forall i :: 0 <= i < |held| ==>
      && held[i].owner == r && held[i].definitionId in locks && locks[held[i].definitionId].value == held[i]
  }

  function DefinitionsOf(held: seq<Lock>): (ids: seq<DefinitionId>)
    ensures |ids| == |held| && forall i :: 0 <= i < |ids| ==> ids[i] == held[i].definitionId
  {
    seq(|held|, i requires 0 <= i < |held| => held[i].definitionId)
  }

  ghost predicate PcIsSound(locks: Locks, scope: seq<DefinitionId>, pc: Pc) {
    match pc
    case Acquiring(held, todo) => todo != [] && DefinitionsOf(held) + todo == scope
    case ReadingLock(_, _, _) => true
    case DeletingLock(left, version, _, _) =>
      left != [] && left[|left| - 1].definitionId in locks && locks[left[|left| - 1].definitionId].version == version
    case Over(_, _) => true
    case _ => DefinitionsOf(pc.held) == scope
  }

  ghost predicate PlanIsSound(locks: Locks, r: RunId, plan: Plan) {
    && HoldsStored(locks, r, plan.pc.Holds()) && DistinctDefinitions(plan.pc.Holds())
    && PcIsSound(locks, plan.scope, plan.pc)
  }

  /** Every stored lock is held by the start that created it. */
  ghost predicate LocksAreHeld(m: Machine) {
    forall d :: d in m.locks ==>
      var lock := m.locks[d].value;
      lock.definitionId == d && lock.owner in m.plans && lock in m.plans[lock.owner].pc.Holds()
  }

  ghost predicate Sound(m: Machine) {
    && (forall r :: r in m.plans ==> PlanIsSound(m.locks, r, m.plans[r]))
    && LocksAreHeld(m)
  }

  // ---------- Every step keeps the invariant ----------

  /** What a step may do to the stored locks: nothing, add an absent one, or delete its own. */
  ghost predicate OwnChange(locks: Locks, r: RunId, locks': Locks) {
    || locks' == locks
    || (exists d, stored: Stored<Lock> :: d !in locks && stored.value.owner == r && stored.value.definitionId == d
          && locks' == locks[d := stored])
    || (exists d :: d in locks && locks[d].value.owner == r && locks' == locks - {d})
  }

  lemma OthersKeepLocks(locks: Locks, r: RunId, locks': Locks, other: RunId, held: seq<Lock>)
    requires OwnChange(locks, r, locks') && other != r && HoldsStored(locks, other, held)
    ensures HoldsStored(locks', other, held)
  {
  }

  lemma OtherPlanStaysSound(locks: Locks, r: RunId, locks': Locks, other: RunId, plan: Plan)
    requires OwnChange(locks, r, locks') && other != r && PlanIsSound(locks, other, plan)
    ensures PlanIsSound(locks', other, plan)
  {
    OthersKeepLocks(locks, r, locks', other, plan.pc.Holds());
    if plan.pc.DeletingLock? {
      LastIsHeld(plan.pc.left, plan.pc.failures);
    }
  }

  lemma LastIsHeld(left: seq<Lock>, failures: seq<Lock>)
    ensures left != [] ==> (left + failures)[|left| - 1] == left[|left| - 1]
  {
  }

  lemma AcquireIsSound(locks: Locks, r: RunId, plan: Plan, token: nat)
    requires PlanIsSound(locks, r, plan) && plan.pc.Acquiring? && plan.pc.todo != []
    requires Accepts(locks, plan.pc.todo[0], Some(0))
    ensures var lock := Lock(plan.pc.todo[0], r, token);
      var locks' := Posted(locks, plan.pc.todo[0], lock);
      && OwnChange(locks, r, locks')
      && PlanIsSound(locks', r, plan.(pc := AcquiredAll(plan.pc.held + [lock], plan.pc.todo[1..])))
  {
    var d := plan.pc.todo[0];
    var lock := Lock(d, r, token);
    var locks' := Posted(locks, d, lock);
    assert locks' == locks[d := Stored(1, lock)] && Stored(1, lock).value.owner == r;
    var held' := plan.pc.held + [lock];
    assert DefinitionsOf(held') == DefinitionsOf(plan.pc.held) + [d];
    assert [d] + plan.pc.todo[1..] == plan.pc.todo;
  }

  lemma DeleteIsSound(locks: Locks, r: RunId, plan: Plan)
    requires PlanIsSound(locks, r, plan) && plan.pc.DeletingLock?
    ensures var left, failures := plan.pc.left, plan.pc.failures;
      var d := left[|left| - 1].definitionId;
      && Delete(locks, d, plan.pc.version) == Ok(locks - {d})
      && OwnChange(locks, r, locks - {d})
      && PlanIsSound(locks - {d}, r, plan.(pc := NextRelease(left, failures, plan.pc.reason)))
  {
    var left, failures := plan.pc.left, plan.pc.failures;
    var n := |left| - 1;
    LastIsHeld(left, failures);
    var d := left[n].definitionId;
    assert locks[d].value.owner == r;
    var before, after := left + failures, left[..n] + failures;
    forall i | 0 <= i < |after|
      ensures after[i] == before[if i < n then i else i + 1] && after[i].definitionId != d
    {
    }
  }

  lemma PassOverIsSound(locks: Locks, r: RunId, plan: Plan, pc: Pc)
    requires PlanIsSound(locks, r, plan) && (plan.pc.ReadingLock? || plan.pc.DeletingLock?) && plan.pc.left != []
    requires pc == NextRelease(plan.pc.left, plan.pc.failures + [plan.pc.left[|plan.pc.left| - 1]], plan.pc.reason)
    ensures PlanIsSound(locks, r, plan.(pc := pc))
  {
    var left, failures := plan.pc.left, plan.pc.failures;
    var n := |left| - 1;
    var before, after := left + failures, left[..n] + (failures + [left[n]]);
    forall i | 0 <= i < |after|
      ensures after[i] == before[if i < n then i else if i < |after| - 1 then i + 1 else n]
    {
    }
  }

  lemma ReadIsSound(locks: Locks, r: RunId, plan: Plan)
    requires PlanIsSound(locks, r, plan) && plan.pc.ReadingLock? && plan.pc.left != []
    ensures var left := plan.pc.left;
      var lock := left[|left| - 1];
      && lock.definitionId in locks && locks[lock.definitionId].value == lock
      && PlanIsSound(locks, r, plan.(pc := DeletingLock(
           left, locks[lock.definitionId].version, plan.pc.failures, plan.pc.reason)))
  {
    LastIsHeld(plan.pc.left, plan.pc.failures);
  }

  predicate IsPrepared(pc: Pc) { pc.Preparing? || pc.StartingWorkflow? || pc.MarkingFailed? || pc.Running? }

  lemma PreparedIsSound(locks: Locks, r: RunId, plan: Plan, pc: Pc)
    requires PlanIsSound(locks, r, plan)
    requires IsPrepared(plan.pc) || (plan.pc.Acquiring? && pc.ReadingLock?)
    requires (IsPrepared(pc) && pc.held == plan.pc.held) || (pc.ReadingLock? && pc.left == plan.pc.held && pc.failures == [])
    ensures PlanIsSound(locks, r, plan.(pc := pc))
  {
    assert plan.pc.held + [] == plan.pc.held;
    assert DefinitionsOf(plan.pc.held) + [] == DefinitionsOf(plan.pc.held);
  }

  lemma StepIsSound(locks: Locks, r: RunId, plan: Plan, ok: bool, token: nat)
    requires PlanIsSound(locks, r, plan)
    ensures var (locks', pc') := Step(locks, r, plan.pc, ok, token);
      OwnChange(locks, r, locks') && PlanIsSound(locks', r, plan.(pc := pc'))
  {
    assert OwnChange(locks, r, locks);
    hide PlanIsSound, OwnChange, Posted;
    var pc' := Step(locks, r, plan.pc, ok, token).1;
    match plan.pc
    case Acquiring(held, todo) =>
      TodoIsNotEmpty(locks, r, plan);
      if ok && Accepts(locks, todo[0], Some(0)) {
        AcquireIsSound(locks, r, plan, token);
      } else {
        PreparedIsSound(locks, r, plan, pc');
      }
    case ReadingLock(left, failures, reason) =>
      if left == [] {
        ReleasedIsSound(locks, r, plan);
      } else {
        ReadIsSound(locks, r, plan);
        PassOverIsSound(locks, r, plan, NextRelease(left, failures + [left[|left| - 1]], reason));
      }
    case DeletingLock(left, version, failures, reason) =>
      LeftIsNotEmpty(locks, r, plan);
      DeleteIsSound(locks, r, plan);
      PassOverIsSound(locks, r, plan, NextRelease(left, failures + [left[|left| - 1]], reason));
    case Over(_, _) =>
      assert plan.(pc := pc') == plan;
    case _ =>
      PreparedIsSound(locks, r, plan, pc');
  }

  lemma TodoIsNotEmpty(locks: Locks, r: RunId, plan: Plan)
    requires PlanIsSound(locks, r, plan) && plan.pc.Acquiring?
    ensures plan.pc.todo != []
  {
  }

  lemma ReleasedIsSound(locks: Locks, r: RunId, plan: Plan)
    requires PlanIsSound(locks, r, plan) && plan.pc.ReadingLock? && plan.pc.left == []
    ensures PlanIsSound(locks, r, plan.(pc := Over(plan.pc.failures, plan.pc.reason)))
  {
    assert plan.pc.left + plan.pc.failures == plan.pc.failures;
  }

  /** Every stored lock of run `r` is one that its start holds. */
  ghost predicate OwnAreHeld(locks: Locks, r: RunId, held: seq<Lock>) {
    forall d :: d in locks && locks[d].value.owner == r ==> locks[d].value.definitionId == d && locks[d].value in held
  }

  lemma SameLocksHeld(locks: Locks, r: RunId, held: seq<Lock>, held': seq<Lock>)
    requires OwnAreHeld(locks, r, held) && forall lock :: lock in held ==> lock in held'
    ensures OwnAreHeld(locks, r, held')
  {
  }

  lemma MovedToFailures(left: seq<Lock>, failures: seq<Lock>)
    requires left != []
    ensures forall lock :: lock in left + failures ==> lock in left[..|left| - 1] + (failures + [left[|left| - 1]])
  {
    var n := |left| - 1;
    forall lock | lock in left + failures ensures lock in left[..n] + (failures + [left[n]]) {
      assert left == left[..n] + [left[n]];
    }
  }

  lemma DeletedIsReleased(locks: Locks, r: RunId, left: seq<Lock>, failures: seq<Lock>)
    requires left != [] && OwnAreHeld(locks, r, left + failures)
    ensures OwnAreHeld(locks - {left[|left| - 1].definitionId}, r, left[..|left| - 1] + failures)
  {
    assert left == left[..|left| - 1] + [left[|left| - 1]];
  }

  lemma StepKeepsOwn(locks: Locks, r: RunId, plan: Plan, ok: bool, token: nat)
    requires PlanIsSound(locks, r, plan) && OwnAreHeld(locks, r, plan.pc.Holds())
    ensures var (locks', pc') := Step(locks, r, plan.pc, ok, token); OwnAreHeld(locks', r, pc'.Holds())
  {
    hide OwnAreHeld, PlanIsSound;
    match plan.pc
    case Acquiring(held, todo) =>
      assert held + [] == held;
      if todo != [] && ok && Accepts(locks, todo[0], Some(0)) {
        AcquiredIsHeld(locks, r, held, todo[0], token);
      }
    case ReadingLock(left, failures, reason) =>
      if left == [] {
        assert left + failures == failures;
      } else {
        ReadIsSound(locks, r, plan);
        PassedOverIsHeld(locks, r, left, failures);
      }
    case DeletingLock(left, version, failures, reason) =>
      LeftIsNotEmpty(locks, r, plan);
      DeleteIsSound(locks, r, plan);
      PassedOverIsHeld(locks, r, left, failures);
      DeletedIsReleased(locks, r, left, failures);
    case Over(_, _) =>
    case _ =>
      assert plan.pc.held + [] == plan.pc.held;
  }

  lemma LeftIsNotEmpty(locks: Locks, r: RunId, plan: Plan)
    requires PlanIsSound(locks, r, plan) && plan.pc.DeletingLock?
    ensures plan.pc.left != []
  {
  }

  lemma PassedOverIsHeld(locks: Locks, r: RunId, left: seq<Lock>, failures: seq<Lock>)
    requires left != [] && OwnAreHeld(locks, r, left + failures)
    ensures OwnAreHeld(locks, r, left[..|left| - 1] + (failures + [left[|left| - 1]]))
  {
    MovedToFailures(left, failures);
    SameLocksHeld(locks, r, left + failures, left[..|left| - 1] + (failures + [left[|left| - 1]]));
  }

  lemma AcquiredIsHeld(locks: Locks, r: RunId, held: seq<Lock>, d: DefinitionId, token: nat)
    requires OwnAreHeld(locks, r, held) && d !in locks
    ensures OwnAreHeld(Posted(locks, d, Lock(d, r, token)), r, held + [Lock(d, r, token)])
  {
    assert (held + [Lock(d, r, token)])[|held|] == Lock(d, r, token);
  }

  lemma OwnLocksOf(m: Machine, r: RunId)
    requires Sound(m)
    ensures r in m.plans ==> OwnAreHeld(m.locks, r, m.plans[r].pc.Holds())
    ensures r !in m.plans ==> OwnAreHeld(m.locks, r, [])
  {
  }

  lemma OthersStillHold(locks: Locks, r: RunId, locks': Locks, other: RunId, held: seq<Lock>)
    requires OwnChange(locks, r, locks') && other != r && OwnAreHeld(locks, other, held)
    ensures OwnAreHeld(locks', other, held)
  {
  }

  lemma HeldIf(m: Machine)
    requires forall d :: d in m.locks ==> m.locks[d].value.owner in m.plans
    requires forall r :: r in m.plans ==> OwnAreHeld(m.locks, r, m.plans[r].pc.Holds())
    ensures LocksAreHeld(m)
  {
    forall d | d in m.locks
      ensures m.locks[d].value.definitionId == d && m.locks[d].value in m.plans[m.locks[d].value.owner].pc.Holds()
    {
      assert OwnAreHeld(m.locks, m.locks[d].value.owner, m.plans[m.locks[d].value.owner].pc.Holds());
    }
  }

  lemma OwnersArePlans(m: Machine, r: RunId, locks': Locks)
    requires LocksAreHeld(m) && OwnChange(m.locks, r, locks') && r in m.plans
    ensures forall d :: d in locks' ==> locks'[d].value.owner in m.plans
  {
  }

  lemma ContinueIsSound(m: Machine, r: RunId, ok: bool, token: nat, m': Machine)
    requires Sound(m) && Next(m, Continue(r, ok, token), m')
    ensures Sound(m')
  {
    var plan := m.plans[r];
    assert PlanIsSound(m.locks, r, plan);
    OwnLocksOf(m, r);
    StepIsSound(m.locks, r, plan, ok, token);
    StepKeepsOwn(m.locks, r, plan, ok, token);
    OwnersArePlans(m, r, m'.locks);
    hide Step, OwnChange, OwnAreHeld, LocksAreHeld, PlanIsSound;
    forall other | other in m'.plans
      ensures PlanIsSound(m'.locks, other, m'.plans[other]) && OwnAreHeld(m'.locks, other, m'.plans[other].pc.Holds())
    {
      if other != r {
        OwnLocksOf(m, other);
        OtherPlanStaysSound(m.locks, r, m'.locks, other, m.plans[other]);
        OthersStillHold(m.locks, r, m'.locks, other, m.plans[other].pc.Holds());
      }
    }
    HeldIf(m');
  }

  lemma PlanIgnoresAttachment(locks: Locks, r: RunId, plan: Plan, plan': Plan)
    requires PlanIsSound(locks, r, plan) && plan'.scope == plan.scope && plan'.pc == plan.pc
    ensures PlanIsSound(locks, r, plan')
  {
  }

  lemma NewPlanIsSound(locks: Locks, r: RunId, scope: seq<DefinitionId>)
    ensures PlanIsSound(locks, r, Plan(scope, AcquiredAll([], scope), NotYet)) && AcquiredAll([], scope).Holds() == []
  {
    assert DefinitionsOf([]) + scope == scope;
  }

  lemma BeginIsSound(m: Machine, r: RunId, scope: seq<DefinitionId>, m': Machine)
    requires Sound(m) && Next(m, Begin(r, scope), m')
    ensures Sound(m')
  {
    NewPlanIsSound(m.locks, r, scope);
    OwnLocksOf(m, r);
    hide PlanIsSound, OwnAreHeld;
    forall other | other in m'.plans ensures OwnAreHeld(m'.locks, other, m'.plans[other].pc.Holds()) {
      OwnLocksOf(m, other);
      assert other == r ==> m'.plans[other].pc.Holds() == [];
    }
    HeldIf(m');
  }

  lemma AttachIsSound(m: Machine, r: RunId, ok: bool, m': Machine)
    requires Sound(m) && Next(m, Attach(r, ok), m')
    ensures Sound(m')
  {
    PlanIgnoresAttachment(m.locks, r, m.plans[r], m'.plans[r]);
    hide PlanIsSound, OwnAreHeld;
    forall other | other in m'.plans ensures OwnAreHeld(m'.locks, other, m'.plans[other].pc.Holds()) {
      OwnLocksOf(m, other);
    }
    HeldIf(m');
  }

  /** Any step of any start keeps the invariant. */
  lemma MoveIsSound(m: Machine, move: Move, m': Machine)
    requires Sound(m) && Next(m, move, m')
    ensures Sound(m')
  {
    hide Sound, Next;
    match move
    case Begin(r, scope) => BeginIsSound(m, r, scope, m');
    case Continue(r, ok, token) => ContinueIsSound(m, r, ok, token, m');
    case Attach(r, ok) => AttachIsSound(m, r, ok, m');
  }

  ghost predicate Moves(m: Machine, m': Machine) {
    exists move :: Next(m, move, m')
  }

  ghost predicate Execution(ms: seq<Machine>) {
    && |ms| > 0 && ms[0] == EMPTY
    && forall i :: 0 <= i < |ms| - 1 ==> Moves(ms[i], ms[i + 1])
  }

  lemma {:induction false} ExecutionIsSound(ms: seq<Machine>)
    requires Execution(ms)
    ensures Sound(ms[|ms| - 1])
  {
    var n := |ms| - 1;
    if n > 0 {
      ExecutionIsSound(ms[..n]);
      assert Moves(ms[n - 1], ms[n]);
      hide Sound, Next;
      var move :| Next(ms[n - 1], move, ms[n]);
      MoveIsSound(ms[n - 1], move, ms[n]);
    }
  }

  // ---------- What the locks guarantee ----------

  lemma RunningHoldsScope(m: Machine, r: RunId, d: DefinitionId)
    requires Sound(m) && r in m.plans && m.plans[r].pc.Running? && d in m.plans[r].scope
    ensures d in m.locks && m.locks[d].value.owner == r
  {
    var plan := m.plans[r];
    assert PlanIsSound(m.locks, r, plan);
    var i :| 0 <= i < |plan.scope| && plan.scope[i] == d;
    assert DefinitionsOf(plan.pc.held)[i] == d;
    assert plan.pc.Holds()[i].definitionId == d;
  }

  /** However starts interleave, two runs whose scopes share a definition never run at the same time. */
  lemma RunsExcludeEachOther(ms: seq<Machine>, r: RunId, r': RunId, d: DefinitionId)
    requires Execution(ms)
    requires var m := ms[|ms| - 1];
      && r in m.plans && r' in m.plans && m.plans[r].pc.Running? && m.plans[r'].pc.Running?
      && d in m.plans[r].scope && d in m.plans[r'].scope
    ensures r == r'
  {
    ExecutionIsSound(ms);
    hide Sound;
    RunningHoldsScope(ms[|ms| - 1], r, d);
    RunningHoldsScope(ms[|ms| - 1], r', d);
  }

  /**
   * However starts interleave, whether acquiring, running, finishing or releasing: two starts never
   * hold a lock of the same definition, and each holds at most one.
   */
  lemma LocksExcludeEachOther(ms: seq<Machine>, r: RunId, r': RunId, a: Lock, b: Lock)
    requires Execution(ms)
    requires var m := ms[|ms| - 1];
      && r in m.plans && r' in m.plans && a in m.plans[r].pc.Holds() && b in m.plans[r'].pc.Holds()
    requires a.definitionId == b.definitionId
    ensures r == r' && a == b
  {
    ExecutionIsSound(ms);
    var m := ms[|ms| - 1];
    PlanOf(m, r);
    PlanOf(m, r');
    hide Sound;
    HeldIsStored(m.locks, r, m.plans[r], a);
    HeldIsStored(m.locks, r', m.plans[r'], b);
  }

  lemma HeldIsStored(locks: Locks, r: RunId, plan: Plan, lock: Lock)
    requires PlanIsSound(locks, r, plan) && lock in plan.pc.Holds()
    ensures lock.owner == r && lock.definitionId in locks && locks[lock.definitionId].value == lock
  {
  }

  ghost predicate LeavesExactly(locks: Locks, r: RunId, failures: seq<Lock>) {
    && (forall d :: d in locks && locks[d].value.owner == r ==> locks[d].value in failures)
    && (forall lock :: lock in failures ==>
          lock.definitionId in locks && locks[lock.definitionId].value == lock && lock.owner == r)
  }

  /** A start that is over has left in the store exactly the locks it could not release. */
  lemma OverLeavesOnlyFailures(ms: seq<Machine>, r: RunId)
    requires Execution(ms) && r in ms[|ms| - 1].plans && ms[|ms| - 1].plans[r].pc.Over?
    ensures LeavesExactly(ms[|ms| - 1].locks, r, ms[|ms| - 1].plans[r].pc.failures)
  {
    hide Sound, OwnAreHeld, PlanIsSound, LeavesExactly;
    ExecutionIsSound(ms);
    var m := ms[|ms| - 1];
    PlanOf(m, r);
    OwnLocksOf(m, r);
    OverFacts(m.locks, r, m.plans[r]);
  }

  lemma PlanOf(m: Machine, r: RunId)
    requires Sound(m) && r in m.plans
    ensures PlanIsSound(m.locks, r, m.plans[r])
  {
  }

  lemma OverFacts(locks: Locks, r: RunId, plan: Plan)
    requires PlanIsSound(locks, r, plan) && plan.pc.Over? && OwnAreHeld(locks, r, plan.pc.failures)
    ensures LeavesExactly(locks, r, plan.pc.failures)
  {
  }

  // ---------- When releases get through ----------

  function FailuresOf(pc: Pc): seq<Lock> {
    if pc.ReadingLock? || pc.DeletingLock? || pc.Over? then pc.failures else []
  }

  predicate IsRelease(pc: Pc) { pc.ReadingLock? || pc.DeletingLock? }

  /** An execution with its moves. */
  ghost predicate Trace(ms: seq<Machine>, moves: seq<Move>) {
    && |ms| == |moves| + 1 && ms[0] == EMPTY
    && forall i :: 0 <= i < |moves| ==> Next(ms[i], moves[i], ms[i + 1])
  }

  /** The move is no request of a release of run `r` that fails to get through. */
  ghost predicate GetsThrough(m: Machine, move: Move, r: RunId) {
    move.Continue? && move.runId == r && r in m.plans && IsRelease(m.plans[r].pc) ==> move.ok
  }

  ghost predicate ReleasesGetThrough(ms: seq<Machine>, moves: seq<Move>, r: RunId) {
    |ms| == |moves| + 1 && forall i :: 0 <= i < |moves| ==> GetsThrough(ms[i], moves[i], r)
  }

  ghost predicate NoFailures(m: Machine, r: RunId) {
    r in m.plans ==> FailuresOf(m.plans[r].pc) == []
  }

  /** No other client can have changed a lock that is being released, so the store never refuses it. */
  lemma StepAddsNoFailure(locks: Locks, r: RunId, plan: Plan, ok: bool, token: nat)
    requires PlanIsSound(locks, r, plan) && FailuresOf(plan.pc) == [] && (IsRelease(plan.pc) ==> ok)
    ensures FailuresOf(Step(locks, r, plan.pc, ok, token).1) == []
  {
    if plan.pc.ReadingLock? && plan.pc.left != [] {
      ReadIsSound(locks, r, plan);
    } else if plan.pc.DeletingLock? {
      LeftIsNotEmpty(locks, r, plan);
      DeleteIsSound(locks, r, plan);
    }
    hide PlanIsSound, Accepts, Posted, Delete;
  }

  lemma MoveAddsNoFailure(m: Machine, move: Move, m': Machine, r: RunId)
    requires Sound(m) && Next(m, move, m') && GetsThrough(m, move, r) && NoFailures(m, r)
    ensures NoFailures(m', r)
  {
    if r in m.plans {
      PlanOf(m, r);
      hide Sound, PlanIsSound, Step;
      if move.runId == r && move.Continue? {
        StepAddsNoFailure(m.locks, r, m.plans[r], move.ok, move.token);
      }
    }
    hide Sound, Step;
  }

  lemma TraceIsExecution(ms: seq<Machine>, moves: seq<Move>)
    requires Trace(ms, moves)
    ensures Execution(ms)
  {
    hide Next;
    forall i | 0 <= i < |ms| - 1 ensures Moves(ms[i], ms[i + 1]) {
      assert Next(ms[i], moves[i], ms[i + 1]);
    }
  }

  lemma {:induction false} FailsToReleaseNothing(ms: seq<Machine>, moves: seq<Move>, r: RunId)
    requires Trace(ms, moves) && ReleasesGetThrough(ms, moves, r)
    ensures NoFailures(ms[|moves|], r)
  {
    var n := |moves|;
    if n > 0 {
      hide Next, GetsThrough, NoFailures, Sound;
      FailsToReleaseNothing(ms[..n], moves[..n - 1], r);
      TraceIsExecution(ms, moves);
      PrefixIsSound(ms, n - 1);
      MoveAddsNoFailure(ms[n - 1], moves[n - 1], ms[n], r);
    }
  }

  /**
   * However other starts interleave, when the releases of a start get through to the store, it has
   * left none of its locks once it is over, whichever stage it failed at.
   */
  lemma OverLeavesNothing(ms: seq<Machine>, moves: seq<Move>, r: RunId)
    requires Trace(ms, moves) && ReleasesGetThrough(ms, moves, r)
    requires r in ms[|moves|].plans && ms[|moves|].plans[r].pc.Over?
    ensures ms[|moves|].plans[r].pc.failures == []
    ensures forall d :: d in ms[|moves|].locks ==> ms[|moves|].locks[d].value.owner != r
  {
    assert |ms| == |moves| + 1;
    hide *;
    TraceIsExecution(ms, moves);
    FailsToReleaseNothing(ms, moves, r);
    OverLeavesOnlyFailures(ms, r);
    NothingIsLeft(ms[|moves|], r);
  }

  lemma NothingIsLeft(m: Machine, r: RunId)
    requires r in m.plans && m.plans[r].pc.Over? && NoFailures(m, r)
    requires LeavesExactly(m.locks, r, m.plans[r].pc.failures)
    ensures m.plans[r].pc.failures == [] && forall d :: d in m.locks ==> m.locks[d].value.owner != r
  {
  }

  /** No step of one start changes a lock another start holds. */
  lemma OthersLocksAreUntouched(m: Machine, move: Move, m': Machine, r: RunId, d: DefinitionId)
    requires Sound(m) && Next(m, move, m') && move.runId != r && d in m.locks && m.locks[d].value.owner == r
    ensures d in m'.locks && m'.locks[d] == m.locks[d]
  {
    if move.Continue? {
      var other := move.runId;
      PlanOf(m, other);
      hide Step, PlanIsSound, OwnChange, Sound;
      StepIsSound(m.locks, other, m.plans[other], move.ok, move.token);
      ChangeIsElsewhere(m.locks, other, m'.locks, r, d);
    }
  }

  lemma ChangeIsElsewhere(locks: Locks, other: RunId, locks': Locks, r: RunId, d: DefinitionId)
    requires OwnChange(locks, other, locks') && other != r && d in locks && locks[d].value.owner == r
    ensures d in locks' && locks'[d] == locks[d]
  {
  }

  predicate Releasing(pc: Pc) { pc.ReadingLock? || pc.DeletingLock? || pc.Over? }

  /** Run `r` still runs with the lock of `d` stored as it was, or its workflow has finished. */
  ghost predicate StillLocked(m: Machine, r: RunId, d: DefinitionId, stored: Stored<Lock>) {
    r in m.plans && (Releasing(m.plans[r].pc) || (m.plans[r].pc.Running? && d in m.locks && m.locks[d] == stored))
  }

  lemma MoveKeepsLocked(m: Machine, move: Move, m': Machine, r: RunId, d: DefinitionId, stored: Stored<Lock>)
    requires Sound(m) && Next(m, move, m') && StillLocked(m, r, d, stored) && stored.value.owner == r
    ensures StillLocked(m', r, d, stored)
  {
    hide Sound, Next;
    if move.runId != r {
      OtherPlanIsSame(m, move, m', r);
      if !Releasing(m.plans[r].pc) {
        OthersLocksAreUntouched(m, move, m', r, d);
      }
    } else {
      OwnPlanMoves(m, move, m');
    }
  }

  lemma OtherPlanIsSame(m: Machine, move: Move, m': Machine, r: RunId)
    requires Next(m, move, m') && move.runId != r && r in m.plans
    ensures r in m'.plans && m'.plans[r] == m.plans[r]
  {
    hide Step;
  }

  /** A finished workflow only releases, and attaching changes neither locks nor progress. */
  lemma OwnPlanMoves(m: Machine, move: Move, m': Machine)
    requires Next(m, move, m') && move.runId in m.plans
    ensures var r := move.runId; var pc := m.plans[r].pc;
      && r in m'.plans
      && (Releasing(pc) ==> Releasing(m'.plans[r].pc))
      && (pc.Running? ==> Releasing(m'.plans[r].pc) || (m'.plans[r].pc == pc && m'.locks == m.locks))
  {
    var r := move.runId;
    match move
    case Begin(_, _) =>
    case Attach(_, _) =>
    case Continue(_, ok, token) => StepReleases(m.locks, r, m.plans[r].pc, ok, token); hide Step;
  }

  lemma StepReleases(locks: Locks, r: RunId, pc: Pc, ok: bool, token: nat)
    ensures Releasing(pc) || pc.Running? ==> Releasing(Step(locks, r, pc, ok, token).1)
  {
    hide Accepts, Posted, Delete;
  }

  lemma {:induction false} StaysLocked(ms: seq<Machine>, i: nat, n: nat, r: RunId, d: DefinitionId, stored: Stored<Lock>)
    requires Execution(ms) && i <= n < |ms| && StillLocked(ms[i], r, d, stored) && stored.value.owner == r
    ensures StillLocked(ms[n], r, d, stored)
  {
    hide Sound, Next, StillLocked;
    if i < n {
      StaysLocked(ms, i, n - 1, r, d, stored);
      PrefixIsSound(ms, n - 1);
      assert Moves(ms[n - 1], ms[n]);
      var move :| Next(ms[n - 1], move, ms[n]);
      MoveKeepsLocked(ms[n - 1], move, ms[n], r, d, stored);
    }
  }

  lemma PrefixIsSound(ms: seq<Machine>, i: nat)
    requires Execution(ms) && i < |ms|
    ensures Sound(ms[i])
  {
    hide Sound, Moves;
    assert Execution(ms[..i + 1]);
    ExecutionIsSound(ms[..i + 1]);
  }

  lemma IsLocked(m: Machine, r: RunId, d: DefinitionId, stored: Stored<Lock>)
    requires r in m.plans && m.plans[r].pc.Running? && d in m.locks && m.locks[d] == stored
    ensures StillLocked(m, r, d, stored)
  {
  }

  lemma RunningIsLocked(m: Machine, r: RunId, d: DefinitionId, stored: Stored<Lock>)
    requires StillLocked(m, r, d, stored) && (r in m.plans ==> m.plans[r].pc.Running?)
    ensures d in m.locks && m.locks[d] == stored
  {
  }

  /**
   * Whether or not attaching to an accepted workflow succeeds: every lock of its scope is stored
   * unchanged from before the attach until the workflow itself finishes, whatever others do.
   */
  lemma AttachKeepsLocks(ms: seq<Machine>, i: nat, r: RunId, ok: bool, d: DefinitionId)
    requires i + 1 < |ms| && r in ms[i].plans && ms[i].plans[r].pc.Running? && d in ms[i].plans[r].scope
    requires Execution(ms) && Next(ms[i], Attach(r, ok), ms[i + 1])
    requires r in ms[|ms| - 1].plans ==> ms[|ms| - 1].plans[r].pc.Running?
    ensures d in ms[i].locks && ms[i].locks[d].value.owner == r
    ensures d in ms[|ms| - 1].locks && ms[|ms| - 1].locks[d] == ms[i].locks[d]
  {
    hide *;
    PrefixIsSound(ms, i);
    RunningHoldsScope(ms[i], r, d);
    var stored := ms[i].locks[d];
    IsLocked(ms[i], r, d, stored);
    StaysLocked(ms, i, |ms| - 1, r, d, stored);
    RunningIsLocked(ms[|ms| - 1], r, d, stored);
  }

  // ---------- One start on its own ----------

  type LockStore = Provider<DefinitionId, Lock>

  ghost function Definitions(locks: seq<Lock>): set<DefinitionId> {
    set lock | lock in locks :: lock.definitionId
  }

  /** `now` is `before` with exactly the locks `held`, all of them new. */
  ghost predicate Adds(before: Locks, now: Locks, r: RunId, held: seq<Lock>) {
    && HoldsStored(now, r, held) && DistinctDefinitions(held)
    && now - Definitions(held) == before && before.Keys !! Definitions(held)
  }

  lemma AddsOneMore(before: Locks, now: Locks, r: RunId, held: seq<Lock>, lock: Lock)
    requires Adds(before, now, r, held) && lock.definitionId !in now && lock.owner == r
    ensures Adds(before, Posted(now, lock.definitionId, lock), r, held + [lock])
  {
    var now' := Posted(now, lock.definitionId, lock);
    var held' := held + [lock];
    assert Definitions(held') == Definitions(held) + {lock.definitionId};
    assert now' - Definitions(held') == before;
  }

  lemma AddsOneLess(before: Locks, now: Locks, r: RunId, left: seq<Lock>, failures: seq<Lock>)
    requires left != [] && Adds(before, now, r, left + failures)
    ensures left[|left| - 1].definitionId in now && now[left[|left| - 1].definitionId].value == left[|left| - 1]
    ensures Adds(before, now - {left[|left| - 1].definitionId}, r, left[..|left| - 1] + failures)
    ensures Adds(before, now, r, left[..|left| - 1] + (failures + [left[|left| - 1]]))
  {
    var n := |left| - 1;
    LastIsHeld(left, failures);
    var d := left[n].definitionId;
    var held, less, moved := left + failures, left[..n] + failures, left[..n] + (failures + [left[n]]);
    assert left == left[..n] + [left[n]];
    assert forall lock :: lock in held <==> lock in moved;
    assert Definitions(moved) == Definitions(held);
    assert Definitions(held) == Definitions(less) + {d};
    forall i | 0 <= i < |less| ensures less[i] == held[if i < n then i else i + 1] && less[i].definitionId != d {
    }
    forall i | 0 <= i < |moved| ensures moved[i] == held[if i < n then i else if i < |moved| - 1 then i + 1 else n] {
    }
    assert (now - {d}) - Definitions(less) == before;
  }

  /**
   * Which requests and calls of one start succeed, and the tokens of its locks. Request `i` of
   * `acquire` creates the lock of definition `i`; requests `2 * i` and `2 * i + 1` of `release` read
   * and delete the lock at index `i`.
   */
  datatype Answers = Answers(
    acquire: nat -> bool, token: nat -> nat, preflight: bool, envelope: bool, queue: bool, start: bool, release: nat -> bool)
  {
    function Stage(stage: Stage): bool {
      match stage
      case Preflight => preflight
      case Envelope => envelope
      case Queueing => queue
    }

    function Ok(pc: Pc): bool {
      match pc
      case Acquiring(held, _) => acquire(|held|)
      case Preparing(_, stage) => Stage(stage)
      case StartingWorkflow(_) => start
      case ReadingLock(left, _, _) => left == [] || release(2 * (|left| - 1))
      case DeletingLock(left, _, _, _) => left == [] || release(2 * (|left| - 1) + 1)
      case _ => true
    }

    function Token(pc: Pc): nat {
      if pc.Acquiring? then token(|pc.held|) else 0
    }
  }

  /** `n` steps of one start with these answers and no other client in between. */
  function Alone(locks: Locks, r: RunId, pc: Pc, a: Answers, n: nat): (Locks, Pc)
    decreases n
  {
    if n == 0 then (locks, pc)
    else
      var (locks', pc') := Step(locks, r, pc, a.Ok(pc), a.Token(pc));
      Alone(locks', r, pc', a, n - 1)
  }

  ghost predicate Reaches(locks: Locks, r: RunId, pc: Pc, a: Answers, locks': Locks, pc': Pc) {
    exists n: nat :: Alone(locks, r, pc, a, n) == (locks', pc')
  }

  lemma ReachesItself(locks: Locks, r: RunId, pc: Pc, a: Answers)
    ensures Reaches(locks, r, pc, a, locks, pc)
  {
    assert Alone(locks, r, pc, a, 0) == (locks, pc);
  }

  lemma {:induction false} AloneGoesOn(locks: Locks, r: RunId, pc: Pc, a: Answers, n: nat)
    ensures var (locks', pc') := Alone(locks, r, pc, a, n);
      Alone(locks, r, pc, a, n + 1) == Step(locks', r, pc', a.Ok(pc'), a.Token(pc'))
    decreases n
  {
    hide Step, Answers.Ok, Answers.Token;
    var (next, pc1) := Step(locks, r, pc, a.Ok(pc), a.Token(pc));
    if n == 0 {
      assert Alone(next, r, pc1, a, 0) == (next, pc1);
    } else {
      AloneGoesOn(next, r, pc1, a, n - 1);
    }
  }

  lemma ReachesNext(locks: Locks, r: RunId, pc: Pc, a: Answers, locks': Locks, pc': Pc)
    requires Reaches(locks, r, pc, a, locks', pc')
    ensures var (locks'', pc'') := Step(locks', r, pc', a.Ok(pc'), a.Token(pc')); Reaches(locks, r, pc, a, locks'', pc'')
  {
    hide Step, Answers.Ok, Answers.Token;
    var n: nat :| Alone(locks, r, pc, a, n) == (locks', pc');
    AloneGoesOn(locks, r, pc, a, n);
    var (locks'', pc'') := Step(locks', r, pc', a.Ok(pc'), a.Token(pc'));
    assert Alone(locks, r, pc, a, n + 1) == (locks'', pc'');
  }

  lemma {:induction false} AloneAdds(locks: Locks, r: RunId, pc: Pc, a: Answers, n: nat, k: nat)
    ensures var (locks', pc') := Alone(locks, r, pc, a, n); Alone(locks, r, pc, a, n + k) == Alone(locks', r, pc', a, k)
    decreases n
  {
    hide Step, Answers.Ok, Answers.Token;
    if n > 0 {
      var (next, pc1) := Step(locks, r, pc, a.Ok(pc), a.Token(pc));
      AloneAdds(next, r, pc1, a, n - 1, k);
    }
  }

  lemma ReachesThrough(locks: Locks, r: RunId, pc: Pc, a: Answers, locks': Locks, pc': Pc, locks'': Locks, pc'': Pc)
    requires Reaches(locks, r, pc, a, locks', pc') && Reaches(locks', r, pc', a, locks'', pc'')
    ensures Reaches(locks, r, pc, a, locks'', pc'')
  {
    var n: nat :| Alone(locks, r, pc, a, n) == (locks', pc');
    var k: nat :| Alone(locks', r, pc', a, k) == (locks'', pc'');
    hide Alone;
    AloneAdds(locks, r, pc, a, n, k);
    assert Alone(locks, r, pc, a, n + k) == (locks'', pc'');
  }

  /** Such steps are moves of the machine from any state in which the run has the same progress. */
  lemma {:induction false} AloneIsMoves(m: Machine, r: RunId, a: Answers, n: nat)
    returns (ms: seq<Machine>)
    requires r in m.plans
    ensures |ms| == n + 1 && ms[0] == m && forall i :: 0 <= i < n ==> Moves(ms[i], ms[i + 1])
    ensures var (locks', pc') := Alone(m.locks, r, m.plans[r].pc, a, n);
      ms[n] == Machine(locks', m.plans[r := m.plans[r].(pc := pc')])
    decreases n
  {
    hide Step, Moves, Answers.Ok, Answers.Token;
    if n == 0 {
      ms := [m];
      assert m.plans[r := m.plans[r].(pc := m.plans[r].pc)] == m.plans;
    } else {
      var pc := m.plans[r].pc;
      var (locks1, pc1) := Step(m.locks, r, pc, a.Ok(pc), a.Token(pc));
      var m1 := Machine(locks1, m.plans[r := m.plans[r].(pc := pc1)]);
      StepIsMove(m, r, a.Ok(pc), a.Token(pc));
      var rest := AloneIsMoves(m1, r, a, n - 1);
      ms := [m] + rest;
    }
  }

  lemma StepIsMove(m: Machine, r: RunId, ok: bool, token: nat)
    requires r in m.plans
    ensures var (locks1, pc1) := Step(m.locks, r, m.plans[r].pc, ok, token);
      Moves(m, Machine(locks1, m.plans[r := m.plans[r].(pc := pc1)]))
  {
    hide Step;
    var (locks1, pc1) := Step(m.locks, r, m.plans[r].pc, ok, token);
    assert Next(m, Continue(r, ok, token), Machine(locks1, m.plans[r := m.plans[r].(pc := pc1)]));
  }

  /** The locks, from the last to the first, whose read or delete does not get through. */
  function Unreleased(locks: seq<Lock>, ok: nat -> bool): seq<Lock> {
    if |locks| == 0 then []
    else
      var i := |locks| - 1;
      if ok(2 * i) && ok(2 * i + 1) then Unreleased(locks[..i], ok) else [locks[i]] + Unreleased(locks[..i], ok)
  }

  lemma {:induction false} AllReleased(locks: seq<Lock>, ok: nat -> bool)
    requires forall k :: 0 <= k < 2 * |locks| ==> ok(k)
    ensures Unreleased(locks, ok) == []
  {
    if locks != [] {
      AllReleased(locks[..|locks| - 1], ok);
    }
  }

  /** The machine releases the last lock as the loop does. */
  lemma ReleasesLast(store: Locks, r: RunId, pc: Pc, a: Answers, now: Locks, left: seq<Lock>, failures: seq<Lock>, reason: Reason)
    requires Reaches(store, r, pc, a, now, ReadingLock(left, failures, reason)) && left != []
    requires var d := left[|left| - 1].definitionId; d in now && now[d].value == left[|left| - 1]
    ensures var i := |left| - 1;
      if a.release(2 * i) && a.release(2 * i + 1)
      then Reaches(store, r, pc, a, now - {left[i].definitionId}, ReadingLock(left[..i], failures, reason))
      else Reaches(store, r, pc, a, now, ReadingLock(left[..i], failures + [left[i]], reason))
  {
    hide Reaches;
    var reading := ReadingLock(left, failures, reason);
    ReachesNext(store, r, pc, a, now, reading);
    var (locks1, pc1) := Step(now, r, reading, a.Ok(reading), a.Token(reading));
    if a.release(2 * (|left| - 1)) {
      ReachesNext(store, r, pc, a, locks1, pc1);
    }
  }

  /** Where the loop stands, with `left` still to release. */
  ghost predicate ReleasedSoFar(before: Locks, start: Locks, now: Locks, r: RunId, locks: seq<Lock>, a: Answers,
                                reason: Reason, left: seq<Lock>, failures: seq<Lock>)
  {
    && Adds(before, now, r, left + failures)
    && failures + Unreleased(left, a.release) == Unreleased(locks, a.release)
    && Reaches(start, r, Release(locks, reason), a, now, ReadingLock(left, failures, reason))
  }

  lemma ReleaseBegins(before: Locks, now: Locks, r: RunId, locks: seq<Lock>, a: Answers, reason: Reason)
    requires Adds(before, now, r, locks)
    ensures ReleasedSoFar(before, now, now, r, locks, a, reason, locks, [])
  {
    hide Adds, Reaches, Unreleased;
    assert locks + [] == locks;
    ReachesItself(now, r, Release(locks, reason), a);
  }

  lemma ReleaseGoesOn(before: Locks, start: Locks, now: Locks, r: RunId, locks: seq<Lock>, a: Answers, reason: Reason,
                      left: seq<Lock>, failures: seq<Lock>)
    requires ReleasedSoFar(before, start, now, r, locks, a, reason, left, failures) && left != []
    ensures left[|left| - 1].definitionId in now && now[left[|left| - 1].definitionId].value == left[|left| - 1]
    ensures var i := |left| - 1;
      if a.release(2 * i) && a.release(2 * i + 1)
      then ReleasedSoFar(before, start, now - {left[i].definitionId}, r, locks, a, reason, left[..i], failures)
      else ReleasedSoFar(before, start, now, r, locks, a, reason, left[..i], failures + [left[i]])
  {
    hide Adds, Reaches;
    AddsOneLess(before, now, r, left, failures);
    ReleasesLast(start, r, Release(locks, reason), a, now, left, failures, reason);
    UnreleasedMoves(left, failures, a.release);
    hide Unreleased;
  }

  lemma {:induction false} UnreleasedMoves(left: seq<Lock>, failures: seq<Lock>, ok: nat -> bool)
    requires left != []
    ensures var i := |left| - 1;
      failures + Unreleased(left, ok) ==
        (if ok(2 * i) && ok(2 * i + 1) then failures else failures + [left[i]]) + Unreleased(left[..i], ok)
  {
    var i := |left| - 1;
    var rest := Unreleased(left[..i], ok);
    if ok(2 * i) && ok(2 * i + 1) {
      assert Unreleased(left, ok) == rest;
      hide *;
    } else {
      assert Unreleased(left, ok) == [left[i]] + rest;
      hide *;
      assert failures + ([left[i]] + rest) == (failures + [left[i]]) + rest;
    }
  }

  lemma ReleaseEnds(before: Locks, start: Locks, now: Locks, r: RunId, locks: seq<Lock>, a: Answers, reason: Reason,
                    failures: seq<Lock>)
    requires ReleasedSoFar(before, start, now, r, locks, a, reason, [], failures)
    ensures Adds(before, now, r, failures) && failures == Unreleased(locks, a.release)
    ensures Reaches(start, r, Release(locks, reason), a, now, Over(failures, reason))
    ensures (forall n :: a.release(n)) ==> now == before
  {
    hide Adds, Reaches;
    assert [] + failures == failures;
    ReachesNext(start, r, Release(locks, reason), a, now, ReadingLock([], failures, reason));
    if forall n :: a.release(n) {
      AllReleased(locks, a.release);
      NothingAdded(before, now, r);
    }
  }

  /** Release in reverse order, going on after failures. */
  method ReleaseLocks(store: LockStore, ghost before: Locks, r: RunId, locks: seq<Lock>, a: Answers, ghost reason: Reason)
    returns (failures: seq<Lock>)
    requires store.Valid() && Adds(before, store.objects, r, locks)
    modifies store
    ensures store.Valid() && Adds(before, store.objects, r, failures)
    ensures failures == Unreleased(locks, a.release)
    ensures (forall n :: a.release(n)) ==> store.objects == before
    ensures Reaches(old(store.objects), r, Release(locks, reason), a, store.objects, Over(failures, reason))
  {
    hide Reaches, Adds, ReleasedSoFar, Unreleased;
    failures := [];
    var left := locks;
    ReleaseBegins(before, store.objects, r, locks, a, reason);
    while |left| > 0
      invariant store.Valid()
      invariant ReleasedSoFar(before, old(store.objects), store.objects, r, locks, a, reason, left, failures)
    {
      var i := |left| - 1;
      var lock := left[i];
      ReleaseGoesOn(before, old(store.objects), store.objects, r, locks, a, reason, left, failures);
      left := left[..i];
      var read := store.HandleGet(lock.definitionId);
      if a.release(2 * i) && a.release(2 * i + 1) {
        var deleted := store.HandleDelete(lock.definitionId, read.value.version);
      } else {
        failures := failures + [lock];
      }
    }
    ReleaseEnds(before, old(store.objects), store.objects, r, locks, a, reason, failures);
  }

  lemma NothingAdded(before: Locks, now: Locks, r: RunId)
    ensures Adds(before, now, r, []) <==> now == before
  {
    assert Definitions([]) == {};
    assert now - {} == now;
  }

  /** Every definition is named once and unlocked, and every request gets through. */
  ghost predicate Acquirable(before: Locks, definitionIds: seq<DefinitionId>, ok: nat -> bool) {
    && Distinct(definitionIds)
    && forall i :: 0 <= i < |definitionIds| ==> ok(i) && definitionIds[i] !in before
  }

  lemma LockedIsNotAcquirable(before: Locks, now: Locks, r: RunId, held: seq<Lock>, ids: seq<DefinitionId>, ok: nat -> bool)
    requires Adds(before, now, r, held) && |held| < |ids| && DefinitionsOf(held) == ids[..|held|]
    requires ids[|held|] in now
    ensures !Acquirable(before, ids, ok)
  {
    var d := ids[|held|];
    if d !in before {
      assert d in Definitions(held);
      var lock :| lock in held && lock.definitionId == d;
      var i :| 0 <= i < |held| && held[i] == lock;
      assert DefinitionsOf(held)[i] == ids[i];
    }
  }

  lemma AllAcquired(before: Locks, now: Locks, r: RunId, held: seq<Lock>, ids: seq<DefinitionId>, ok: nat -> bool)
    requires Adds(before, now, r, held) && DefinitionsOf(held) == ids && forall i :: 0 <= i < |ids| ==> ok(i)
    ensures Acquirable(before, ids, ok)
  {
    forall i | 0 <= i < |ids| ensures ids[i] !in before {
      assert held[i].definitionId == ids[i] && held[i] in held;
      assert ids[i] in Definitions(held);
    }
    forall i, j | 0 <= i < j < |ids| ensures ids[i] != ids[j] {
      assert held[i].definitionId != held[j].definitionId;
    }
  }

  /** Creating the next lock of the scope, in the machine. */
  lemma AcquiresNext(store: Locks, r: RunId, pc: Pc, a: Answers, now: Locks, held: seq<Lock>, todo: seq<DefinitionId>)
    requires Reaches(store, r, pc, a, now, AcquiredAll(held, todo)) && todo != []
    ensures var lock := Lock(todo[0], r, a.token(|held|));
      if a.acquire(|held|) && todo[0] !in now
      then Reaches(store, r, pc, a, Posted(now, todo[0], lock), AcquiredAll(held + [lock], todo[1..]))
      else Reaches(store, r, pc, a, now, Release(held, NotAcquired))
  {
    hide Reaches, Posted;
    ReachesNext(store, r, pc, a, now, Acquiring(held, todo));
  }

  /** Acquire the whole scope in order, or release what was acquired. */
  method AcquireLocks(store: LockStore, r: RunId, definitionIds: seq<DefinitionId>, a: Answers)
    returns (acquired: Result<seq<Lock>, seq<Lock>>)
    requires store.Valid()
    modifies store
    ensures store.Valid()
    ensures acquired.Ok? <==> Acquirable(old(store.objects), definitionIds, a.acquire)
    ensures acquired.Ok? ==> Adds(old(store.objects), store.objects, r, acquired.value)
    ensures acquired.Ok? ==> DefinitionsOf(acquired.value) == definitionIds
    ensures acquired.Err? ==> Adds(old(store.objects), store.objects, r, acquired.error)
    ensures acquired.Err? && (forall n :: a.release(n)) ==> store.objects == old(store.objects)
    ensures Reaches(old(store.objects), r, AcquiredAll([], definitionIds), a, store.objects,
              if acquired.Ok? then Preparing(acquired.value, Preflight) else Over(acquired.error, NotAcquired))
  {
    hide Reaches;
    var locks: seq<Lock> := [];
    ghost var before := store.objects;
    ghost var begun := AcquiredAll([], definitionIds);
    NothingAdded(before, store.objects, r);
    ReachesItself(before, r, begun, a);
    for i := 0 to |definitionIds|
      invariant store.Valid() && Adds(before, store.objects, r, locks)
      invariant DefinitionsOf(locks) == definitionIds[..i] && forall j :: 0 <= j < i ==> a.acquire(j)
      invariant Reaches(before, r, begun, a, store.objects, AcquiredAll(locks, definitionIds[i..]))
    {
      var lock := Lock(definitionIds[i], r, a.token(i));
      var created := false;
      ghost var now := store.objects;
      AcquiresNext(before, r, begun, a, now, locks, definitionIds[i..]);
      if a.acquire(i) {
        var posted := store.HandlePost(lock.definitionId, lock, Some(0));
        created := posted.Ok?;
        if created {
          AddsOneMore(before, now, r, locks, lock);
        } else {
          LockedIsNotAcquirable(before, now, r, locks, definitionIds, a.acquire);
        }
      }
      if !created {
        var failures := ReleaseLocks(store, before, r, locks, a, NotAcquired);
        ReachesThrough(before, r, begun, a, now, Release(locks, NotAcquired), store.objects, Over(failures, NotAcquired));
        return Err(failures);
      }
      locks := locks + [lock];
    }
    assert definitionIds[..|definitionIds|] == definitionIds;
    AllAcquired(before, store.objects, r, locks, definitionIds, a.acquire);
    acquired := Ok(locks);
  }

  datatype Outcome =
    | StartedRun(locks: seq<Lock>)
    | AttachError(locks: seq<Lock>)
    | StartRejected(failures: seq<Lock>, reason: Reason)

  /** The progress of the machine that an outcome stands for. */
  function Standing(outcome: Outcome): Pc {
    if outcome.StartRejected? then Over(outcome.failures, outcome.reason) else Running(outcome.locks)
  }

  /** The machine releases after the stage that failed, which the method does at once. */
  method RejectStart(store: LockStore, ghost before: Locks, r: RunId, ghost scope: seq<DefinitionId>, locks: seq<Lock>,
                     a: Answers, reason: Reason)
    returns (outcome: Outcome)
    requires store.Valid() && Adds(before, store.objects, r, locks)
    requires Reaches(before, r, AcquiredAll([], scope), a, store.objects, Release(locks, reason))
    modifies store
    ensures store.Valid()
    ensures outcome == StartRejected(Unreleased(locks, a.release), reason)
    ensures Adds(before, store.objects, r, outcome.failures)
    ensures (forall n :: a.release(n)) ==> store.objects == before
    ensures Reaches(before, r, AcquiredAll([], scope), a, store.objects, Standing(outcome))
  {
    hide Reaches;
    ghost var now := store.objects;
    var failures := ReleaseLocks(store, before, r, locks, a, reason);
    ReachesThrough(before, r, AcquiredAll([], scope), a, now, Release(locks, reason), store.objects, Over(failures, reason));
    outcome := StartRejected(failures, reason);
  }

  /** The first thing that goes wrong, if anything does. */
  ghost function RejectionOf(before: Locks, scope: seq<DefinitionId>, a: Answers): Option<Reason> {
    if !Acquirable(before, scope, a.acquire) then Some(NotAcquired)
    else if !a.preflight then Some(NotPrepared(Preflight))
    else if !a.envelope then Some(NotPrepared(Envelope))
    else if !a.queue then Some(NotPrepared(Queueing))
    else if !a.start then Some(NotStarted)
    else None
  }

  /**
   * Start one durable plan with no other client in between. Accepted by the workflow it keeps every
   * lock of its scope, even when attaching fails; otherwise it leaves only locks it could not release.
   * With the same answers the machine takes the same store to the same locks: to a running start when
   * the plan is accepted, and to one that is over for the same reason when it is rejected.
   */
  method StartDurablePlan(store: LockStore, r: RunId, scope: seq<DefinitionId>, a: Answers, attachOk: bool)
    returns (outcome: Outcome)
    requires store.Valid()
    modifies store
    ensures store.Valid()
    ensures !outcome.StartRejected? ==>
      Adds(old(store.objects), store.objects, r, outcome.locks) && DefinitionsOf(outcome.locks) == scope
    ensures !outcome.StartRejected? <==>
      Acquirable(old(store.objects), scope, a.acquire) && a.preflight && a.envelope && a.queue && a.start
    ensures !outcome.StartRejected? ==> (outcome.StartedRun? <==> attachOk)
    ensures outcome.StartRejected? ==>
      && Adds(old(store.objects), store.objects, r, outcome.failures)
      && Some(outcome.reason) == RejectionOf(old(store.objects), scope, a)
    ensures outcome.StartRejected? && (forall n :: a.release(n)) ==> store.objects == old(store.objects)
    ensures Reaches(old(store.objects), r, AcquiredAll([], scope), a, store.objects, Standing(outcome))
  {
    hide Reaches, Adds;
    ghost var before := store.objects;
    ghost var begun := AcquiredAll([], scope);
    var acquired := AcquireLocks(store, r, scope, a);
    if acquired.Err? {
      return StartRejected(acquired.error, NotAcquired);
    }
    var locks := acquired.value;
    ReachesNext(before, r, begun, a, store.objects, Preparing(locks, Preflight));
    if !a.preflight {
      outcome := RejectStart(store, before, r, scope, locks, a, NotPrepared(Preflight));
      return;
    }
    ReachesNext(before, r, begun, a, store.objects, Preparing(locks, Envelope));
    if !a.envelope {
      outcome := RejectStart(store, before, r, scope, locks, a, NotPrepared(Envelope));
      return;
    }
    ReachesNext(before, r, begun, a, store.objects, Preparing(locks, Queueing));
    if !a.queue {
      outcome := RejectStart(store, before, r, scope, locks, a, NotPrepared(Queueing));
      return;
    }
    ReachesNext(before, r, begun, a, store.objects, StartingWorkflow(locks));
    if !a.start {
      ReachesNext(before, r, begun, a, store.objects, MarkingFailed(locks));
      outcome := RejectStart(store, before, r, scope, locks, a, NotStarted);
      return;
    }
    outcome := if attachOk then StartedRun(locks) else AttachError(locks);
  }
}
