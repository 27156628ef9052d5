/** How far a start gets: decided by which of its own requests got through, however starts interleave. */
module DurableProgress {
  import opened Basics
  import opened CustomObjects
  import opened DurableStart

  // ---------- What got through ----------

  /**
   * Whether request `k` of a start got through. The first requests create the locks of its scope, one
   * each, which the store refuses when the definition is locked.
   */
  predicate GotThrough(m: Machine, scope: seq<DefinitionId>, k: nat, ok: bool) {
    ok && (k < |scope| ==> scope[k] !in m.locks)
  }

  /** Which of the requests run `r` has made got through, in order. */
  function Passed(ms: seq<Machine>, moves: seq<Move>, r: RunId): (passed: seq<bool>)
    requires |ms| == |moves| + 1
    decreases |moves|
  {
    if moves == [] then []
    else
      var n := |moves| - 1;
      var before := Passed(ms[..n + 1], moves[..n], r);
      if moves[n].Continue? && moves[n].runId == r && r in ms[n].plans
      then before + [GotThrough(ms[n], ms[n].plans[r].scope, |before|, moves[n].ok)]
      else before
  }

  /** The first request that did not get through, or the number of requests. */
  function FirstFailure(passed: seq<bool>): (k: nat)
    ensures k <= |passed| && (k < |passed| ==> !passed[k]) && forall i :: 0 <= i < k ==> passed[i]
  {
    if passed == [] then 0
    else
      var before := FirstFailure(passed[..|passed| - 1]);
      if before < |passed| - 1 || !passed[|passed| - 1] then before else |passed|
  }

  lemma {:induction false} FailureStays(passed: seq<bool>, got: bool)
    ensures FirstFailure(passed + [got]) ==
      if FirstFailure(passed) < |passed| || !got then FirstFailure(passed) else |passed| + 1
  {
    assert (passed + [got])[..|passed|] == passed;
  }

  // ---------- Where that leaves the start ----------

  /** The locks of the scope, then preflight, envelope, queueing and the workflow start. */
  function Needed(scope: seq<DefinitionId>): nat { |scope| + 4 }

  /** After `n` requests, all of which got through. */
  ghost predicate StandsAt(scope: seq<DefinitionId>, pc: Pc, n: nat) {
    var s := |scope|;
    if n < s then pc.Acquiring? && pc.todo == scope[n..]
    else if n == s then pc.Preparing? && pc.stage == Preflight
    else if n == s + 1 then pc.Preparing? && pc.stage == Envelope
    else if n == s + 2 then pc.Preparing? && pc.stage == Queueing
    else if n == s + 3 then pc.StartingWorkflow?
    else if n == s + 4 then pc.Running?
    else Releasing(pc) && pc.reason == WorkflowFinished
  }

  function ReasonAt(scope: seq<DefinitionId>, k: nat): Reason {
    if k < |scope| then NotAcquired
    else if k == |scope| then NotPrepared(Preflight)
    else if k == |scope| + 1 then NotPrepared(Envelope)
    else if k == |scope| + 2 then NotPrepared(Queueing)
    else NotStarted
  }

  /** After `n` requests, of which `k` was the first that failed. */
  ghost predicate FailedAt(scope: seq<DefinitionId>, pc: Pc, k: nat, n: nat) {
    if k == |scope| + 3 && n == k + 1 then pc.MarkingFailed?
    else Releasing(pc) && pc.reason == ReasonAt(scope, k)
  }

  ghost predicate Follows(scope: seq<DefinitionId>, pc: Pc, k: nat, n: nat) {
    if k < n && k < Needed(scope) then FailedAt(scope, pc, k, n) else StandsAt(scope, pc, n)
  }

  lemma GoesForward(locks: Locks, r: RunId, plan: Plan, ok: bool, token: nat, n: nat)
    requires PlanIsSound(locks, r, plan) && StandsAt(plan.scope, plan.pc, n) && n < Needed(plan.scope)
    ensures var pc' := Step(locks, r, plan.pc, ok, token).1;
      if ok && (n < |plan.scope| ==> plan.scope[n] !in locks)
      then StandsAt(plan.scope, pc', n + 1)
      else FailedAt(plan.scope, pc', n, n + 1)
  {
    hide PlanIsSound, Posted;
    if n < |plan.scope| {
      assert plan.scope[n..][0] == plan.scope[n] && plan.scope[n..][1..] == plan.scope[n + 1..];
    }
  }

  lemma StaysBehind(locks: Locks, r: RunId, plan: Plan, ok: bool, token: nat, k: nat, n: nat)
    requires PlanIsSound(locks, r, plan)
    requires FailedAt(plan.scope, plan.pc, k, n) && k < n && k < Needed(plan.scope)
    ensures FailedAt(plan.scope, Step(locks, r, plan.pc, ok, token).1, k, n + 1)
  {
    StepKeepsReason(locks, r, plan.pc, ok, token);
    hide Step, PlanIsSound;
    if plan.pc.MarkingFailed? {
      MarkedIsReleased(locks, r, plan.pc, ok, token);
    }
  }

  lemma MarkedIsReleased(locks: Locks, r: RunId, pc: Pc, ok: bool, token: nat)
    requires pc.MarkingFailed?
    ensures Step(locks, r, pc, ok, token).1 == Release(pc.held, NotStarted)
  {
  }

  lemma StepKeepsReason(locks: Locks, r: RunId, pc: Pc, ok: bool, token: nat)
    ensures Releasing(pc) ==> Releasing(Step(locks, r, pc, ok, token).1) && Step(locks, r, pc, ok, token).1.reason == pc.reason
  {
    hide Accepts, Posted, Delete;
  }

  lemma Finishes(locks: Locks, r: RunId, plan: Plan, ok: bool, token: nat, n: nat)
    requires StandsAt(plan.scope, plan.pc, n) && n >= Needed(plan.scope)
    ensures StandsAt(plan.scope, Step(locks, r, plan.pc, ok, token).1, n + 1)
  {
    StepKeepsReason(locks, r, plan.pc, ok, token);
    hide Accepts, Posted, Delete;
  }

  lemma {:induction false} StepFollows(m: Machine, r: RunId, ok: bool, token: nat, passed: seq<bool>)
    requires Sound(m) && r in m.plans
    requires Follows(m.plans[r].scope, m.plans[r].pc, FirstFailure(passed), |passed|)
    ensures var plan := m.plans[r];
      var passed' := passed + [GotThrough(m, plan.scope, |passed|, ok)];
      Follows(plan.scope, Step(m.locks, r, plan.pc, ok, token).1, FirstFailure(passed'), |passed'|)
  {
    var plan := m.plans[r];
    PlanOf(m, r);
    FailureStays(passed, GotThrough(m, plan.scope, |passed|, ok));
    var k, n := FirstFailure(passed), |passed|;
    hide Sound, PlanIsSound, Step, StandsAt, FailedAt, FirstFailure;
    if k < n && k < Needed(plan.scope) {
      StaysBehind(m.locks, r, plan, ok, token, k, n);
    } else if n < Needed(plan.scope) {
      GoesForward(m.locks, r, plan, ok, token, n);
    } else {
      Finishes(m.locks, r, plan, ok, token, n);
    }
  }

  ghost predicate PlanFollows(m: Machine, r: RunId, passed: seq<bool>) {
    if r in m.plans then Follows(m.plans[r].scope, m.plans[r].pc, FirstFailure(passed), |passed|) else passed == []
  }

  lemma {:induction false} MoveFollows(m: Machine, move: Move, m': Machine, r: RunId, passed: seq<bool>)
    requires Sound(m) && Next(m, move, m') && PlanFollows(m, r, passed)
    ensures PlanFollows(m', r,
      if move.Continue? && move.runId == r && r in m.plans
      then passed + [GotThrough(m, m.plans[r].scope, |passed|, move.ok)] else passed)
  {
    hide Sound, Step, Follows, GotThrough;
    if move.Continue? && move.runId == r {
      StepFollows(m, r, move.ok, move.token, passed);
    } else if move.Begin? && move.runId == r {
      NewPlanFollows(move.scope);
    }
  }

  lemma NewPlanFollows(scope: seq<DefinitionId>)
    ensures Follows(scope, AcquiredAll([], scope), FirstFailure([]), 0)
  {
    assert scope[0..] == scope;
  }

  lemma {:induction false} TraceFollows(ms: seq<Machine>, moves: seq<Move>, r: RunId)
    requires Trace(ms, moves)
    ensures PlanFollows(ms[|moves|], r, Passed(ms, moves, r))
    decreases |moves|
  {
    var n := |moves| - 1;
    if moves != [] {
      assert Trace(ms[..n + 1], moves[..n]);
      TraceFollows(ms[..n + 1], moves[..n], r);
      TraceIsExecution(ms, moves);
      PrefixIsSound(ms, n);
      hide Sound, Next, PlanFollows, GotThrough, Execution;
      MoveFollows(ms[n], moves[n], ms[n + 1], r, Passed(ms[..n + 1], moves[..n], r));
    }
  }

  // ---------- The results ----------

  /**
   * However starts interleave, a plan is accepted by the workflow exactly when it has created every
   * lock of its scope and its preflight, its envelope, its queueing and the workflow start have all
   * succeeded.
   */
  lemma {:induction false} AcceptedExactly(ms: seq<Machine>, moves: seq<Move>, r: RunId)
    requires Trace(ms, moves) && r in ms[|moves|].plans
    ensures var plan, passed := ms[|moves|].plans[r], Passed(ms, moves, r);
      WorkflowAccepted(plan.pc) <==>
        |passed| >= |plan.scope| + 4 && forall k :: 0 <= k < |plan.scope| + 4 ==> passed[k]
  {
    TraceFollows(ms, moves, r);
    var plan, passed := ms[|moves|].plans[r], Passed(ms, moves, r);
    hide Trace, Passed;
    AcceptedIf(plan.scope, plan.pc, passed);
  }

  lemma {:induction false} AcceptedIf(scope: seq<DefinitionId>, pc: Pc, passed: seq<bool>)
    requires Follows(scope, pc, FirstFailure(passed), |passed|)
    ensures WorkflowAccepted(pc) <==> |passed| >= |scope| + 4 && forall k :: 0 <= k < |scope| + 4 ==> passed[k]
  {
    var k := FirstFailure(passed);
    hide FirstFailure;
  }

  /**
   * A start with a request that failed is from then on only marked and released, for the reason that
   * failed first, and is never accepted.
   */
  lemma {:induction false} FailedOnlyReleases(ms: seq<Machine>, moves: seq<Move>, r: RunId, k: nat)
    requires Trace(ms, moves) && r in ms[|moves|].plans
    requires var scope, passed := ms[|moves|].plans[r].scope, Passed(ms, moves, r);
      k < |passed| && k < |scope| + 4 && !passed[k] && forall i :: 0 <= i < k ==> passed[i]
    ensures var plan, n := ms[|moves|].plans[r], |Passed(ms, moves, r)|;
      && !WorkflowAccepted(plan.pc)
      && (plan.pc.MarkingFailed? <==> k == |plan.scope| + 3 && n == k + 1)
      && (!plan.pc.MarkingFailed? ==> Releasing(plan.pc) && plan.pc.reason == ReasonAt(plan.scope, k))
  {
    TraceFollows(ms, moves, r);
    var plan, passed := ms[|moves|].plans[r], Passed(ms, moves, r);
    assert FirstFailure(passed) == k;
    hide Trace, Passed, FirstFailure;
  }

  /** While it has neither failed nor been accepted, the next request of a start is the one its place says. */
  lemma {:induction false} GoesOnInOrder(ms: seq<Machine>, moves: seq<Move>, r: RunId)
    requires Trace(ms, moves) && r in ms[|moves|].plans
    requires forall i :: 0 <= i < |Passed(ms, moves, r)| ==> Passed(ms, moves, r)[i]
    ensures StandsAt(ms[|moves|].plans[r].scope, ms[|moves|].plans[r].pc, |Passed(ms, moves, r)|)
  {
    TraceFollows(ms, moves, r);
    var passed := Passed(ms, moves, r);
    assert FirstFailure(passed) == |passed|;
    hide Trace, Passed, FirstFailure, StandsAt, FailedAt;
  }

  predicate Withdrawing(pc: Pc) { pc.MarkingFailed? || pc.ReadingLock? || pc.DeletingLock? || pc.Over? }

  /** A start that failed or whose workflow finished adds and changes no lock of its own. */
  lemma WithdrawingOnlyRemoves(m: Machine, move: Move, m': Machine, r: RunId, d: DefinitionId)
    requires Sound(m) && Next(m, move, m') && r in m.plans && Withdrawing(m.plans[r].pc)
    requires d in m'.locks && m'.locks[d].value.owner == r
    ensures Withdrawing(m'.plans[r].pc) && d in m.locks && m.locks[d] == m'.locks[d]
  {
    hide Sound;
    if move.runId != r {
      OtherPlanIsSame(m, move, m', r);
      if move.Continue? {
        PlanOf(m, move.runId);
        StepIsSound(m.locks, move.runId, m.plans[move.runId], move.ok, move.token);
        hide Step, PlanIsSound;
      }
    } else if move.Continue? {
      WithdrawingStep(m.locks, r, m.plans[r].pc, move.ok, move.token);
      hide Step;
    }
  }

  lemma WithdrawingStep(locks: Locks, r: RunId, pc: Pc, ok: bool, token: nat)
    requires Withdrawing(pc)
    ensures var (locks', pc') := Step(locks, r, pc, ok, token);
      Withdrawing(pc') && forall d :: d in locks' ==> d in locks && locks[d] == locks'[d]
  {
    hide Accepts, Posted;
  }

  // ---------- Every start ends ----------

  /** How many requests a start can still make. */
  function Remaining(pc: Pc): nat {
    match pc
    case Acquiring(held, todo) => 2 * |held| + 3 * |todo| + 7
    case Preparing(held, stage) => 2 * |held| + (match stage case Preflight => 6 case Envelope => 5 case Queueing => 4)
    case StartingWorkflow(held) => 2 * |held| + 3
    case MarkingFailed(held) => 2 * |held| + 2
    case Running(held) => 2 * |held| + 2
    case ReadingLock(left, _, _) => 2 * |left| + 1
    case DeletingLock(left, _, _, _) => 2 * |left|
    case Over(_, _) => 0
  }

  lemma StepUses(locks: Locks, r: RunId, plan: Plan, ok: bool, token: nat)
    requires PlanIsSound(locks, r, plan) && !plan.pc.Over?
    ensures Remaining(Step(locks, r, plan.pc, ok, token).1) < Remaining(plan.pc)
  {
    if plan.pc.Acquiring? {
      TodoIsNotEmpty(locks, r, plan);
    } else if plan.pc.DeletingLock? {
      LeftIsNotEmpty(locks, r, plan);
    }
    hide PlanIsSound, Accepts, Posted, Delete;
  }

  ghost predicate Bounded(m: Machine, r: RunId, n: nat) {
    if r in m.plans then m.plans[r].pc.Over? || n + Remaining(m.plans[r].pc) <= 3 * |m.plans[r].scope| + 7 else n == 0
  }

  lemma {:induction false} MoveIsBounded(m: Machine, move: Move, m': Machine, r: RunId, n: nat)
    requires Sound(m) && Next(m, move, m') && Bounded(m, r, n)
    ensures Bounded(m', r, if move.Continue? && move.runId == r then n + 1 else n)
  {
    hide Sound;
    if move.Continue? && move.runId == r {
      PlanOf(m, r);
      if m.plans[r].pc.Over? {
        assert Step(m.locks, r, m.plans[r].pc, move.ok, move.token).1 == m.plans[r].pc;
      } else {
        StepUses(m.locks, r, m.plans[r], move.ok, move.token);
      }
      hide Step, PlanIsSound, Remaining;
    } else {
      hide Step;
    }
  }

  lemma {:induction false} TraceIsBounded(ms: seq<Machine>, moves: seq<Move>, r: RunId)
    requires Trace(ms, moves)
    ensures Bounded(ms[|moves|], r, |Passed(ms, moves, r)|)
    decreases |moves|
  {
    var n := |moves| - 1;
    if moves != [] {
      assert Trace(ms[..n + 1], moves[..n]);
      TraceIsBounded(ms[..n + 1], moves[..n], r);
      TraceIsExecution(ms, moves);
      PrefixIsSound(ms, n);
      assert Next(ms[n], moves[n], ms[n + 1]);
      ContinuesOnlyPlans(ms[n], moves[n], ms[n + 1]);
      hide Sound, Next, Bounded, GotThrough, Execution;
      MoveIsBounded(ms[n], moves[n], ms[n + 1], r, |Passed(ms[..n + 1], moves[..n], r)|);
    }
  }

  lemma ContinuesOnlyPlans(m: Machine, move: Move, m': Machine)
    requires Next(m, move, m')
    ensures move.Continue? ==> move.runId in m.plans
  {
  }

  /** Every start is over after three requests for each definition of its scope and seven more. */
  lemma {:induction false} EveryStartEnds(ms: seq<Machine>, moves: seq<Move>, r: RunId)
    requires Trace(ms, moves) && r in ms[|moves|].plans
    requires |Passed(ms, moves, r)| >= 3 * |ms[|moves|].plans[r].scope| + 7
    ensures ms[|moves|].plans[r].pc.Over?
  {
    TraceIsBounded(ms, moves, r);
    TraceIsExecution(ms, moves);
    ExecutionIsSound(ms);
    PlanOf(ms[|moves|], r);
    hide Trace, Passed, Sound;
    SomeRemain(ms[|moves|].locks, r, ms[|moves|].plans[r]);
  }

  lemma SomeRemain(locks: Locks, r: RunId, plan: Plan)
    requires PlanIsSound(locks, r, plan)
    ensures Remaining(plan.pc) > 0 || plan.pc.Over?
  {
  }
}
