/** The TUI's render sessions: one at a time, one recovery, and nothing left alive at the end. */
module TuiLifecycle {
  import opened Basics

  /** Sessions are numbered in the order they are asked for. */
  type Token = nat

  /** The cached detach request of the shutdown controller. */
  datatype Request = NoRequest | Detaching | Detached

  /**
   * The supervisor and its shutdown controller, with what they have started and not yet heard of:
   * sessions being created, a store schema being read for recovery, a detach.
   */
  datatype State = State(
    active: Option<Token>, pending: Option<Token>, started: bool, finished: bool, recoveryAttempted: bool,
    timer: bool, exitCode: int, processExitCode: int,
    request: Request, exitRequested: bool, destroyed: bool,
    next: Token, creating: set<Token>, recovering: bool,
    created: set<Token>, ended: set<Token>, recoveries: nat, resolutions: nat)
  {
    /** Sessions that exist and have not been destroyed. */
    function Live(): set<Token> { created - ended }
  }

  const INITIAL: State := State(
    None, None, false, false, false, false, 0, 0, NoRequest, false, false, 0, {}, false, {}, {}, 0, 0)

  datatype Event =
    | Start
    | Created(token: Token)
    | CreateFailed(token: Token)
    | RendererFailed(token: Token)
    | SchemaRead
    | SchemaFailed
    | ExitRequested(code: int, force: bool)
    | DetachDone(idle: bool)
    | DetachFailed
    | ExecutionSettled
    | TimerFired

  // ---------- What each event does ----------

  function DestroySession(s: State): State {
    s.(active := None, ended := s.ended + if s.active.Some? then {s.active.value} else {})
  }

  function Close(s: State, code: int): State {
    s.(finished := true, pending := None, timer := false, processExitCode := code, resolutions := s.resolutions + 1)
  }

  function Finish(s: State, code: int): State {
    if s.finished then s else Close(DestroySession(s), code)
  }

  function OpenSession(s: State): State {
    s.(pending := Some(s.next), creating := s.creating + {s.next}, next := s.next + 1)
  }

  function HandleRendererError(s: State, token: Token): State {
    if s.finished || !(s.active == Some(token) || s.pending == Some(token)) then s
    else if s.recoveryAttempted then Finish(s, 1)
    else
      (if s.active == Some(token) then DestroySession(s) else s).(
        recoveryAttempted := true, recovering := true, recoveries := s.recoveries + 1)
  }

  function Arrive(s: State, token: Token): State {
    s.(creating := s.creating - {token}, created := s.created + {token})
  }

  function SessionCreated(s: State, token: Token): State {
    var arrived := Arrive(s, token);
    if s.finished || s.pending != Some(token) then arrived.(ended := arrived.ended + {token})
    else arrived.(pending := None, active := Some(token))
  }

  function DestroyOnce(s: State): State {
    if s.destroyed then s else Finish(s.(destroyed := true), s.exitCode)
  }

  function ArmExit(s: State, code: int): State {
    s.(exitCode := code, processExitCode := code, timer := true, exitRequested := true,
       request := if s.request.NoRequest? then Detaching else s.request)
  }

  function RequestExit(s: State, code: int, force: bool): State {
    if s.finished then s
    else if force && s.exitRequested then Finish(s, code)
    else ArmExit(s, code)
  }

  function Step(s: State, e: Event): State {
    match e
    case Start => if s.started then s else OpenSession(s.(started := true))
    case Created(token) => SessionCreated(s, token)
    case CreateFailed(token) =>
      var gone := s.(creating := s.creating - {token});
      if s.pending == Some(token) then HandleRendererError(gone, token) else gone
    case RendererFailed(token) => HandleRendererError(s, token)
    case SchemaRead =>
      var read := s.(recovering := false);
      if s.finished then read else OpenSession(read)
    case SchemaFailed => Finish(s.(recovering := false), 1)
    case ExitRequested(code, force) => RequestExit(s, code, force)
    case DetachDone(idle) => if idle then DestroyOnce(s.(request := Detached)) else s.(request := Detached)
    case DetachFailed => Finish(s.(exitRequested := false, request := NoRequest), 1)
    case ExecutionSettled => if s.exitRequested then DestroyOnce(s) else s
    case TimerFired => Finish(s, s.exitCode)
  }

  /** Answers come only to what was asked, and the timer fires only while it is armed. */
  predicate Answers(s: State, e: Event) {
    match e
    case Created(token) => token in s.creating
    case CreateFailed(token) => token in s.creating
    case SchemaRead => s.recovering
    case SchemaFailed => s.recovering
    case DetachDone(_) => s.request.Detaching?
    case DetachFailed => s.request.Detaching?
    case TimerFired => s.timer
    case _ => true
  }

  /** A renderer reports errors only once its session has been handed over. */
  predicate ReportsInTime(s: State, e: Event) {
    e.RendererFailed? ==> e.token in s.created
  }

  // ---------- The invariant ----------

  ghost predicate TokensAreOld(s: State) {
    && (forall t :: t in s.creating || t in s.created ==> t < s.next)
    && s.creating !! s.created && s.ended <= s.created
  }

  ghost predicate Sound(s: State) {
    && TokensAreOld(s)
    && s.Live() == (if s.active.Some? then {s.active.value} else {})
    && (s.active.Some? ==> s.pending.None? && !s.recovering && !s.finished)
    && (s.finished ==> !s.timer)
    && s.resolutions == (if s.finished then 1 else 0)
    && s.recoveries == (if s.recoveryAttempted then 1 else 0)
    && (s.recovering ==> s.recoveryAttempted && (s.pending.Some? ==> s.pending.value !in s.creating))
    && (s.pending.Some? ==> s.pending.value < s.next && (!s.finished ==> s.pending.value !in s.created))
    && (!s.started ==> s.active.None? && s.pending.None? && !s.recovering)
    && (s.exitRequested && !s.finished ==> s.timer && !s.request.NoRequest?)
    && (s.timer ==> s.exitRequested)
    && (s.destroyed ==> s.finished)
  }

  lemma FinishIsSound(s: State, code: int)
    requires Sound(s)
    ensures Sound(Finish(s, code)) && Finish(s, code).finished && Finish(s, code).Live() == {}
  {
  }

  lemma RendererErrorIsSound(s: State, token: Token)
    requires Sound(s) && token !in s.creating && token < s.next
    ensures Sound(HandleRendererError(s, token))
  {
    hide Finish;
    if s.recoveryAttempted {
      FinishIsSound(s, 1);
    }
  }

  lemma OpenIsSound(s: State)
    requires Sound(s) && s.active.None? && !s.recovering && s.started
    ensures Sound(OpenSession(s))
  {
  }

  lemma StartIsSound(s: State)
    requires Sound(s)
    ensures Sound(Step(s, Start))
  {
    hide OpenSession;
    if !s.started {
      OpenIsSound(s.(started := true));
    }
  }

  lemma CreatedIsSound(s: State, token: Token)
    requires Sound(s) && token in s.creating
    ensures Sound(SessionCreated(s, token))
  {
  }

  lemma CreateFailedIsSound(s: State, token: Token)
    requires Sound(s) && token in s.creating
    ensures Sound(Step(s, CreateFailed(token)))
  {
    hide HandleRendererError;
    RendererErrorIsSound(s.(creating := s.creating - {token}), token);
  }

  lemma RendererFailedIsSound(s: State, token: Token)
    requires Sound(s) && token in s.created
    ensures Sound(HandleRendererError(s, token))
  {
    hide HandleRendererError;
    RendererErrorIsSound(s, token);
  }

  lemma SchemaIsSound(s: State)
    requires Sound(s) && s.recovering
    ensures Sound(Step(s, SchemaRead)) && Sound(Step(s, SchemaFailed))
  {
    hide OpenSession, Finish;
    var read := s.(recovering := false);
    FinishIsSound(read, 1);
    if !s.finished {
      OpenIsSound(read);
    }
  }

  lemma ExitRequestIsSound(s: State, code: int, force: bool)
    requires Sound(s)
    ensures Sound(RequestExit(s, code, force))
  {
    hide Finish;
    FinishIsSound(s, code);
  }

  /** Finishing neither reads nor writes the controller's flags. */
  lemma FinishIgnores(s: State, code: int)
    ensures Finish(s.(destroyed := true), code) == Finish(s, code).(destroyed := true)
    ensures Finish(s.(exitRequested := false, request := NoRequest), code) ==
            Finish(s, code).(exitRequested := false, request := NoRequest)
  {
  }

  lemma DestroyOnceIsSound(s: State)
    requires Sound(s)
    ensures Sound(DestroyOnce(s))
  {
    FinishIsSound(s, s.exitCode);
    FinishIgnores(s, s.exitCode);
    hide Finish, Close, DestroySession;
    assert s.destroyed || DestroyOnce(s) == Finish(s, s.exitCode).(destroyed := true);
  }

  lemma DetachIsSound(s: State, idle: bool)
    requires Sound(s) && s.request.Detaching?
    ensures Sound(Step(s, DetachDone(idle))) && Sound(Step(s, DetachFailed))
  {
    DestroyOnceIsSound(s.(request := Detached));
    FinishIsSound(s, 1);
    FinishIgnores(s, 1);
    hide Finish, DestroyOnce;
    assert !Finish(s, 1).timer && Finish(s, 1).finished;
  }

  lemma SettledIsSound(s: State)
    requires Sound(s)
    ensures Sound(Step(s, ExecutionSettled)) && Sound(Step(s, TimerFired))
  {
    hide Finish, DestroyOnce, Sound;
    DestroyOnceIsSound(s);
    FinishIsSound(s, s.exitCode);
  }

  /** What `Answers` and `ReportsInTime` say of each event. */
  lemma StepIs(s: State, e: Event)
    requires Answers(s, e) && ReportsInTime(s, e)
    ensures match e
      case Created(token) => token in s.creating && Step(s, e) == SessionCreated(s, token)
      case CreateFailed(token) => token in s.creating
      case RendererFailed(token) => token in s.created && Step(s, e) == HandleRendererError(s, token)
      case SchemaRead => s.recovering
      case SchemaFailed => s.recovering
      case ExitRequested(code, force) => Step(s, e) == RequestExit(s, code, force)
      case DetachDone(_) => s.request.Detaching?
      case DetachFailed => s.request.Detaching?
      case _ => true
  {
    hide SessionCreated, HandleRendererError, RequestExit;
  }

  /** Every possible event keeps the invariant, as long as renderers report in time. */
  lemma StepIsSound(s: State, e: Event)
    requires Sound(s) && Answers(s, e) && ReportsInTime(s, e)
    ensures Sound(Step(s, e))
  {
    hide *;
    StepIs(s, e);
    match e
    case Start => StartIsSound(s);
    case Created(token) => CreatedIsSound(s, token);
    case CreateFailed(token) => CreateFailedIsSound(s, token);
    case RendererFailed(token) => RendererFailedIsSound(s, token);
    case SchemaRead => SchemaIsSound(s);
    case SchemaFailed => SchemaIsSound(s);
    case ExitRequested(code, force) => ExitRequestIsSound(s, code, force);
    case DetachDone(idle) => DetachIsSound(s, idle);
    case DetachFailed => DetachIsSound(s, false);
    case ExecutionSettled => SettledIsSound(s);
    case TimerFired => SettledIsSound(s);
  }

  // ---------- How the supervisor ends ----------

  /** The session the supervisor shows or awaits. */
  predicate IsCurrent(s: State, token: Token) {
    s.active == Some(token) || s.pending == Some(token)
  }

  /** The events that end an unfinished supervisor. */
  predicate Ends(s: State, e: Event) {
    match e
    case TimerFired | DetachFailed | SchemaFailed => true
    case ExitRequested(_, force) => force && s.exitRequested
    case DetachDone(idle) => idle
    case ExecutionSettled => s.exitRequested
    case RendererFailed(token) => s.recoveryAttempted && IsCurrent(s, token)
    case CreateFailed(token) => s.recoveryAttempted && s.pending == Some(token)
    case Start | Created(_) | SchemaRead => false
  }

  /** The exit code it ends with: the one requested, or one for a failure. */
  function EndCode(s: State, e: Event): int {
    match e
    case ExitRequested(code, _) => code
    case TimerFired | DetachDone(_) | ExecutionSettled => s.exitCode
    case _ => 1
  }

  /** Nothing is shown, awaited or alive, completion has been resolved once, and the process exits with `code`. */
  predicate EndedWith(s: State, code: int) {
    && s.finished && s.active.None? && s.pending.None? && s.created <= s.ended && !s.timer
    && s.resolutions == 1 && s.processExitCode == code
  }

  /** The timer, a second request, an idle detach and a settled execution end with the requested code. */
  lemma RequestedEnd(s: State, e: Event)
    requires Sound(s) && !s.finished && Answers(s, e) && Ends(s, e)
    requires e.TimerFired? || e.ExitRequested? || e.DetachDone? || e.ExecutionSettled?
    ensures EndedWith(Step(s, e), EndCode(s, e))
  {
    assert s.created <= s.ended + if s.active.Some? then {s.active.value} else {} by {
      assert s.Live() == s.created - s.ended;
    }
    hide Sound;
    match e
    case TimerFired =>
    case ExitRequested(code, force) =>
    case DetachDone(idle) =>
    case ExecutionSettled =>
  }

  /** A failed detach, a failed recovery and a renderer error after the recovery end with code one. */
  lemma FailedEnd(s: State, e: Event)
    requires Sound(s) && !s.finished && Answers(s, e) && Ends(s, e)
    requires e.DetachFailed? || e.SchemaFailed? || e.RendererFailed? || e.CreateFailed?
    ensures EndedWith(Step(s, e), 1)
  {
    assert s.created <= s.ended + if s.active.Some? then {s.active.value} else {} by {
      assert s.Live() == s.created - s.ended;
    }
    hide Sound;
    match e
    case DetachFailed =>
    case SchemaFailed =>
    case RendererFailed(token) =>
    case CreateFailed(token) =>
  }

  lemma ErrorGoesOn(s: State, token: Token)
    requires !s.finished && !(s.recoveryAttempted && IsCurrent(s, token))
    ensures !HandleRendererError(s, token).finished && HandleRendererError(s, token).exitCode == s.exitCode
  {
    hide Finish;
  }

  /** The other events end nothing, and only a request changes the code. */
  lemma OtherwiseGoesOn(s: State, e: Event)
    requires !s.finished && !Ends(s, e)
    ensures !Step(s, e).finished && Step(s, e).exitCode == if e.ExitRequested? then e.code else s.exitCode
  {
    if e.RendererFailed? {
      hide HandleRendererError;
      ErrorGoesOn(s, e.token);
    } else if e.CreateFailed? && s.pending == Some(e.token) {
      hide HandleRendererError;
      ErrorGoesOn(s.(creating := s.creating - {e.token}), e.token);
    } else if e.ExitRequested? || e.DetachDone? || e.ExecutionSettled? {
      ExitGoesOn(s, e);
    } else {
      SessionGoesOn(s, e);
    }
  }

  lemma SessionGoesOn(s: State, e: Event)
    requires !s.finished && (e.Start? || e.Created? || e.SchemaRead? || (e.CreateFailed? && s.pending != Some(e.token)))
    ensures !Step(s, e).finished && Step(s, e).exitCode == s.exitCode
  {
    hide HandleRendererError;
    match e
    case Start =>
    case Created(token) =>
    case CreateFailed(token) =>
    case SchemaRead =>
  }

  lemma ExitGoesOn(s: State, e: Event)
    requires !s.finished && !Ends(s, e) && (e.ExitRequested? || e.DetachDone? || e.ExecutionSettled?)
    ensures !Step(s, e).finished && Step(s, e).exitCode == if e.ExitRequested? then e.code else s.exitCode
  {
    hide Finish, DestroyOnce;
    match e
    case ExitRequested(code, force) =>
    case DetachDone(idle) =>
    case ExecutionSettled =>
  }

  /** An unfinished supervisor ends at exactly these events, with these codes. */
  lemma EndsExactly(s: State, e: Event)
    requires Sound(s) && !s.finished && Answers(s, e)
    ensures Step(s, e).finished <==> Ends(s, e)
    ensures Ends(s, e) ==> EndedWith(Step(s, e), EndCode(s, e))
  {
    hide Sound, Answers, Step;
    if !Ends(s, e) {
      OtherwiseGoesOn(s, e);
    } else if e.TimerFired? || e.ExitRequested? || e.DetachDone? || e.ExecutionSettled? {
      RequestedEnd(s, e);
    } else {
      FailedEnd(s, e);
    }
  }

  /**
   * What the other events leave of an unfinished supervisor. A start and a finished recovery await a
   * session never asked for before; the awaited session is shown when it arrives and any other is
   * destroyed; the first error of the current session destroys it and begins the one recovery; a
   * request records its code, arms the timer and begins detaching; anything else leaves the sessions
   * and the exit as they were.
   */
  lemma GoingOn(s: State, e: Event)
    requires Sound(s) && !s.finished && Answers(s, e) && ReportsInTime(s, e) && !Ends(s, e)
    ensures var s' := Step(s, e);
      match e
      case Start =>
        s'.started && s'.Live() == s.Live()
        && (!s.started ==> s'.pending.Some? && s'.pending.value in s'.creating - s.creating - s.created)
        && (s.started ==> s' == s)
      case Created(token) =>
        token in s'.created && token !in s'.creating
        && (s.pending == Some(token) ==> s'.active == Some(token) && s'.pending.None? && s'.Live() == {token})
        && (s.pending != Some(token) ==> s'.active == s.active && s'.pending == s.pending && s'.Live() == s.Live())
      case SchemaRead =>
        !s'.recovering && s'.pending.Some? && s'.pending.value in s'.creating - s.creating - s.created && s'.Live() == {}
      case RendererFailed(token) =>
        if IsCurrent(s, token) then s'.recovering && s'.recoveryAttempted && s'.active.None? && s'.Live() == {} else s' == s
      case CreateFailed(token) =>
        token !in s'.creating && s'.Live() == s.Live()
        && (s.pending == Some(token) ==> s'.recovering && s'.recoveryAttempted)
        && (s.pending != Some(token) ==> s'.active == s.active && s'.pending == s.pending && s'.recovering == s.recovering)
      case ExitRequested(code, _) =>
        s'.exitCode == code && s'.processExitCode == code && s'.timer && s'.exitRequested && !s'.request.NoRequest?
        && (s.request.NoRequest? ==> s'.request.Detaching?)
        && s'.active == s.active && s'.pending == s.pending && s'.Live() == s.Live()
      case DetachDone(_) => s' == s.(request := Detached)
      case ExecutionSettled => s' == s
      case _ => true
  {
    match e
    case Start =>
    case Created(token) =>
    case SchemaRead =>
    case RendererFailed(token) =>
    case CreateFailed(token) =>
    case ExitRequested(code, force) =>
    case DetachDone(idle) =>
    case ExecutionSettled =>
  }

  // ---------- Every interleaving ----------

  ghost predicate Trace(events: seq<Event>, states: seq<State>) {
    && |states| == |events| + 1 && states[0] == INITIAL
    && forall i :: 0 <= i < |events| ==> Answers(states[i], events[i]) && states[i + 1] == Step(states[i], events[i])
  }

  ghost predicate InTime(events: seq<Event>, states: seq<State>) {
    |states| == |events| + 1 && forall i :: 0 <= i < |events| ==> ReportsInTime(states[i], events[i])
  }

  lemma {:induction false} TraceIsSound(events: seq<Event>, states: seq<State>)
    requires Trace(events, states) && InTime(events, states)
    ensures Sound(states[|events|])
  {
    var n := |events|;
    if n > 0 {
      var before := states[..n];
      TraceIsSound(events[..n - 1], before);
      hide Sound, Step;
      StepIsSound(states[n - 1], events[n - 1]);
    }
  }

  /**
   * In every interleaving in which renderers report in time: at most one session is alive, at most
   * one recovery happens, completion resolves at most once and exactly when the supervisor has
   * finished, and from then on every session ever created is destroyed. Once an exit is requested
   * the timer that forces it is armed until then.
   */
  lemma AtMostOneOfEach(events: seq<Event>, states: seq<State>)
    requires Trace(events, states) && InTime(events, states)
    ensures var s := states[|events|];
      && |s.Live()| <= 1 && s.recoveries <= 1
      && s.resolutions == (if s.finished then 1 else 0)
      && (s.finished ==> s.created == s.ended)
      && (s.exitRequested && !s.finished ==> s.timer)
  {
    TraceIsSound(events, states);
    var s := states[|events|];
    assert s.finished ==> s.Live() == {};
  }

  /** Once finished, always finished, with the same exit code, whatever happens; a session that arrives late is destroyed. */
  lemma StaysFinished(s: State, e: Event)
    requires s.finished
    ensures Step(s, e).finished && Step(s, e).resolutions == s.resolutions && Step(s, e).Live() <= s.Live()
    ensures Step(s, e).processExitCode == s.processExitCode
    ensures e.Created? ==> e.token in Step(s, e).created && e.token in Step(s, e).ended
  {
    match e
    case Start =>
    case Created(token) =>
    case CreateFailed(token) =>
    case RendererFailed(token) =>
    case SchemaRead =>
    case SchemaFailed =>
    case ExitRequested(code, force) =>
    case DetachDone(idle) =>
    case DetachFailed =>
    case ExecutionSettled =>
    case TimerFired =>
  }

  /** The code of the last exit request. */
  function LastCode(events: seq<Event>): int {
    if events == [] then 0
    else if events[|events| - 1].ExitRequested? then events[|events| - 1].code
    else LastCode(events[..|events| - 1])
  }

  lemma CodeIsRecorded(s: State, e: Event)
    requires Sound(s) && Answers(s, e) && !Step(s, e).finished
    ensures !s.finished && Step(s, e).exitCode == if e.ExitRequested? then e.code else s.exitCode
  {
    hide *;
    if s.finished {
      StaysFinished(s, e);
    }
    EndsExactly(s, e);
    OtherwiseGoesOn(s, e);
  }

  lemma RequestStays(s: State, e: Event)
    requires s.finished || s.exitRequested || e.ExitRequested?
    ensures Step(s, e).finished || Step(s, e).exitRequested
  {
    match e
    case Start =>
    case Created(token) =>
    case CreateFailed(token) =>
    case RendererFailed(token) =>
    case SchemaRead =>
    case SchemaFailed =>
    case ExitRequested(code, force) =>
    case DetachDone(idle) =>
    case DetachFailed =>
    case ExecutionSettled =>
    case TimerFired =>
  }

  /** Until it finishes, the supervisor holds the code of the last request. */
  lemma {:induction false} HoldsLastCode(events: seq<Event>, states: seq<State>)
    requires Trace(events, states) && InTime(events, states) && !states[|events|].finished
    ensures states[|events|].exitCode == LastCode(events)
  {
    var n := |events|;
    if n > 0 {
      LastIsSound(events, states);
      hide Sound, Step, Answers;
      CodeIsRecorded(states[n - 1], events[n - 1]);
      HoldsLastCode(events[..n - 1], states[..n]);
    }
  }

  lemma {:induction false} RequestHolds(events: seq<Event>, states: seq<State>, i: nat)
    requires Trace(events, states) && i < |events| && events[i].ExitRequested?
    ensures states[|events|].finished || states[|events|].exitRequested
  {
    var n := |events|;
    hide Step, Answers;
    if i < n - 1 {
      RequestHolds(events[..n - 1], states[..n], i);
    }
    RequestStays(states[n - 1], events[n - 1]);
  }

  lemma LastIsSound(events: seq<Event>, states: seq<State>)
    requires Trace(events, states) && InTime(events, states) && |events| > 0
    ensures Trace(events[..|events| - 1], states[..|events|])
    ensures Sound(states[|events| - 1])
  {
    var n := |events|;
    TraceIsSound(events[..n - 1], states[..n]);
  }

  lemma TimerIsArmed(s: State)
    requires Sound(s) && s.exitRequested && !s.finished
    ensures Answers(s, TimerFired) && Ends(s, TimerFired)
  {
  }

  /**
   * Once an exit has been requested, whatever happened since: the supervisor has ended, or the timer
   * is armed and its firing ends it, with the code of the last request.
   */
  lemma RequestedExitEnds(events: seq<Event>, states: seq<State>, i: nat)
    requires Trace(events, states) && InTime(events, states) && i < |events| && events[i].ExitRequested?
    ensures var s := states[|events|];
      s.finished || (Answers(s, TimerFired) && EndedWith(Step(s, TimerFired), LastCode(events)))
  {
    var s := states[|events|];
    RequestHolds(events, states, i);
    TraceIsSound(events, states);
    if !s.finished {
      HoldsLastCode(events, states);
      TimerIsArmed(s);
      hide Trace, InTime, Sound, Step, Ends, EndedWith, Answers;
      EndsExactly(s, TimerFired);
    }
  }

  /** The event that ends a trace decides the exit code, which is the last requested one or one. */
  lemma EndOfTrace(events: seq<Event>, states: seq<State>)
    requires Trace(events, states) && InTime(events, states) && |events| > 0 && !states[|events| - 1].finished
    ensures var e, before, after := events[|events| - 1], states[|events| - 1], states[|events|];
      && (after.finished <==> Ends(before, e))
      && (after.finished ==> EndedWith(after,
            if e.TimerFired? || e.DetachDone? || e.ExecutionSettled? || e.ExitRequested? then LastCode(events) else 1))
  {
    var n := |events|;
    LastIsSound(events, states);
    HoldsLastCode(events[..n - 1], states[..n]);
    hide Sound, Step, Ends, EndedWith, Answers;
    EndsExactly(states[n - 1], events[n - 1]);
  }

  // ---------- Early reports ----------

  /** What may follow from `s` while renderers report in time. */
  ghost predicate ContinuesFrom(s: State, events: seq<Event>, states: seq<State>) {
    && |states| == |events| + 1 && states[0] == s && InTime(events, states)
    && forall i :: 0 <= i < |events| ==> Answers(states[i], events[i]) && states[i + 1] == Step(states[i], events[i])
  }

  ghost predicate AlwaysOneLive(s: State) {
    forall events: seq<Event>, states: seq<State> :: ContinuesFrom(s, events, states) ==> |states[|events|].Live()| <= 1
  }

  /** The reporting session is the awaited one, still being created, and nothing has been recovered yet. */
  predicate ReportsTooEarly(s: State, token: Token) {
    !s.finished && s.pending == Some(token) && token in s.creating && !s.recoveryAttempted
  }

  lemma {:induction false} ContinuationIsSound(s: State, events: seq<Event>, states: seq<State>)
    requires Sound(s) && ContinuesFrom(s, events, states)
    ensures Sound(states[|events|])
  {
    var n := |events|;
    hide Sound, Step;
    if n > 0 {
      ContinuationIsSound(s, events[..n - 1], states[..n]);
      StepIsSound(states[n - 1], events[n - 1]);
    }
  }

  lemma SoundIsAlwaysOneLive(s: State)
    requires Sound(s)
    ensures AlwaysOneLive(s)
  {
    hide Sound, InTime, Answers, Step;
    forall events: seq<Event>, states: seq<State> | ContinuesFrom(s, events, states) ensures |states[|events|].Live()| <= 1 {
      ContinuationIsSound(s, events, states);
      SoundHasOneLive(states[|events|]);
    }
  }

  lemma SoundHasOneLive(s: State)
    requires Sound(s)
    ensures |s.Live()| <= 1
  {
  }

  /** A report that is early but not too early changes nothing that matters. */
  lemma HarmlessReportIsSound(s: State, token: Token)
    requires Sound(s) && token !in s.created && !ReportsTooEarly(s, token)
    ensures Sound(Step(s, RendererFailed(token)))
  {
    assert s.active != Some(token) by {
      assert s.active.Some? ==> s.active.value in s.Live();
    }
    if !s.finished && s.pending == Some(token) {
      if s.recoveryAttempted {
        FinishIsSound(s, 1);
      } else {
        RendererErrorIsSound(s, token);
      }
    }
    hide Finish;
  }

  /** The awaited session arrives after all, and recovery opens another one. */
  lemma TooEarlyReportGoesOn(s: State, token: Token)
    requires Sound(s) && token !in s.created && ReportsTooEarly(s, token)
    ensures var s0 := Step(s, RendererFailed(token));
      var s1 := Step(s0, Created(token));
      var s2 := Step(s1, SchemaRead);
      && token in s0.creating && s1.recovering && s1.Live() == {token}
      && s2.Live() == {token} && s2.pending == Some(s.next) && s.next in s2.creating && !s2.finished && token < s.next
  {
    assert s.active.None? && s.Live() == {};
    hide Sound;
  }

  lemma SecondSessionArrives(s: State, token: Token, next: Token)
    requires !s.finished && s.pending == Some(next) && s.Live() == {token} && token != next && next !in s.ended
    ensures Step(s, Created(next)).Live() == {token, next}
  {
  }

  lemma TwoAreLive(s: State, a: Token, b: Token)
    requires s.Live() == {a, b} && a != b
    ensures !AlwaysOneLive(s)
  {
    assert |{a, b}| == 2;
    assert ContinuesFrom(s, [], [s]);
  }

  /** What may follow a timely event may follow the state before it. */
  lemma LeaksEarlier(s: State, e: Event)
    requires Answers(s, e) && ReportsInTime(s, e) && !AlwaysOneLive(Step(s, e))
    ensures !AlwaysOneLive(s)
  {
    hide Answers, ReportsInTime, Step;
    var events: seq<Event>, states: seq<State> :| ContinuesFrom(Step(s, e), events, states) && |states[|events|].Live()| > 1;
    var events', states' := [e] + events, [s] + states;
    assert states'[|events'|] == states[|events|];
    assert ContinuesFrom(s, events', states');
  }

  /** So both are alive. */
  lemma TooEarlyReportLeaks(s: State, token: Token)
    requires Sound(s) && token !in s.created && ReportsTooEarly(s, token)
    ensures !AlwaysOneLive(Step(s, RendererFailed(token)))
  {
    var s0 := Step(s, RendererFailed(token));
    var s1 := Step(s0, Created(token));
    var s2 := Step(s1, SchemaRead);
    TooEarlyReportGoesOn(s, token);
    NextIsNotEnded(s, token);
    hide Sound, Step, ReportsTooEarly, AlwaysOneLive;
    SecondSessionArrives(s2, token, s.next);
    TwoAreLive(Step(s2, Created(s.next)), token, s.next);
    LeaksEarlier(s2, Created(s.next));
    LeaksEarlier(s1, SchemaRead);
    LeaksEarlier(s0, Created(token));
  }

  lemma NextIsNotEnded(s: State, token: Token)
    requires Sound(s) && token !in s.created && ReportsTooEarly(s, token)
    ensures s.next !in Step(Step(Step(s, RendererFailed(token)), Created(token)), SchemaRead).ended
  {
  }

  /**
   * A report from a session not handed over yet does no harm, whatever follows in time, exactly
   * unless that session is the awaited one, still being created, before any recovery.
   */
  lemma EarlyReportIsHarmless(s: State, token: Token)
    requires Sound(s) && token !in s.created
    ensures !ReportsTooEarly(s, token) <==> AlwaysOneLive(Step(s, RendererFailed(token)))
  {
    hide *;
    if ReportsTooEarly(s, token) {
      TooEarlyReportLeaks(s, token);
    } else {
      HarmlessReportIsSound(s, token);
      SoundIsAlwaysOneLive(Step(s, RendererFailed(token)));
    }
  }

  /** The shortest such trace: the first session reports while it is being created. */
  lemma EarlyReportLeaksSession()
    ensures exists events: seq<Event>, states: seq<State> :: Trace(events, states) && |states[|events|].Live()| == 2
  {
    var events := [Start, RendererFailed(0), Created(0), SchemaRead, Created(1)];
    var s1 := Step(INITIAL, Start);
    var s2 := Step(s1, RendererFailed(0));
    var s3 := Step(s2, Created(0));
    var s4 := Step(s3, SchemaRead);
    var s5 := Step(s4, Created(1));
    var states := [INITIAL, s1, s2, s3, s4, s5];
    assert s5.Live() == {0, 1};
    assert Trace(events, states);
  }

  // ---------- The supervisor ----------

  /** The supervisor's own fields, and what it has started and not yet heard of. */
  class Supervisor {
    var activeSession: Option<Token>
    var pendingToken: Option<Token>
    var started: bool
    var finished: bool
    var recoveryAttempted: bool
    var exitTimer: bool
    var exitCode: int
    var processExitCode: int
    var request: Request
    var exitRequested: bool
    var destroyed: bool
    var nextToken: Token
    ghost var creating: set<Token>
    ghost var recovering: bool
    ghost var created: set<Token>
    ghost var ended: set<Token>
    ghost var recoveries: nat
    ghost var resolutions: nat

    ghost function Now(): State
      reads this
    {
      State(activeSession, pendingToken, started, finished, recoveryAttempted, exitTimer, exitCode, processExitCode,
            request, exitRequested, destroyed, nextToken, creating, recovering, created, ended, recoveries, resolutions)
    }

    constructor ()
      ensures Now() == INITIAL && Sound(Now())
    {
      activeSession, pendingToken, started, finished, recoveryAttempted := None, None, false, false, false;
      exitTimer, exitCode, processExitCode, nextToken := false, 0, 0, 0;
      request, exitRequested, destroyed := NoRequest, false, false;
      creating, recovering, created, ended, recoveries, resolutions := {}, false, {}, {}, 0, 0;
    }

    method DestroyActive()
      modifies this
      ensures Now() == DestroySession(old(Now()))
    {
      if activeSession.Some? {
        ended := ended + {activeSession.value};
      }
      activeSession := None;
    }

    method Resolve(nextExitCode: int)
      modifies this
      ensures Now() == Close(old(Now()), nextExitCode)
    {
      finished, pendingToken, exitTimer, processExitCode := true, None, false, nextExitCode;
      resolutions := resolutions + 1;
    }

    method FinishWith(nextExitCode: int) returns (first: bool)
      modifies this
      ensures Now() == Finish(old(Now()), nextExitCode) && first == !old(finished)
    {
      hide DestroySession, Close;
      if finished {
        return false;
      }
      DestroyActive();
      Resolve(nextExitCode);
      first := true;
    }

    method Open()
      modifies this
      ensures Now() == OpenSession(old(Now()))
    {
      pendingToken := Some(nextToken);
      creating := creating + {nextToken};
      nextToken := nextToken + 1;
    }

    method Begin()
      requires Sound(Now())
      modifies this
      ensures Now() == Step(old(Now()), Start) && Sound(Now())
    {
      StepIsSound(Now(), Start);
      hide Sound;
      if !started {
        started := true;
        Open();
      }
    }

    method HandleError(token: Token)
      modifies this
      ensures Now() == HandleRendererError(old(Now()), token)
    {
      if finished || !(activeSession == Some(token) || pendingToken == Some(token)) {
        return;
      }
      if recoveryAttempted {
        var _ := FinishWith(1);
        return;
      }
      recoveryAttempted := true;
      if activeSession == Some(token) {
        DestroyActive();
      }
      recovering := true;
      recoveries := recoveries + 1;
    }

    /** The renderer of a session that was handed over failed. */
    method OnRendererError(token: Token)
      requires Sound(Now()) && token in created
      modifies this
      ensures Now() == Step(old(Now()), RendererFailed(token)) && Sound(Now())
    {
      StepIsSound(Now(), RendererFailed(token));
      hide Sound;
      HandleError(token);
    }

    ghost method NoteArrival(token: Token)
      modifies this
      ensures Now() == Arrive(old(Now()), token)
    {
      creating, created := creating - {token}, created + {token};
    }

    method HandOver(token: Token)
      modifies this
      ensures Now() == SessionCreated(old(Now()), token)
    {
      hide Arrive;
      NoteArrival(token);
      if finished || pendingToken != Some(token) {
        ended := ended + {token};
        return;
      }
      pendingToken, activeSession := None, Some(token);
    }

    method OnSessionCreated(token: Token)
      requires Sound(Now()) && token in creating
      modifies this
      ensures Now() == Step(old(Now()), Created(token)) && Sound(Now())
    {
      StepIsSound(Now(), Created(token));
      hide Sound;
      HandOver(token);
    }

    method OnCreateFailed(token: Token)
      requires Sound(Now()) && token in creating
      modifies this
      ensures Now() == Step(old(Now()), CreateFailed(token)) && Sound(Now())
    {
      StepIsSound(Now(), CreateFailed(token));
      hide Sound;
      creating := creating - {token};
      if pendingToken == Some(token) {
        HandleError(token);
      }
    }

    method OnSchemaRead()
      requires Sound(Now()) && recovering
      modifies this
      ensures Now() == Step(old(Now()), SchemaRead) && Sound(Now())
    {
      StepIsSound(Now(), SchemaRead);
      hide Sound;
      recovering := false;
      if !finished {
        Open();
      }
    }

    method OnSchemaFailed()
      requires Sound(Now()) && recovering
      modifies this
      ensures Now() == Step(old(Now()), SchemaFailed) && Sound(Now())
    {
      StepIsSound(Now(), SchemaFailed);
      hide Sound;
      recovering := false;
      var _ := FinishWith(1);
    }

    method OnExitRequested(nextExitCode: int, forceWhenAlreadyRequested: bool)
      requires Sound(Now())
      modifies this
      ensures Now() == Step(old(Now()), ExitRequested(nextExitCode, forceWhenAlreadyRequested)) && Sound(Now())
    {
      StepIsSound(Now(), ExitRequested(nextExitCode, forceWhenAlreadyRequested));
      hide Sound, Finish, ArmExit;
      if finished {
        return;
      }
      if forceWhenAlreadyRequested && exitRequested {
        var _ := FinishWith(nextExitCode);
        return;
      }
      Arm(nextExitCode);
    }

    /** Arm the exit timer and start detaching, once. */
    method Arm(nextExitCode: int)
      modifies this
      ensures Now() == ArmExit(old(Now()), nextExitCode)
    {
      exitCode, processExitCode, exitTimer, exitRequested := nextExitCode, nextExitCode, true, true;
      if request.NoRequest? {
        request := Detaching;
      }
    }

    method FinishOnce()
      modifies this
      ensures Now() == DestroyOnce(old(Now()))
    {
      if !destroyed {
        destroyed := true;
        var _ := FinishWith(exitCode);
      }
    }

    method OnDetached(idle: bool)
      requires Sound(Now()) && request.Detaching?
      modifies this
      ensures Now() == Step(old(Now()), DetachDone(idle)) && Sound(Now())
    {
      StepIsSound(Now(), DetachDone(idle));
      hide Sound;
      request := Detached;
      if idle {
        FinishOnce();
      }
    }

    method OnDetachFailed()
      requires Sound(Now()) && request.Detaching?
      modifies this
      ensures Now() == Step(old(Now()), DetachFailed) && Sound(Now())
    {
      StepIsSound(Now(), DetachFailed);
      hide Sound;
      exitRequested := false;
      request := NoRequest;
      var _ := FinishWith(1);
    }

    method OnExecutionSettled() returns (settled: bool)
      requires Sound(Now())
      modifies this
      ensures Now() == Step(old(Now()), ExecutionSettled) && Sound(Now())
      ensures settled == old(exitRequested)
    {
      StepIsSound(Now(), ExecutionSettled);
      hide Sound;
      settled := exitRequested;
      if exitRequested {
        FinishOnce();
      }
    }

    method OnTimer()
      requires Sound(Now()) && exitTimer
      modifies this
      ensures Now() == Step(old(Now()), TimerFired) && Sound(Now())
      ensures EndedWith(Now(), old(exitCode))
    {
      StepIsSound(Now(), TimerFired);
      EndsExactly(Now(), TimerFired);
      hide Sound, EndedWith;
      var _ := FinishWith(exitCode);
    }
  }
}
