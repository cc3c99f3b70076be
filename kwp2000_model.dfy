/** Abstract model of the KWP2000 diagnostic-session window: its messages, the
    log it writes, and the effect of one `update` call on an abstract state.
    The session object the window holds is reduced to "held or not"; the calls
    into it (start, exit, liveness query, last error) are counted or passed in
    as their outcomes. */
module Kwp2000Model {

  datatype Option<T> = None | Some(value: T)

  /** Severity of a log line (only `Info` is ever written by the window). */
  datatype LogType = Info | Warning

  datatype LogEntry = LogEntry(text: string, kind: LogType)

  /** The window's messages; the `Instant` carried by `PollServer` is dropped. */
  datatype Msg = ConnectECU | DisconnectECU | Back | PollServer | LoadErrorDefinition | ClearLogs

  /** Outcome of `KWP2000ECU::start_diag_session`: a session, or an error text. */
  datatype StartOutcome = Started | StartFailed(text: string)

  /** Outcomes of the external calls one message may make. */
  datatype Env = Env(start: StartOutcome, reportsInSession: bool, lastError: Option<string>)

  /** Abstract window state. `held` is `diag_server.is_some()`, `homeEnabled`
      the state left by `window::enable_home`/`disable_home`, `started` the
      number of sessions started, `ended` the number of `exit_diag_session`
      calls made on held sessions. */
  datatype View = View(held: bool, log: seq<LogEntry>, homeEnabled: bool, started: nat, ended: nat)

  const TickPeriodMs: nat := 250

  const Established: string := "Connection to ECU established"
  const Terminated: string := "Connection to ECU terminated"
  const ClosedUnexpectedly: string := "Connection to ECU closed unexpectedly"
  const ConnectErrorPrefix: string := "Error connecting to ECU ("

  function ConnectErrorText(e: string): string {
    ConnectErrorPrefix + e + ")"
  }

  function LastErrorText(desc: string): string {
    "--> " + desc
  }

  /** `is_back`: the message that asks the parent to leave this window. */
  function IsBack(m: Msg): (r: bool)
    ensures r <==> m == Back
  {
    match m
    case Back => true
    case _ => false
  }

  /** `subscription`: the period of the liveness tick requested, if any. */
  function TickPeriod(held: bool): (r: Option<nat>)
    ensures r.Some? <==> held
    ensures r.Some? ==> r.value == 250
  {
    if held then Some(TickPeriodMs) else None
  }

  /** The `in_session` choice of `view`: "Disconnect ECU" is offered when true,
      "Connect ECU" and "Back" when false. */
  function ShowsDisconnect(held: bool, reportsInSession: bool): (r: bool)
    ensures r ==> held
    ensures held ==> (r <==> reportsInSession)
  {
    if held then reportsInSession else false
  }

  /** `KWP2000DiagSession::new`: nothing held, empty log; home left as it was. */
  function Init(home: bool): (r: View)
    ensures !r.held && r.log == [] && r.homeEnabled == home
    ensures Balanced(r) && r.started == 0
  {
    View(false, [], home, 0, 0)
  }

  /** `ConnectECU`: a successful start holds a new session (replacing any held
      one without exiting it) and disables home; either way one line is logged. */
  function ConnectStep(s: View, start: StartOutcome): (r: View)
    ensures r.held <==> s.held || start == Started
    ensures r.ended == s.ended
    ensures r.started == s.started + (if start == Started then 1 else 0)
    ensures r.homeEnabled == (s.homeEnabled && start != Started)
    ensures |r.log| == |s.log| + 1 && r.log[..|s.log|] == s.log
    ensures r.log[|s.log|] == if start == Started then LogEntry(Established, Info)
                              else LogEntry(ConnectErrorText(start.text), Info)
  {
    match start
    case Started =>
      s.(held := true, homeEnabled := false, started := s.started + 1,
         log := s.log + [LogEntry(Established, Info)])
    case StartFailed(e) =>
      s.(log := s.log + [LogEntry(ConnectErrorText(e), Info)])
  }

  /** `DisconnectECU`: the held session, if any, is exited; "terminated" is
      logged even when nothing was held. */
  function DisconnectStep(s: View): (r: View)
    ensures !r.held && r.homeEnabled && r.started == s.started
    ensures r.ended == s.ended + (if s.held then 1 else 0)
    ensures r.log == s.log + [LogEntry(Terminated, Info)]
  {
    s.(held := false, homeEnabled := true,
       ended := if s.held then s.ended + 1 else s.ended,
       log := s.log + [LogEntry(Terminated, Info)])
  }

  /** `PollServer`: a held session that no longer reports in-session is exited,
      one or two lines are logged and the slot is cleared; otherwise nothing. */
  function PollStep(s: View, reportsInSession: bool, lastError: Option<string>): (r: View)
    ensures !s.held || reportsInSession ==> r == s
    ensures s.held && !reportsInSession ==>
      !r.held && r.homeEnabled && r.started == s.started && r.ended == s.ended + 1 &&
      |r.log| == |s.log| + (if lastError.Some? then 2 else 1) &&
      r.log[..|s.log| + 1] == s.log + [LogEntry(ClosedUnexpectedly, Info)] &&
      (lastError.Some? ==> r.log[|s.log| + 1] == LogEntry(LastErrorText(lastError.value), Info))
  {
    if s.held && !reportsInSession then
      var extra := match lastError
                   case Some(desc) => [LogEntry(LastErrorText(desc), Info)]
                   case None => [];
      s.(held := false, homeEnabled := true, ended := s.ended + 1,
         log := s.log + [LogEntry(ClosedUnexpectedly, Info)] + extra)
    else
      s
  }

  /** One `update` call. */
  function Step(s: View, m: Msg, env: Env): (r: View)
    ensures r.held ==> s.held || m == ConnectECU
    ensures m != ConnectECU ==> r.started == s.started
    ensures r.ended <= s.ended + 1
    ensures m != ClearLogs ==> s.log <= r.log
  {
    match m
    case ConnectECU => ConnectStep(s, env.start)
    case DisconnectECU => DisconnectStep(s)
    case PollServer => PollStep(s, env.reportsInSession, env.lastError)
    case ClearLogs => s.(log := [])
    case Back => s
    case LoadErrorDefinition => s
  }

  /** `Drop::drop`: one exit call if a session is held. */
  function Dropped(s: View): (r: View)
    ensures r.held == s.held && r.log == s.log && r.homeEnabled == s.homeEnabled
    ensures r.started == s.started
    ensures r.ended == s.ended + (if s.held then 1 else 0)
  {
    s.(ended := if s.held then s.ended + 1 else s.ended)
  }

  /** The event loop delivering a sequence of messages, each with the outcomes
      of the external calls it makes. */
  function Run(s: View, trace: seq<(Msg, Env)>): (r: View)
    ensures r.started >= s.started && r.ended >= s.ended
    ensures r.ended <= s.ended + |trace|
    decreases |trace|
  {
    if trace == [] then s else Run(Step(s, trace[0].0, trace[0].1), trace[1..])
  }

  /** No session is exited twice: the exits never exceed the sessions that are
      no longer held. */
  predicate NoDoubleExit(s: View) {
    s.ended + (if s.held then 1 else 0) <= s.started
  }

  /** Every started session is either the held one or has been exited. */
  predicate Balanced(s: View) {
    s.ended + (if s.held then 1 else 0) == s.started
  }

  /** Home navigation is disabled exactly while a session is held. */
  predicate HomeCoherent(s: View) {
    s.homeEnabled <==> !s.held
  }

  /** A successful `ConnectECU` while a session is already held. */
  predicate IsReconnect(s: View, m: Msg, env: Env) {
    m == ConnectECU && env.start == Started && s.held
  }

  predicate NoReconnect(s: View, trace: seq<(Msg, Env)>)
    decreases |trace|
  {
    trace == [] ||
    (!IsReconnect(s, trace[0].0, trace[0].1) &&
     NoReconnect(Step(s, trace[0].0, trace[0].1), trace[1..]))
  }

  // ---------------------------------------------------------------------
  // Properties of one step

  /** The connect-failure line determines the error text it was built from. */
  lemma ConnectErrorTextInjective(a: string, b: string)
    requires ConnectErrorText(a) == ConnectErrorText(b)
    ensures a == b
  {
    var n := |ConnectErrorPrefix|;
    var ta, tb := ConnectErrorText(a), ConnectErrorText(b);
    assert ta[n..|ta| - 1] == a;
    assert tb[n..|tb| - 1] == b;
  }

  /** Apart from `ClearLogs`, a step only appends, and at most two lines. */
  lemma StepLogShape(s: View, m: Msg, env: Env)
    ensures var t := Step(s, m, env);
            if m == ClearLogs then t == s.(log := [])
            else s.log <= t.log && |t.log| <= |s.log| + 2
  {
  }

  /** A poll while nothing is held, or while the held session still reports
      in-session, changes nothing; so does `Back` and `LoadErrorDefinition`. */
  lemma InertMessages(s: View, m: Msg, env: Env)
    requires IsBack(m) || m == LoadErrorDefinition ||
             (m == PollServer && (!s.held || env.reportsInSession))
    ensures Step(s, m, env) == s
  {
  }

  /** After `DisconnectECU`, or a poll that finds the held session gone, no
      tick is requested, "Connect ECU" is offered and home is enabled. */
  lemma TeardownStopsTicks(s: View, m: Msg, env: Env, reports: bool)
    requires m == DisconnectECU || (m == PollServer && s.held && !env.reportsInSession)
    ensures TickPeriod(Step(s, m, env).held) == None
    ensures !ShowsDisconnect(Step(s, m, env).held, reports)
    ensures Step(s, m, env).homeEnabled
  {
  }

  /** Exits are made only on a held session and at most once per step. */
  lemma StepExits(s: View, m: Msg, env: Env)
    ensures var t := Step(s, m, env);
            t.ended == s.ended + (if s.held && !t.held then 1 else 0)
  {
  }

  lemma StepKeepsNoDoubleExit(s: View, m: Msg, env: Env)
    requires NoDoubleExit(s)
    ensures NoDoubleExit(Step(s, m, env))
  {
  }

  lemma StepKeepsHomeCoherent(s: View, m: Msg, env: Env)
    requires HomeCoherent(s)
    ensures HomeCoherent(Step(s, m, env))
  {
  }

  /** Every step except a reconnect keeps every started session accounted for. */
  lemma StepKeepsBalanced(s: View, m: Msg, env: Env)
    requires Balanced(s) && !IsReconnect(s, m, env)
    ensures Balanced(Step(s, m, env))
  {
  }

  /** Dropping the window never re-enables home: a window dropped while it holds
      a session leaves home navigation disabled. */
  lemma DropKeepsHomeDisabled(s: View)
    requires HomeCoherent(s) && s.held
    ensures !Dropped(s).homeEnabled && Dropped(s).ended == s.ended + 1
  {
  }

  /** A reconnect loses the held session without exiting it. */
  lemma ReconnectLosesSession(s: View, env: Env)
    requires Balanced(s) && IsReconnect(s, ConnectECU, env)
    ensures var t := Step(s, ConnectECU, env);
            t.held && t.ended + 2 == t.started && !Balanced(t)
  {
  }

  // ---------------------------------------------------------------------
  // Properties of runs

  lemma {:induction false} RunKeepsInvariants(s: View, trace: seq<(Msg, Env)>)
    requires NoDoubleExit(s) && HomeCoherent(s)
    ensures NoDoubleExit(Run(s, trace)) && HomeCoherent(Run(s, trace))
    decreases |trace|
  {
    if trace != [] {
      var t := Step(s, trace[0].0, trace[0].1);
      StepKeepsNoDoubleExit(s, trace[0].0, trace[0].1);
      StepKeepsHomeCoherent(s, trace[0].0, trace[0].1);
      RunKeepsInvariants(t, trace[1..]);
    }
  }

  /** Without `ClearLogs` the log only grows, by at most two lines a message. */
  lemma {:induction false} RunLogOnlyGrows(s: View, trace: seq<(Msg, Env)>)
    requires forall i :: 0 <= i < |trace| ==> trace[i].0 != ClearLogs
    ensures s.log <= Run(s, trace).log
    ensures |Run(s, trace).log| <= |s.log| + 2 * |trace|
    decreases |trace|
  {
    if trace != [] {
      var t := Step(s, trace[0].0, trace[0].1);
      StepLogShape(s, trace[0].0, trace[0].1);
      assert forall i :: 0 <= i < |trace[1..]| ==> trace[1..][i] == trace[i + 1];
      RunLogOnlyGrows(t, trace[1..]);
    }
  }

  lemma {:induction false} RunKeepsBalanced(s: View, trace: seq<(Msg, Env)>)
    requires Balanced(s) && NoReconnect(s, trace)
    ensures Balanced(Run(s, trace))
    decreases |trace|
  {
    if trace != [] {
      StepKeepsBalanced(s, trace[0].0, trace[0].1);
      RunKeepsBalanced(Step(s, trace[0].0, trace[0].1), trace[1..]);
    }
  }

  /** From a fresh window, if no `ConnectECU` succeeds while a session is held,
      then once the window is dropped every started session has been exited
      exactly once. */
  lemma EverySessionEndedOnDrop(home: bool, trace: seq<(Msg, Env)>)
    requires NoReconnect(Init(home), trace)
    ensures var f := Dropped(Run(Init(home), trace));
            f.ended == f.started
  {
    RunKeepsBalanced(Init(home), trace);
  }

  /** Two successful connects followed by the drop: two sessions started, one
      exited. */
  lemma DoubleConnectLeaksSession()
    ensures var ok := Env(Started, true, None);
            var f := Dropped(Run(Init(true), [(ConnectECU, ok), (ConnectECU, ok)]));
            f.started == 2 && f.ended == 1
  {
    var ok := Env(Started, true, None);
    var s1 := Step(Init(true), ConnectECU, ok);
    var s2 := Step(s1, ConnectECU, ok);
    assert Run(s2, []) == s2;
    assert [(ConnectECU, ok), (ConnectECU, ok)][1..] == [(ConnectECU, ok)];
    assert Run(s1, [(ConnectECU, ok)]) == s2;
  }

  /** Once a session has been lost (started, neither held nor exited), no later
      message and not the drop make the window exit it. */
  lemma {:induction false} LeakPersists(s: View, trace: seq<(Msg, Env)>)
    requires s.ended + (if s.held then 1 else 0) < s.started
    ensures Dropped(Run(s, trace)).ended < Dropped(Run(s, trace)).started
    decreases |trace|
  {
    if trace != [] {
      LeakPersists(Step(s, trace[0].0, trace[0].1), trace[1..]);
    }
  }

  /** Converse of `EverySessionEndedOnDrop`: a run that reconnects at some
      point leaves a session the window never exits. */
  lemma {:induction false} ReconnectLeaksOnDrop(s: View, trace: seq<(Msg, Env)>)
    requires NoDoubleExit(s) && !NoReconnect(s, trace)
    ensures Dropped(Run(s, trace)).ended < Dropped(Run(s, trace)).started
    decreases |trace|
  {
    var t := Step(s, trace[0].0, trace[0].1);
    if IsReconnect(s, trace[0].0, trace[0].1) {
      LeakPersists(t, trace[1..]);
    } else {
      StepKeepsNoDoubleExit(s, trace[0].0, trace[0].1);
      ReconnectLeaksOnDrop(t, trace[1..]);
    }
  }
}
