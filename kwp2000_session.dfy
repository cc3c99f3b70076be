/** The KWP2000 diagnostic-session window as a class whose methods update its
    fields in place, each proved against the step function of `Kwp2000Model`. */
module Kwp2000Session {
  import opened Kwp2000Model

  /** A live KWP2000 session on the ECU. Its protocol internals are not
      modelled; only the calls to `exit_diag_session` are counted. */
  class Ecu {
    ghost var exitCalls: nat

    /** A session returned by a successful `start_diag_session`. */
    constructor ()
      ensures exitCalls == 0
    {
      exitCalls := 0;
    }

    method ExitDiagSession()
      modifies this
      ensures exitCalls == old(exitCalls) + 1
    {
      exitCalls := exitCalls + 1;
    }
  }

  class Kwp2000DiagSession {
    var diagServer: Ecu?
    var log: seq<LogEntry>
    ghost var homeEnabled: bool
    ghost var started: nat
    ghost var ended: nat

    ghost function Abs(): View
      reads this
    {
      View(diagServer != null, log, homeEnabled, started, ended)
    }

    /** The held session has never been exited, and no session was exited twice. */
    ghost predicate Valid()
      reads this, diagServer
    {
      NoDoubleExit(Abs()) && (diagServer != null ==> diagServer.exitCalls == 0)
    }

    /** `KWP2000DiagSession::new`; `home` is the home state the window finds. */
    constructor (ghost home: bool)
      ensures Valid()
      ensures diagServer == null && log == [] && homeEnabled == home
      ensures Abs() == Init(home)
    {
      diagServer := null;
      log := [];
      homeEnabled := home;
      started, ended := 0, 0;
    }

    /** `subscription`: a 250 ms tick exactly while a session is held. */
    function Subscription(): (r: Option<nat>)
      reads this
      ensures r.Some? <==> diagServer != null
      ensures r.Some? ==> r.value == 250
    {
      TickPeriod(diagServer != null)
    }

    /** The `in_session` choice of `view`, given what the held session reports. */
    function InSession(reportsInSession: bool): (r: bool)
      reads this
      ensures r <==> diagServer != null && reportsInSession
    {
      ShowsDisconnect(diagServer != null, reportsInSession)
    }

    /** `ConnectECU`, given the outcome of `start_diag_session`. A session
        already held is replaced without being exited. */
    method ConnectEcu(start: StartOutcome)
      requires Valid()
      modifies this
      ensures Valid()
      ensures start == Started ==>
        fresh(diagServer) && diagServer.exitCalls == 0 && !homeEnabled &&
        log == old(log) + [LogEntry(Established, Info)]
      ensures start.StartFailed? ==>
        diagServer == old(diagServer) && homeEnabled == old(homeEnabled) &&
        log == old(log) + [LogEntry(ConnectErrorText(start.text), Info)]
      ensures Abs() == ConnectStep(old(Abs()), start)
    {
      match start {
        case Started =>
          var server := new Ecu();
          homeEnabled := false;
          diagServer := server;
          started := started + 1;
          log := log + [LogEntry(Established, Info)];
        case StartFailed(e) =>
          log := log + [LogEntry(ConnectErrorText(e), Info)];
      }
    }

    /** `DisconnectECU`: exit the held session if any, log, drop it, enable home. */
    method DisconnectEcu()
      requires Valid()
      modifies this, diagServer
      ensures Valid()
      ensures old(diagServer) != null ==> old(diagServer).exitCalls == 1
      ensures diagServer == null && homeEnabled
      ensures log == old(log) + [LogEntry(Terminated, Info)]
      ensures Abs() == DisconnectStep(old(Abs()))
    {
      if diagServer != null {
        diagServer.ExitDiagSession();
        ended := ended + 1;
      }
      log := log + [LogEntry(Terminated, Info)];
      diagServer := null;
      homeEnabled := true;
    }

    /** `PollServer`, given what the held session's `is_in_diag_session` and,
        after the exit, `get_last_error` report. */
    method PollServer(reportsInSession: bool, lastError: Option<string>)
      requires Valid()
      modifies this, diagServer
      ensures Valid()
      ensures (old(diagServer) == null || reportsInSession) ==>
        diagServer == old(diagServer) && log == old(log) && homeEnabled == old(homeEnabled) &&
        (old(diagServer) != null ==> diagServer.exitCalls == 0)
      ensures old(diagServer) != null && !reportsInSession ==>
        old(diagServer).exitCalls == 1 && diagServer == null && homeEnabled &&
        log == old(log) + [LogEntry(ClosedUnexpectedly, Info)] +
               (if lastError.Some? then [LogEntry(LastErrorText(lastError.value), Info)] else [])
      ensures Abs() == PollStep(old(Abs()), reportsInSession, lastError)
    {
      if diagServer != null {
        if !reportsInSession {
          diagServer.ExitDiagSession();
          ended := ended + 1;
          log := log + [LogEntry(ClosedUnexpectedly, Info)];
          match lastError {
            case Some(desc) => log := log + [LogEntry(LastErrorText(desc), Info)];
            case None =>
          }
          diagServer := null;
          homeEnabled := true;
        }
      }
    }

    /** `ClearLogs`: empty the log, nothing else. */
    method ClearLogs()
      requires Valid()
      modifies this
      ensures Valid()
      ensures log == [] && diagServer == old(diagServer)
      ensures Abs() == old(Abs()).(log := [])
    {
      log := [];
    }

    /** `update`: dispatch on the message; the reply is always `None`. */
    method Update(m: Msg, env: Env) returns (reply: Option<Msg>)
      requires Valid()
      modifies this, diagServer
      ensures Valid()
      ensures reply == None
      ensures Abs() == Step(old(Abs()), m, env)
      ensures m == ConnectECU && env.start == Started ==> fresh(diagServer)
      ensures !(m == ConnectECU && env.start == Started) && diagServer != null ==>
        diagServer == old(diagServer)
      ensures old(diagServer) != null ==>
        old(diagServer).exitCalls == (if m != ConnectECU && diagServer == null then 1 else 0)
    {
      match m {
        case ConnectECU => ConnectEcu(env.start);
        case DisconnectECU => DisconnectEcu();
        case PollServer => PollServer(env.reportsInSession, env.lastError);
        case ClearLogs => ClearLogs();
        case Back =>
        case LoadErrorDefinition =>
      }
      reply := None;
    }

    /** `Drop::drop`: exit the held session, if any. */
    method Drop()
      requires Valid()
      modifies this, diagServer
      ensures old(diagServer) != null ==> old(diagServer).exitCalls == 1
      ensures diagServer == old(diagServer) && log == old(log)
      ensures Abs() == Dropped(old(Abs()))
    {
      if diagServer != null {
        diagServer.ExitDiagSession();
        ended := ended + 1;
      }
    }
  }
}
