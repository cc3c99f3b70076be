# KWP2000 diagnostic-session window, modelled in Dafny

This project models the window of OpenVehicleDiag that drives one KWP2000
diagnostic session with an ECU over ISO 15765 (`KWP2000DiagSession` in
`app_rust/src/windows/diag_session/kwp2000_session.rs`). The window holds an
optional protocol session (`diag_server`) and an append-only log. It reacts to
the messages `ConnectECU`, `DisconnectECU`, `PollServer`, `ClearLogs`, `Back`
and `LoadErrorDefinition`. It asks for a 250 ms liveness tick while a session
is held, and it ends a held session when it is dropped.

Two modules:

- `Kwp2000Model` (`kwp2000_model.dfy`) is the pure specification. `View` is
  the abstract window state. It records whether a session is held, the log,
  whether home navigation is enabled, how many sessions were started and how
  many `exit_diag_session` calls were made on held sessions. `Step` gives the
  effect of one `update` call, `Dropped` the effect of `Drop`, and `Run` the
  effect of a sequence of messages. The lemmas state what holds of these
  functions: the log shape, the tick gate, the exit accounting and the
  home-navigation invariant.
- `Kwp2000Session` (`kwp2000_session.dfy`) is the window as a class.
  `diag_server` is a nullable reference to an `Ecu` object, which counts the
  `exit_diag_session` calls made on it. The log is a `seq` field. The
  `window::enable_home`/`disable_home` state is a ghost flag. There is one
  method per message, plus `Update` and `Drop`. Each method states the new
  state outright and ties it to the step function of `Kwp2000Model`.

The external calls are not modelled; their outcomes are method parameters:

- `KWP2000ECU::start_diag_session` becomes a `StartOutcome`: a session, or an error text.
- `is_in_diag_session` becomes a `reportsInSession` flag.
- `get_last_error` becomes an `Option<string>`.

Where a tidier design would differ, the model follows the code:

- A `ConnectECU` that succeeds while a session is held is not rejected. The
  held session is replaced without `exit_diag_session` being called on it
  (lines 85-88). The window never calls `exit_diag_session` on the replaced
  session, neither later nor in `Drop` (`ReconnectLosesSession`,
  `LeakPersists`, `ReconnectLeaksOnDrop`, `DoubleConnectLeaksSession`).
  `EverySessionEndedOnDrop` shows that in every run without such a reconnect
  the window exits every session exactly once. The view makes this path
  reachable. When the held session reports not-in-session, line 62 offers
  "Connect ECU" before the next poll has dropped the session
  (`ShowsDisconnect`).
- `DisconnectECU` with no session held still logs "Connection to ECU
  terminated" and re-enables home navigation (lines 101-103), so home is
  enabled on every `DisconnectECU`, not only when a session actually ends.
- A connect failure is logged with severity `Info`, not as a warning (line 93).
- `Drop` exits a held session but never calls `window::enable_home`, so a
  window dropped while it holds a session leaves home navigation disabled
  (`DropKeepsHomeDisabled`). This is reachable: "Back" is offered while the
  held session reports not-in-session (lines 62 and 72-73).

## Model

| member | source | states |
|---|---|---|
| `Kwp2000Model.IsBack` | app_rust/src/windows/diag_session/kwp2000_session.rs:24-26 | `is_back` holds exactly for the `Back` message |
| `Kwp2000Model.TickPeriod` | app_rust/src/windows/diag_session/kwp2000_session.rs:126-132 | a tick is requested iff a session is held, and its period is 250 ms |
| `Kwp2000Model.ShowsDisconnect` | app_rust/src/windows/diag_session/kwp2000_session.rs:62-74 | "Disconnect ECU" is offered only while a session is held, and then exactly when that session reports in-session; otherwise "Connect ECU" and "Back" are offered |
| `Kwp2000Model.Init` | app_rust/src/windows/diag_session/kwp2000_session.rs:41-50 | a new window holds nothing, has an empty log, leaves home as found, and has started no session |
| `Kwp2000Model.ConnectStep` | app_rust/src/windows/diag_session/kwp2000_session.rs:84-95 | a session is held afterwards iff one was held or the start succeeded; a success counts one started session and disables home; no exit call is made; exactly one line is appended: "Connection to ECU established" on success, the error line on failure, both Info |
| `Kwp2000Model.DisconnectStep` | app_rust/src/windows/diag_session/kwp2000_session.rs:97-104 | nothing is held and home is enabled; one exit call is made iff a session was held; "Connection to ECU terminated" is appended in every case |
| `Kwp2000Model.PollStep` | app_rust/src/windows/diag_session/kwp2000_session.rs:106-119 | with nothing held or a session still in-session the state is unchanged; otherwise one exit call, nothing held, home enabled, and "Connection to ECU closed unexpectedly" then "--> desc" exactly when a last error is reported |
| `Kwp2000Model.Step` | app_rust/src/windows/diag_session/kwp2000_session.rs:82-124 | only `ConnectECU` can make a session held or count a new one; at most one exit call per message; every message but `ClearLogs` keeps the old log as a prefix |
| `Kwp2000Model.Dropped` | app_rust/src/windows/diag_session/kwp2000_session.rs:135-140 | the drop makes one exit call iff a session is held and changes nothing else (home included) |
| `Kwp2000Model.Run` | app_rust/src/windows/diag_session/kwp2000_session.rs:82-124 | over a sequence of `update` calls the session and exit counts never decrease, and at most one exit call is made per message |
| `Kwp2000Model.ConnectErrorTextInjective` | app_rust/src/windows/diag_session/kwp2000_session.rs:93 | the connect-failure line "Error connecting to ECU (<text>)" determines the error text it carries |
| `Kwp2000Model.StepLogShape` | app_rust/src/windows/diag_session/kwp2000_session.rs:82-124 | `ClearLogs` empties the log and changes nothing else; every other message only appends to the log, at most two lines |
| `Kwp2000Model.InertMessages` | app_rust/src/windows/diag_session/kwp2000_session.rs:106-121 | `Back`, `LoadErrorDefinition`, and a poll with nothing held or with a session still in-session, leave the whole state unchanged |
| `Kwp2000Model.TeardownStopsTicks` | app_rust/src/windows/diag_session/kwp2000_session.rs:97-131 | after `DisconnectECU` or a poll that finds the session gone, no tick is requested, "Connect ECU" is offered and home is enabled |
| `Kwp2000Model.StepExits` | app_rust/src/windows/diag_session/kwp2000_session.rs:97-117 | a message makes one exit call exactly when it leaves a previously held session unheld, and none otherwise |
| `Kwp2000Model.StepKeepsNoDoubleExit` | app_rust/src/windows/diag_session/kwp2000_session.rs:82-124 | no message makes the exit calls exceed the sessions started and no longer held |
| `Kwp2000Model.StepKeepsHomeCoherent` | app_rust/src/windows/diag_session/kwp2000_session.rs:84-117 | if home navigation is disabled exactly while a session is held, every message keeps it so |
| `Kwp2000Model.StepKeepsBalanced` | app_rust/src/windows/diag_session/kwp2000_session.rs:82-124 | every message except a successful reconnect keeps each started session either held or exited |
| `Kwp2000Model.DropKeepsHomeDisabled` | app_rust/src/windows/diag_session/kwp2000_session.rs:135-140 | dropping a window that holds a session exits it but leaves home navigation disabled |
| `Kwp2000Model.ReconnectLosesSession` | app_rust/src/windows/diag_session/kwp2000_session.rs:85-88 | a successful `ConnectECU` while a session is held leaves one started session neither held nor exited |
| `Kwp2000Model.RunKeepsInvariants` | app_rust/src/windows/diag_session/kwp2000_session.rs:82-124 | over any sequence of messages, no session is exited twice and home stays disabled exactly while a session is held |
| `Kwp2000Model.RunLogOnlyGrows` | app_rust/src/windows/diag_session/kwp2000_session.rs:82-124 | over any sequence of messages without `ClearLogs`, the old log is a prefix of the new one, which grows by at most two lines per message |
| `Kwp2000Model.RunKeepsBalanced` | app_rust/src/windows/diag_session/kwp2000_session.rs:82-124 | over any sequence of messages without a reconnect, every started session is held or has been exited |
| `Kwp2000Model.EverySessionEndedOnDrop` | app_rust/src/windows/diag_session/kwp2000_session.rs:135-140 | from a fresh window and without reconnects, once the window is dropped every started session has been exited exactly once |
| `Kwp2000Model.LeakPersists` | app_rust/src/windows/diag_session/kwp2000_session.rs:82-140 | once a started session is neither held nor exited, no later message and not the drop make the window exit it |
| `Kwp2000Model.ReconnectLeaksOnDrop` | app_rust/src/windows/diag_session/kwp2000_session.rs:85-88 | any run that contains a successful reconnect ends, after the drop, with fewer exit calls than sessions started |
| `Kwp2000Model.DoubleConnectLeaksSession` | app_rust/src/windows/diag_session/kwp2000_session.rs:85-88 | two successful connects and a drop start two sessions but exit only one |
| `Kwp2000Session.Kwp2000DiagSession.constructor` | app_rust/src/windows/diag_session/kwp2000_session.rs:41-50 | a new window holds no session, has an empty log and leaves home navigation as it found it |
| `Kwp2000Session.Kwp2000DiagSession.Subscription` | app_rust/src/windows/diag_session/kwp2000_session.rs:126-132 | a 250 ms tick is requested iff `diag_server` is set |
| `Kwp2000Session.Kwp2000DiagSession.InSession` | app_rust/src/windows/diag_session/kwp2000_session.rs:62 | `in_session` is true iff a session is held and it reports in-session |
| `Kwp2000Session.Kwp2000DiagSession.ConnectEcu` | app_rust/src/windows/diag_session/kwp2000_session.rs:84-95 | on success a fresh, never-exited session is held, home is disabled and "Connection to ECU established" (Info) is appended; on failure the held session and home are unchanged and one Info line carrying the error text is appended |
| `Kwp2000Session.Kwp2000DiagSession.DisconnectEcu` | app_rust/src/windows/diag_session/kwp2000_session.rs:97-104 | the held session, if any, is exited exactly once; afterwards nothing is held, home is enabled and exactly "Connection to ECU terminated" is appended |
| `Kwp2000Session.Kwp2000DiagSession.PollServer` | app_rust/src/windows/diag_session/kwp2000_session.rs:106-119 | with nothing held, or a session still in-session, nothing changes; otherwise the session is exited once, "Connection to ECU closed unexpectedly" is appended, then "--> desc" exactly when a last error is reported, and afterwards nothing is held and home is enabled |
| `Kwp2000Session.Kwp2000DiagSession.ClearLogs` | app_rust/src/windows/diag_session/kwp2000_session.rs:120 | the log becomes empty and nothing else changes |
| `Kwp2000Session.Kwp2000DiagSession.Update` | app_rust/src/windows/diag_session/kwp2000_session.rs:82-124 | `update` always returns `None` and performs `Step`; a successful connect holds a fresh session object, and every other message keeps the held object or clears the slot; the previously held session is exited exactly once when it is dropped by disconnect or poll, never when it is replaced by a reconnect |
| `Kwp2000Session.Kwp2000DiagSession.Drop` | app_rust/src/windows/diag_session/kwp2000_session.rs:135-140 | a session held at destruction is exited exactly once; nothing else changes |

## Left out

- The view rendering (iced `Column`, `Row`, `Container`, button styles and
  states, lines 58-80): user interface. Only the `in_session` choice at line
  62 is kept, as `ShowsDisconnect` and `InSession`.
- The `Instant` carried by `PollServer`, and real timing: the tick is modelled
  only as the period requested by `subscription`.
- `KWP2000ECU`, `ComServer` and `ISO15765Config`: the KWP2000 (ISO 14230-3)
  protocol over ISO 15765-2 is not part of this model. Their internals are
  outside this model. Their calls become parameters (start outcome,
  in-session report, last error) or a ghost count of exit calls. The `ecu` and `server` fields are
  therefore not modelled.
- `window::enable_home`/`disable_home` become a ghost flag. The initial flag
  is a constructor parameter, because `new` does not touch it.
- `LogView` display and timestamps: the log is a sequence of (text, severity)
  entries. Of `LogType` only `Info` and `Warning` are modelled; only `Info`
  is ever written.
- `app/src/lib.rs` is not part of this model. It is Node.js (N-API) glue
  around the native J2534 driver library and a process-global driver handle,
  all foreign calls.
- The implicit drop of a `KWP2000ECU` value is not modelled: the one replaced
  by a reconnect (line 88) and the one discarded by `take()` (lines 102 and
  115). Whether its own destructor ends the session is outside this model.
  The exit counts cover only the window's explicit `exit_diag_session` calls.
- `Ecu.ExitDiagSession` records the call only. Whatever the exit does on the
  ECU or to the session's later reports is not modelled.
