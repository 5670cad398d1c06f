# wake-on-demand device registry, modelled in Dafny

wake-on-demand is a small Go server that keeps track of remote ESP devices.
Each device registers, then polls the server for a pending command. An
operator can queue a command ("pulse", "force" or "status") for a device that
is online. A background monitor marks a device offline once it has not been
heard from within a timeout.

This project models the server's in-memory registry. The registry maps each
device ID to a record. The record holds a single pending-command slot, the
time the device was last seen, and an online flag. Every read and write of
the registry, in each HTTP handler and in each monitor pass, happens while
one lock is held. Register and health reply after releasing the lock; poll,
set-command and list hold it until they return, so their replies are written
under it. No method check, body decoding or reply reads or writes the
registry. Each handler and
each monitor pass is therefore modelled as one atomic, pure transition
`(registry, arguments, now) -> (registry', outcome)`. Time is an integer
parameter.

Modules:

- `Commands` (commands.dfy): the command strings. It gives a closed view
  (`Command`) of the stored string, which round-trips with the text, and the
  client's mapping of the verbs `on`/`off`/`status` to command values.
- `Registry` (registry.dfy): the `Device` record and the `DeviceMap`. It also
  holds the register, poll and set-command transitions and the failures
  `BadRequest`, `NotFound` and `Unavailable`.
- `Liveness` (liveness.dfy): the monitor pass. It proves that only the
  monitor takes a device offline. It also proves that, with a clock that
  never runs backwards, the monitor never brings a device back online.
- `Queries` (queries.dfy): the health counts and the device listing, as loops
  over the map.
- `Trace` (trace.dfy): histories of timestamped events, with the invariants
  that every history keeps.
- `Protocol` (protocol.dfy): the handlers reduced to their outcomes:
  method checks, malformed bodies, and the status code and reply for each
  registry outcome.
- `Scenarios` (scenarios.dfy): properties that relate several operations,
  and end-to-end scenarios.

Behaviours of the code worth noting, each proved of the model:

- Set-command checks the device's *stored* online flag (main.go:295). It
  does not recompute the elapsed time. A device that has passed its timeout
  but has not yet been swept by a monitor pass still accepts a command
  (`Scenarios.StaleButUnsweptAccepted`).
- The command is stored as the string the client sent, whatever it is
  (main.go:301). The closed enumeration is only a view, given by
  `Commands.Parse`.
- A first poll after registering returns no command only for a device that
  was not registered before. Re-registering keeps the pending command
  (main.go:219-222; `Scenarios.RegisterKeepsPending`).
- A monitor pass could in principle log "back online" (main.go:177-178).
  Under the lock, and with a monotone clock, this cannot happen
  (`Trace.MonitorNeverRevivesAfterHistory`), so that branch is unreachable.
- Poll, set-command and list release the registry lock only when they return
  (main.go:241, 286, 317), so they write their HTTP replies, network I/O,
  while holding the one lock that every other handler and the monitor need.
- Set-command does not reject an empty ID. In a valid registry an empty ID
  is never known, so it fails with "not found" (`Registry.SetCommandEmptyId`).

## Model

| member | source | states |
|---|---|---|
| Registry.Register | main.go:204-223 | An empty ID is a bad request and changes nothing. Otherwise the ID is present, online and last seen now. A new device gets an empty command and an existing one keeps its pending command. Other devices are unchanged. The size grows by one exactly when the ID was absent. Validity is kept. |
| Registry.Poll | main.go:234-255 | An empty ID is a bad request and an unknown ID is not found; neither changes the registry. A known device gets back its stored command, and its slot is then empty, its flag online and its last-seen time now. Other devices are unchanged. |
| Registry.SetCommand | main.go:288-301 | An unknown ID is not found and an ID stored offline is unavailable; neither changes the registry. Otherwise the slot holds exactly the given string, and last-seen, the flag and other devices are unchanged. |
| Registry.SetCommandEmptyId | main.go:288-293 | In a valid registry, set-command with an empty ID is "not found" and changes nothing. |
| Liveness.Monitor | main.go:167-181 | A pass keeps the set of IDs and every command and last-seen time. It sets each flag to "seen less than timeout ago". |
| Liveness.MonitorIdempotent | main.go:170-173 | Two passes at the same instant give the same registry as one. |
| Liveness.MonitorOnlineSet | main.go:170-173 | After a pass the online devices are exactly those seen within the timeout, whatever their flags were before. |
| Liveness.ContactNeverClearsOnline | main.go:210-301 | Register, poll and set-command never take an online device offline. |
| Liveness.MonitorNeverRevives | main.go:172-179 | If every offline device was last seen at least the timeout before some earlier time, a later pass brings no device back online. |
| Liveness.MonitorEstablishesStale | main.go:171-173 | After a pass, every offline device was last seen at least the timeout before the pass. |
| Queries.Health | main.go:341-348 | The total equals the number of devices. The online count equals the number of devices whose flag is set, and it is never above the total. |
| Queries.List | main.go:325-332 | The listing has exactly one entry per known device, with no duplicates. Each entry carries that device's stored flag and its time since last contact. |
| Trace.Run | main.go:210-301 | No history removes a device: every ID known at the start is known at the end. |
| Trace.RunPreservesValid | main.go:204-217 | Every history keeps each record under its own non-empty ID. |
| Trace.NeverRegisteredStaysUnknown | main.go:210-217 | An ID that no event registers stays unknown, so devices are only created by registration. |
| Trace.SetCommandUnregistered | main.go:288-293 | After any history that never registers an ID, set-command on it is "not found" and changes nothing. |
| Trace.ContactKeepsOnline | main.go:210-301 | Any event other than a monitor pass keeps every online device online. |
| Trace.OnlyMonitorClearsOnline | main.go:173 | If an event takes an online device offline, that event is a monitor pass. |
| Trace.NoMonitorKeepsOnline | main.go:167-181 | A history without monitor passes keeps every online device online. |
| Trace.ApplyKeepsStale | main.go:172-179 | Every event at or after time t keeps the invariant "offline devices are stale", stated at the event's time. |
| Trace.RunKeepsStale | main.go:172-179 | Along a history whose clock never runs backwards, the invariant holds at every later time. |
| Trace.MonitorNeverRevivesAfterHistory | main.go:175-179 | Starting from the empty registry with a monotone clock, no monitor pass ever brings a device back online. |
| Commands.Parse | main.go:19-25 | Each stored string has one well-formed classification, and turning it back into text gives the same string. |
| Commands.ParseText | main.go:19-25 | A well-formed command comes back unchanged after being stored as text and read back. |
| Commands.VerbCommand | main.go:364-373 | A client verb maps to one of "pulse", "force", "status" or the empty string. |
| Commands.VerbMeaning | main.go:366-373 | "on" means pulse, "off" means force and "status" means status, each exactly. Any other verb sends no command. |
| Commands.VerbCommandInjective | main.go:366-373 | Distinct client verbs send distinct commands. |
| Protocol.FailureStatus | main.go:204-297 | Each registry failure maps to one of 400, 404 or 503. |
| Protocol.FailureStatusRoundTrip | main.go:236-297 | The three failures the server emits have distinct status codes (400, 404, 503), so a caller can tell them apart. |
| Protocol.Handle | main.go:185-360 | A wrong method on register or set-command gives 405. A malformed body, or an empty ID on register or poll, gives 400. Every rejected request leaves the registry unchanged. Poll, register and set-command produce exactly their registry transition and the matching reply or status. List and health change nothing. List returns exactly one entry per device, with distinct IDs, each carrying the stored flag and the time since last contact. Health reports the total and the online count. |
| Scenarios.SetSetPoll | main.go:250-301 | Two set-commands and then a poll deliver only the second command. The next poll delivers nothing. |
| Scenarios.PollTwice | main.go:250-254 | A second poll at the same instant returns the empty command and leaves the registry as the first poll left it. |
| Scenarios.RegisterThenPollFresh | main.go:210-217 | A newly registered device's first poll returns the empty command. |
| Scenarios.RegisterKeepsPending | main.go:219-222 | A device that registers again still receives its pending command on the next poll. |
| Scenarios.RegisterIdempotentSize | main.go:210-223 | Registering the same ID again never grows the registry, and one registration grows it by at most one. |
| Scenarios.TimedOutRejected | main.go:295-298 | Once a monitor pass has seen a device silent for at least the timeout, set-command on it is unavailable and changes nothing. |
| Scenarios.StaleButUnsweptAccepted | main.go:295-301 | A device past its timeout whose stored flag is still online accepts a command. |
| Scenarios.ContactRevives | main.go:220-251 | After a pass takes a device offline, one register or poll makes it online again without another pass. |
| Scenarios.BedroomScenario | main.go:210-260 | Register "bedroom", queue "pulse": the queue succeeds, the first poll returns "pulse" and the second returns "". |
| Scenarios.AtticScenario | main.go:167-299 | Register "attic" at 0 with timeout 30. After a pass at 30, "force" is unavailable. Before any pass, it would be accepted. |

## Left out

- HTTP routing, header writing and JSON encoding of replies are left out. Request decoding is reduced to "decoded" or "malformed". These are I/O.
- Logging (every `log.Printf`) is left out, because it is a side effect only. This includes the monitor's online/offline transition messages.
- The mutex, the goroutines, the 10-second ticker and signal handling are left out. Every registry read and write, in each handler and each monitor pass, happens under the one lock, and the rest of a handler touches no registry state, so each is modelled as an atomic transition. Monitor passes appear as events at arbitrary times.
- `time.Now`, `time.Since` and duration arithmetic are replaced by integer timestamps. The 64-bit nanosecond range and the saturation of `Time.Sub` on overflow are not modelled.
- Queries.List: the last-seen field is the raw difference `now - lastSeen`. It is not the rounded duration string with " ago" appended, because string formatting is out of scope. The source reads the clock separately for each entry; the model uses one `now` for the whole listing.
- Trace.MonitorNeverRevivesAfterHistory: the lemma assumes that event times never decrease. This matches Go's monotonic clock reading but is not derived from it.
- The command-line client is left out: flag parsing, usage text, `main` dispatch, the HTTP calls in `sendCommand` and `listESPs`, exit codes and coloured output. Only the verb-to-command mapping of `sendCommand` is modelled.
