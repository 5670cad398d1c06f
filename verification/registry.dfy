/**
  The device registry of the wake-on-demand server: a map from device ID to
  the device's record, and the three transitions that devices and operators
  drive through it (register, poll, set-command).

  Every handler of the server holds the registry's single lock for its whole
  critical section, so each operation here is one atomic transition: a pure
  function from the registry before to the registry after, together with the
  outcome the caller sees. The current time is a parameter.
 */
module Registry {

  /** One device's record. `id` repeats the map key, as the source does;
      `command` is the single pending-command slot ("" when empty);
      `lastSeen` is the time of the last register or poll. */
  datatype Device = Device(id: string, command: string, lastSeen: int, online: bool)

  /** The registry: at most one record per device ID, by construction. */
  type DeviceMap = map<string, Device>

  /** The registry as the server starts it. */
  const Empty: DeviceMap := map[]

  /** The failures a caller can observe, kept distinct so that "never seen"
      and "seen but offline" can be told apart. */
  datatype Failure = BadRequest | NotFound | Unavailable

  datatype Outcome<T> = Ok(value: T) | Fail(failure: Failure)

  /** The registry after an operation, and what the caller was told. */
  datatype Step<T> = Step(devices: DeviceMap, out: Outcome<T>)

  /** Every record sits under its own ID and no record has the empty ID
      (registration refuses it). Every operation keeps this. */
  predicate Valid(m: DeviceMap) {
    forall k :: k in m ==> k != "" && m[k].id == k
  }

  /** Registration: an empty ID is refused; otherwise the device is created,
      or refreshed if already known, and marked online as of `now`. A device
      that registers again keeps its pending command. */
  function Register(m: DeviceMap, id: string, now: int): (s: Step<()>)
    ensures id == "" ==> s == Step(m, Fail(BadRequest))
    ensures id != "" ==> s.out == Ok(())
    ensures id != "" ==> s.devices.Keys == m.Keys + {id}
    ensures id != "" ==> id in s.devices && s.devices[id].online && s.devices[id].lastSeen == now
    ensures id != "" && id !in m ==> s.devices[id].id == id && s.devices[id].command == ""
    ensures id != "" && id in m ==>
              s.devices[id].id == m[id].id && s.devices[id].command == m[id].command
    ensures forall k :: k in m && k != id ==> k in s.devices && s.devices[k] == m[k]
    ensures |s.devices| == if id == "" || id in m then |m| else |m| + 1
    ensures Valid(m) ==> Valid(s.devices)
  {
    if id == "" then Step(m, Fail(BadRequest))
    else if id !in m then
      Step(m[id := Device(id, "", now, true)], Ok(()))
    else
      Step(m[id := m[id].(lastSeen := now, online := true)], Ok(()))
  }

  /** A device's poll: a destructive read of its command slot that also
      renews its liveness. A missing ID is a bad request and an unknown ID is
      not found; neither changes the registry. */
  function Poll(m: DeviceMap, id: string, now: int): (s: Step<string>)
    ensures id == "" ==> s == Step(m, Fail(BadRequest))
    ensures id != "" && id !in m ==> s == Step(m, Fail(NotFound))
    ensures id != "" && id in m ==> s.out == Ok(m[id].command)
    ensures id != "" && id in m ==>
              && id in s.devices
              && s.devices[id].command == ""
              && s.devices[id].online
              && s.devices[id].lastSeen == now
              && s.devices[id].id == m[id].id
    ensures s.devices.Keys == m.Keys
    ensures forall k :: k in m && k != id ==> s.devices[k] == m[k]
    ensures Valid(m) ==> Valid(s.devices)
  {
    if id == "" then Step(m, Fail(BadRequest))
    else if id !in m then Step(m, Fail(NotFound))
    else
      var d := m[id];
      Step(m[id := d.(lastSeen := now, online := true, command := "")], Ok(d.command))
  }

  /** An operator's set-command: overwrites the device's command slot, but
      only for a known device whose stored online flag is set. The flag is
      read as stored; elapsed time is not recomputed here. The source does
      not refuse an empty ID: it is simply not found. */
  function SetCommand(m: DeviceMap, id: string, command: string): (s: Step<string>)
    ensures id !in m ==> s == Step(m, Fail(NotFound))
    ensures id in m && !m[id].online ==> s == Step(m, Fail(Unavailable))
    ensures id in m && m[id].online ==>
              && s.out == Ok(command)
              && id in s.devices
              && s.devices[id].command == command
              && s.devices[id].lastSeen == m[id].lastSeen
              && s.devices[id].online
              && s.devices[id].id == m[id].id
    ensures s.devices.Keys == m.Keys
    ensures forall k :: k in m && k != id ==> s.devices[k] == m[k]
    ensures Valid(m) ==> Valid(s.devices)
  {
    if id !in m then Step(m, Fail(NotFound))
    else if !m[id].online then Step(m, Fail(Unavailable))
    else Step(m[id := m[id].(command := command)], Ok(command))
  }

  /** In a valid registry the empty ID is never known, so set-command with
      an empty ID is always "not found". */
  lemma SetCommandEmptyId(m: DeviceMap, command: string)
    requires Valid(m)
    ensures SetCommand(m, "", command) == Step(m, Fail(NotFound))
  {
  }
}
