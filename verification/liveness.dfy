/**
  The liveness monitor: a periodic pass, under the registry lock, that
  recomputes every device's online flag from the time since it was last
  seen. It is the only transition that can take a device offline; register
  and poll only ever mark a device online.
 */
module Liveness {
  import opened Registry

  /** The monitor's rule for one device: online exactly when it was seen
      less than `timeout` ago. */
  predicate Live(d: Device, now: int, timeout: int) {
    now - d.lastSeen < timeout
  }

  /** One monitor pass at time `now`. Devices are neither added nor removed,
      and only the online flag of a record can change. */
  function Monitor(m: DeviceMap, now: int, timeout: int): (r: DeviceMap)
    ensures r.Keys == m.Keys
    ensures forall k :: k in m ==>
              && r[k].id == m[k].id
              && r[k].command == m[k].command
              && r[k].lastSeen == m[k].lastSeen
    ensures forall k :: k in m ==> (r[k].online <==> Live(m[k], now, timeout))
    ensures Valid(m) ==> Valid(r)
  {
    map k | k in m :: m[k].(online := Live(m[k], now, timeout))
  }

  /** A second pass at the same instant changes nothing. */
  lemma MonitorIdempotent(m: DeviceMap, now: int, timeout: int)
    ensures Monitor(Monitor(m, now, timeout), now, timeout) == Monitor(m, now, timeout)
  {
    var once := Monitor(m, now, timeout);
    var twice := Monitor(once, now, timeout);
    assert forall k :: k in twice ==> twice[k] == once[k];
  }

  /** The devices online after a pass are exactly those seen within the
      timeout, whatever their flags were before. */
  lemma MonitorOnlineSet(m: DeviceMap, now: int, timeout: int)
    ensures OnlineIds(Monitor(m, now, timeout)) == set k | k in m && Live(m[k], now, timeout)
  {
  }

  /** The set of devices whose stored online flag is set. */
  function OnlineIds(m: DeviceMap): (ids: set<string>) {
    set k | k in m && m[k].online
  }

  /** Register, poll and set-command never take a device offline: a device
      online before any of them is still online afterwards. */
  lemma ContactNeverClearsOnline(m: DeviceMap, id: string, command: string, now: int)
    ensures OnlineIds(m) <= OnlineIds(Register(m, id, now).devices)
    ensures OnlineIds(m) <= OnlineIds(Poll(m, id, now).devices)
    ensures OnlineIds(m) <= OnlineIds(SetCommand(m, id, command).devices)
  {
  }

  /** The monitor's invariant about offline devices: each of them was last
      seen at least `timeout` before time `t`. It holds of the empty
      registry and, with a clock that never runs backwards, after every
      transition. */
  predicate OfflineStale(m: DeviceMap, t: int, timeout: int) {
    forall k :: k in m && !m[k].online ==> t - m[k].lastSeen >= timeout
  }

  /** Under that invariant a pass never brings a device back online: the
      monitor's "back online" branch cannot fire, since only register and
      poll revive a device. */
  lemma MonitorNeverRevives(m: DeviceMap, t: int, now: int, timeout: int)
    requires OfflineStale(m, t, timeout)
    requires t <= now
    ensures OnlineIds(Monitor(m, now, timeout)) <= OnlineIds(m)
  {
  }

  /** A pass establishes the invariant at its own time. */
  lemma MonitorEstablishesStale(m: DeviceMap, now: int, timeout: int)
    ensures OfflineStale(Monitor(m, now, timeout), now, timeout)
  {
  }

  /** The invariant survives the passage of time. */
  lemma StaleLater(m: DeviceMap, t: int, t': int, timeout: int)
    requires OfflineStale(m, t, timeout)
    requires t <= t'
    ensures OfflineStale(m, t', timeout)
  {
  }
}
