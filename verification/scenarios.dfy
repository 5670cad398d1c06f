/**
  Properties that relate several registry operations: the single command
  slot, destructive polling, and how liveness decays and recovers.
 */
module Scenarios {
  import opened Registry
  import opened Liveness

  /** Last writer wins: two set-commands followed by a poll deliver only the
      second command, and a poll right after delivers nothing. */
  lemma SetSetPoll(m: DeviceMap, id: string, x: string, y: string, now: int)
    requires id != "" && id in m && m[id].online
    ensures SetCommand(m, id, x).out == Ok(x)
    ensures var m1 := SetCommand(m, id, x).devices;
            var m2 := SetCommand(m1, id, y).devices;
            && SetCommand(m1, id, y).out == Ok(y)
            && Poll(m2, id, now).out == Ok(y)
            && Poll(Poll(m2, id, now).devices, id, now).out == Ok("")
  {
    var m1 := SetCommand(m, id, x).devices;
    assert id in m1 && m1[id].online;
    var m2 := SetCommand(m1, id, y).devices;
    assert id in m2 && m2[id].command == y;
    var m3 := Poll(m2, id, now).devices;
    assert id in m3 && m3[id].command == "";
  }

  /** Polling is destructive and idempotent: a second poll at the same
      instant returns nothing and leaves the registry as the first left it. */
  lemma PollTwice(m: DeviceMap, id: string, now: int)
    requires id != "" && id in m
    ensures var s1 := Poll(m, id, now);
            var s2 := Poll(s1.devices, id, now);
            && s1.out == Ok(m[id].command)
            && s2.out == Ok("")
            && s2.devices == s1.devices
  {
    var s1 := Poll(m, id, now);
    var s2 := Poll(s1.devices, id, now);
    assert id in s1.devices;
    assert s2.devices[id] == s1.devices[id];
  }

  /** A freshly registered device has nothing pending: its first poll
      returns the empty command. */
  lemma RegisterThenPollFresh(m: DeviceMap, id: string, t0: int, t1: int)
    requires id != "" && id !in m
    ensures Poll(Register(m, id, t0).devices, id, t1).out == Ok("")
  {
    var m1 := Register(m, id, t0).devices;
    assert id in m1 && m1[id].command == "";
  }

  /** Re-registration does not clear the slot: a device that registers
      again while a command is pending still receives it on its next poll. */
  lemma RegisterKeepsPending(m: DeviceMap, id: string, t0: int, t1: int)
    requires id != "" && id in m
    ensures Poll(Register(m, id, t0).devices, id, t1).out == Ok(m[id].command)
  {
    var m1 := Register(m, id, t0).devices;
    assert id in m1 && m1[id].command == m[id].command;
  }

  /** Re-registration never duplicates a device: registering a known ID any
      number of times leaves the registry's size unchanged. */
  lemma RegisterIdempotentSize(m: DeviceMap, id: string, t0: int, t1: int)
    requires id != ""
    ensures var m1 := Register(m, id, t0).devices;
            |Register(m1, id, t1).devices| == |m1| <= |m| + 1
  {
    var m1 := Register(m, id, t0).devices;
    assert id in m1;
  }

  /** A device silent for at least the timeout is rejected as unavailable
      once a monitor pass has seen it; its pending command is untouched. */
  lemma TimedOutRejected(m: DeviceMap, id: string, command: string, now: int, timeout: int)
    requires id in m && now - m[id].lastSeen >= timeout
    ensures var m1 := Monitor(m, now, timeout);
            SetCommand(m1, id, command) == Step(m1, Fail(Unavailable))
  {
    var m1 := Monitor(m, now, timeout);
    assert id in m1 && !m1[id].online;
  }

  /** Set-command reads the stored flag: a device past its timeout that no
      monitor pass has seen yet still accepts a command. */
  lemma StaleButUnsweptAccepted(m: DeviceMap, id: string, command: string, now: int, timeout: int)
    requires id in m && m[id].online && now - m[id].lastSeen >= timeout
    ensures SetCommand(m, id, command).out == Ok(command)
  {
  }

  /** A device taken offline by the monitor is online again right after it
      registers or polls, without waiting for another pass. */
  lemma ContactRevives(m: DeviceMap, id: string, now: int, later: int, timeout: int)
    requires id != "" && id in m
    ensures var m1 := Monitor(m, now, timeout);
            && id in OnlineIds(Register(m1, id, later).devices)
            && id in OnlineIds(Poll(m1, id, later).devices)
  {
    var m1 := Monitor(m, now, timeout);
    assert id in m1;
    var r := Register(m1, id, later).devices;
    var p := Poll(m1, id, later).devices;
    assert id in r && r[id].online;
    assert id in p && p[id].online;
  }

  /** Register "bedroom", queue "pulse", poll it, poll again. */
  lemma BedroomScenario(t0: int, t1: int, t2: int)
    ensures var m1 := Register(Empty, "bedroom", t0).devices;
            var s2 := SetCommand(m1, "bedroom", "pulse");
            var s3 := Poll(s2.devices, "bedroom", t1);
            var s4 := Poll(s3.devices, "bedroom", t2);
            && s2.out == Ok("pulse")
            && s3.out == Ok("pulse")
            && s4.out == Ok("")
  {
    var m1 := Register(Empty, "bedroom", t0).devices;
    assert "bedroom" in m1 && m1["bedroom"].online;
    var m2 := SetCommand(m1, "bedroom", "pulse").devices;
    assert "bedroom" in m2 && m2["bedroom"].command == "pulse";
    var m3 := Poll(m2, "bedroom", t1).devices;
    assert "bedroom" in m3 && m3["bedroom"].command == "";
  }

  /** Register "attic" at time 0 with a 30-unit timeout and stay silent:
      after a monitor pass at time 30 a "force" command is refused as
      unavailable; before any pass it would have been accepted. */
  lemma AtticScenario()
    ensures var m1 := Register(Empty, "attic", 0).devices;
            && SetCommand(Monitor(m1, 30, 30), "attic", "force").out == Fail(Unavailable)
            && SetCommand(m1, "attic", "force").out == Ok("force")
  {
    var m1 := Register(Empty, "attic", 0).devices;
    assert "attic" in m1 && m1["attic"].lastSeen == 0 && m1["attic"].online;
    var m2 := Monitor(m1, 30, 30);
    assert "attic" in m2 && !m2["attic"].online;
  }
}
