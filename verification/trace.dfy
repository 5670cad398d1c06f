/**
  Histories of the registry. Because every registry access of a handler or
  a monitor pass happens under one lock, any run of the server is a
  sequence of atomic events, each stamped with the time it took the lock.
  The lemmas here are about every such sequence.
 */
module Trace {
  import opened Registry
  import opened Liveness

  /** The transitions that change or refresh the registry. */
  datatype Op =
    | RegisterOp(id: string)
    | PollOp(id: string)
    | SetCommandOp(id: string, command: string)
    | MonitorOp

  /** An operation and the time at which it ran. */
  datatype Event = Event(op: Op, at: int)

  /** The registry after one event. */
  function Apply(m: DeviceMap, e: Event, timeout: int): (r: DeviceMap) {
    match e.op
    case RegisterOp(id) => Register(m, id, e.at).devices
    case PollOp(id) => Poll(m, id, e.at).devices
    case SetCommandOp(id, command) => SetCommand(m, id, command).devices
    case MonitorOp => Monitor(m, e.at, timeout)
  }

  /** The registry after a whole history. No device is ever evicted: every
      ID known at the start is still known at the end. */
  function Run(m: DeviceMap, es: seq<Event>, timeout: int): (r: DeviceMap)
    ensures m.Keys <= r.Keys
    decreases |es|
  {
    if es == [] then m
    else Run(Apply(m, es[0], timeout), es[1..], timeout)
  }

  /** Every history keeps the registry valid: each record under its own
      non-empty ID. */
  lemma {:induction false} RunPreservesValid(m: DeviceMap, es: seq<Event>, timeout: int)
    requires Valid(m)
    ensures Valid(Run(m, es, timeout))
    decreases |es|
  {
    if es != [] {
      var m1 := Apply(m, es[0], timeout);
      assert Valid(m1);
      RunPreservesValid(m1, es[1..], timeout);
    }
  }

  /** A device is never created except by registering it: if `id` is
      unknown and no event of the history registers it, it is still unknown
      at the end. */
  lemma {:induction false} NeverRegisteredStaysUnknown(m: DeviceMap, es: seq<Event>, timeout: int, id: string)
    requires id !in m
    requires forall i :: 0 <= i < |es| ==> es[i].op != RegisterOp(id)
    ensures id !in Run(m, es, timeout)
    decreases |es|
  {
    if es != [] {
      var m1 := Apply(m, es[0], timeout);
      assert id !in m1;
      NeverRegisteredStaysUnknown(m1, es[1..], timeout, id);
    }
  }

  /** Consequently set-command on such an ID fails with "not found",
      whatever else happened before. */
  lemma SetCommandUnregistered(es: seq<Event>, timeout: int, id: string, command: string)
    requires forall i :: 0 <= i < |es| ==> es[i].op != RegisterOp(id)
    ensures var m := Run(Empty, es, timeout);
            SetCommand(m, id, command) == Step(m, Fail(NotFound))
  {
    NeverRegisteredStaysUnknown(Empty, es, timeout, id);
  }

  /** Any event other than a monitor pass keeps every online device
      online. */
  lemma ContactKeepsOnline(m: DeviceMap, e: Event, timeout: int)
    requires e.op != MonitorOp
    ensures OnlineIds(m) <= OnlineIds(Apply(m, e, timeout))
  {
    match e.op
    case RegisterOp(id) => ContactNeverClearsOnline(m, id, "", e.at);
    case PollOp(id) => ContactNeverClearsOnline(m, id, "", e.at);
    case SetCommandOp(id, command) => ContactNeverClearsOnline(m, id, command, e.at);
  }

  /** Only a monitor pass can take a device offline. */
  lemma OnlyMonitorClearsOnline(m: DeviceMap, e: Event, timeout: int, k: string)
    requires k in m && m[k].online
    requires k !in Apply(m, e, timeout) || !Apply(m, e, timeout)[k].online
    ensures e.op == MonitorOp
  {
    if e.op != MonitorOp {
      ContactKeepsOnline(m, e, timeout);
    }
  }

  /** In a history without monitor passes every online device stays
      online. */
  lemma {:induction false} NoMonitorKeepsOnline(m: DeviceMap, es: seq<Event>, timeout: int)
    requires forall i :: 0 <= i < |es| ==> es[i].op != MonitorOp
    ensures OnlineIds(m) <= OnlineIds(Run(m, es, timeout))
    decreases |es|
  {
    if es != [] {
      var m1 := Apply(m, es[0], timeout);
      ContactKeepsOnline(m, es[0], timeout);
      var rest := es[1..];
      assert forall i :: 0 <= i < |rest| ==> rest[i] == es[i + 1];
      NoMonitorKeepsOnline(m1, rest, timeout);
    }
  }

  /** Event times never run backwards and none precedes `t`. */
  predicate Chronological(es: seq<Event>, t: int) {
    && (forall i :: 0 <= i < |es| ==> t <= es[i].at)
    && (forall i, j :: 0 <= i < j < |es| ==> es[i].at <= es[j].at)
  }

  /** One event at or after `t` keeps the monitor's invariant, now stated
      at the event's own time. */
  lemma ApplyKeepsStale(m: DeviceMap, t: int, e: Event, timeout: int)
    requires OfflineStale(m, t, timeout)
    requires t <= e.at
    ensures OfflineStale(Apply(m, e, timeout), e.at, timeout)
  {
    StaleLater(m, t, e.at, timeout);
    if e.op == MonitorOp {
      MonitorEstablishesStale(m, e.at, timeout);
    }
  }

  /** Along a history with a monotone clock the monitor's invariant holds
      at every later time. */
  lemma {:induction false} RunKeepsStale(m: DeviceMap, t: int, es: seq<Event>, timeout: int, later: int)
    requires OfflineStale(m, t, timeout)
    requires Chronological(es, t)
    requires t <= later
    requires forall i :: 0 <= i < |es| ==> es[i].at <= later
    ensures OfflineStale(Run(m, es, timeout), later, timeout)
    decreases |es|
  {
    if es == [] {
      StaleLater(m, t, later, timeout);
    } else {
      ApplyKeepsStale(m, t, es[0], timeout);
      var rest := es[1..];
      assert forall i :: 0 <= i < |rest| ==> rest[i] == es[i + 1];
      RunKeepsStale(Apply(m, es[0], timeout), es[0].at, rest, timeout, later);
    }
  }

  /** So, starting from an empty registry with a clock that never runs
      backwards, a monitor pass never brings a device back online. */
  lemma MonitorNeverRevivesAfterHistory(es: seq<Event>, timeout: int, now: int)
    requires es != [] && Chronological(es, es[0].at)
    requires es[|es| - 1].at <= now
    ensures var m := Run(Empty, es, timeout);
            OnlineIds(Monitor(m, now, timeout)) <= OnlineIds(m)
  {
    var m := Run(Empty, es, timeout);
    RunKeepsStale(Empty, es[0].at, es, timeout, now);
    MonitorNeverRevives(m, now, now, timeout);
  }
}
