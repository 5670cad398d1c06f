/**
  The two read-only views of the registry: the health summary (how many
  devices are known and how many are flagged online) and the device listing
  (one entry per known device). Both walk the map under the lock and leave
  it unchanged; the walk order is Go's unspecified map order, modelled by
  picking any remaining key.
 */
module Queries {
  import opened Registry
  import opened Liveness

  /** One line of the listing. The source renders the elapsed time as a
      rounded duration string followed by " ago"; here it is the raw
      difference `now - lastSeen`. */
  datatype Entry = Entry(id: string, online: bool, elapsed: int)

  /** The online devices among the keys in `seen`. */
  function OnlineAmong(m: DeviceMap, seen: set<string>): (ids: set<string>) {
    set k | k in seen && k in m && m[k].online
  }

  /** The health counts: the number of known devices and the number whose
      stored online flag is set (never more than the total). */
  method Health(m: DeviceMap) returns (total: nat, online: nat)
    ensures total == |m|
    ensures online == |OnlineIds(m)|
    ensures online <= total
  {
    total := |m|;
    online := 0;
    var todo := m.Keys;
    ghost var seen: set<string> := {};
    while todo != {}
      invariant todo !! seen
      invariant todo + seen == m.Keys
      invariant online == |OnlineAmong(m, seen)|
      invariant online <= |seen|
      decreases todo
    {
      var k :| k in todo;
      OnlineAmongAdd(m, seen, k);
      if m[k].online {
        online := online + 1;
      }
      todo := todo - {k};
      seen := seen + {k};
    }
    assert OnlineAmong(m, seen) == OnlineIds(m);
  }

  /** Counting one more key adds it to the online set exactly when it is
      flagged online. */
  lemma OnlineAmongAdd(m: DeviceMap, seen: set<string>, k: string)
    requires k in m && k !in seen
    ensures |seen + {k}| == |seen| + 1
    ensures m[k].online ==> |OnlineAmong(m, seen + {k})| == |OnlineAmong(m, seen)| + 1
    ensures !m[k].online ==> OnlineAmong(m, seen + {k}) == OnlineAmong(m, seen)
  {
    if m[k].online {
      assert OnlineAmong(m, seen + {k}) == OnlineAmong(m, seen) + {k};
    }
  }

  /** The listing: exactly one entry per known device, in some order, each
      carrying that device's stored online flag and its time since last
      contact. */
  method List(m: DeviceMap, now: int) returns (es: seq<Entry>)
    ensures |es| == |m|
    ensures forall i :: 0 <= i < |es| ==> es[i].id in m
    ensures forall i :: 0 <= i < |es| ==>
              es[i].online == m[es[i].id].online && es[i].elapsed == now - m[es[i].id].lastSeen
    ensures forall id :: id in m ==> exists i :: 0 <= i < |es| && es[i].id == id
    ensures forall i, j :: 0 <= i < j < |es| ==> es[i].id != es[j].id
  {
    es := [];
    var todo := m.Keys;
    while todo != {}
      invariant todo <= m.Keys
      invariant |es| + |todo| == |m|
      invariant forall i :: 0 <= i < |es| ==> es[i].id in m && es[i].id !in todo
      invariant forall i :: 0 <= i < |es| ==>
                  es[i].online == m[es[i].id].online && es[i].elapsed == now - m[es[i].id].lastSeen
      invariant forall id :: id in m ==> id in todo || exists i :: 0 <= i < |es| && es[i].id == id
      invariant forall i, j :: 0 <= i < j < |es| ==> es[i].id != es[j].id
      decreases todo
    {
      var k :| k in todo;
      ghost var prev := es;
      es := es + [Entry(k, m[k].online, now - m[k].lastSeen)];
      forall id | id in m && id !in todo - {k}
        ensures exists i :: 0 <= i < |es| && es[i].id == id
      {
        if id == k {
          assert es[|prev|].id == id;
        } else {
          var i :| 0 <= i < |prev| && prev[i].id == id;
          assert es[i].id == id;
        }
      }
      todo := todo - {k};
    }
  }
}
