/** The registry of CLI host machines (crates/server/src/control.rs `upsert_device`). */
module DeviceTable {
  datatype Device = Device(id: nat, hostname: string, lastSeenAt: int)

  /** The first record of a host, or the length of the table. */
  function Find(devices: seq<Device>, hostname: string): (i: nat)
    ensures i <= |devices|
    ensures i < |devices| ==> devices[i].hostname == hostname
    ensures forall k | 0 <= k < i :: devices[k].hostname != hostname
  {
    if devices == [] || devices[0].hostname == hostname then 0 else 1 + Find(devices[1..], hostname)
  }

  function Upserted(devices: seq<Device>, hostname: string, id: nat, now: int): seq<Device> {
    var i := Find(devices, hostname);
    if i < |devices| then devices[i := devices[i].(lastSeenAt := now)] else devices + [Device(id, hostname, now)]
  }

  predicate Distinct(devices: seq<Device>) {
    forall i, j | 0 <= i < j < |devices| :: devices[i].hostname != devices[j].hostname
  }

  predicate Knows(devices: seq<Device>, hostname: string) {
    exists i | 0 <= i < |devices| :: devices[i].hostname == hostname
  }

  /** An upsert makes its host known, forgets nobody and never lists a host twice. */
  lemma UpsertKeeps(devices: seq<Device>, hostname: string, id: nat, now: int)
    ensures var after := Upserted(devices, hostname, id, now);
            && (Distinct(devices) ==> Distinct(after))
            && (forall h :: Knows(after, h) <==> Knows(devices, h) || h == hostname)
  {
    var after := Upserted(devices, hostname, id, now);
    var i := Find(devices, hostname);
    assert forall k | 0 <= k < |devices| :: after[k].hostname == devices[k].hostname;
    assert after[i].hostname == hostname;
    forall h ensures Knows(after, h) <==> Knows(devices, h) || h == hostname {
      if Knows(devices, h) {
        var k :| 0 <= k < |devices| && devices[k].hostname == h;
        assert after[k].hostname == h;
      }
      if Knows(after, h) && h != hostname {
        var k :| 0 <= k < |after| && after[k].hostname == h;
        assert devices[k].hostname == h;
      }
    }
  }

  class Devices {
    var table: seq<Device>

    constructor ()
      ensures table == []
    {
      table := [];
    }

    /** Refreshes the first record of the host, or appends one. */
    method Upsert(hostname: string, id: nat, now: int)
      modifies this
      ensures table == Upserted(old(table), hostname, id, now)
    {
      var i := 0;
      while i < |table| && table[i].hostname != hostname
        invariant 0 <= i <= |table|
        invariant forall k | 0 <= k < i :: table[k].hostname != hostname
      {
        i := i + 1;
      }
      if i < |table| {
        table := table[i := table[i].(lastSeenAt := now)];
      } else {
        table := table + [Device(id, hostname, now)];
      }
    }
  }
}
