/** The live device listing of the dashboard (crates/server/src/api/devices.rs). */
module DeviceListing {
  import opened Wrappers
  import opened DeviceTable
  import opened Control

  datatype DeviceInfo = DeviceInfo(id: nat, hostname: string, lastSeenAt: int, tunnelCount: nat)

  /** The tunnels of a snapshot that run on one host. */
  function OnHost(active: map<Tid, Entry>, hostname: string): set<Tid> {
    set t | t in active && active[t].hostname == Some(hostname)
  }

  /** The tunnels of a snapshot whose CLI reported a host name. */
  function Hosted(active: map<Tid, Entry>): set<Tid> {
    set t | t in active && active[t].hostname.Some?
  }

  function CountOf(counts: map<string, nat>, hostname: string): nat {
    if hostname in counts then counts[hostname] else 0
  }

  ghost predicate Counts(active: map<Tid, Entry>, counts: map<string, nat>) {
    forall h :: CountOf(counts, h) == |OnHost(active, h)|
  }

  lemma OnHostGrows(before: map<Tid, Entry>, t: Tid, e: Entry, h: string)
    requires t !in before
    ensures |OnHost(before[t := e], h)| == |OnHost(before, h)| + if e.hostname == Some(h) then 1 else 0
  {
    assert OnHost(before[t := e], h) == OnHost(before, h) + if e.hostname == Some(h) then {t} else {};
  }

  /** Counting one more entry. */
  lemma OneMoreCounted(before: map<Tid, Entry>, t: Tid, e: Entry, counts: map<string, nat>)
    requires t !in before && Counts(before, counts)
    ensures Counts(before[t := e],
                   if e.hostname.None? then counts
                   else counts[e.hostname.value := CountOf(counts, e.hostname.value) + 1])
  {
    var after := before[t := e];
    forall h ensures |OnHost(after, h)| == CountOf(counts, h) + if e.hostname == Some(h) then 1 else 0 {
      OnHostGrows(before, t, e, h);
    }
  }

  /** The counting loop over the tunnel table, in an arbitrary order. */
  method CountByHost(active: map<Tid, Entry>) returns (counts: map<string, nat>)
    ensures Counts(active, counts)
  {
    counts := map[];
    var rest := active.Keys;
    while rest != {}
      invariant rest <= active.Keys
      invariant Counts(active - rest, counts)
    {
      var t :| t in rest;
      OneMoreCounted(active - rest, t, active[t], counts);
      assert active - (rest - {t}) == (active - rest)[t := active[t]];
      rest := rest - {t};
      if active[t].hostname.Some? {
        var h := active[t].hostname.value;
        counts := counts[h := CountOf(counts, h) + 1];
      }
    }
    assert active - {} == active;
  }

  /** The rows of the answer; the two tables may have been read at different moments. */
  method List(active: map<Tid, Entry>, devices: seq<Device>) returns (rows: seq<DeviceInfo>)
    ensures |rows| == |devices|
    ensures forall i | 0 <= i < |rows| ::
              rows[i] == DeviceInfo(devices[i].id, devices[i].hostname, devices[i].lastSeenAt,
                                    |OnHost(active, devices[i].hostname)|)
  {
    var counts := CountByHost(active);
    rows := seq(|devices|, i requires 0 <= i < |devices| =>
      DeviceInfo(devices[i].id, devices[i].hostname, devices[i].lastSeenAt, CountOf(counts, devices[i].hostname)));
  }

  /** What one listing adds up to. */
  function Total(active: map<Tid, Entry>, devices: seq<Device>): nat {
    if devices == [] then 0
    else Total(active, devices[..|devices| - 1]) + |OnHost(active, devices[|devices| - 1].hostname)|
  }

  function HostedOn(active: map<Tid, Entry>, devices: seq<Device>): set<Tid> {
    set t | t in Hosted(active) && Knows(devices, active[t].hostname.value)
  }

  lemma {:induction false} TotalCounts(active: map<Tid, Entry>, devices: seq<Device>)
    requires Distinct(devices)
    ensures Total(active, devices) == |HostedOn(active, devices)|
    decreases |devices|
  {
    if devices == [] {
      assert HostedOn(active, devices) == {};
    } else {
      var last := |devices| - 1;
      var before := devices[..last];
      TotalCounts(active, before);
      var h := devices[last].hostname;
      assert forall k | 0 <= k < last :: before[k] == devices[k];
      forall g ensures Knows(devices, g) <==> Knows(before, g) || g == h {
        if Knows(before, g) {
          var k :| 0 <= k < |before| && before[k].hostname == g;
          assert devices[k].hostname == g;
        }
        assert devices[last].hostname == h;
      }
      assert HostedOn(active, devices) == HostedOn(active, before) + OnHost(active, h);
      assert HostedOn(active, before) !! OnHost(active, h);
    }
  }

  /** Nothing is lost or counted twice, as long as every reported host has a record. */
  lemma TotalConserved(active: map<Tid, Entry>, devices: seq<Device>)
    requires Distinct(devices)
    requires forall t | t in Hosted(active) :: Knows(devices, active[t].hostname.value)
    ensures Total(active, devices) == |Hosted(active)|
  {
    TotalCounts(active, devices);
    assert HostedOn(active, devices) == Hosted(active);
  }
}
