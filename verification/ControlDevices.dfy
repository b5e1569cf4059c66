/** Every host that ever passed the token check is in the device table, once. */
module ControlDevices {
  import opened Wrappers
  import opened DeviceTable
  import opened DeviceListing
  import opened Control
  import opened ControlShape

  ghost predicate HostKnown(s: State, t: Tid)
    requires t in s.sessions
  {
    var c := s.sessions[t];
    c.pc.Start? || c.pc.Authorized? || c.pc.Rejected? || c.reg.hostname.None? || Knows(s.devices, c.reg.hostname.value)
  }

  ghost predicate DevicesExact(s: State) {
    && Distinct(s.devices)
    && forall t | t in s.sessions :: HostKnown(s, t)
  }

  lemma DevicesGrow(s: State, a: Action)
    requires Enabled(s, a)
    ensures forall h | Knows(s.devices, h) :: Knows(Apply(s, a).devices, h)
    ensures Distinct(s.devices) ==> Distinct(Apply(s, a).devices)
    ensures a.Upsert? && s.sessions[a.t].reg.hostname.Some? ==>
              Knows(Apply(s, a).devices, s.sessions[a.t].reg.hostname.value)
  {
    if a.Upsert? && s.sessions[a.t].reg.hostname.Some? {
      UpsertKeeps(s.devices, s.sessions[a.t].reg.hostname.value, a.id, a.now);
    }
  }

  lemma HostOfActor(s: State, a: Action)
    requires Enabled(s, a) && Actor(a).Some? && !a.Connect? && !a.Upsert?
    ensures var c := SessionAfter(s, a);
            && c.reg == s.sessions[a.t].reg
            && (s.sessions[a.t].pc.Start? || s.sessions[a.t].pc.Authorized? || s.sessions[a.t].pc.Rejected? ==>
                  c.pc.Authorized? || c.pc.Rejected?)
  {
  }

  lemma DevicesStep(s: State, a: Action)
    requires DevicesExact(s) && Enabled(s, a)
    ensures DevicesExact(Apply(s, a))
  {
    var s' := Apply(s, a);
    DevicesGrow(s, a);
    forall t | t in s'.sessions ensures HostKnown(s', t) {
      if t in s.sessions {
        assert HostKnown(s, t);
        if Actor(a) == Some(t) && !a.Upsert? {
          HostOfActor(s, a);
        }
      }
    }
  }

  lemma {:induction false} DevicesGrowRun(s: State, run: seq<Action>)
    requires Valid(s, run)
    ensures forall h | Knows(s.devices, h) :: Knows(Exec(s, run).devices, h)
    decreases |run|
  {
    if run != [] {
      DevicesGrow(s, run[0]);
      DevicesGrowRun(Apply(s, run[0]), run[1..]);
    }
  }

  /** Every tunnel of the table that reported a host has a device record. */
  lemma ActiveHostsKnown(s: State)
    requires Shape(s) && DevicesExact(s)
    ensures forall t | t in Hosted(s.active) :: Knows(s.devices, s.active[t].hostname.value)
  {
    forall t | t in Hosted(s.active) ensures Knows(s.devices, s.active[t].hostname.value) {
      assert ListedAt(s, t) && s.active[t] == EntryOf(t, s.sessions[t]);
      assert HostKnown(s, t);
    }
  }
}
