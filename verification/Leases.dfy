/// A timed lease on one key, shared by replicas whose clocks differ. Three
/// protocols of the agent refine it: provider refresh, the subscription lock
/// and scheduled jobs.
///
/// Times are milliseconds on the slowest clock, so that every clock reads
/// between `now` and `now + skew`.
module Leases {
  import opened Wrappers

  type Owner = nat

  datatype Lease = Lease(owner: Owner, until: int)

  /// `granted` remembers what each owner wrote; `working` says by when each
  /// owner at work will have stopped.
  datatype State = State(now: int, lease: Option<Lease>, granted: map<Owner, int>, working: map<Owner, int>)

  predicate Tick(s: State, s': State) {
    s' == s.(now := s'.now) && s.now <= s'.now && forall o :: o in s.working ==> s'.now < s.working[o]
  }

  /// A lease that some clock sees expired, or none, is replaced.
  predicate Grant(s: State, s': State, skew: nat, o: Owner, until: int) {
    && o !in s.granted && o !in s.working
    && (s.lease.Some? ==> s.lease.value.until <= s.now + skew)
    && s' == s.(lease := Some(Lease(o, until)), granted := s.granted[o := until])
  }

  /// Work that will be over before any clock sees its lease expire.
  predicate Start(s: State, s': State, skew: nat, o: Owner, end: int) {
    && o in s.granted && o !in s.working && s.now < end && end + skew <= s.granted[o]
    && s' == s.(working := s.working[o := end])
  }

  predicate Stop(s: State, s': State, o: Owner) {
    o in s.working && s' == s.(working := s.working - {o})
  }

  predicate Release(s: State, s': State, o: Owner) {
    && o in s.granted
    && s' == s.(lease := if s.lease.Some? && s.lease.value.owner == o then None else s.lease,
                granted := s.granted - {o}, working := s.working - {o})
  }

  ghost predicate Next(s: State, s': State, skew: nat) {
    || Tick(s, s')
    || (exists o, until :: Grant(s, s', skew, o, until))
    || (exists o, end :: Start(s, s', skew, o, end))
    || (exists o :: Stop(s, s', o))
    || (exists o :: Release(s, s', o))
  }

  /// What was granted lasts as long as no clock can see it expired.
  ghost predicate Inv(s: State, skew: nat) {
    && (forall o :: o in s.granted && s.now + skew < s.granted[o] ==> s.lease == Some(Lease(o, s.granted[o])))
    && (forall o :: o in s.working ==> o in s.granted && s.now < s.working[o] && s.working[o] + skew <= s.granted[o])
  }

  lemma NextKeeps(s: State, s': State, skew: nat)
    requires Inv(s, skew) && (s == s' || Next(s, s', skew))
    ensures Inv(s', skew)
  {}

  /// Whoever works holds the lease, so at most one works.
  lemma WorkersHold(s: State, skew: nat)
    requires Inv(s, skew)
    ensures forall o :: o in s.working ==> s.lease == Some(Lease(o, s.granted[o]))
    ensures |s.working| <= 1
  {
    if o :| o in s.working {
      assert s.working.Keys == {o} by {
        assert forall p :: p in s.working ==> p == o;
      }
      assert |s.working| == |s.working.Keys|;
    }
  }
}
