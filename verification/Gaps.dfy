/// The EventSub callback migration, part 7: what its safety means for one
/// entry, which runs find and finish a marked gap, and where stronger claims
/// fail. All of it is about every `Life`: every series of invocations, each cut
/// off anywhere; and what fails has such a series as its witness.
module Gaps {
  import opened EventSub
  import opened Protocol
  import opened Run

  /// A backup of this provider, for which nothing was done yet.
  ghost predicate Begins(snapshot: seq<Sub>, w: World) {
    Fits(snapshot, w) && forall s :: s in Planned(snapshot) ==> Entry(w.disk, s.id) == NoProgress
  }

  ghost predicate ForwardOnly(logs: seq<Log>) {
    forall k :: 0 <= k < |logs| ==> logs[k] != [] && logs[k][0].what == Began(false)
  }

  /// No two planned subscriptions differ only in their callback.
  ghost predicate NoTwins(plan: seq<Sub>) {
    forall s, t :: s in plan && t in plan && s.desc == t.desc ==> s == t
  }

  /// The guarantee for one entry: covered, or marked under its own id.
  ghost predicate EntryGuarded(plan: seq<Sub>, w: World, s: Sub) {
    (exists id :: Covers(plan, w, id, s.desc)) || Entry(w.disk, s.id).sourceDeleted
  }

  /// Every entry that was live stays guarded, in every series of runs.
  ghost predicate EntriesStayGuarded(snapshot: seq<Sub>) {
    forall w, logs, s :: Begins(snapshot, w) && Life(snapshot, w, logs) && s in Planned(snapshot) && EntryGuarded(Planned(snapshot), w, s)
      ==> EntryGuarded(Planned(snapshot), Now(w, logs), s)
  }

  /// Each planned entry, and not only its descriptor, stays guarded in every
  /// series of runs if and only if no two planned sources share a descriptor.
  lemma EntriesIff(snapshot: seq<Sub>)
    requires DistinctIds(snapshot)
    ensures NoTwins(Planned(snapshot)) <==> EntriesStayGuarded(snapshot)
  {
    hide Life, Fits, Covers;
    var plan := Planned(snapshot);
    if NoTwins(plan) {
      forall w, logs, s | Begins(snapshot, w) && Life(snapshot, w, logs) && s in plan && EntryGuarded(plan, w, s)
        ensures EntryGuarded(plan, Now(w, logs), s)
      {
        LifeIsSafe(snapshot, w, logs);
        assert Guarded(plan, w, s.desc);
        if Flagged(plan, Now(w, logs), s.desc) {
          var t :| t in plan && t.desc == s.desc && Entry(Now(w, logs).disk, t.id).sourceDeleted;
          assert s == t;
        }
      }
    } else {
      var s, t :| s in plan && t in plan && s.desc == t.desc && s != t;
      var w, logs := TwinGap(snapshot, s, t);
      assert !EntryGuarded(plan, Now(w, logs), t);
    }
  }

  /// Two sources of one descriptor were moved to one destination, and the
  /// rollback of the first was cut off after it had deleted the destination
  /// under its own mark alone. The second entry is then neither covered nor
  /// marked; the mark of the first still guards their common descriptor.
  lemma TwinGap(snapshot: seq<Sub>, s: Sub, t: Sub) returns (w: World, logs: seq<Log>)
    requires DistinctIds(snapshot) && s in Planned(snapshot) && t in Planned(snapshot) && s.desc == t.desc && s != t
    ensures Begins(snapshot, w) && Life(snapshot, w, logs)
    ensures var plan := Planned(snapshot);
      && EntryGuarded(plan, w, s) && EntryGuarded(plan, w, t)
      && !EntryGuarded(plan, Now(w, logs), t) && Guarded(plan, Now(w, logs), s.desc)
  {
    PlanIsDistinct(snapshot);
    if s.id == t.id { SameId(Planned(snapshot), s, t); }
    w, logs := CutOff(snapshot, s, t);
    assert Flagged(Planned(snapshot), Now(w, logs), s.desc);
  }

  /// For every planned source there is a rollback that stops after marking, and
  /// leaves a mark that no forward run looks at, whatever its limits, although
  /// nothing covers the descriptor.
  lemma ForwardPassesBy(snapshot: seq<Sub>, s: Sub) returns (w: World, logs: seq<Log>)
    requires DistinctIds(snapshot) && s in Planned(snapshot)
    ensures Begins(snapshot, w) && Life(snapshot, w, logs) && Covered(w, s.desc)
    ensures var w' := Now(w, logs);
      && Entry(w'.disk, s.id).sourceDeleted && !Covered(w', s.desc)
      && forall policy: Policy :: !policy.rollback ==> s !in Select(policy, w'.disk, Planned(snapshot))
  {
    w, logs := CutOff(snapshot, s, s);
    var plan, disk := Planned(snapshot), Now(w, logs).disk;
    assert w.subs[s.id] == s;
    forall policy: Policy | !policy.rollback ensures s !in Select(policy, disk, plan) {
      if s in Select(policy, disk, plan) {
        assert s in multiset(Select(policy, disk, plan));
        ThoseBag(ToDo, policy, disk, plan, s);
      }
    }
  }

  /// Which runs have a mark on their list: a forward run unless the entry
  /// counts as moved, a rollback unless it counts as rolled back, and either
  /// only below the attempt limit.
  lemma GapIsFound(plan: seq<Sub>, entries: map<Id, Progress>, policy: Policy, s: Sub)
    requires s in plan && Entry(entries, s.id).sourceDeleted
    ensures s in Select(policy, entries, plan) <==> !Finished(Entry(entries, s.id), policy.rollback) && !Skip(policy, entries, s)
  {
    ThoseBag(ToDo, policy, entries, plan, s);
    assert s in multiset(plan);
    assert s in Select(policy, entries, plan) <==> s in multiset(Select(policy, entries, plan));
  }

  /// What forward runs keep: no entry counts as moved and is marked, and none
  /// was rolled back.
  ghost predicate Tidy(plan: seq<Sub>, disk: map<Id, Progress>) {
    forall s :: s in plan ==> !Entry(disk, s.id).rolledBack && !(Entry(disk, s.id).deletedOld && Entry(disk, s.id).sourceDeleted)
  }

  lemma TidyKept(snapshot: seq<Sub>, log: Log, e: Event)
    requires Legal(snapshot, log) && Next(snapshot, log, e) && Fits(snapshot, Last(log)) && !log[0].what.rollback
    requires Tidy(Planned(snapshot), Last(log).disk)
    ensures Tidy(Planned(snapshot), e.after.disk)
  {
    hide HasEnabled, Permits, Planned;
    var plan := Planned(snapshot);
    if e.what.Saved? {
      var s :| s in plan && s.id == e.what.id && Allowed(false, log[|log| - 1], s, e.what.p);
      assert forall t :: t in plan && t.id != s.id ==> Entry(e.after.disk, t.id) == Entry(Last(log).disk, t.id);
    }
  }

  lemma {:induction false} TidyLasts(snapshot: seq<Sub>, log: Log)
    requires Legal(snapshot, log) && Fits(snapshot, log[0].after) && !log[0].what.rollback && Tidy(Planned(snapshot), log[0].after.disk)
    ensures Tidy(Planned(snapshot), Last(log).disk)
  {
    hide Next, Tidy, Fits;
    if |log| > 1 {
      var n := |log| - 1;
      LegalLess(snapshot, log, n);
      TidyLasts(snapshot, log[..n]);
      LogIsSound(snapshot, log[..n]);
      TidyKept(snapshot, log[..n], log[n]);
    }
  }

  lemma {:induction false} ForwardIsTidy(snapshot: seq<Sub>, w: World, logs: seq<Log>)
    requires Begins(snapshot, w) && Life(snapshot, w, logs) && ForwardOnly(logs)
    ensures Tidy(Planned(snapshot), Now(w, logs).disk)
  {
    hide Fits, Next;
    if logs != [] {
      var n := |logs| - 1;
      LifeLess(snapshot, w, logs);
      ForwardIsTidy(snapshot, w, logs[..n]);
      LifeIsSafe(snapshot, w, logs[..n]);
      TidyLasts(snapshot, logs[n]);
    }
  }

  /// What every run keeps: an entry that was moved or marked and counts as
  /// rolled back has a subscription enabled at its own callback.
  ghost predicate Returned(plan: seq<Sub>, w: World) {
    forall s :: s in plan && Back(Entry(w.disk, s.id)) ==> HasEnabled(w, s.desc, s.callback)
  }

  predicate Back(p: Progress) { p.rolledBack && (p.deletedOld || p.sourceDeleted) }

  lemma SavedReturns(snapshot: seq<Sub>, log: Log, e: Event)
    requires Legal(snapshot, log) && Next(snapshot, log, e) && Fits(snapshot, Last(log)) && e.what.Saved? && Returned(Planned(snapshot), Last(log))
    ensures Returned(Planned(snapshot), e.after)
  {
    var plan := Planned(snapshot);
    var s :| s in plan && s.id == e.what.id && Allowed(log[0].what.rollback, log[|log| - 1], s, e.what.p);
    assert !Entry(Last(log).disk, s.id).rolledBack;
    PlanIsDistinct(snapshot);
    forall t | t in plan && Back(Entry(e.after.disk, t.id)) ensures HasEnabled(e.after, t.desc, t.callback) {
      if t.id == s.id {
        SameId(plan, s, t);
        var id :| EnabledAt(Last(log), id, s.desc, s.callback);
        assert EnabledAt(e.after, id, s.desc, s.callback);
      } else {
        var id :| EnabledAt(Last(log), id, t.desc, t.callback);
        assert EnabledAt(e.after, id, t.desc, t.callback);
      }
    }
  }

  lemma OwnedIsTarget(snapshot: seq<Sub>, log: Log, e: Event)
    requires Legal(snapshot, log) && Next(snapshot, log, e) && Fits(snapshot, log[0].after) && e.what.Deleted? && e.what.why.Owned?
    ensures e.what.id in Last(log).subs ==> Last(log).subs[e.what.id].callback.Target?
  {
    hide Fits;
    var o, listed := e.what.why.s, e.what.why.listedAt;
    var u :| u in log[listed].what.view && u.id == e.what.id && Matches(u, o, Target);
    ListedReflects(snapshot, log, listed, u);
  }

  /// Nothing of an old callback is deleted in a rollback, except what it has
  /// just created in vain, and no entry that was rolled back goes forward.
  lemma {:induction false} DeletedReturns(snapshot: seq<Sub>, log: Log, e: Event)
    requires Legal(snapshot, log) && Next(snapshot, log, e) && Fits(snapshot, log[0].after) && e.what.Deleted?
    requires Returned(Planned(snapshot), log[0].after) && Returned(Planned(snapshot), Last(log))
    ensures Returned(Planned(snapshot), e.after)
    decreases |log|, 1
  {
    hide Fits, Planned, Cleared, ListedAs, Undisturbed, NoStandIn, Ids;
    var plan := Planned(snapshot);
    forall s | s in plan && Back(Entry(e.after.disk, s.id)) ensures HasEnabled(e.after, s.desc, s.callback) {
      match e.what.why {
        case Source(_, _, _) => assert false;
        case Owned(_, _, _) =>
          var id :| EnabledAt(Last(log), id, s.desc, s.callback);
          OwnedIsTarget(snapshot, log, e);
          assert EnabledAt(e.after, id, s.desc, s.callback);
        case Failed(at) =>
          if log[0].what.rollback {
            var id := FailedReturns(snapshot, log, at, e.what.id, s);
            assert EnabledAt(e.after, id, s.desc, s.callback);
          }
      }
    }
  }

  lemma {:induction false} FailedReturns(snapshot: seq<Sub>, log: Log, at: nat, created: Id, s: Sub) returns (id: Id)
    requires Legal(snapshot, log) && Permits(snapshot, log, created, Failed(at)) && Fits(snapshot, log[0].after)
    requires Returned(Planned(snapshot), log[0].after) && s in Planned(snapshot) && Back(Entry(Last(log).disk, s.id))
    ensures id != created && EnabledAt(Last(log), id, s.desc, s.callback)
    decreases |log|, 0
  {
    var before := log[..at];
    LegalLess(snapshot, log, at);
    ReturnedLasts(snapshot, before);
    LogIsSound(snapshot, before);
    assert before[at - 1] == log[at - 1];
    assert Next(snapshot, before, log[at]);
    Undisturbs(snapshot, log, at);
    assert Back(Entry(Last(before).disk, s.id));
    id :| EnabledAt(Last(before), id, s.desc, s.callback);
    assert EnabledAt(log[at].after, id, s.desc, s.callback);
  }

  lemma {:induction false} ReturnedLasts(snapshot: seq<Sub>, log: Log)
    requires Legal(snapshot, log) && Fits(snapshot, log[0].after) && Returned(Planned(snapshot), log[0].after)
    ensures Returned(Planned(snapshot), Last(log))
    decreases |log|
  {
    hide Next, Returned, Fits;
    if |log| > 1 {
      var n := |log| - 1;
      LegalLess(snapshot, log, n);
      ReturnedLasts(snapshot, log[..n]);
      LogIsSound(snapshot, log[..n]);
      assert log[..n][n - 1] == log[n - 1];
      assert Next(snapshot, log[..n], log[n]);
      if log[n].what.Deleted? {
        DeletedReturns(snapshot, log[..n], log[n]);
      } else if log[n].what.Saved? {
        SavedReturns(snapshot, log[..n], log[n]);
      } else {
        OtherReturns(snapshot, log[..n], log[n]);
      }
    }
  }

  lemma OtherReturns(snapshot: seq<Sub>, log: Log, e: Event)
    requires Legal(snapshot, log) && Next(snapshot, log, e) && Fits(snapshot, Last(log)) && !e.what.Deleted? && !e.what.Saved?
    requires Returned(Planned(snapshot), Last(log))
    ensures Returned(Planned(snapshot), e.after)
  {
    forall s | s in Planned(snapshot) && Back(Entry(e.after.disk, s.id)) ensures HasEnabled(e.after, s.desc, s.callback) {
      var id :| EnabledAt(Last(log), id, s.desc, s.callback);
      assert EnabledAt(e.after, id, s.desc, s.callback);
    }
  }

  lemma {:induction false} LifeReturns(snapshot: seq<Sub>, w: World, logs: seq<Log>)
    requires Begins(snapshot, w) && Life(snapshot, w, logs)
    ensures Returned(Planned(snapshot), Now(w, logs))
  {
    hide Fits, Next;
    if logs != [] {
      var n := |logs| - 1;
      LifeLess(snapshot, w, logs);
      LifeReturns(snapshot, w, logs[..n]);
      LifeIsSafe(snapshot, w, logs[..n]);
      ReturnedLasts(snapshot, logs[n]);
    }
  }

  /// The gap is always found. Whatever happened before, a mark is on the list
  /// of every later rollback below the attempt limit, unless its entry is rolled
  /// back and a subscription enabled where it was; and if all runs so far were
  /// forward, it is on the list of every later forward run, which goes ahead.
  lemma MarkIsFound(snapshot: seq<Sub>, w: World, logs: seq<Log>, s: Sub, policy: Policy)
    requires Begins(snapshot, w) && Life(snapshot, w, logs) && s in Planned(snapshot) && Entry(Now(w, logs).disk, s.id).sourceDeleted
    requires policy.rollback || ForwardOnly(logs)
    ensures var w' := Now(w, logs);
      s in Select(policy, w'.disk, Planned(snapshot)) || Skip(policy, w'.disk, s)
      || (policy.rollback && HasEnabled(w', s.desc, s.callback))
    ensures !policy.rollback ==> NoneRolledBack(Planned(snapshot), Now(w, logs).disk)
  {
    GapIsFound(Planned(snapshot), Now(w, logs).disk, policy, s);
    if policy.rollback { LifeReturns(snapshot, w, logs); } else { ForwardIsTidy(snapshot, w, logs); }
  }

  /// And finished: once every planned entry counts as rolled back, or, if all
  /// runs were forward, as moved, every descriptor that was live is covered.
  lemma GapsAreFinished(snapshot: seq<Sub>, w: World, logs: seq<Log>, rollback: bool, d: Descriptor)
    requires Begins(snapshot, w) && Life(snapshot, w, logs) && (rollback || ForwardOnly(logs))
    requires AllFinished(Planned(snapshot), Now(w, logs).disk, rollback) && Guarded(Planned(snapshot), w, d)
    ensures exists id :: Covers(Planned(snapshot), Now(w, logs), id, d)
  {
    hide Life, Fits;
    var plan, w' := Planned(snapshot), Now(w, logs);
    LifeIsSafe(snapshot, w, logs);
    if Flagged(plan, w', d) {
      var s :| s in plan && s.desc == d && Entry(w'.disk, s.id).sourceDeleted;
      if rollback {
        LifeReturns(snapshot, w, logs);
        var id :| EnabledAt(w', id, s.desc, s.callback);
        assert Covers(plan, w', id, d);
      } else {
        ForwardIsTidy(snapshot, w, logs);
      }
    }
  }

  /// Any series of cut-off runs, and then one that is not: if it ends with
  /// nothing remaining, no gap is left.
  method Finish(snapshot: seq<Sub>, world: World, policies: seq<Policy>, last: Policy) returns (w: World, finished: bool)
    requires Begins(snapshot, world) && (last.rollback || forall p :: p in policies ==> !p.rollback)
    ensures Fits(snapshot, w)
    ensures finished ==> forall d :: Guarded(Planned(snapshot), world, d) ==> exists id :: Covers(Planned(snapshot), w, id, d)
  {
    hide Fits, Legal, Guarded, Covers, Planned, Life;
    var before: World;
    ghost var logs: seq<Log>;
    before, logs := Lifetime(snapshot, world, policies);
    var log: Log;
    log, finished := Invocation(snapshot, before, last);
    NotEmpty(snapshot, log);
    LifeMore(snapshot, world, logs, log);
    LifeIsSafe(snapshot, world, logs + [log]);
    w := Last(log);
    if finished {
      forall d | Guarded(Planned(snapshot), world, d) ensures exists id :: Covers(Planned(snapshot), w, id, d) {
        GapsAreFinished(snapshot, world, logs + [log], last.rollback, d);
      }
    }
  }

  lemma {:induction false} Longer(ids: set<Id>) returns (n: nat)
    ensures forall id :: id in ids ==> |id| < n
  {
    n := 0;
    if ids != {} {
      var id :| id in ids;
      var m := Longer(ids - {id});
      n := if m <= |id| then |id| + 1 else m;
      forall other | other in ids ensures |other| < n { assert other == id || other in ids - {id}; }
    }
  }

  /// The log with one more legal event.
  lemma Then(snapshot: seq<Sub>, log: Log, e: Event) returns (more: Log)
    requires Legal(snapshot, log) && Next(snapshot, log, e)
    ensures Legal(snapshot, more) && more == log + [e]
  {
    LegalMore(snapshot, log, e);
    more := log + [e];
  }

  lemma Started(snapshot: seq<Sub>, rollback: bool, w: World) returns (log: Log)
    ensures Legal(snapshot, log) && log == [Event(Began(rollback), w)]
  {
    log := [Event(Began(rollback), w)];
  }

  lemma SaveAllowed(snapshot: seq<Sub>, log: Log, s: Sub, p: Progress) returns (more: Log)
    requires Legal(snapshot, log) && Admitted(snapshot, log) && s in Planned(snapshot)
    requires Allowed(log[0].what.rollback, log[|log| - 1], s, p)
    ensures Legal(snapshot, more) && more == log + [Event(Saved(s.id, p), Record(Last(log), s.id, p))]
  {
    more := Then(snapshot, log, Event(Saved(s.id, p), Record(Last(log), s.id, p)));
  }

  /// `deleteSource` for a source whose replacement `x` was seen enabled.
  lemma MoveOne(snapshot: seq<Sub>, log: Log, s: Sub, x: Id, listed: nat, seen: nat) returns (more: Log)
    requires Legal(snapshot, log) && log[0].what == Began(false) && Admitted(snapshot, log) && s in Planned(snapshot)
    requires listed < |log| && log[listed].what.Listed? && s in log[listed].what.view
    requires seen < |log| && log[seen].what == SawEnabled(x, s.desc, Target) && EnabledAt(Last(log), x, s.desc, Target) && x != s.id
    requires !Entry(Last(log).disk, s.id).deletedOld
    ensures Legal(snapshot, more) && log <= more
    ensures Last(more) == Record(Drop(Last(log), s.id), s.id, Entry(Last(log).disk, s.id).(deletedOld := true, sourceDeleted := false))
    ensures !Entry(Last(log).disk, s.id).rolledBack
  {
    var w := Drop(Last(log), s.id);
    more := Then(snapshot, log, Event(Deleted(s.id, Source(s, listed, seen)), w));
    assert EnabledAt(w, x, s.desc, Target);
    assert more[|more| - 1].after == w;
    more := SaveAllowed(snapshot, more, s, Entry(w.disk, s.id).(deletedOld := true, sourceDeleted := false));
  }

  const Made := NoProgress.(created := true)

  /// The creation for `t` is refused as a duplicate, and what a new listing
  /// shows is taken instead.
  lemma Joined(snapshot: seq<Sub>, log: Log, t: Sub, view: seq<Sub>, p: Progress) returns (more: Log)
    requires Legal(snapshot, log) && log != [] && log[0].what == Began(false) && Admitted(snapshot, log) && t in Planned(snapshot)
    requires Entry(Last(log).disk, t.id) == NoProgress && Adopts(NoProgress, p) && forall u :: u in view ==> Truthful(Last(log), u)
    ensures Legal(snapshot, more) && log <= more && Last(more) == Record(Last(log), t.id, p)
  {
    hide Legal, Planned;
    more := Then(snapshot, log, Event(Lost, Last(log)));
    more := Then(snapshot, more, Event(Listed(view), Last(log)));
    more := SaveAllowed(snapshot, more, t, p);
  }

  /// A forward run that finds `s` and `t`, which may be the same, creates
  /// their common destination, and sees it enabled.
  lemma Prepared(snapshot: seq<Sub>, s: Sub, t: Sub, x: Sub, w: World) returns (log: Log)
    requires Fits(snapshot, w) && w == World(map[s.id := s, t.id := t], w.used, map[])
    requires s in Planned(snapshot) && t in Planned(snapshot) && s.desc == t.desc && (s.id == t.id ==> s == t)
    requires x == Sub(x.id, Enabled, s.desc, Target, s.cost) && x.id !in w.used && x.id != "" && x.id != s.id && x.id != t.id
    ensures Legal(snapshot, log) && |log| > 2 && log[0] == Event(Began(false), w)
    ensures log[|log| - 2].what == Listed([s, t, x]) && log[|log| - 1].what == SawEnabled(x.id, s.desc, Target)
    ensures var p := Made.(targetId := x.id);
      Last(log) == Post(w, x).(disk := map[s.id := p, t.id := p])
  {
    hide Legal, Fits, Planned;
    var p := Made.(targetId := x.id);
    log := Started(snapshot, false, w);
    log := Then(snapshot, log, Event(Listed([s, t]), w));
    log := Then(snapshot, log, Event(Posted(x.id), Post(w, x)));
    log := SaveAllowed(snapshot, log, s, p);
    if t != s { log := Joined(snapshot, log, t, [s, t, x], p); }
    assert Last(log).disk == map[s.id := p, t.id := p];
    log := Then(snapshot, log, Event(Listed([s, t, x]), Last(log)));
    log := Then(snapshot, log, Event(SawEnabled(x.id, s.desc, Target), Last(log)));
  }

  /// The same run moves both.
  lemma MovedBoth(snapshot: seq<Sub>, s: Sub, t: Sub, x: Sub, w: World) returns (log: Log)
    requires Fits(snapshot, w) && w == World(map[s.id := s, t.id := t], w.used, map[])
    requires s in Planned(snapshot) && t in Planned(snapshot) && s.desc == t.desc && (s.id == t.id ==> s == t)
    requires x == Sub(x.id, Enabled, s.desc, Target, s.cost) && x.id !in w.used && x.id != "" && x.id != s.id && x.id != t.id
    ensures Legal(snapshot, log) && log[0] == Event(Began(false), w)
    ensures var p := Made.(targetId := x.id, deletedOld := true);
      Last(log) == World(map[x.id := x], w.used + {x.id}, map[s.id := p, t.id := p])
  {
    hide Legal, Fits, Planned;
    log := Prepared(snapshot, s, t, x, w);
    var n := |log|;
    log := MoveOne(snapshot, log, s, x.id, n - 2, n - 1);
    assert EnabledAt(Last(log), x.id, s.desc, Target);
    if t != s { log := MoveOne(snapshot, log, t, x.id, n - 2, n - 1); }
    assert Last(log).subs == map[x.id := x];
  }

  /// A rollback of `s` that finds no room, marks it, deletes the destination,
  /// and goes no further.
  lemma MarkedBack(snapshot: seq<Sub>, s: Sub, x: Sub, w: World) returns (log: Log)
    requires Fits(snapshot, w) && s in Planned(snapshot) && x == Sub(x.id, Enabled, s.desc, Target, s.cost) && !Ids(snapshot, x.id)
    requires w.subs == map[x.id := x] && !Entry(w.disk, s.id).rolledBack
    ensures Legal(snapshot, log) && log[0] == Event(Began(true), w)
    ensures Last(log) == World(map[], w.used, w.disk[s.id := Entry(w.disk, s.id).(sourceDeleted := true)])
  {
    var p := Entry(w.disk, s.id).(sourceDeleted := true);
    hide Legal, Fits, Planned;
    log := Started(snapshot, true, w);
    log := Then(snapshot, log, Event(Listed([x]), w));
    log := Then(snapshot, log, Event(Lost, w));
    log := SaveAllowed(snapshot, log, s, p);
    log := Then(snapshot, log, Event(Listed([x]), Last(log)));
    assert Permits(snapshot, log, x.id, Owned(s, 4, 3));
    log := Then(snapshot, log, Event(Deleted(x.id, Owned(s, 4, 3)), Drop(Last(log), x.id)));
    assert Last(log).subs == map[];
  }

  lemma Backup(snapshot: seq<Sub>, s: Sub, t: Sub) returns (w: World)
    requires DistinctIds(snapshot) && s in Planned(snapshot) && t in Planned(snapshot) && (s.id == t.id ==> s == t)
    ensures Begins(snapshot, w) && w == World(map[s.id := s, t.id := t], w.used, map[]) && s.id in w.used && t.id in w.used
    ensures forall u :: u in snapshot ==> u.id in w.used
    ensures EntryGuarded(Planned(snapshot), w, s) && EntryGuarded(Planned(snapshot), w, t)
  {
    w := World(map[s.id := s, t.id := t], set u | u in snapshot :: u.id, map[]);
    PlanIsDistinct(snapshot);
    assert Begins(snapshot, w);
    hide Begins, Fits, Planned, DistinctIds;
    Standing(Planned(snapshot), w, s);
    Standing(Planned(snapshot), w, t);
  }

  lemma Standing(plan: seq<Sub>, w: World, s: Sub)
    requires s in plan && !s.callback.Foreign? && s.id in w.subs && w.subs[s.id] == s
    ensures EntryGuarded(plan, w, s)
  {
    assert Covers(plan, w, s.id, s.desc);
  }

  /// Both runs.
  lemma CutOff(snapshot: seq<Sub>, s: Sub, t: Sub) returns (w: World, logs: seq<Log>)
    requires DistinctIds(snapshot) && s in Planned(snapshot) && t in Planned(snapshot) && s.desc == t.desc && (s.id == t.id ==> s == t)
    ensures Begins(snapshot, w) && Life(snapshot, w, logs) && w.subs == map[s.id := s, t.id := t]
    ensures EntryGuarded(Planned(snapshot), w, s) && EntryGuarded(Planned(snapshot), w, t)
    ensures Now(w, logs).subs == map[] && Entry(Now(w, logs).disk, s.id).sourceDeleted && Entry(Now(w, logs).disk, s.id).deletedOld
    ensures s != t ==> !Entry(Now(w, logs).disk, t.id).sourceDeleted
  {
    hide Legal, Fits, Planned, Covers;
    w := Backup(snapshot, s, t);
    var name, _ := Fresh(w.used);
    var x := Sub(name, Enabled, s.desc, Target, s.cost);
    var there := MovedBoth(snapshot, s, t, x, w);
    assert Life(snapshot, w, []);
    NotEmpty(snapshot, there);
    LifeMore(snapshot, w, [], there);
    LifeIsSafe(snapshot, w, [] + [there]);
    var back := MarkedBack(snapshot, s, x, Last(there));
    NotEmpty(snapshot, back);
    LifeMore(snapshot, w, [] + [there], back);
    logs := [] + [there] + [back];
  }

  /// Two fresh ids.
  lemma Fresh(used: set<Id>) returns (x: Id, y: Id)
    ensures x !in used && y !in used && x != y && x != "" && y != ""
  {
    var n := Longer(used);
    x, y := seq(n + 1, _ => 'x'), seq(n + 2, _ => 'x');
  }

  /// A recreated stand-in is recorded without awaiting its verification. If
  /// the provider fails it, its descriptor is neither active nor marked: the
  /// hypothesis of `GuardedIsCovered` cannot be dropped for any source.
  lemma StandInMayFail(snapshot: seq<Sub>, s: Sub) returns (w: World, logs: seq<Log>)
    requires DistinctIds(snapshot) && s in Planned(snapshot)
    ensures Begins(snapshot, w) && Life(snapshot, w, logs) && Covered(w, s.desc)
    ensures var plan, w' := Planned(snapshot), Now(w, logs);
      Guarded(plan, w', s.desc) && !Covered(w', s.desc) && !Flagged(plan, w', s.desc)
  {
    hide Legal, Planned;
    w := Backup(snapshot, s, s);
    assert w.subs[s.id] == s && "" !in w.used && s.id != "";
    assert Covered(w, s.desc) && !s.callback.Foreign? by { PlanIsLive(snapshot, s); }
    hide Fits, Covered, Guarded, Flagged, Begins;
    var x, _ := Fresh(w.used);
    var log := StoodIn(snapshot, s, x, w);
    NotEmpty(snapshot, log);
    LifeMore(snapshot, w, [], log);
    logs := [] + [log];
    OnlyFailed(Planned(snapshot), s, x, Last(log));
  }

  lemma PlanIsLive(snapshot: seq<Sub>, s: Sub)
    requires s in Planned(snapshot)
    ensures !s.callback.Foreign? && Active(s.status)
  {}

  lemma OnlyFailed(plan: seq<Sub>, s: Sub, x: Id, w: World)
    requires s in plan && x != "" && w == World(map[x := Sub(x, Inactive, s.desc, s.callback, s.cost)], w.used, map[s.id := NoProgress.(restoredId := x)])
    requires !s.callback.Foreign?
    ensures Guarded(plan, w, s.desc) && !Covered(w, s.desc) && !Flagged(plan, w, s.desc)
  {
    assert Entry(w.disk, s.id).restoredId == x && StandIn(plan, w, x);
    assert Covers(plan, w, x, s.desc);
  }

  /// Break-before-make whose creation is refused: the source is marked and
  /// deleted.
  lemma Emptied(snapshot: seq<Sub>, s: Sub, w: World) returns (log: Log)
    requires w == World(map[s.id := s], w.used, map[]) && s in Planned(snapshot)
    ensures Legal(snapshot, log) && log[0] == Event(Began(false), w) && Admitted(snapshot, log)
    ensures Last(log) == World(map[], w.used, map[s.id := NoProgress.(sourceDeleted := true)])
  {
    hide Legal, Planned;
    log := Started(snapshot, false, w);
    log := Then(snapshot, log, Event(Listed([s]), w));
    log := Then(snapshot, log, Event(Listed([s]), w));
    log := SaveAllowed(snapshot, log, s, NoProgress.(sourceDeleted := true));
    assert Permits(snapshot, log, s.id, Source(s, 2, 3));
    log := Then(snapshot, log, Event(Deleted(s.id, Source(s, 2, 3)), Drop(Last(log), s.id)));
    log := Then(snapshot, log, Event(Lost, Last(log)));
    assert Last(log).subs == map[];
    NotEmpty(snapshot, log);
  }

  /// It is recreated; later the provider fails what was recreated.
  lemma StoodIn(snapshot: seq<Sub>, s: Sub, x: Id, w: World) returns (log: Log)
    requires w == World(map[s.id := s], w.used, map[]) && s in Planned(snapshot)
    requires x !in w.used && x != "" && x != s.id && "" !in w.used
    ensures Legal(snapshot, log) && log[0] == Event(Began(false), w)
    ensures Last(log) == World(map[x := Sub(x, Inactive, s.desc, s.callback, s.cost)], w.used + {x}, map[s.id := NoProgress.(restoredId := x)])
  {
    hide Legal, Planned;
    var r := Sub(x, Pending, s.desc, s.callback, s.cost);
    log := Emptied(snapshot, s, w);
    NotEmpty(snapshot, log);
    log := Then(snapshot, log, Event(Posted(x), Post(Last(log), r)));
    log := SaveAllowed(snapshot, log, s, NoProgress.(restoredId := x));
    assert Last(log).subs == map[x := r] && Last(log).disk == map[s.id := NoProgress.(restoredId := x)];
    log := Then(snapshot, log, Event(Drifted, Last(log).(subs := map[x := r.(status := Inactive)])));
  }

  /// An entry marked as moved does not imply that its source is gone: of two
  /// subscriptions of a broadcaster, one destination is seen enabled, and the
  /// listing that waits for the other breaks off before it shows anything.
  lemma StaysBehind(snapshot: seq<Sub>, s: Sub, t: Sub) returns (w: World, logs: seq<Log>)
    requires DistinctIds(snapshot) && s in Planned(snapshot) && t in Planned(snapshot) && s.desc != t.desc && s.desc.user == t.desc.user
    ensures Begins(snapshot, w) && Life(snapshot, w, logs)
    ensures Entry(Now(w, logs).disk, s.id).deletedOld && s.id in Now(w, logs).subs && Now(w, logs).subs[s.id] == s
  {
    hide Legal, Fits, Covers;
    PlanIsDistinct(snapshot);
    if s.id == t.id { SameId(Planned(snapshot), s, t); }
    w := Backup(snapshot, s, t);
    var x, y := Fresh(w.used);
    var log := Overlooked(snapshot, s, t, x, y, w);
    NotEmpty(snapshot, log);
    LifeMore(snapshot, w, [], log);
    logs := [] + [log];
  }

  /// Both destinations are created; that of `t` is pending.
  lemma Created(snapshot: seq<Sub>, s: Sub, t: Sub, there: Sub, coming: Sub, w: World) returns (log: Log)
    requires Fits(snapshot, w) && w == World(map[s.id := s, t.id := t], w.used, map[])
    requires s in Planned(snapshot) && t in Planned(snapshot) && s.id != t.id
    requires there.id !in w.used && coming.id !in w.used && there.id != coming.id && there.id != "" && coming.id != ""
    ensures Legal(snapshot, log) && log[0] == Event(Began(false), w)
    ensures Last(log) == Post(Post(w, there), coming).(disk := map[s.id := Made.(targetId := there.id), t.id := Made.(targetId := coming.id)])
  {
    hide Legal, Fits, Planned;
    log := Started(snapshot, false, w);
    log := Then(snapshot, log, Event(Listed([s, t]), w));
    log := Then(snapshot, log, Event(Posted(there.id), Post(w, there)));
    log := SaveAllowed(snapshot, log, s, Made.(targetId := there.id));
    log := Then(snapshot, log, Event(Posted(coming.id), Post(Last(log), coming)));
    log := SaveAllowed(snapshot, log, t, Made.(targetId := coming.id));
  }

  lemma Overlooked(snapshot: seq<Sub>, s: Sub, t: Sub, x: Id, y: Id, w: World) returns (log: Log)
    requires Fits(snapshot, w) && w == World(map[s.id := s, t.id := t], w.used, map[])
    requires s in Planned(snapshot) && t in Planned(snapshot) && s.id != t.id
    requires x !in w.used && y !in w.used && x != "" && y != "" && x != y && x != s.id && x != t.id && y != s.id && y != t.id
    ensures Legal(snapshot, log) && log[0] == Event(Began(false), w)
    ensures Entry(Last(log).disk, s.id).deletedOld && s.id in Last(log).subs && Last(log).subs[s.id] == s
  {
    hide Legal, Fits, Planned;
    var there, coming := Sub(x, Enabled, s.desc, Target, s.cost), Sub(y, Pending, t.desc, Target, t.cost);
    log := Created(snapshot, s, t, there, coming, w);
    NotEmpty(snapshot, log);
    log := Then(snapshot, log, Event(Listed([s, t, there, coming]), Last(log)));
    log := Then(snapshot, log, Event(SawEnabled(x, s.desc, Target), Last(log)));
    log := Then(snapshot, log, Event(Listed([]), Last(log)));
    assert EnabledAt(Last(log), x, s.desc, Target);
    log := SaveAllowed(snapshot, log, s, Made.(targetId := x, deletedOld := true));
  }
}
