/// The EventSub callback migration, part 2: what one invocation may do, as a
/// log of its requests and durable writes. `Legal` says which event may follow
/// which; the code keeps to it (`Cloud.Provider`), and whatever holds of every
/// legal log, or of every series of them, holds of the code.
module Protocol {
  import opened EventSub

  /// Why a DELETE is sent. The numbers are positions in the log: where the id
  /// was listed, what cleared the deletion, or where this run created the id.
  datatype Why =
    | Source(s: Sub, listedAt: nat, clearedAt: nat)
    | Owned(s: Sub, listedAt: nat, clearedAt: nat)
    | Failed(postedAt: nat)

  /// `Lost` is a request that changed nothing, whatever was reported.
  datatype What =
    | Began(rollback: bool)
    | Drifted
    | Listed(view: seq<Sub>)
    | SawEnabled(id: Id, desc: Descriptor, callback: Callback)
    | Saved(id: Id, p: Progress)
    | Posted(id: Id)
    | Lost
    | Deleted(id: Id, why: Why)

  datatype Event = Event(what: What, after: World)

  type Log = seq<Event>

  function Last(log: Log): World
    requires log != []
  {
    log[|log| - 1].after
  }

  /// `u` was truthfully listed: as long as the id lives, so do its descriptor
  /// and callback.
  ghost predicate Reflects(w: World, u: Sub) {
    u.id in w.used && (u.id in w.subs ==> w.subs[u.id].desc == u.desc && w.subs[u.id].callback == u.callback)
  }

  predicate Truthful(w: World, u: Sub) {
    u.id in w.subs && w.subs[u.id].desc == u.desc && w.subs[u.id].callback == u.callback
    && (u.status.Enabled? ==> w.subs[u.id].status.Enabled?)
  }

  ghost predicate EnabledAt(w: World, id: Id, d: Descriptor, callback: Callback) {
    id in w.subs && w.subs[id].status.Enabled? && w.subs[id].desc == d && w.subs[id].callback == callback
  }

  ghost predicate HasEnabled(w: World, d: Descriptor, callback: Callback) { exists id :: EnabledAt(w, id, d, callback) }

  /// What each event does to the world. A deletion may be lost.
  ghost predicate Effect(a: World, e: Event) {
    match e.what
    case Began(_) => false
    case Drifted => Drifts(a, e.after)
    case Listed(view) => e.after == a && forall u :: u in view ==> Truthful(a, u)
    case SawEnabled(id, d, callback) => e.after == a && EnabledAt(a, id, d, callback)
    case Saved(id, p) => e.after == Record(a, id, p)
    case Posted(id) => id != "" && id !in a.used && id in e.after.subs && e.after.subs[id].id == id && e.after == Post(a, e.after.subs[id])
    case Lost => e.after == a
    case Deleted(id, _) => e.after == a || e.after == Drop(a, id)
  }

  predicate Untouched(p: Progress) { !p.created && !p.deletedOld && !p.sourceDeleted }

  /// Only the destination is recorded.
  predicate Adopts(was: Progress, p: Progress) {
    p == was.(targetId := p.targetId, created := p.created) && (was.created ==> p.created)
  }

  /// The stand-in just created is recorded, and the mark lowered.
  ghost predicate StandsIn(last: Event, s: Sub, was: Progress, p: Progress, callback: Callback) {
    && p == was.(restoredId := p.restoredId, sourceDeleted := false)
    && last.what == Posted(p.restoredId) && p.restoredId in last.after.subs
    && last.after.subs[p.restoredId].desc == s.desc && last.after.subs[p.restoredId].callback == callback
  }

  /// The entry counts as moved: a replacement is enabled.
  ghost predicate Moves(w: World, s: Sub, was: Progress, p: Progress) {
    p == was.(deletedOld := true, sourceDeleted := false) && HasEnabled(w, s.desc, Target)
  }

  /// The entry counts as rolled back: it is enabled where it was, or nothing
  /// had been done for it.
  ghost predicate Returns(w: World, s: Sub, was: Progress, p: Progress) {
    && p == was.(rolledBack := true, sourceDeleted := p.sourceDeleted) && (p.sourceDeleted ==> was.sourceDeleted)
    && (Untouched(was) || HasEnabled(w, s.desc, s.callback))
  }

  /// Where a failed change of `s` is undone.
  function Home(rollback: bool, s: Sub): Callback { if rollback then Target else s.callback }

  /// What may be saved for `s` right after `last`: only for an unfinished
  /// entry, and one of the six changes that the code makes.
  ghost predicate Allowed(rollback: bool, last: Event, s: Sub, p: Progress) {
    var was := Entry(last.after.disk, s.id);
    && !Finished(was, rollback)
    && (|| p == was.(attempts := was.attempts + 1)
        || p == was.(sourceDeleted := true)
        || (!rollback && Adopts(was, p))
        || StandsIn(last, s, was, p, Home(rollback, s))
        || (!rollback && Moves(last.after, s, was, p))
        || (rollback && Returns(last.after, s, was, p)))
  }

  /// `id` was listed with the descriptor of `s` at `callback`.
  ghost predicate ListedAs(log: Log, at: nat, id: Id, s: Sub, callback: Callback) {
    at < |log| && log[at].what.Listed? && exists u :: u in log[at].what.view && u.id == id && Matches(u, s, callback)
  }

  /// A replacement at `callback` was seen enabled and still is, or the durable
  /// mark of a gap was saved and still stands.
  ghost predicate Cleared(log: Log, at: nat, s: Sub, callback: Callback) {
    at < |log| && match log[at].what
      case SawEnabled(id, d, c) => d == s.desc && c == callback && EnabledAt(Last(log), id, d, callback)
      case Saved(id, p) => id == s.id && p.sourceDeleted && Entry(Last(log).disk, s.id).sourceDeleted
      case _ => false
  }

  /// Nothing happened since but listings, drift and the record of a destination.
  ghost predicate Undisturbed(log: Log, at: nat) {
    forall k :: at < k < |log| ==> Idle(log[k].what) || (log[k].what.Saved? && Adopts(Entry(log[k - 1].after.disk, log[k].what.id), log[k].what.p))
  }

  predicate Idle(what: What) { what.Drifted? || what.Listed? || what.SawEnabled? }

  ghost predicate NoneRolledBack(plan: seq<Sub>, disk: map<Id, Progress>) {
    forall s :: s in plan ==> !Entry(disk, s.id).rolledBack
  }

  /// `id` was not recorded as standing in for anything.
  ghost predicate NoStandIn(plan: seq<Sub>, disk: map<Id, Progress>, id: Id) {
    forall s :: s in plan ==> Entry(disk, s.id).restoredId != id
  }

  /// No forward run goes ahead over an entry that was rolled back.
  ghost predicate Admitted(snapshot: seq<Sub>, log: Log)
    requires log != [] && log[0].what.Began?
  {
    log[0].what.rollback || NoneRolledBack(Planned(snapshot), Last(log).disk)
  }

  /// When a DELETE may be sent: for a source or its stand-in, forward, listed
  /// as backed up and cleared by a replacement or a mark; for a destination not
  /// in the backup, in a rollback, listed and cleared likewise; and for what
  /// this run has just created in vain.
  ghost predicate Permits(snapshot: seq<Sub>, log: Log, id: Id, why: Why)
    requires log != [] && log[0].what.Began?
  {
    && Admitted(snapshot, log)
    && match why
       case Source(s, listed, cleared) =>
         && !log[0].what.rollback && s in Planned(snapshot) && (id == s.id || id == Entry(Last(log).disk, s.id).restoredId)
         && ListedAs(log, listed, id, s, s.callback) && Cleared(log, cleared, s, Target)
       case Owned(s, listed, cleared) =>
         && log[0].what.rollback && s in Planned(snapshot) && !Ids(snapshot, id)
         && ListedAs(log, listed, id, s, Target) && Cleared(log, cleared, s, s.callback)
       case Failed(at) =>
         && 0 < at < |log| && log[at].what == Posted(id)
         && NoStandIn(Planned(snapshot), Last(log).disk, id) && Undisturbed(log, at)
  }

  /// `e` may follow `log`.
  ghost predicate Next(snapshot: seq<Sub>, log: Log, e: Event)
    requires log != [] && log[0].what.Began?
  {
    && Effect(Last(log), e)
    && match e.what
       case Saved(id, p) => Admitted(snapshot, log) && exists s :: s in Planned(snapshot) && s.id == id && Allowed(log[0].what.rollback, log[|log| - 1], s, p)
       case Deleted(id, why) => Permits(snapshot, log, id, why)
       case _ => true
  }

  ghost predicate Legal(snapshot: seq<Sub>, log: Log) {
    log != [] && log[0].what.Began? && forall i :: 0 < i < |log| ==> Next(snapshot, log[..i], log[i])
  }

  lemma LegalMore(snapshot: seq<Sub>, log: Log, e: Event)
    requires Legal(snapshot, log) && Next(snapshot, log, e)
    ensures Legal(snapshot, log + [e])
  {
    hide Next;
    var more := log + [e];
    forall i | 0 < i < |more| ensures Next(snapshot, more[..i], more[i]) {
      assert more[..i] == log[..i];
      assert log[..|log|] == log;
    }
  }

  lemma LegalLess(snapshot: seq<Sub>, log: Log, n: nat)
    requires Legal(snapshot, log) && 0 < n <= |log|
    ensures Legal(snapshot, log[..n])
  {
    hide Next;
    var less := log[..n];
    forall i | 0 < i < n ensures Next(snapshot, less[..i], less[i]) { assert less[..i] == log[..i]; }
  }

  /// The backup is of this provider, and no entry names a wrong stand-in.
  ghost predicate Fits(snapshot: seq<Sub>, w: World) {
    DistinctIds(snapshot) && (forall s :: s in snapshot ==> s.id in w.used) && Sound(Planned(snapshot), w)
  }

  lemma {:induction false} PlanIsDistinct(snapshot: seq<Sub>)
    requires DistinctIds(snapshot)
    ensures DistinctIds(Planned(snapshot))
  {
    if snapshot != [] {
      PlanIsDistinct(snapshot[1..]);
      var rest := Planned(snapshot[1..]);
      forall i | 0 <= i < |rest| ensures rest[i].id != snapshot[0].id {
        assert rest[i] in snapshot[1..];
        var k :| 0 <= k < |snapshot[1..]| && snapshot[1..][k] == rest[i];
        assert snapshot[k + 1] == rest[i];
      }
    }
  }

  /// Every event keeps the world sound, and what is known of an id.
  lemma EventIsSound(snapshot: seq<Sub>, log: Log, e: Event)
    requires Legal(snapshot, log) && Next(snapshot, log, e) && Fits(snapshot, Last(log))
    ensures Fits(snapshot, e.after) && Evolves(Last(log), e.after)
  {
    var plan, a := Planned(snapshot), Last(log);
    match e.what
    case Drifted => DriftKeeps(plan, a, e.after);
    case Posted(id) => PostKeeps(plan, a, e.after.subs[id]);
    case Deleted(id, _) => DropIsSound(plan, a, id); EvolvesRefl(a);
    case Saved(id, p) => SavedIsSound(snapshot, log, e);
    case _ => EvolvesRefl(a);
  }

  lemma SavedIsSound(snapshot: seq<Sub>, log: Log, e: Event)
    requires Legal(snapshot, log) && Next(snapshot, log, e) && Fits(snapshot, Last(log)) && e.what.Saved?
    ensures Fits(snapshot, e.after) && Evolves(Last(log), e.after)
    ensures forall d :: Guarded(Planned(snapshot), Last(log), d) ==> Guarded(Planned(snapshot), e.after, d)
  {
    var plan := Planned(snapshot);
    var s :| s in plan && s.id == e.what.id && Allowed(log[0].what.rollback, log[|log| - 1], s, e.what.p);
    var cover := AllowedIsRecordable(plan, log[0].what.rollback, log[|log| - 1], s, e.what.p);
    RecordKeeps(plan, Last(log), s, e.what.p, cover);
  }

  lemma AllowedIsRecordable(plan: seq<Sub>, rollback: bool, last: Event, s: Sub, p: Progress) returns (cover: Id)
    requires s in plan && !s.callback.Foreign? && Allowed(rollback, last, s, p) && Sound(plan, last.after)
    ensures Recordable(plan, last.after, s, p, cover)
  {
    var w, was := last.after, Entry(last.after.disk, s.id);
    cover := "";
    if StandsIn(last, s, was, p, Home(rollback, s)) {
      cover := p.restoredId;
      assert Entry(Record(w, s.id, p).disk, s.id).restoredId == cover;
      assert StandIn(plan, Record(w, s.id, p), cover);
    } else if !rollback && Moves(w, s, was, p) {
      cover :| EnabledAt(w, cover, s.desc, Target);
    } else if rollback && Returns(w, s, was, p) && !Untouched(was) {
      cover :| EnabledAt(w, cover, s.desc, s.callback);
    }
  }

  lemma {:induction false} LogIsSound(snapshot: seq<Sub>, log: Log)
    requires Legal(snapshot, log) && Fits(snapshot, log[0].after)
    ensures forall i :: 0 <= i < |log| ==> Fits(snapshot, log[i].after)
    ensures forall i :: 0 < i < |log| ==> Evolves(log[i - 1].after, log[i].after)
  {
    hide Next, Fits;
    if |log| > 1 {
      var n := |log| - 1;
      LegalLess(snapshot, log, n);
      LogIsSound(snapshot, log[..n]);
      assert log[..n][n - 1] == log[n - 1];
      EventIsSound(snapshot, log[..n], log[n]);
      forall i | 0 <= i < n ensures Fits(snapshot, log[i].after) { assert log[..n][i] == log[i]; }
      forall i | 0 < i < n ensures Evolves(log[i - 1].after, log[i].after) { assert log[..n][i] == log[i] && log[..n][i - 1] == log[i - 1]; }
    }
  }

  lemma {:induction false} EvolvesAlong(log: Log, i: nat, j: nat)
    requires i <= j < |log| && (forall k :: 0 < k < |log| ==> Evolves(log[k - 1].after, log[k].after))
    requires log[i].after.subs.Keys <= log[i].after.used
    ensures Evolves(log[i].after, log[j].after)
    decreases j
  {
    if i == j {
      EvolvesRefl(log[i].after);
    } else {
      EvolvesAlong(log, i, j - 1);
      EvolvesTrans(log[i].after, log[j - 1].after, log[j].after);
    }
  }

  lemma EvolvesReflects(a: World, b: World, u: Sub)
    requires Evolves(a, b) && a.subs.Keys <= a.used && Truthful(a, u)
    ensures Reflects(b, u)
  {}

  lemma ListedIsTruthful(snapshot: seq<Sub>, log: Log, at: nat, u: Sub)
    requires Legal(snapshot, log) && at < |log| && log[at].what.Listed? && u in log[at].what.view && Fits(snapshot, log[at].after)
    ensures Truthful(log[at].after, u) && log[at].after.subs.Keys <= log[at].after.used
  {
    assert Next(snapshot, log[..at], log[at]);
  }

  /// What was listed keeps its descriptor and callback.
  lemma ListedReflects(snapshot: seq<Sub>, log: Log, at: nat, u: Sub)
    requires Legal(snapshot, log) && Fits(snapshot, log[0].after) && at < |log|
    requires log[at].what.Listed? && u in log[at].what.view
    ensures Reflects(Last(log), u)
  {
    hide Next, Sound, Evolves;
    LogIsSound(snapshot, log);
    assert Fits(snapshot, log[at].after);
    assert log[at].after.subs.Keys <= log[at].after.used && Truthful(log[at].after, u) by { ListedIsTruthful(snapshot, log, at, u); }
    EvolvesAlong(log, at, |log| - 1);
    EvolvesReflects(log[at].after, Last(log), u);
  }

  lemma ClearedIsSpare(plan: seq<Sub>, log: Log, at: nat, s: Sub, callback: Callback, d: Descriptor, id: Id)
    requires Cleared(log, at, s, callback) && s in plan && !callback.Foreign?
    requires id in Last(log).subs ==> Last(log).subs[id].desc == s.desc && Last(log).subs[id].callback != callback
    ensures Spare(plan, d, Last(log), id)
  {
    var w := Last(log);
    if id in w.subs && w.subs[id].desc == d {
      match log[at].what
      case SawEnabled(t, _, _) => assert t != id && Covers(plan, w, t, s.desc);
      case Saved(_, p) => assert Flagged(plan, w, s.desc);
    }
  }

  /// While nothing but listings, drift and the record of destinations happens,
  /// marks and covers last, and no result changes.
  lemma {:induction false} Undisturbs(snapshot: seq<Sub>, log: Log, at: nat)
    requires Legal(snapshot, log) && Fits(snapshot, log[0].after) && at < |log| && Undisturbed(log, at)
    ensures forall d :: Flagged(Planned(snapshot), log[at].after, d) ==> Flagged(Planned(snapshot), Last(log), d)
    ensures forall id, d :: Covers(Planned(snapshot), log[at].after, id, d) ==> Covers(Planned(snapshot), Last(log), id, d)
    ensures forall id, d, c :: EnabledAt(log[at].after, id, d, c) ==> EnabledAt(Last(log), id, d, c)
    ensures forall s :: s in Planned(snapshot) ==> SameResult(Entry(log[at].after.disk, s.id), Entry(Last(log).disk, s.id))
    decreases |log|
  {
    hide Next, Covers, Flagged, Fits, EnabledAt;
    if at < |log| - 1 {
      var n := |log| - 1;
      LegalLess(snapshot, log, n);
      assert log[..n][at] == log[at];
      assert log[..n][0] == log[0];
      forall k | at < k < n
        ensures Idle(log[..n][k].what) || (log[..n][k].what.Saved? && Adopts(Entry(log[..n][k - 1].after.disk, log[..n][k].what.id), log[..n][k].what.p))
      {
        assert log[..n][k] == log[k] && log[..n][k - 1] == log[k - 1];
      }
      Undisturbs(snapshot, log[..n], at);
      LogIsSound(snapshot, log);
      assert log[..n][n - 1] == log[n - 1];
      IdleKeeps(snapshot, log[..n], log[n]);
    }
  }

  /// The marks and results of an entry, whatever its destination.
  predicate SameResult(p: Progress, q: Progress) {
    p.deletedOld == q.deletedOld && p.rolledBack == q.rolledBack && p.sourceDeleted == q.sourceDeleted && (p.created ==> q.created)
  }

  lemma IdleKeeps(snapshot: seq<Sub>, log: Log, e: Event)
    requires Legal(snapshot, log) && Next(snapshot, log, e) && Fits(snapshot, Last(log))
    requires Idle(e.what) || (e.what.Saved? && Adopts(Entry(Last(log).disk, e.what.id), e.what.p))
    ensures forall d :: Flagged(Planned(snapshot), Last(log), d) ==> Flagged(Planned(snapshot), e.after, d)
    ensures forall id, d :: Covers(Planned(snapshot), Last(log), id, d) ==> Covers(Planned(snapshot), e.after, id, d)
    ensures forall id, d, c :: EnabledAt(Last(log), id, d, c) ==> EnabledAt(e.after, id, d, c)
    ensures forall s :: s in Planned(snapshot) ==> SameResult(Entry(Last(log).disk, s.id), Entry(e.after.disk, s.id))
  {
    var plan, a := Planned(snapshot), Last(log);
    if e.what.Drifted? {
      DriftKeeps(plan, a, e.after);
    } else if e.what.Saved? {
      var s :| s in plan && s.id == e.what.id;
      RecordSame(plan, a, s, e.what.p);
    }
  }

  /// A guarded descriptor stays guarded through every legal log.
  lemma {:induction false} GuardLasts(snapshot: seq<Sub>, log: Log, d: Descriptor)
    requires Legal(snapshot, log) && Fits(snapshot, log[0].after) && Guarded(Planned(snapshot), log[0].after, d)
    ensures Guarded(Planned(snapshot), Last(log), d)
    decreases |log|
  {
    hide Next, Guarded, Fits;
    if |log| > 1 {
      var n := |log| - 1;
      var before, e := log[..n], log[n];
      LegalLess(snapshot, log, n);
      LogIsSound(snapshot, before);
      assert Fits(snapshot, Last(before));
      GuardLasts(snapshot, before, d);
      assert Next(snapshot, before, e);
      if e.what.Deleted? {
        DeletionIsSpare(snapshot, before, e, d);
      } else {
        GuardKept(snapshot, before, e, d);
      }
    }
  }

  lemma GuardKept(snapshot: seq<Sub>, log: Log, e: Event, d: Descriptor)
    requires Legal(snapshot, log) && Next(snapshot, log, e) && Fits(snapshot, Last(log)) && !e.what.Deleted?
    requires Guarded(Planned(snapshot), Last(log), d)
    ensures Guarded(Planned(snapshot), e.after, d)
  {
    match e.what
    case Drifted => DriftKeeps(Planned(snapshot), Last(log), e.after);
    case Posted(id) => PostKeeps(Planned(snapshot), Last(log), e.after.subs[id]);
    case Saved(_, _) => SavedIsSound(snapshot, log, e);
    case _ =>
  }

  /// A permitted deletion leaves a mark or another cover.
  lemma {:induction false} DeletionIsSpare(snapshot: seq<Sub>, log: Log, e: Event, d: Descriptor)
    requires Legal(snapshot, log) && Next(snapshot, log, e) && Fits(snapshot, log[0].after) && e.what.Deleted?
    requires Guarded(Planned(snapshot), log[0].after, d) && Guarded(Planned(snapshot), Last(log), d)
    ensures Guarded(Planned(snapshot), e.after, d)
    decreases |log|, 1
  {
    hide Guarded, Fits, Covers, Flagged, Cleared, Spare;
    var plan, id := Planned(snapshot), e.what.id;
    match e.what.why {
      case Source(s, listed, cleared) =>
        var u :| u in log[listed].what.view && u.id == id && Matches(u, s, s.callback);
        ListedReflects(snapshot, log, listed, u);
        ClearedIsSpare(plan, log, cleared, s, Target, d, id);
      case Owned(s, listed, cleared) =>
        var u :| u in log[listed].what.view && u.id == id && Matches(u, s, Target);
        ListedReflects(snapshot, log, listed, u);
        ClearedIsSpare(plan, log, cleared, s, s.callback, d, id);
      case Failed(at) => FailedIsSpare(snapshot, log, at, id, d);
    }
    if e.after != Last(log) { DropKeeps(plan, d, Last(log), id); }
  }

  /// What covered the descriptor before the creation still does.
  lemma {:induction false} FailedIsSpare(snapshot: seq<Sub>, log: Log, at: nat, id: Id, d: Descriptor)
    requires Legal(snapshot, log) && Permits(snapshot, log, id, Failed(at)) && Fits(snapshot, log[0].after)
    requires Guarded(Planned(snapshot), log[0].after, d)
    ensures Spare(Planned(snapshot), d, Last(log), id)
    decreases |log|, 0
  {
    hide Fits, Guarded, Flagged, Covers;
    var plan, before := Planned(snapshot), log[..at];
    LegalLess(snapshot, log, at);
    GuardLasts(snapshot, before, d);
    LogIsSound(snapshot, log);
    assert Next(snapshot, before, log[at]);
    assert before[at - 1] == log[at - 1];
    Undisturbs(snapshot, log, at);
    PostedLater(snapshot, before, log[at], d);
    if !Flagged(plan, log[at].after, d) {
      var c :| c != id && Covers(plan, log[at].after, c, d);
      assert Covers(plan, Last(log), c, d);
    }
  }

  lemma PostedLater(snapshot: seq<Sub>, log: Log, e: Event, d: Descriptor)
    requires Legal(snapshot, log) && Next(snapshot, log, e) && e.what.Posted? && Fits(snapshot, Last(log))
    requires Guarded(Planned(snapshot), Last(log), d)
    ensures Flagged(Planned(snapshot), e.after, d) || exists c :: c != e.what.id && Covers(Planned(snapshot), e.after, c, d)
  {
    var plan := Planned(snapshot);
    PostKeeps(plan, Last(log), e.after.subs[e.what.id]);
    if Flagged(plan, Last(log), d) {
      assert Flagged(plan, e.after, d);
    } else {
      var c :| Covers(plan, Last(log), c, d);
      assert Covers(plan, e.after, c, d);
    }
  }

  /// A rollback deletes nothing that is in the backup.
  lemma RollbackSpares(snapshot: seq<Sub>, log: Log, i: nat)
    requires Legal(snapshot, log) && Fits(snapshot, log[0].after) && log[0].what.rollback && i < |log| && log[i].what.Deleted?
    ensures !Ids(snapshot, log[i].what.id)
  {
    assert Next(snapshot, log[..i], log[i]);
    if log[i].what.why.Failed? {
      var at := log[i].what.why.postedAt;
      assert Next(snapshot, log[..at], log[at]);
      LogIsSound(snapshot, log);
      assert Fits(snapshot, log[at - 1].after);
    }
  }

  /// What a rollback deletes, other than what it created in vain, was listed at
  /// the target with the backed-up descriptor, and still is there; and right then
  /// the legacy subscription is enabled or the mark is on disk.
  lemma RollbackTakesListed(snapshot: seq<Sub>, log: Log, i: nat)
    requires Legal(snapshot, log) && Fits(snapshot, log[0].after) && log[0].what.rollback
    requires i < |log| && log[i].what.Deleted? && !log[i].what.why.Failed?
    ensures var s := log[i].what.why.s;
      && s in Planned(snapshot) && ListedAs(log[..i], log[i].what.why.listedAt, log[i].what.id, s, Target)
      && (log[i].what.id in log[i - 1].after.subs ==>
            log[i - 1].after.subs[log[i].what.id].desc == s.desc && log[i - 1].after.subs[log[i].what.id].callback == Target)
      && (HasEnabled(log[i - 1].after, s.desc, s.callback) || Entry(log[i - 1].after.disk, s.id).sourceDeleted)
  {
    var before := log[..i];
    assert Next(snapshot, before, log[i]);
    assert Last(before) == log[i - 1].after;
    LegalLess(snapshot, log, i);
    var listed, id := log[i].what.why.listedAt, log[i].what.id;
    var s := log[i].what.why.s;
    var u :| u in before[listed].what.view && u.id == id && Matches(u, s, Target);
    ListedReflects(snapshot, before, listed, u);
  }

  /// What a forward run deletes, other than what it created in vain, is a
  /// source or its recorded stand-in; it was listed before with the backed-up
  /// descriptor and callback, and still has them; and right then a replacement
  /// is enabled or the mark is on disk.
  lemma ForwardTakesListed(snapshot: seq<Sub>, log: Log, i: nat)
    requires Legal(snapshot, log) && Fits(snapshot, log[0].after) && !log[0].what.rollback
    requires i < |log| && log[i].what.Deleted? && !log[i].what.why.Failed?
    ensures var s := log[i].what.why.s;
      && s in Planned(snapshot) && (log[i].what.id == s.id || log[i].what.id == Entry(log[i - 1].after.disk, s.id).restoredId)
      && ListedAs(log[..i], log[i].what.why.listedAt, log[i].what.id, s, s.callback)
      && (log[i].what.id in log[i - 1].after.subs ==>
            log[i - 1].after.subs[log[i].what.id].desc == s.desc && log[i - 1].after.subs[log[i].what.id].callback == s.callback)
      && (HasEnabled(log[i - 1].after, s.desc, Target) || Entry(log[i - 1].after.disk, s.id).sourceDeleted)
  {
    var before := log[..i];
    assert Next(snapshot, before, log[i]);
    assert Last(before) == log[i - 1].after;
    LegalLess(snapshot, log, i);
    var listed, id := log[i].what.why.listedAt, log[i].what.id;
    var s := log[i].what.why.s;
    var u :| u in before[listed].what.view && u.id == id && Matches(u, s, s.callback);
    ListedReflects(snapshot, before, listed, u);
  }

  /// What a checkpoint write says is so: an entry becomes moved only while a
  /// replacement is enabled at the target, and rolled back only while one is
  /// where it was, or if nothing had been done for it; and a mark is lowered
  /// only with one of the two, or for the stand-in that was just created.
  lemma ResultsAreEarned(snapshot: seq<Sub>, log: Log, i: nat) returns (s: Sub)
    requires Legal(snapshot, log) && 0 < i < |log| && log[i].what.Saved?
    ensures s in Planned(snapshot) && s.id == log[i].what.id
    ensures var w := log[i - 1].after;
      var was, p := Entry(w.disk, s.id), log[i].what.p;
      && (p.deletedOld && !was.deletedOld ==> HasEnabled(w, s.desc, Target))
      && (p.rolledBack && !was.rolledBack ==> Untouched(was) || HasEnabled(w, s.desc, s.callback))
      && (was.sourceDeleted && !p.sourceDeleted ==>
            HasEnabled(w, s.desc, Target) || HasEnabled(w, s.desc, s.callback)
            || (log[i - 1].what == Posted(p.restoredId) && p.restoredId in w.subs && w.subs[p.restoredId].desc == s.desc))
  {
    var before := log[..i];
    assert Next(snapshot, before, log[i]);
    assert before[|before| - 1] == log[i - 1];
    s :| s in Planned(snapshot) && s.id == log[i].what.id && Allowed(log[0].what.rollback, log[i - 1], s, log[i].what.p);
  }

  /// Invocations one after the other, each cut off anywhere: the next one
  /// starts from whatever the provider and the disk then held.
  ghost predicate Life(snapshot: seq<Sub>, w: World, logs: seq<Log>) {
    && (forall k :: 0 <= k < |logs| ==> Legal(snapshot, logs[k]))
    && (forall k :: 0 <= k < |logs| ==> logs[k][0].after == Now(w, logs[..k]))
  }

  ghost function Now(w: World, logs: seq<Log>): World {
    if logs == [] || logs[|logs| - 1] == [] then w else Last(logs[|logs| - 1])
  }

  lemma LifeMore(snapshot: seq<Sub>, w: World, logs: seq<Log>, log: Log)
    requires Life(snapshot, w, logs) && Legal(snapshot, log) && log[0].after == Now(w, logs)
    ensures Life(snapshot, w, logs + [log]) && Now(w, logs + [log]) == Last(log)
  {
    hide Next;
    var more: seq<Log> := logs + [log];
    forall k: nat | k < |more| ensures more[k][0].after == Now(w, more[..k]) {
      if k < |logs| { assert more[..k] == logs[..k]; } else { assert more[..k] == logs; }
    }
  }

  lemma LifeLess(snapshot: seq<Sub>, w: World, logs: seq<Log>)
    requires Life(snapshot, w, logs) && logs != []
    ensures Life(snapshot, w, logs[..|logs| - 1]) && logs[|logs| - 1][0].after == Now(w, logs[..|logs| - 1])
    ensures Legal(snapshot, logs[|logs| - 1]) && Now(w, logs) == Last(logs[|logs| - 1])
  {
    hide Next;
    var less: seq<Log> := logs[..|logs| - 1];
    forall k: nat | k < |less| ensures less[k][0].after == Now(w, less[..k]) { assert less[..k] == logs[..k]; }
  }

  /// Whatever was guarded at first stays so, through any number of invocations,
  /// forward or back, each cut off after any event.
  lemma {:induction false} LifeIsSafe(snapshot: seq<Sub>, w: World, logs: seq<Log>)
    requires Life(snapshot, w, logs) && Fits(snapshot, w)
    ensures Fits(snapshot, Now(w, logs))
    ensures forall d :: Guarded(Planned(snapshot), w, d) ==> Guarded(Planned(snapshot), Now(w, logs), d)
  {
    hide Fits, Guarded, Next;
    if logs != [] {
      LifeLess(snapshot, w, logs);
      var less, log := logs[..|logs| - 1], logs[|logs| - 1];
      LifeIsSafe(snapshot, w, less);
      LogIsSound(snapshot, log);
      forall d | Guarded(Planned(snapshot), w, d) ensures Guarded(Planned(snapshot), Now(w, logs), d) { GuardLasts(snapshot, log, d); }
    }
  }
}
