/// The EventSub callback migration, part 1: the provider's subscriptions, the
/// durable checkpoint, and what must stay true of the two between any two steps.
module EventSub {
  type Id = string

  datatype Status = Enabled | Pending | Inactive

  /// Transport.Method and Transport.Callback together: the three webhook
  /// callbacks the migration knows, or anything else.
  datatype Callback = Legacy | Alias | Target | Foreign(transport: string)

  /// What `same` compares. `user` is conditionUser, a function of `condition`.
  datatype Descriptor = Descriptor(kind: string, version: string, condition: string, user: string)

  datatype Sub = Sub(id: Id, status: Status, desc: Descriptor, callback: Callback, cost: int)

  /// One checkpoint entry. A missing entry reads as `NoProgress`, and a missing
  /// id as "", as in the source.
  datatype Progress = Progress(
    targetId: Id, created: bool, deletedOld: bool, rolledBack: bool,
    sourceDeleted: bool, restoredId: Id, attempts: nat)

  const NoProgress := Progress("", false, false, false, false, "", 0)

  function Entry(entries: map<Id, Progress>, id: Id): Progress {
    if id in entries then entries[id] else NoProgress
  }

  /// `Migrator.done`.
  predicate Finished(p: Progress, rollback: bool) { if rollback then p.rolledBack else p.deletedOld }

  predicate Active(status: Status) { status.Enabled? || status.Pending? }

  predicate Eligible(sub: Sub) {
    (sub.callback.Legacy? || sub.callback.Alias?) && Active(sub.status)
  }

  predicate Matches(sub: Sub, wanted: Sub, callback: Callback) {
    sub.desc == wanted.desc && sub.callback == callback
  }

  function Planned(snapshot: seq<Sub>): (plan: seq<Sub>)
    ensures forall s :: s in plan <==> s in snapshot && Eligible(s)
  {
    if snapshot == [] then []
    else if Eligible(snapshot[0]) then [snapshot[0]] + Planned(snapshot[1..])
    else Planned(snapshot[1..])
  }

  predicate Ids(snapshot: seq<Sub>, id: Id) { exists s :: s in snapshot && s.id == id }

  /// The ids are present and distinct, which `Snapshot.Validate` checks.
  predicate DistinctIds(subs: seq<Sub>) {
    && (forall i :: 0 <= i < |subs| ==> subs[i].id != "")
    && (forall i, j :: 0 <= i < j < |subs| ==> subs[i].id != subs[j].id)
  }

  /// Provider and disk. `used` holds every id ever seen, since the provider
  /// does not reuse ids.
  datatype World = World(subs: map<Id, Sub>, used: set<Id>, disk: map<Id, Progress>)

  /// A subscription the migration left in place for a descriptor: a snapshot
  /// source, or one recreated after a failed break-before-make.
  ghost predicate StandIn(plan: seq<Sub>, w: World, id: Id) {
    exists s :: s in plan && (s.id == id || Entry(w.disk, s.id).restoredId == id)
  }

  /// `id` keeps events of descriptor `d` flowing.
  ghost predicate Covers(plan: seq<Sub>, w: World, id: Id, d: Descriptor) {
    && id in w.subs && w.subs[id].desc == d && !w.subs[id].callback.Foreign?
    && (w.subs[id].status.Enabled? || StandIn(plan, w, id))
  }

  /// The durable mark that makes a resume finish a gap in `d`.
  ghost predicate Flagged(plan: seq<Sub>, w: World, d: Descriptor) {
    exists s :: s in plan && s.desc == d && Entry(w.disk, s.id).sourceDeleted
  }

  ghost predicate Guarded(plan: seq<Sub>, w: World, d: Descriptor) {
    (exists id :: Covers(plan, w, id, d)) || Flagged(plan, w, d)
  }

  /// What every state keeps besides `Guarded`.
  ghost predicate Sound(plan: seq<Sub>, w: World) {
    && DistinctIds(plan)
    && w.subs.Keys <= w.used && "" !in w.used
    && (forall id :: id in w.subs ==> w.subs[id].id == id)
    && (forall s :: s in plan ==> s.id in w.used)
    && (forall s :: s in plan ==> RestoredMatches(w, s))
  }

  ghost predicate RestoredMatches(w: World, s: Sub) {
    var r := Entry(w.disk, s.id).restoredId;
    r == "" || (r in w.used && (r in w.subs ==> w.subs[r].desc == s.desc))
  }

  /// A known id keeps its descriptor and callback, is not resurrected once
  /// deleted, and stays enabled once enabled.
  ghost predicate Evolves(a: World, b: World) {
    && a.used <= b.used && a.subs.Keys <= a.used
    && (forall id :: id in a.used && id in b.subs ==> id in a.subs)
    && (forall id :: id in a.subs && id in b.subs ==>
          b.subs[id].desc == a.subs[id].desc && b.subs[id].callback == a.subs[id].callback
          && (a.subs[id].status.Enabled? ==> b.subs[id].status.Enabled?))
  }

  /// What the provider and other clients may do between two requests: verify
  /// or fail pending subscriptions, change costs, and add subscriptions. It
  /// drops nothing by itself and never disables an enabled subscription.
  predicate Drifts(a: World, b: World) {
    && b.disk == a.disk && a.used <= b.used && "" !in b.used
    && (forall id :: id in a.subs ==> id in b.subs)
    && (forall id :: id in b.subs ==> id in b.used && b.subs[id].id == id && (id in a.used ==> id in a.subs))
    && (forall id :: id in a.subs ==>
          b.subs[id].desc == a.subs[id].desc && b.subs[id].callback == a.subs[id].callback
          && (a.subs[id].status.Enabled? ==> b.subs[id].status.Enabled?))
  }

  function Post(w: World, sub: Sub): World {
    w.(subs := w.subs[sub.id := sub], used := w.used + {sub.id})
  }

  function Drop(w: World, id: Id): World { w.(subs := w.subs - {id}) }

  function Record(w: World, id: Id, p: Progress): World { w.(disk := w.disk[id := p]) }

  lemma EvolvesTrans(a: World, b: World, c: World)
    requires Evolves(a, b) && Evolves(b, c)
    ensures Evolves(a, c)
  {}

  lemma EvolvesRefl(a: World)
    requires a.subs.Keys <= a.used
    ensures Evolves(a, a)
  {}

  lemma DriftKeeps(plan: seq<Sub>, a: World, b: World)
    requires Sound(plan, a) && Drifts(a, b)
    ensures Sound(plan, b) && Evolves(a, b)
    ensures forall id, d :: Covers(plan, a, id, d) ==> Covers(plan, b, id, d)
    ensures forall d :: Guarded(plan, a, d) ==> Guarded(plan, b, d)
  {
    forall s | s in plan ensures RestoredMatches(b, s) { assert RestoredMatches(a, s); }
    assert forall id, d :: Covers(plan, a, id, d) ==> Covers(plan, b, id, d);
    forall d | Guarded(plan, a, d) ensures Guarded(plan, b, d) {
      if Flagged(plan, a, d) {
        assert Flagged(plan, b, d);
      } else {
        var c :| Covers(plan, a, c, d);
        assert Covers(plan, b, c, d);
      }
    }
  }

  /// Creating never opens a gap.
  lemma PostKeeps(plan: seq<Sub>, w: World, sub: Sub)
    requires Sound(plan, w) && sub.id !in w.used && sub.id != ""
    ensures Sound(plan, Post(w, sub)) && Evolves(w, Post(w, sub))
    ensures forall id, d :: Covers(plan, w, id, d) ==> Covers(plan, Post(w, sub), id, d)
    ensures forall d :: Guarded(plan, w, d) ==> Guarded(plan, Post(w, sub), d)
  {
    var w' := Post(w, sub);
    forall s | s in plan ensures RestoredMatches(w', s) { assert RestoredMatches(w, s); }
    assert forall id, d :: Covers(plan, w, id, d) ==> Covers(plan, w', id, d);
    forall d | Guarded(plan, w, d) ensures Guarded(plan, w', d) {
      if Flagged(plan, w, d) {
        assert Flagged(plan, w', d);
      } else {
        var c :| Covers(plan, w, c, d);
        assert Covers(plan, w', c, d);
      }
    }
  }

  /// What makes deleting `id` safe for `d`: it is marked, or something else
  /// covers it.
  ghost predicate Spare(plan: seq<Sub>, d: Descriptor, w: World, id: Id) {
    id in w.subs && w.subs[id].desc == d ==> Flagged(plan, w, d) || exists other :: other != id && Covers(plan, w, other, d)
  }

  lemma DropIsSound(plan: seq<Sub>, w: World, id: Id)
    requires Sound(plan, w)
    ensures Sound(plan, Drop(w, id)) && Evolves(w, Drop(w, id))
  {
    forall s | s in plan ensures RestoredMatches(Drop(w, id), s) { assert RestoredMatches(w, s); }
  }

  lemma DropKeeps(plan: seq<Sub>, d: Descriptor, w: World, id: Id)
    requires Spare(plan, d, w, id) && Guarded(plan, w, d)
    ensures Guarded(plan, Drop(w, id), d)
  {
    var w' := Drop(w, id);
    if Flagged(plan, w, d) {
      assert Flagged(plan, w', d);
    } else {
      var c :| Covers(plan, w, c, d);
      if c == id {
        var other :| other != id && Covers(plan, w, other, d);
        assert Covers(plan, w', other, d);
      } else {
        assert Covers(plan, w', c, d);
      }
    }
  }

  /// What makes saving `p` for planned source `s` safe: the flag is lowered
  /// only while `cover` covers the descriptor, and a new stand-in is in place.
  ghost predicate Recordable(plan: seq<Sub>, w: World, s: Sub, p: Progress, cover: Id) {
    && s in plan
    && (Entry(w.disk, s.id).sourceDeleted && !p.sourceDeleted ==> Covers(plan, Record(w, s.id, p), cover, s.desc))
    && (p.restoredId != Entry(w.disk, s.id).restoredId ==>
          p.restoredId == cover && Covers(plan, Record(w, s.id, p), cover, s.desc))
  }

  lemma RecordKeeps(plan: seq<Sub>, w: World, s: Sub, p: Progress, cover: Id)
    requires Sound(plan, w) && Recordable(plan, w, s, p, cover)
    ensures Sound(plan, Record(w, s.id, p)) && Evolves(w, Record(w, s.id, p))
    ensures forall d :: Guarded(plan, w, d) ==> Guarded(plan, Record(w, s.id, p), d)
  {
    var w' := Record(w, s.id, p);
    forall t | t in plan ensures RestoredMatches(w', t) {
      assert RestoredMatches(w, t);
      if t.id == s.id { SameId(plan, s, t); }
    }
    forall d | Guarded(plan, w, d) ensures Guarded(plan, w', d) {
      if Flagged(plan, w, d) {
        var t :| t in plan && t.desc == d && Entry(w.disk, t.id).sourceDeleted;
        if t.id == s.id {
          SameId(plan, s, t);
          if !p.sourceDeleted { assert Covers(plan, w', cover, d); }
        }
        assert Flagged(plan, w', d) || Covers(plan, w', cover, d);
      } else {
        var c :| Covers(plan, w, c, d);
        CoverSurvivesRecord(plan, w, s, p, cover, c, d);
      }
    }
  }

  lemma SameId(plan: seq<Sub>, s: Sub, t: Sub)
    requires DistinctIds(plan) && s in plan && t in plan && s.id == t.id
    ensures s == t
  {
    var i :| 0 <= i < |plan| && plan[i] == s;
    var j :| 0 <= j < |plan| && plan[j] == t;
    assert i == j;
  }

  lemma CoverSurvivesRecord(plan: seq<Sub>, w: World, s: Sub, p: Progress, cover: Id, c: Id, d: Descriptor)
    requires Sound(plan, w) && Recordable(plan, w, s, p, cover) && Covers(plan, w, c, d)
    ensures Covers(plan, Record(w, s.id, p), c, d) || Covers(plan, Record(w, s.id, p), cover, d)
  {
    var w' := Record(w, s.id, p);
    if !w.subs[c].status.Enabled? {
      var t :| t in plan && (t.id == c || Entry(w.disk, t.id).restoredId == c);
      assert RestoredMatches(w, t);
      if t.id == c || t.id != s.id || p.restoredId == c {
        assert t.id == c || Entry(w'.disk, t.id).restoredId == c;
        assert StandIn(plan, w', c);
      } else {
        SameId(plan, s, t);
        assert c in w.used;
      }
    }
  }

  /// A write that leaves the flag and the stand-in of its entry alone.
  lemma RecordSame(plan: seq<Sub>, w: World, s: Sub, p: Progress)
    requires s in plan
    requires p.sourceDeleted == Entry(w.disk, s.id).sourceDeleted && p.restoredId == Entry(w.disk, s.id).restoredId
    ensures forall d :: Flagged(plan, w, d) ==> Flagged(plan, Record(w, s.id, p), d)
    ensures forall id, d :: Covers(plan, w, id, d) ==> Covers(plan, Record(w, s.id, p), id, d)
  {
    var w' := Record(w, s.id, p);
    assert forall t :: t in plan ==> Entry(w'.disk, t.id).sourceDeleted == Entry(w.disk, t.id).sourceDeleted;
    assert forall t :: t in plan ==> Entry(w'.disk, t.id).restoredId == Entry(w.disk, t.id).restoredId;
  }

  /// Coverage in the plain sense, given that the provider failed no stand-in:
  /// every guarded descriptor without a flag has an active match at one of the
  /// three known callbacks.
  ghost predicate Covered(w: World, d: Descriptor) {
    exists id :: id in w.subs && w.subs[id].desc == d && !w.subs[id].callback.Foreign? && Active(w.subs[id].status)
  }

  lemma GuardedIsCovered(plan: seq<Sub>, w: World, d: Descriptor)
    requires Guarded(plan, w, d)
    requires forall id :: id in w.subs && StandIn(plan, w, id) ==> Active(w.subs[id].status)
    ensures Covered(w, d) || Flagged(plan, w, d)
  {
    if !Flagged(plan, w, d) {
      var id :| Covers(plan, w, id, d);
      assert id in w.subs;
    }
  }
}
