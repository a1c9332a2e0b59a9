/// The EventSub callback migration, part 5: the work done under one lease, and
/// where every subscription it was given ends up.
module Chunks {
  import opened Wrappers
  import opened EventSub
  import opened Protocol
  import opened Cloud
  import opened Migration

  /// `out *chunk`: the outcome of the work done under one lease. The ghost
  /// bags say which subscriptions the counters count.
  class Chunk {
    var rest: seq<Sub>
    var work: int
    var migrated: nat
    var failed: nat
    var costBlocked: nat
    var interrupted: bool
    var fatal: bool
    var uncertain: bool
    ghost var moved: multiset<Sub>
    ghost var lost: multiset<Sub>
    ghost var blocked: multiset<Sub>

    ghost predicate Counted()
      reads this
    {
      |moved| == migrated && |lost| == failed && |blocked| == costBlocked
    }

    ghost function Settled(): multiset<Sub>
      reads this
    {
      moved + lost + blocked
    }

    constructor (pending: seq<Sub>)
      ensures Counted() && rest == pending && work == 0 && !interrupted && !fatal && Settled() == multiset{}
      ensures migrated == failed == 0
    {
      rest, work, migrated, failed, costBlocked := pending, 0, 0, 0, 0;
      interrupted, fatal, uncertain := false, false, false;
      moved, lost, blocked := multiset{}, multiset{}, multiset{};
    }

    method Move(s: Sub)
      requires Counted()
      modifies this`migrated, this`moved
      ensures Counted() && migrated == old(migrated) + 1 && moved == old(moved) + multiset{s}
    {
      migrated, moved := migrated + 1, moved + multiset{s};
    }

    method Block(s: Sub)
      requires Counted()
      modifies this`costBlocked, this`blocked
      ensures Counted() && costBlocked == old(costBlocked) + 1 && blocked == old(blocked) + multiset{s}
    {
      costBlocked, blocked := costBlocked + 1, blocked + multiset{s};
    }

    /// A recorded failure. An uncertain mutation or an expired lease interrupts
    /// the chunk.
    method Lose(s: Sub, uncertainly: bool)
      requires Counted()
      modifies this`failed, this`lost, this`uncertain, this`interrupted
      ensures Counted() && failed == old(failed) + 1 && lost == old(lost) + multiset{s}
      ensures uncertainly ==> uncertain && interrupted
    {
      failed, lost := failed + 1, lost + multiset{s};
      var expired: bool := *;
      if uncertainly { uncertain, interrupted := true, true; }
      if expired { interrupted := true; }
    }
  }

  ghost predicate Has(bag: multiset<Sub>, id: Id) { exists s :: s in bag && s.id == id }

  /// How the checkpoint moved from `a` to `b` while `moved` and `lost` settled.
  ghost predicate Progressed(a: map<Id, Progress>, b: map<Id, Progress>, moved: multiset<Sub>, lost: multiset<Sub>, rollback: bool) {
    && (forall id :: !Has(moved, id) && !Has(lost, id) ==> SameDone(Entry(a, id), Entry(b, id)))
    && (forall s :: s in moved ==> Finished(Entry(b, s.id), rollback))
    && (forall s :: s in lost && !Has(moved, s.id) ==> Finished(Entry(a, s.id), rollback) == Finished(Entry(b, s.id), rollback))
  }

  /// The ledger of one chunk. `bag` is what it was given, all planned; each of
  /// them has settled in exactly one way or is still `waiting`; and the
  /// checkpoint agrees.
  ghost predicate Ledger(plan: seq<Sub>, bag: multiset<Sub>, start: map<Id, Progress>, now: map<Id, Progress>,
                         moved: multiset<Sub>, lost: multiset<Sub>, blocked: multiset<Sub>, waiting: multiset<Sub>, rollback: bool)
  {
    && DistinctIds(plan) && bag <= multiset(plan)
    && moved + lost + blocked + waiting == bag
    && Progressed(start, now, moved, lost, rollback)
    && Unfinished(waiting, now, rollback)
  }

  ghost predicate Unfinished(waiting: multiset<Sub>, now: map<Id, Progress>, rollback: bool) {
    forall s :: s in waiting ==> !Finished(Entry(now, s.id), rollback)
  }

  lemma PlanIsSingle(plan: seq<Sub>, s: Sub)
    requires DistinctIds(plan)
    ensures multiset(plan)[s] <= 1
  {
    if s in plan {
      var i :| 0 <= i < |plan| && plan[i] == s;
      assert plan == plan[..i] + [s] + plan[i + 1..];
      assert s !in plan[..i] && s !in plan[i + 1..];
    }
  }

  /// What waits has not settled under its id.
  lemma WaitingIsFresh(plan: seq<Sub>, settled: multiset<Sub>, s: Sub)
    requires DistinctIds(plan) && settled + multiset{s} <= multiset(plan)
    ensures s in plan && !Has(settled, s.id)
  {
    assert s in settled + multiset{s};
    assert s in multiset(plan);
    if t :| t in settled && t.id == s.id {
      assert t in settled + multiset{s};
      assert t in multiset(plan);
      SameId(plan, s, t);
      PlanIsSingle(plan, s);
      assert false;
    }
  }

  /// Settling one leaves the others unfinished.
  lemma RestUnfinished(plan: seq<Sub>, b: map<Id, Progress>, c: map<Id, Progress>, waiting: multiset<Sub>, s: Sub, rollback: bool)
    requires DistinctIds(plan) && waiting + multiset{s} <= multiset(plan) && OnlyEntry(b, c, s.id)
    requires Unfinished(waiting + multiset{s}, b, rollback)
    ensures Unfinished(waiting, c, rollback)
  {
    forall t | t in waiting ensures !Finished(Entry(c, t.id), rollback) {
      assert t in waiting + multiset{s};
      WaitingIsFresh(plan, waiting, s);
      assert Has(waiting, t.id);
    }
  }

  lemma {:induction false} LedgerMoves(plan: seq<Sub>, bag: multiset<Sub>, a: map<Id, Progress>, b: map<Id, Progress>, c: map<Id, Progress>,
                    moved: multiset<Sub>, lost: multiset<Sub>, blocked: multiset<Sub>, waiting: multiset<Sub>, s: Sub, rollback: bool)
    requires Ledger(plan, bag, a, b, moved, lost, blocked, waiting + multiset{s}, rollback) && OnlyEntry(b, c, s.id)
    requires Finished(Entry(c, s.id), rollback)
    ensures Ledger(plan, bag, a, c, moved + multiset{s}, lost, blocked, waiting, rollback)
  {
    WaitingIsFresh(plan, moved + lost, s);
    NotHas(moved, lost, s.id);
    RestUnfinished(plan, b, c, waiting, s, rollback);
    ProgressedMoves(a, b, c, moved, lost, s, rollback);
  }

  lemma {:induction false} LedgerLoses(plan: seq<Sub>, bag: multiset<Sub>, a: map<Id, Progress>, b: map<Id, Progress>, c: map<Id, Progress>,
                    moved: multiset<Sub>, lost: multiset<Sub>, blocked: multiset<Sub>, waiting: multiset<Sub>, s: Sub, rollback: bool)
    requires Ledger(plan, bag, a, b, moved, lost, blocked, waiting + multiset{s}, rollback) && OnlyEntry(b, c, s.id)
    requires Finished(Entry(b, s.id), rollback) == Finished(Entry(c, s.id), rollback)
    ensures Ledger(plan, bag, a, c, moved, lost + multiset{s}, blocked, waiting, rollback)
  {
    WaitingIsFresh(plan, moved + lost, s);
    NotHas(moved, lost, s.id);
    RestUnfinished(plan, b, c, waiting, s, rollback);
    ProgressedLoses(a, b, c, moved, lost, s, rollback);
  }

  lemma LedgerBlocks(plan: seq<Sub>, bag: multiset<Sub>, a: map<Id, Progress>, b: map<Id, Progress>, c: map<Id, Progress>,
                     moved: multiset<Sub>, lost: multiset<Sub>, blocked: multiset<Sub>, waiting: multiset<Sub>, s: Sub, rollback: bool)
    requires Ledger(plan, bag, a, b, moved, lost, blocked, waiting + multiset{s}, rollback) && OnlyEntry(b, c, s.id)
    requires SameDone(Entry(b, s.id), Entry(c, s.id))
    ensures Ledger(plan, bag, a, c, moved, lost, blocked + multiset{s}, waiting, rollback)
  {
    RestUnfinished(plan, b, c, waiting, s, rollback);
    ProgressedSame(a, b, c, moved, lost, s, rollback);
  }

  /// Work on a waiting subscription that has not settled it yet.
  lemma LedgerWaits(plan: seq<Sub>, bag: multiset<Sub>, a: map<Id, Progress>, b: map<Id, Progress>, c: map<Id, Progress>,
                    moved: multiset<Sub>, lost: multiset<Sub>, blocked: multiset<Sub>, waiting: multiset<Sub>, s: Sub, rollback: bool)
    requires Ledger(plan, bag, a, b, moved, lost, blocked, waiting, rollback) && OnlyEntry(b, c, s.id)
    requires SameDone(Entry(b, s.id), Entry(c, s.id))
    ensures Ledger(plan, bag, a, c, moved, lost, blocked, waiting, rollback)
  {
    ProgressedSame(a, b, c, moved, lost, s, rollback);
  }

  lemma LedgerStarts(plan: seq<Sub>, bag: multiset<Sub>, a: map<Id, Progress>, rollback: bool)
    requires DistinctIds(plan) && bag <= multiset(plan) && Unfinished(bag, a, rollback)
    ensures Ledger(plan, bag, a, a, multiset{}, multiset{}, multiset{}, bag, rollback)
  {
    assert multiset{} + multiset{} + multiset{} + bag == bag;
  }

  lemma LedgerIsPlanned(plan: seq<Sub>, bag: multiset<Sub>, a: map<Id, Progress>, b: map<Id, Progress>,
                        moved: multiset<Sub>, lost: multiset<Sub>, blocked: multiset<Sub>, waiting: multiset<Sub>, s: Sub, rollback: bool)
    requires Ledger(plan, bag, a, b, moved, lost, blocked, waiting, rollback) && s in waiting
    ensures s in plan && !Finished(Entry(b, s.id), rollback)
  {
    assert s in bag;
    assert s in multiset(plan);
  }

  lemma LedgerCount(plan: seq<Sub>, bag: multiset<Sub>, a: map<Id, Progress>, b: map<Id, Progress>,
                    moved: multiset<Sub>, lost: multiset<Sub>, blocked: multiset<Sub>, waiting: multiset<Sub>, rollback: bool)
    requires Ledger(plan, bag, a, b, moved, lost, blocked, waiting, rollback)
    ensures |moved| + |lost| + |blocked| + |waiting| == |bag|
  {
    assert |moved + lost + blocked + waiting| == |moved| + |lost| + |blocked| + |waiting|;
  }

  lemma NotHas(moved: multiset<Sub>, lost: multiset<Sub>, id: Id)
    requires !Has(moved + lost, id)
    ensures !Has(moved, id) && !Has(lost, id)
  {
    assert forall s :: s in moved || s in lost ==> s in moved + lost;
  }

  lemma ProgressedMoves(a: map<Id, Progress>, b: map<Id, Progress>, c: map<Id, Progress>, moved: multiset<Sub>, lost: multiset<Sub>, s: Sub, rollback: bool)
    requires Progressed(a, b, moved, lost, rollback) && OnlyEntry(b, c, s.id)
    requires !Has(moved, s.id) && !Has(lost, s.id) && Finished(Entry(c, s.id), rollback)
    ensures Progressed(a, c, moved + multiset{s}, lost, rollback)
  {
    var moved' := moved + multiset{s};
    assert s in moved';
    forall id | !Has(moved', id) && !Has(lost, id) ensures SameDone(Entry(a, id), Entry(c, id)) {
      assert forall t :: t in moved ==> t in moved';
      assert !Has(moved, id);
      assert id != s.id;
    }
    forall t | t in moved' ensures Finished(Entry(c, t.id), rollback) {
      if t !in moved { assert t == s; } else if t.id != s.id { assert Entry(b, t.id) == Entry(c, t.id); }
    }
    forall t | t in lost && !Has(moved', t.id)
      ensures Finished(Entry(a, t.id), rollback) == Finished(Entry(c, t.id), rollback)
    {
      assert forall u :: u in moved ==> u in moved';
      assert !Has(moved, t.id) && t.id != s.id;
    }
  }

  lemma ProgressedLoses(a: map<Id, Progress>, b: map<Id, Progress>, c: map<Id, Progress>, moved: multiset<Sub>, lost: multiset<Sub>, s: Sub, rollback: bool)
    requires Progressed(a, b, moved, lost, rollback) && OnlyEntry(b, c, s.id)
    requires !Has(moved, s.id) && !Has(lost, s.id)
    requires Finished(Entry(b, s.id), rollback) == Finished(Entry(c, s.id), rollback)
    ensures Progressed(a, c, moved, lost + multiset{s}, rollback)
  {
    var lost' := lost + multiset{s};
    assert s in lost';
    forall id | !Has(moved, id) && !Has(lost', id) ensures SameDone(Entry(a, id), Entry(c, id)) {
      assert forall t :: t in lost ==> t in lost';
      assert !Has(lost, id);
      assert id != s.id;
    }
    forall t | t in moved ensures Finished(Entry(c, t.id), rollback) {
      assert Has(moved, t.id);
      assert Entry(b, t.id) == Entry(c, t.id);
    }
    forall t | t in lost' && !Has(moved, t.id)
      ensures Finished(Entry(a, t.id), rollback) == Finished(Entry(c, t.id), rollback)
    {
      if t.id == s.id {
        assert SameDone(Entry(a, s.id), Entry(b, s.id));
      } else {
        assert t in lost;
      }
    }
  }

  lemma ProgressedSame(a: map<Id, Progress>, b: map<Id, Progress>, c: map<Id, Progress>, moved: multiset<Sub>, lost: multiset<Sub>, s: Sub, rollback: bool)
    requires Progressed(a, b, moved, lost, rollback) && OnlyEntry(b, c, s.id)
    requires SameDone(Entry(b, s.id), Entry(c, s.id))
    ensures Progressed(a, c, moved, lost, rollback)
  {
    forall id | !Has(moved, id) && !Has(lost, id) ensures SameDone(Entry(a, id), Entry(c, id)) {
      assert SameDone(Entry(a, id), Entry(b, id));
    }
    forall t | t in moved ensures Finished(Entry(c, t.id), rollback) {
      if t.id != s.id { assert Entry(b, t.id) == Entry(c, t.id); }
    }
    forall t | t in lost && !Has(moved, t.id)
      ensures Finished(Entry(a, t.id), rollback) == Finished(Entry(c, t.id), rollback)
    {
      if t.id != s.id { assert Entry(b, t.id) == Entry(c, t.id); }
    }
  }

  lemma SameIsUnfinished(p: Progress, q: Progress, rollback: bool)
    requires SameDone(p, q) && !Finished(p, rollback)
    ensures forall n :: !Finished(q.(attempts := n), rollback)
    ensures !Finished(q, rollback)
  {}

  lemma EntryUpdated(a: map<Id, Progress>, b: map<Id, Progress>, id: Id, p: Progress)
    requires OnlyEntry(a, b, id)
    ensures OnlyEntry(a, b[id := p], id) && Entry(b[id := p], id) == p
  {}

  class Worker {
    const m: Migrator
    const rollback: bool
    const size: nat  // ChunkSize after its default of 15

    constructor (m: Migrator, rollback: bool, chunkSize: nat)
      ensures this.m == m && this.rollback == rollback
    {
      this.m, this.rollback, this.size := m, rollback, if chunkSize == 0 then 15 else chunkSize;
    }

    ghost predicate Working(out: Chunk, start: map<Id, Progress>, now: map<Id, Progress>, bag: multiset<Sub>, waiting: multiset<Sub>)
      reads this, m, m.cloud, out
    {
      Ledger(m.cloud.Plan(), bag, start, now, out.moved, out.lost, out.blocked, waiting, rollback)
    }

    /// A broken checkpoint ends the run.
    ghost predicate Sane(out: Chunk)
      reads this, m, m.cloud, out
    {
      m.Valid() && m.cloud.admitted && m.cloud.rollback == rollback && (m.broken ==> out.fatal) && out.Counted()
    }

    /// `Migrator.settle`: records one subscription's outcome.
    method Settle(out: Chunk, source: Sub, r: Result<()>,
                  ghost start: map<Id, Progress>, ghost before: map<Id, Progress>, ghost bag: multiset<Sub>, ghost waiting: multiset<Sub>)
      requires m.Valid() && m.cloud.admitted && m.cloud.rollback == rollback && out.Counted() && !out.fatal && source in m.cloud.Plan()
      requires Working(out, start, before, bag, waiting + multiset{source}) && OnlyEntry(before, m.entries, source.id)
      requires r.Ok? ==> Finished(Entry(m.entries, source.id), rollback)
      requires r.Err? && !Fatal(r.f) ==> SameDone(Entry(before, source.id), Entry(m.entries, source.id))
      requires m.broken ==> r.Err? && Fatal(r.f)
      modifies m, m.cloud, out
      ensures m.Steps() && Sane(out) && m.cloud.world.subs == old(m.cloud.world.subs)
      ensures out.rest == old(out.rest) && out.work == old(out.work)
      ensures !out.fatal ==> Working(out, start, m.entries, bag, waiting)
      ensures old(out.migrated) + old(out.failed) <= out.migrated + out.failed <= old(out.migrated) + old(out.failed) + 1
      ensures r.Ok? ==> out.migrated == old(out.migrated) + 1 && out.failed == old(out.failed) && out.costBlocked == old(out.costBlocked)
      ensures r.Err? && r.f.kind.CostBlocked? ==>
        out.costBlocked == old(out.costBlocked) + 1 && out.migrated == old(out.migrated) && out.failed == old(out.failed)
      ensures r.Err? && !r.f.kind.CostBlocked? && !out.fatal ==>
        && out.failed == old(out.failed) + 1 && out.migrated == old(out.migrated) && out.costBlocked == old(out.costBlocked)
        && Entry(m.entries, source.id) == Entry(old(m.entries), source.id).(attempts := Entry(old(m.entries), source.id).attempts + 1)
        && (r.f.uncertain ==> out.uncertain && out.interrupted)
      ensures old(out.failed) <= out.failed && (out.interrupted ==> old(out.interrupted) || out.failed > 0)
    {
      hide Provider.History, Ledger, Evolves, OnlyEntry, SameDone, Finished;
      EvolvesRefl(m.cloud.world);
      ghost var plan := m.cloud.Plan();
      if r.Ok? {
        LedgerMoves(plan, bag, start, before, m.entries, out.moved, out.lost, out.blocked, waiting, source, rollback);
        out.Move(source);
      } else if r.f.kind.CostBlocked? {
        LedgerBlocks(plan, bag, start, before, m.entries, out.moved, out.lost, out.blocked, waiting, source, rollback);
        out.Block(source);
      } else {
        var cancelled: bool := *;
        if cancelled || Fatal(r.f) {
          out.fatal := true;
        } else {
          Fail(out, source, r.f.uncertain, start, before, bag, waiting);
        }
      }
    }

    method Fail(out: Chunk, source: Sub, uncertain: bool,
                ghost start: map<Id, Progress>, ghost before: map<Id, Progress>, ghost bag: multiset<Sub>, ghost waiting: multiset<Sub>)
      requires m.Valid() && m.cloud.admitted && m.cloud.rollback == rollback && !m.broken && out.Counted() && !out.fatal && source in m.cloud.Plan()
      requires Working(out, start, before, bag, waiting + multiset{source}) && OnlyEntry(before, m.entries, source.id)
      requires SameDone(Entry(before, source.id), Entry(m.entries, source.id))
      modifies m, m.cloud, out
      ensures m.Steps() && Sane(out) && m.cloud.world.subs == old(m.cloud.world.subs)
      ensures out.rest == old(out.rest) && out.work == old(out.work)
      ensures !out.fatal ==> Working(out, start, m.entries, bag, waiting)
      ensures out.migrated == old(out.migrated) && old(out.failed) <= out.failed <= old(out.failed) + 1
      ensures !out.fatal ==>
        && out.failed == old(out.failed) + 1 && (uncertain ==> out.uncertain && out.interrupted)
        && Entry(m.entries, source.id) == Entry(old(m.entries), source.id).(attempts := Entry(old(m.entries), source.id).attempts + 1)
      ensures out.costBlocked == old(out.costBlocked)
      ensures out.interrupted ==> old(out.interrupted) || out.failed > 0
    {
      hide Provider.History, Ledger, Evolves, OnlyEntry, SameDone, Finished;
      LedgerIsPlanned(m.cloud.Plan(), bag, start, before, out.moved, out.lost, out.blocked, waiting + multiset{source}, source, rollback);
      SameIsUnfinished(Entry(before, source.id), Entry(m.entries, source.id), rollback);
      EntryUpdated(before, m.entries, source.id, Entry(m.entries, source.id).(attempts := Entry(m.entries, source.id).attempts + 1));
      var saved := m.RecordFailure(source);
      if saved.Err? { out.fatal := true; return; }
      LedgerLoses(m.cloud.Plan(), bag, start, before, m.entries, out.moved, out.lost, out.blocked, waiting, source, rollback);
      out.Lose(source, uncertain);
    }

    /// `chunkFull`: the count limits, and budgets of time and rate.
    method ChunkFull(out: Chunk, allowed: nat) returns (full: bool)
      ensures full ==> out.work > 0
      ensures allowed > 0 && out.work >= allowed ==> full
    {
      var late: bool := *;
      full := (allowed > 0 && out.work >= allowed) || (out.work > 0 && (out.work >= size || late));
    }

    ghost predicate Starting(out: Chunk, start: map<Id, Progress>)
      reads this, m, m.cloud, out
    {
      && Sane(out) && !out.fatal && !out.interrupted && out.work == out.migrated == out.failed == 0
      && |out.rest| > 0 && m.entries == start && Working(out, start, start, multiset(out.rest), multiset(out.rest))
    }

    /// One round of `rollbackChunk`.
    method RollbackOne(out: Chunk, source: Sub, ghost start: map<Id, Progress>, ghost bag: multiset<Sub>, ghost waiting: multiset<Sub>)
      requires rollback && Sane(out) && !out.fatal && Working(out, start, m.entries, bag, waiting + multiset{source})
      modifies m, m.cloud, out
      ensures Sane(out) && old(m.cloud.log) <= m.cloud.log
      ensures !out.fatal ==> Working(out, start, m.entries, bag, waiting)
      ensures old(out.work) <= out.work <= old(out.work) + 1
      ensures out.migrated + out.failed - old(out.migrated + out.failed) <= out.work - old(out.work)
    {
      hide Provider.History, Ledger, Evolves, OnlyEntry;
      ghost var before := m.entries;
      LedgerIsPlanned(m.cloud.Plan(), bag, start, before, out.moved, out.lost, out.blocked, waiting + multiset{source}, source, rollback);
      var r := m.Rollback(source);
      if !(r.Err? && r.f.kind.CostBlocked?) { out.work := out.work + 1; }
      Settle(out, source, r, start, before, bag, waiting);
    }

    /// `rollbackChunk`.
    method RollbackChunk(out: Chunk, allowed: nat, ghost start: map<Id, Progress>)
      requires rollback && Starting(out, start)
      modifies m, m.cloud, out
      ensures Sane(out) && old(m.cloud.log) <= m.cloud.log
      ensures !out.fatal ==> Working(out, start, m.entries, multiset(old(out.rest)), multiset(out.rest)) && |out.rest| < |old(out.rest)|
      ensures allowed > 0 ==> out.migrated + out.failed <= allowed
    {
      hide Provider.History, Ledger;
      var subs := out.rest;
      ghost var bag, firstLog := multiset(subs), m.cloud.log;
      var i := 0;
      assert subs[0..] == subs;
      while i < |subs| && !out.fatal && !out.interrupted
        invariant 0 <= i <= |subs| && Sane(out) && firstLog <= m.cloud.log
        invariant !out.fatal ==> Working(out, start, m.entries, bag, multiset(subs[i..]))
        invariant i == 0 ==> out.work == 0 && !out.fatal && !out.interrupted
        invariant out.migrated + out.failed <= out.work && (allowed > 0 ==> out.work <= allowed)
      {
        var full := ChunkFull(out, allowed);
        if full { break; }
        TailBag(subs, i);
        RollbackOne(out, subs[i], start, bag, multiset(subs[i + 1..]));
        i := i + 1;
      }
      out.rest := subs[i..];
    }

    /// One round of the first loop of `forwardChunk`.
    method PrepareOne(out: Chunk, source: Sub, listing: Listing, ghost start: map<Id, Progress>, ghost bag: multiset<Sub>, ghost waiting: multiset<Sub>)
      returns (kept: Option<Prepared>)
      requires !rollback && Sane(out) && !out.fatal && Working(out, start, m.entries, bag, waiting + multiset{source})
      requires forall u :: u in listing.data ==> Reflects(m.cloud.world, u)
      modifies m, m.cloud, out
      ensures Sane(out) && m.Steps()
      ensures !out.fatal ==> Working(out, start, m.entries, bag, if kept.Some? then waiting + multiset{source} else waiting)
      ensures kept.Some? && kept.value.Move? ==> Matches(kept.value.target, source, Target)
      ensures old(out.work) <= out.work <= old(out.work) + 1
      ensures out.migrated + out.failed - old(out.migrated + out.failed) + (if kept.Some? then 1 else 0) <= out.work - old(out.work)
      ensures old(out.failed) <= out.failed && (out.interrupted ==> old(out.interrupted) || out.failed > 0)
    {
      hide Provider.History, Ledger, Evolves, OnlyEntry, Reflects;
      ghost var before := m.entries;
      LedgerIsPlanned(m.cloud.Plan(), bag, start, before, out.moved, out.lost, out.blocked, waiting + multiset{source}, source, rollback);
      var r := m.Prepare(source, listing);
      ghost var prepared := m.cloud.world;
      if !(r.Err? && r.f.kind.CostBlocked?) { out.work := out.work + 1; }
      if r.Ok? {
        LedgerWaits(m.cloud.Plan(), bag, start, before, m.entries, out.moved, out.lost, out.blocked, waiting + multiset{source}, source, rollback);
        return Some(r.value);
      }
      Settle(out, source, Err(r.f), start, before, bag, waiting);
      EvolvesTrans(old(m.cloud.world), prepared, m.cloud.world);
      return None;
    }

    /// Deletes the source of one verified move, or settles its failure.
    method MoveOne(out: Chunk, source: Sub, target: Sub, live: Listing, failure: Result<()>, listedAt: nat, seenAt: nat,
                   ghost start: map<Id, Progress>, ghost bag: multiset<Sub>, ghost waiting: multiset<Sub>)
      requires !rollback && Sane(out) && !out.fatal && Working(out, start, m.entries, bag, waiting + multiset{source})
      requires target.desc == source.desc && Verdict(m.cloud.log, m.cloud.world, target, failure, true, seenAt)
      requires listedAt < |m.cloud.log| && m.cloud.log[listedAt].what == Listed(live.data)
      requires forall u :: u in live.data ==> Reflects(m.cloud.world, u)
      modifies m, m.cloud, out
      ensures Sane(out) && m.Steps()
      ensures forall id :: id in old(m.cloud.world.subs) && old(m.cloud.world.subs)[id].callback.Target? ==> id in m.cloud.world.subs
      ensures !out.fatal ==> Working(out, start, m.entries, bag, waiting)
      ensures out.migrated + out.failed <= old(out.migrated + out.failed) + 1 && out.work == old(out.work) && out.rest == old(out.rest)
      ensures old(out.failed) <= out.failed && (out.interrupted ==> old(out.interrupted) || out.failed > 0)
    {
      hide Provider.History, Ledger, Evolves, OnlyEntry, Reflects;
      EvolvesRefl(m.cloud.world);
      ghost var before := m.entries;
      LedgerIsPlanned(m.cloud.Plan(), bag, start, before, out.moved, out.lost, out.blocked, waiting + multiset{source}, source, rollback);
      var r := failure;
      SameEntries(m.entries, source.id);
      if r.Ok? { r := m.DeleteSource(source, target, live, listedAt, seenAt); }
      ghost var deleted := m.cloud.world;
      Settle(out, source, r, start, before, bag, waiting);
      EvolvesTrans(old(m.cloud.world), deleted, m.cloud.world);
    }

    /// Step 3 of `forwardChunk`: awaits the destinations, then deletes the
    /// sources one by one.
    method MoveAll(out: Chunk, owner: Sub, sources: seq<Sub>, targets: seq<Sub>,
                   ghost start: map<Id, Progress>, ghost bag: multiset<Sub>, ghost waiting: multiset<Sub>)
      requires !rollback && Sane(out) && !out.fatal && Working(out, start, m.entries, bag, waiting + multiset(sources))
      requires |sources| == |targets| && forall j :: 0 <= j < |sources| ==> targets[j].desc == sources[j].desc
      modifies m, m.cloud, out
      ensures Sane(out) && old(m.cloud.log) <= m.cloud.log
      ensures !out.fatal ==> Working(out, start, m.entries, bag, waiting)
      ensures out.migrated + out.failed <= old(out.migrated + out.failed) + |sources| && out.work == old(out.work) && out.rest == old(out.rest)
      ensures old(out.failed) <= out.failed && (out.interrupted ==> old(out.interrupted) || out.failed > 0)
    {
      hide Provider.History, Ledger, Evolves, Reflects, SeenAt;
      var live, failures, listedAt, seen := m.AwaitEnabled(owner, targets);
      ghost var firstLog := m.cloud.log;
      assert sources[0..] == sources;
      for j := 0 to |sources|
        invariant Sane(out) && firstLog <= m.cloud.log && !out.fatal
        invariant Working(out, start, m.entries, bag, waiting + multiset(sources[j..]))
        invariant forall u :: u in live.data ==> Reflects(m.cloud.world, u)
        invariant Verdicts(m.cloud.log, m.cloud.world, targets, failures, seen, j)
        invariant out.migrated + out.failed <= old(out.migrated + out.failed) + j && out.work == old(out.work) && out.rest == old(out.rest)
        invariant old(out.failed) <= out.failed && (out.interrupted ==> old(out.interrupted) || out.failed > 0)
      {
        TailBag(sources, j);
        assert waiting + multiset(sources[j..]) == waiting + multiset(sources[j + 1..]) + multiset{sources[j]};
        ghost var before, beforeLog := m.cloud.world, m.cloud.log;
        assert Verdict(m.cloud.log, before, targets[j], failures[j], true, seen[j]);
        MoveOne(out, sources[j], targets[j], live, failures[j], listedAt, seen[j], start, bag, waiting + multiset(sources[j + 1..]));
        ReflectsLasts(before, m.cloud.world, live.data);
        VerdictsLast(beforeLog, before, m.cloud.log, m.cloud.world, targets, failures, seen, j);
        if out.fatal { return; }
      }
      assert waiting + multiset(sources[|sources|..]) == waiting;
    }

    /// The lease expired before verification: every move fails.
    method FailAll(out: Chunk, sources: seq<Sub>, ghost start: map<Id, Progress>, ghost bag: multiset<Sub>, ghost waiting: multiset<Sub>)
      requires Sane(out) && !out.fatal && Working(out, start, m.entries, bag, waiting + multiset(sources))
      modifies m, m.cloud, out
      ensures Sane(out) && old(m.cloud.log) <= m.cloud.log
      ensures !out.fatal ==> Working(out, start, m.entries, bag, waiting)
      ensures out.migrated + out.failed <= old(out.migrated + out.failed) + |sources| && out.work == old(out.work) && out.rest == old(out.rest)
      ensures old(out.failed) <= out.failed && (out.interrupted ==> old(out.interrupted) || out.failed > 0)
    {
      hide Provider.History, Ledger, Evolves, OnlyEntry;
      ghost var firstLog := m.cloud.log;
      assert sources[0..] == sources;
      for j := 0 to |sources|
        invariant Sane(out) && firstLog <= m.cloud.log
        invariant !out.fatal ==> Working(out, start, m.entries, bag, waiting + multiset(sources[j..]))
        invariant out.migrated + out.failed <= old(out.migrated + out.failed) + j && out.work == old(out.work) && out.rest == old(out.rest)
        invariant old(out.failed) <= out.failed && (out.interrupted ==> old(out.interrupted) || out.failed > 0)
      {
        if out.fatal { return; }
        TailBag(sources, j);
        ghost var before, left := m.entries, waiting + multiset(sources[j + 1..]);
        assert waiting + multiset(sources[j..]) == left + multiset{sources[j]};
        LedgerIsPlanned(m.cloud.Plan(), bag, start, before, out.moved, out.lost, out.blocked, left + multiset{sources[j]}, sources[j], rollback);
        SameEntries(before, sources[j].id);
        Settle(out, sources[j], Err(Failure(Plain, false)), start, before, bag, left);
      }
      assert waiting + multiset(sources[|sources|..]) == waiting;
    }

    /// Step 4 of `forwardChunk`: one break-before-make.
    method SwapOne(out: Chunk, source: Sub, ghost start: map<Id, Progress>, ghost bag: multiset<Sub>, ghost waiting: multiset<Sub>)
      requires !rollback && Sane(out) && !out.fatal && Working(out, start, m.entries, bag, waiting + multiset{source})
      modifies m, m.cloud, out
      ensures Sane(out) && old(m.cloud.log) <= m.cloud.log
      ensures !out.fatal ==> Working(out, start, m.entries, bag, waiting)
      ensures out.migrated + out.failed <= old(out.migrated + out.failed) + 1 && out.work == old(out.work) && out.rest == old(out.rest)
      ensures out.interrupted ==> old(out.interrupted) || out.failed > 0
    {
      hide Provider.History, Ledger, Evolves, OnlyEntry;
      ghost var before := m.entries;
      LedgerIsPlanned(m.cloud.Plan(), bag, start, before, out.moved, out.lost, out.blocked, waiting + multiset{source}, source, rollback);
      var r := m.BreakBeforeMake(source);
      Settle(out, source, r, start, before, bag, waiting);
    }

    method HandBack(out: Chunk, left: seq<Sub>, ghost start: map<Id, Progress>, ghost bag: multiset<Sub>)
      requires Sane(out) && Working(out, start, m.entries, bag, multiset(out.rest) + multiset(left))
      requires |out.rest| + |left| < |bag| || out.failed > 0
      modifies out`rest, out`work
      ensures Sane(out) && Working(out, start, m.entries, bag, multiset(out.rest)) && |out.rest| < |bag|
    {
      hide Provider.History, Ledger;
      LedgerCount(m.cloud.Plan(), bag, start, m.entries, out.moved, out.lost, out.blocked, multiset(out.rest) + multiset(left), rollback);
      assert multiset(left + out.rest) == multiset(out.rest) + multiset(left);
      out.work := out.work - |left|;
      out.rest := left + out.rest;
    }

    /// Step 4 of `forwardChunk`: break-before-make one at a time. What no
    /// longer fits goes back in front of the rest.
    method SwapAll(out: Chunk, swaps: seq<Sub>, ghost start: map<Id, Progress>, ghost bag: multiset<Sub>)
      requires !rollback && Sane(out) && !out.fatal && (out.interrupted ==> out.failed > 0)
      requires Working(out, start, m.entries, bag, multiset(out.rest) + multiset(swaps))
      requires |out.rest| + |swaps| < |bag| || swaps != []
      modifies m, m.cloud, out
      ensures Sane(out) && old(m.cloud.log) <= m.cloud.log
      ensures !out.fatal ==> Working(out, start, m.entries, bag, multiset(out.rest)) && |out.rest| < |bag|
      ensures out.migrated + out.failed <= old(out.migrated + out.failed) + |swaps|
    {
      hide Provider.History, Ledger, Migrator.Valid;
      var rest := out.rest;
      ghost var firstLog := m.cloud.log;
      assert swaps[0..] == swaps;
      LedgerCount(m.cloud.Plan(), bag, start, m.entries, out.moved, out.lost, out.blocked, multiset(rest) + multiset(swaps), rollback);
      for j := 0 to |swaps|
        invariant Sane(out) && firstLog <= m.cloud.log && !out.fatal && out.rest == rest
        invariant Working(out, start, m.entries, bag, multiset(rest) + multiset(swaps[j..]))
        invariant out.migrated + out.failed <= old(out.migrated + out.failed) + j
        invariant (out.interrupted ==> out.failed > 0) && (j > 0 ==> |rest| + |swaps| - j < |bag|)
      {
        var late: bool := *;
        if out.interrupted || (j > 0 && late) {
          HandBack(out, swaps[j..], start, bag);
          return;
        }
        TailBag(swaps, j);
        assert multiset(rest) + multiset(swaps[j..]) == multiset(rest) + multiset(swaps[j + 1..]) + multiset{swaps[j]};
        SwapOne(out, swaps[j], start, bag, multiset(rest) + multiset(swaps[j + 1..]));
        if out.fatal { return; }
        LedgerCount(m.cloud.Plan(), bag, start, m.entries, out.moved, out.lost, out.blocked, multiset(rest) + multiset(swaps[j + 1..]), rollback);
      }
      assert multiset(rest) + multiset(swaps[|swaps|..]) == multiset(rest);
      LedgerCount(m.cloud.Plan(), bag, start, m.entries, out.moved, out.lost, out.blocked, multiset(rest), rollback);
    }

    /// The first loop of `forwardChunk`: destinations for as many subscriptions
    /// as fit, the others being settled or set aside.
    method PrepareAll(out: Chunk, listing: Listing, allowed: nat, ghost start: map<Id, Progress>)
      returns (sources: seq<Sub>, targets: seq<Sub>, swaps: seq<Sub>)
      requires !rollback && Starting(out, start) && forall u :: u in listing.data ==> Reflects(m.cloud.world, u)
      modifies m, m.cloud, out
      ensures Sane(out) && old(m.cloud.log) <= m.cloud.log && (out.interrupted ==> out.failed > 0)
      ensures |sources| == |targets| && forall j :: 0 <= j < |sources| ==> targets[j].desc == sources[j].desc
      ensures !out.fatal ==>
        && Working(out, start, m.entries, multiset(old(out.rest)), multiset(out.rest) + multiset(sources) + multiset(swaps))
        && |out.rest| < |old(out.rest)|
      ensures out.migrated + out.failed + |sources| + |swaps| <= out.work
      ensures allowed > 0 ==> out.work <= allowed
    {
      hide Provider.History, Ledger, Evolves, Reflects, Bags;
      var subs := out.rest;
      ghost var bag, firstLog := multiset(subs), m.cloud.log;
      sources, targets, swaps := [], [], [];
      var i := 0;
      assert subs[0..] == subs;
      BagsStart(subs);
      while i < |subs| && !out.fatal && !out.interrupted
        invariant 0 <= i <= |subs| && Sane(out) && firstLog <= m.cloud.log && (out.interrupted ==> out.failed > 0)
        invariant forall u :: u in listing.data ==> Reflects(m.cloud.world, u)
        invariant |sources| == |targets| && forall j :: 0 <= j < |sources| ==> targets[j].desc == sources[j].desc
        invariant !out.fatal ==> Working(out, start, m.entries, bag, Bags(subs, i, sources, swaps))
        invariant i == 0 ==> out.work == 0 && !out.fatal && !out.interrupted
        invariant out.migrated + out.failed + |sources| + |swaps| <= out.work && (allowed > 0 ==> out.work <= allowed)
      {
        var full := ChunkFull(out, allowed);
        if full { break; }
        var source := subs[i];
        ghost var kept := Bags(subs, i + 1, sources, swaps);
        BagsNext(subs, i, sources, swaps);
        ghost var before := m.cloud.world;
        var r := PrepareOne(out, source, listing, start, bag, kept);
        ReflectsLasts(before, m.cloud.world, listing.data);
        if r.Some? {
          if r.value.Swap? {
            swaps := swaps + [source];
          } else {
            sources, targets := sources + [source], targets + [r.value.target];
          }
        }
        i := i + 1;
      }
      BagsEnd(subs, i, sources, swaps);
      out.rest := subs[i..];
    }

    /// The listing failed: the first subscription fails, the others wait.
    method Unlisted(out: Chunk, listed: Result<()>, ghost start: map<Id, Progress>)
      requires !rollback && Starting(out, start) && listed.Err? && (listed.f.kind.Plain? || listed.f.kind.Unauthorized?)
      modifies m, m.cloud, out
      ensures Sane(out) && old(m.cloud.log) <= m.cloud.log
      ensures !out.fatal ==> Working(out, start, m.entries, multiset(old(out.rest)), multiset(out.rest)) && |out.rest| < |old(out.rest)|
      ensures out.migrated + out.failed <= 1
    {
      hide Provider.History, Ledger, Evolves, OnlyEntry;
      var subs := out.rest;
      ghost var bag := multiset(subs);
      out.rest, out.work := subs[1..], 1;
      TailBag(subs, 0);
      assert subs[0..] == subs;
      LedgerIsPlanned(m.cloud.Plan(), bag, start, start, out.moved, out.lost, out.blocked, bag, subs[0], rollback);
      SameEntries(start, subs[0].id);
      Settle(out, subs[0], listed, start, start, bag, multiset(subs[1..]));
      out.interrupted := true;
    }

    /// `forwardChunk`: list once; find or create destinations; verify them and
    /// delete the sources; then the set-aside break-before-makes.
    method ForwardChunk(out: Chunk, allowed: nat, ghost start: map<Id, Progress>)
      requires !rollback && Starting(out, start)
      modifies m, m.cloud, out
      ensures Sane(out) && old(m.cloud.log) <= m.cloud.log
      ensures !out.fatal ==> Working(out, start, m.entries, multiset(old(out.rest)), multiset(out.rest)) && |out.rest| < |old(out.rest)|
      ensures allowed > 0 ==> out.migrated + out.failed <= allowed
    {
      hide Provider.History, Ledger, Evolves, Reflects;
      var subs := out.rest;
      ghost var bag, firstLog := multiset(subs), m.cloud.log;
      var listing, listed, _ := m.cloud.List(UserOf(subs[0]));
      if listed.Err? {
        Unlisted(out, listed, start);
        return;
      }
      var sources, targets, swaps := PrepareAll(out, listing, allowed, start);
      if out.fatal { return; }
      var expired: bool := *;
      ghost var left := multiset(out.rest) + multiset(swaps);
      assert multiset(out.rest) + multiset(sources) + multiset(swaps) == left + multiset(sources);
      if |sources| > 0 && !expired {
        MoveAll(out, subs[0], sources, targets, start, bag, left);
      } else {
        FailAll(out, sources, start, bag, left);
      }
      if out.fatal { return; }
      SwapAll(out, swaps, start, bag);
    }
  }

  /// What `forwardChunk` still holds: unread, to be moved, and set aside.
  ghost function Bags(subs: seq<Sub>, i: nat, sources: seq<Sub>, swaps: seq<Sub>): multiset<Sub>
    requires i <= |subs|
  {
    multiset(subs[i..]) + multiset(sources) + multiset(swaps)
  }

  lemma BagsStart(subs: seq<Sub>)
    ensures Bags(subs, 0, [], []) == multiset(subs)
  {
    assert subs[0..] == subs;
  }

  lemma BagsEnd(subs: seq<Sub>, i: nat, sources: seq<Sub>, swaps: seq<Sub>)
    requires i <= |subs|
    ensures Bags(subs, i, sources, swaps) == multiset(subs[i..]) + multiset(sources) + multiset(swaps)
  {}

  lemma BagsNext(subs: seq<Sub>, i: nat, sources: seq<Sub>, swaps: seq<Sub>)
    requires i < |subs|
    ensures Bags(subs, i, sources, swaps) == Bags(subs, i + 1, sources, swaps) + multiset{subs[i]}
    ensures Bags(subs, i, sources, swaps) == Bags(subs, i + 1, sources + [subs[i]], swaps)
    ensures Bags(subs, i, sources, swaps) == Bags(subs, i + 1, sources, swaps + [subs[i]])
  {
    TailBag(subs, i);
  }

  lemma ReflectsLasts(a: World, b: World, view: seq<Sub>)
    requires Evolves(a, b) && forall u :: u in view ==> Reflects(a, u)
    ensures forall u :: u in view ==> Reflects(b, u)
  {}

  lemma SameEntries(a: map<Id, Progress>, id: Id)
    ensures OnlyEntry(a, a, id)
  {}

  lemma TailBag(subs: seq<Sub>, i: nat)
    requires i < |subs|
    ensures multiset(subs[i..]) == multiset(subs[i + 1..]) + multiset{subs[i]}
  {
    assert subs[i..] == [subs[i]] + subs[i + 1..];
  }
}
