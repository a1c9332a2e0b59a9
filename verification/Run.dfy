/// The EventSub callback migration, part 6: one invocation over all broadcasters,
/// and any number of invocations, each cut off anywhere.
module Run {
  import opened Wrappers
  import opened EventSub
  import opened Protocol
  import opened Cloud
  import opened Migration
  import opened Chunks
  import opened Order

  datatype Summary = Summary(planned: nat, migrated: nat, alreadyDone: nat, failed: nat, skippedFailed: nat, costBlocked: nat, remaining: nat)

  /// Why a run ended.
  datatype End = Completed | LimitReached | Refused | Stopped

  /// Neither done nor skipped after repeated failures, as the checkpoint stood
  /// when the run began.
  datatype Policy = Policy(rollback: bool, retryFailed: bool, maxAttempts: nat)

  predicate Skip(policy: Policy, entries: map<Id, Progress>, s: Sub) {
    !policy.retryFailed && Entry(entries, s.id).attempts >= policy.maxAttempts
  }

  datatype Class = AlreadyDone | Skipped | ToDo

  function ClassOf(policy: Policy, entries: map<Id, Progress>, s: Sub): Class {
    if Finished(Entry(entries, s.id), policy.rollback) then AlreadyDone
    else if Skip(policy, entries, s) then Skipped
    else ToDo
  }

  predicate Todo(policy: Policy, entries: map<Id, Progress>, s: Sub) { ClassOf(policy, entries, s).ToDo? }

  function Those(c: Class, policy: Policy, entries: map<Id, Progress>, subs: seq<Sub>): (r: seq<Sub>)
    ensures |r| <= |subs|
  {
    if subs == [] then []
    else if ClassOf(policy, entries, subs[0]) == c then [subs[0]] + Those(c, policy, entries, subs[1..])
    else Those(c, policy, entries, subs[1..])
  }

  lemma {:induction false} ThoseBag(c: Class, policy: Policy, entries: map<Id, Progress>, subs: seq<Sub>, s: Sub)
    ensures multiset(Those(c, policy, entries, subs))[s] == if ClassOf(policy, entries, s) == c then multiset(subs)[s] else 0
  {
    if subs != [] {
      assert subs == [subs[0]] + subs[1..];
      ThoseBag(c, policy, entries, subs[1..], s);
    }
  }

  function Select(policy: Policy, entries: map<Id, Progress>, subs: seq<Sub>): seq<Sub> {
    Those(ToDo, policy, entries, subs)
  }

  /// What the rest of the queue still has to do.
  ghost function Ahead(policy: Policy, entries: map<Id, Progress>, queue: seq<Group>): multiset<Sub> {
    if queue == [] then multiset{}
    else multiset(Select(policy, entries, queue[0].subs)) + Ahead(policy, entries, queue[1..])
  }

  lemma {:induction false} AheadBag(policy: Policy, entries: map<Id, Progress>, queue: seq<Group>, s: Sub)
    ensures Ahead(policy, entries, queue)[s] == if Todo(policy, entries, s) then Content(queue)[s] else 0
  {
    if queue != [] {
      AheadBag(policy, entries, queue[1..], s);
      ThoseBag(ToDo, policy, entries, queue[0].subs, s);
    }
  }

  ghost function Size(queue: seq<Group>): nat {
    if queue == [] then 0 else |queue[0].subs| + Size(queue[1..])
  }

  lemma QueueCons(policy: Policy, entries: map<Id, Progress>, g: Group, queue: seq<Group>)
    ensures Ahead(policy, entries, [g] + queue) == Ahead(policy, entries, queue) + multiset(Select(policy, entries, g.subs))
    ensures Size([g] + queue) == |g.subs| + Size(queue)
  {
    assert ([g] + queue)[1..] == queue;
  }

  lemma {:induction false} SizeAppend(queue: seq<Group>, g: Group)
    ensures Size(queue + [g]) == Size(queue) + |g.subs|
  {
    if queue != [] {
      assert (queue + [g])[1..] == queue[1..] + [g];
      SizeAppend(queue[1..], g);
    }
  }

  lemma {:induction false} AheadAppend(policy: Policy, entries: map<Id, Progress>, queue: seq<Group>, g: Group)
    ensures Ahead(policy, entries, queue + [g]) == Ahead(policy, entries, queue) + multiset(Select(policy, entries, g.subs))
  {
    if queue == [] {
      assert queue + [g] == [g];
    } else {
      assert (queue + [g])[1..] == queue[1..] + [g];
      AheadAppend(policy, entries, queue[1..], g);
    }
  }

  lemma {:induction false} AllSelected(policy: Policy, entries: map<Id, Progress>, subs: seq<Sub>)
    requires forall s :: s in subs ==> Todo(policy, entries, s)
    ensures Select(policy, entries, subs) == subs
  {
    if subs != [] {
      AllSelected(policy, entries, subs[1..]);
      assert Todo(policy, entries, subs[0]);
    }
  }

  lemma ProgressedContinues(a: map<Id, Progress>, b: map<Id, Progress>, c: map<Id, Progress>,
                            moved: multiset<Sub>, lost: multiset<Sub>, moved': multiset<Sub>, lost': multiset<Sub>, rollback: bool)
    requires Progressed(a, b, moved, lost, rollback) && Progressed(b, c, moved', lost', rollback)
    requires forall s :: s in moved || s in lost ==> !Has(moved', s.id) && !Has(lost', s.id)
    requires forall s :: s in moved' || s in lost' ==> !Has(moved, s.id) && !Has(lost, s.id)
    ensures Progressed(a, c, moved + moved', lost + lost', rollback)
  {
    forall id | !Has(moved + moved', id) && !Has(lost + lost', id) ensures SameDone(Entry(a, id), Entry(c, id)) {
      NotHas(moved, moved', id);
      NotHas(lost, lost', id);
    }
    forall s | s in moved + moved' ensures Finished(Entry(c, s.id), rollback) {
      if s in moved { assert SameDone(Entry(b, s.id), Entry(c, s.id)); }
    }
    forall s | s in lost + lost' && !Has(moved + moved', s.id)
      ensures Finished(Entry(a, s.id), rollback) == Finished(Entry(c, s.id), rollback)
    {
      NotHas(moved, moved', s.id);
      if s in lost {
        assert SameDone(Entry(b, s.id), Entry(c, s.id));
      } else {
        assert SameDone(Entry(a, s.id), Entry(b, s.id));
      }
    }
  }

  /// A chunk's ledger continues the run's.
  lemma LedgerContinues(plan: seq<Sub>, bag: multiset<Sub>, a: map<Id, Progress>, b: map<Id, Progress>, c: map<Id, Progress>,
                        moved: multiset<Sub>, lost: multiset<Sub>, blocked: multiset<Sub>, ahead: multiset<Sub>, given: multiset<Sub>,
                        moved': multiset<Sub>, lost': multiset<Sub>, blocked': multiset<Sub>, rest: multiset<Sub>, rollback: bool)
    requires Ledger(plan, bag, a, b, moved, lost, blocked, ahead + given, rollback)
    requires Ledger(plan, given, b, c, moved', lost', blocked', rest, rollback)
    ensures Ledger(plan, bag, a, c, moved + moved', lost + lost', blocked + blocked', ahead + rest, rollback)
  {
    hide Progressed, Has;
    assert moved + lost + (moved' + lost') <= bag;
    forall s | s in moved || s in lost ensures !Has(moved', s.id) && !Has(lost', s.id) {
      SettledOnce(plan, moved + lost, moved' + lost', s);
      NotHas(moved', lost', s.id);
    }
    forall s | s in moved' || s in lost' ensures !Has(moved, s.id) && !Has(lost, s.id) {
      assert moved' + lost' + (moved + lost) <= bag;
      SettledOnce(plan, moved' + lost', moved + lost, s);
      NotHas(moved, lost, s.id);
    }
    ProgressedContinues(a, b, c, moved, lost, moved', lost', rollback);
    AheadUnfinished(plan, b, c, moved', lost', ahead, given, rest, rollback);
  }

  /// A chunk leaves what it was not given unfinished.
  lemma AheadUnfinished(plan: seq<Sub>, b: map<Id, Progress>, c: map<Id, Progress>, moved: multiset<Sub>, lost: multiset<Sub>,
                        ahead: multiset<Sub>, given: multiset<Sub>, rest: multiset<Sub>, rollback: bool)
    requires DistinctIds(plan) && ahead + given <= multiset(plan) && moved + lost <= given
    requires Progressed(b, c, moved, lost, rollback) && Unfinished(ahead + given, b, rollback) && Unfinished(rest, c, rollback)
    ensures Unfinished(ahead + rest, c, rollback)
  {
    hide Progressed, Has;
    forall s | s in ahead + rest ensures !Finished(Entry(c, s.id), rollback) {
      if s in ahead {
        assert s in ahead + given;
        assert ahead + (moved + lost) <= multiset(plan);
        SettledOnce(plan, ahead, moved + lost, s);
        NotHas(moved, lost, s.id);
        KeptSame(b, c, moved, lost, s.id, rollback);
      }
    }
  }

  lemma KeptSame(b: map<Id, Progress>, c: map<Id, Progress>, moved: multiset<Sub>, lost: multiset<Sub>, id: Id, rollback: bool)
    requires Progressed(b, c, moved, lost, rollback) && !Has(moved, id) && !Has(lost, id)
    ensures SameDone(Entry(b, id), Entry(c, id))
  {}

  lemma LedgerPart(plan: seq<Sub>, bag: multiset<Sub>, a: map<Id, Progress>, b: map<Id, Progress>,
                   moved: multiset<Sub>, lost: multiset<Sub>, blocked: multiset<Sub>, waiting: multiset<Sub>, rollback: bool)
    requires Ledger(plan, bag, a, b, moved, lost, blocked, waiting, rollback)
    ensures waiting <= bag
  {}

  lemma SettledOnce(plan: seq<Sub>, here: multiset<Sub>, there: multiset<Sub>, s: Sub)
    requires DistinctIds(plan) && here + there <= multiset(plan) && s in here
    ensures !Has(there, s.id)
  {
    assert multiset{s} <= here;
    WaitingIsFresh(plan, there, s);
  }
  class Runner {
    const m: Migrator
    const worker: Worker
    const policy: Policy
    const limit: nat
    var migrated: nat
    var failed: nat
    var costBlocked: nat
    ghost var moved: multiset<Sub>
    ghost var lost: multiset<Sub>
    ghost var blocked: multiset<Sub>

    constructor (m: Migrator, policy: Policy, limit: nat, chunkSize: nat)
      requires m.Valid() && !m.broken && m.cloud.rollback == policy.rollback
      ensures Sound() && this.m == m && this.policy == policy && this.limit == limit && fresh(worker)
      ensures migrated == failed == costBlocked == 0 && moved == lost == blocked == multiset{}
    {
      this.m, this.policy, this.limit := m, policy, limit;
      migrated, failed, costBlocked, moved, lost, blocked := 0, 0, 0, multiset{}, multiset{}, multiset{};
      worker := new Worker(m, policy.rollback, chunkSize);
    }

    ghost predicate Sound()
      reads this, m, m.cloud
    {
      && m.Valid() && worker.m == m && worker.rollback == policy.rollback == m.cloud.rollback
      && Tallied()
      && (limit > 0 ==> migrated + failed <= limit)
    }

    ghost predicate Tallied()
      reads this
    {
      |moved| == migrated && |lost| == failed && |blocked| == costBlocked
    }

    ghost predicate Accounts(bag: multiset<Sub>, start: map<Id, Progress>, waiting: multiset<Sub>)
      reads this, m, m.cloud
    {
      !m.broken && Ledger(m.cloud.Plan(), bag, start, m.entries, moved, lost, blocked, waiting, policy.rollback)
    }

    /// Adds a chunk's counters to the summary.
    method Absorb(out: Chunk, ghost bag: multiset<Sub>, ghost start: map<Id, Progress>, ghost begun: map<Id, Progress>,
                  ghost ahead: multiset<Sub>, ghost given: multiset<Sub>)
      requires Sound() && worker.Sane(out) && (limit > 0 ==> migrated + failed + out.migrated + out.failed <= limit)
      requires Ledger(m.cloud.Plan(), bag, start, begun, moved, lost, blocked, ahead + given, policy.rollback)
      requires !out.fatal ==> worker.Working(out, begun, m.entries, given, multiset(out.rest))
      modifies this
      ensures Sound() && migrated + failed == old(migrated + failed) + out.migrated + out.failed
      ensures !out.fatal ==> Accounts(bag, start, ahead + multiset(out.rest)) && multiset(out.rest) <= given
    {
      hide Provider.History, Ledger;
      if !out.fatal {
        LedgerPart(m.cloud.Plan(), given, begun, m.entries, out.moved, out.lost, out.blocked, multiset(out.rest), policy.rollback);
        LedgerContinues(m.cloud.Plan(), bag, start, begun, m.entries, moved, lost, blocked, ahead, given,
                        out.moved, out.lost, out.blocked, multiset(out.rest), policy.rollback);
      }
      Count(out);
    }

    method Count(out: Chunk)
      requires Tallied() && out.Counted()
      modifies this
      ensures Tallied() && migrated == old(migrated) + out.migrated && failed == old(failed) + out.failed
      ensures moved == old(moved) + out.moved && lost == old(lost) + out.lost && blocked == old(blocked) + out.blocked
    {
      migrated, failed, costBlocked := migrated + out.migrated, failed + out.failed, costBlocked + out.costBlocked;
      moved, lost, blocked := moved + out.moved, lost + out.lost, blocked + out.blocked;
    }

    /// The body of the inner loop of `Run`: one chunk under one lease. The
    /// source also returns an error when a chunk made no progress; the last
    /// postcondition says that it always does.
    method RunChunk(pending: seq<Sub>, ghost bag: multiset<Sub>, ghost start: map<Id, Progress>, ghost ahead: multiset<Sub>)
      returns (rest: seq<Sub>, interrupted: bool, ended: Option<End>)
      requires Sound() && m.cloud.admitted && |pending| > 0 && Accounts(bag, start, ahead + multiset(pending))
      modifies this, m, m.cloud
      ensures Sound() && old(m.cloud.log) <= m.cloud.log
      ensures ended.Some? ==> ended.value.Stopped? || (ended.value.LimitReached? && limit > 0)
      ensures ended.None? ==> Accounts(bag, start, ahead + multiset(rest)) && multiset(rest) <= multiset(pending)
      ensures ended.None? ==> |rest| < |pending|
    {
      hide Provider.History, Ledger;
      rest, interrupted := pending, false;
      var allowed := 0;
      if limit > 0 {
        if limit - migrated - failed <= 0 { return rest, false, Some(LimitReached); }
        allowed := limit - migrated - failed;
      }
      var held: bool := *;
      if !held { return rest, false, Some(Stopped); }
      var leased: bool := *;
      if !leased { return rest, false, Some(Stopped); }
      var out := new Chunk(pending);
      ghost var begun := m.entries;
      Given(m.cloud.Plan(), bag, start, begun, moved, lost, blocked, ahead, multiset(pending), policy.rollback);
      if policy.rollback {
        worker.RollbackChunk(out, allowed, begun);
      } else {
        worker.ForwardChunk(out, allowed, begun);
      }
      Absorb(out, bag, start, begun, ahead, multiset(pending));
      var cancelled: bool := *;
      if out.fatal || cancelled { return rest, false, Some(Stopped); }
      return out.rest, out.interrupted, None;
    }

    lemma Given(plan: seq<Sub>, bag: multiset<Sub>, start: map<Id, Progress>, begun: map<Id, Progress>,
                moved: multiset<Sub>, lost: multiset<Sub>, blocked: multiset<Sub>, ahead: multiset<Sub>, given: multiset<Sub>, rollback: bool)
      requires Ledger(plan, bag, start, begun, moved, lost, blocked, ahead + given, rollback)
      ensures Ledger(plan, given, begun, begun, multiset{}, multiset{}, multiset{}, given, rollback)
    {
      assert given <= bag;
      assert Unfinished(given, begun, rollback) by { assert forall s :: s in given ==> s in ahead + given; }
      LedgerStarts(plan, given, begun, rollback);
    }

    /// The subscriptions of a group that are still to do.
    method Pending(subs: seq<Sub>) returns (pending: seq<Sub>)
      ensures pending == Select(policy, m.entries, subs)
    {
      pending := [];
      var rest := subs;
      while rest != []
        invariant Select(policy, m.entries, subs) == pending + Select(policy, m.entries, rest)
        decreases |rest|
      {
        var source, later := rest[0], Select(policy, m.entries, rest[1..]);
        assert pending + ([source] + later) == pending + [source] + later;
        if Todo(policy, m.entries, source) { pending := pending + [source]; }
        rest := rest[1..];
      }
    }

    /// One round of the outer loop of `Run`: a broadcaster's subscriptions,
    /// until they are settled or the rest has to be retried later.
    method Drain(g: Group, ghost bag: multiset<Sub>, ghost start: map<Id, Progress>, ghost tail: multiset<Sub>)
      returns (rest: seq<Sub>, ended: Option<End>)
      requires Sound() && m.cloud.admitted && Accounts(bag, start, tail + multiset(Select(policy, start, g.subs)))
      requires forall s :: s in g.subs ==> s in m.cloud.Plan()
      requires forall s :: s in bag ==> Todo(policy, start, s)
      modifies this, m, m.cloud
      ensures Sound() && old(m.cloud.log) <= m.cloud.log
      ensures ended.Some? ==> ended.value.Stopped? || (ended.value.LimitReached? && limit > 0)
      ensures ended.None? ==> Accounts(bag, start, tail + multiset(rest)) && multiset(rest) <= multiset(Select(policy, start, g.subs))
      ensures ended.None? ==> rest == [] || |rest| < |g.subs|
    {
      hide Provider.History, Ledger;
      var pending := Pending(g.subs);
      SameSelect(m.cloud.Plan(), bag, start, m.entries, moved, lost, blocked, tail, g.subs, policy);
      ghost var firstLog := m.cloud.log;
      while |pending| > 0
        invariant Sound() && firstLog <= m.cloud.log && Accounts(bag, start, tail + multiset(pending))
        invariant multiset(pending) <= multiset(Select(policy, start, g.subs)) && |pending| <= |g.subs|
        decreases |pending|
      {
        ghost var before := pending;
        var interrupted: bool;
        pending, interrupted, ended := RunChunk(pending, bag, start, tail);
        if ended.Some? { return pending, ended; }
        if interrupted && |pending| > 0 { return pending, None; }
      }
      return [], None;
    }

    /// Counts what a run does not have to do, and refuses to migrate forward
    /// what was rolled back.
    method Classify(plan: seq<Sub>) returns (alreadyDone: nat, skipped: nat, refused: bool)
      ensures alreadyDone == |Those(AlreadyDone, policy, m.entries, plan)| && skipped == |Those(Skipped, policy, m.entries, plan)|
      ensures refused <==> !policy.rollback && !NoneRolledBack(plan, m.entries)
    {
      alreadyDone, skipped, refused := 0, 0, false;
      var rest := plan;
      while rest != []
        invariant alreadyDone + |Those(AlreadyDone, policy, m.entries, rest)| == |Those(AlreadyDone, policy, m.entries, plan)|
        invariant skipped + |Those(Skipped, policy, m.entries, rest)| == |Those(Skipped, policy, m.entries, plan)|
        invariant forall s :: s in rest ==> s in plan
        invariant refused ==> !policy.rollback && exists s :: s in plan && Entry(m.entries, s.id).rolledBack
        invariant !refused && !policy.rollback ==> forall s :: s in plan && s !in rest ==> !Entry(m.entries, s.id).rolledBack
        decreases |rest|
      {
        var s := rest[0];
        if !policy.rollback && Entry(m.entries, s.id).rolledBack { refused := true; }
        if Finished(Entry(m.entries, s.id), policy.rollback) {
          alreadyDone := alreadyDone + 1;
        } else if Skip(policy, m.entries, s) {
          skipped := skipped + 1;
        }
        rest := rest[1..];
      }
    }

    lemma Facts()
      requires Sound()
      ensures Legal(m.snapshot, m.cloud.log) && AllGuarded(m.cloud.Plan(), m.cloud.log) && m.snapshot == m.cloud.snapshot
      ensures policy.rollback ==> Sparing(m.snapshot, m.cloud.log)
      ensures (limit > 0 ==> migrated + failed <= limit) && DistinctIds(m.cloud.Plan())
      ensures m.cloud.admitted <==> policy.rollback || NoneRolledBack(m.cloud.Plan(), m.cloud.world.disk)
      ensures |moved| == migrated && |lost| == failed && |blocked| == costBlocked
      ensures !m.broken ==> m.entries == m.cloud.world.disk
    {
      m.cloud.LogIsLegal();
      RunIsSafe(m.snapshot, m.cloud.log);
    }

    /// `Migrator.Run`. It terminates although interrupted groups are queued
    /// again, keeps its limit, and accounts for every planned subscription;
    /// every step was legal, so that what was guarded at first was so throughout.
    method Execute(activity: map<string, int>, configured: bool) returns (summary: Summary, ended: End)
      requires Sound() && !m.broken && migrated == failed == costBlocked == 0 && moved == lost == blocked == multiset{}
      modifies this, m, m.cloud
      ensures Sound() && old(m.cloud.log) <= m.cloud.log
      ensures Legal(m.snapshot, m.cloud.log) && AllGuarded(m.cloud.Plan(), m.cloud.log)
      ensures policy.rollback ==> Sparing(m.snapshot, m.cloud.log)
      ensures limit > 0 ==> summary.migrated + summary.failed <= limit
      ensures summary.migrated == migrated && summary.failed == failed && summary.costBlocked == costBlocked
      ensures limit == 0 ==> !ended.LimitReached?
      ensures ended.Completed? ==> Partitioned(m.cloud.Plan(), old(m.entries), m.entries, policy, moved, lost, blocked)
      ensures ended.Completed? ==>
        && summary.alreadyDone == |Those(AlreadyDone, policy, old(m.entries), m.cloud.Plan())|
        && summary.skippedFailed == |Those(Skipped, policy, old(m.entries), m.cloud.Plan())|
        && summary.planned == summary.alreadyDone + summary.skippedFailed + migrated + failed + costBlocked
        && summary.remaining == summary.skippedFailed + failed + costBlocked
      ensures ended.Completed? && summary.remaining == 0 ==> AllFinished(m.cloud.Plan(), m.cloud.world.disk, policy.rollback)
    {
      hide Runner.Sound, Ledger, Partitioned, DistinctIds, AllGuarded, Legal, Sparing, Planned, AllFinished, NoneRolledBack;
      Facts();
      var plan := Planned(m.snapshot);
      var header: Header := *;
      var clientId: string := *;
      var objects: set<string> := *;
      var valid := Validate(header, clientId, m.snapshot, objects);
      summary := Summary(|plan|, 0, 0, 0, 0, 0, 0);
      if !valid || !configured { return summary, Refused; }
      var alreadyDone, skipped, refused := Classify(plan);
      if refused { return summary, Refused; }
      ghost var start := m.entries;
      ended := Work(plan, activity, start);
      Facts();
      var remaining := CountOpen(m.entries, policy.rollback, plan);
      summary := Summary(|plan|, migrated, alreadyDone, failed, skipped, costBlocked, remaining);
      if ended.Completed? {
        LedgerPartitions(plan, start, m.entries, policy, moved, lost, blocked);
        PartitionedCounts(plan, start, m.entries, policy, moved, lost, blocked);
        if summary.remaining == 0 { NoneOpen(m.entries, policy.rollback, plan); }
      }
    }

    /// One round of the queue of `Run`: serves a group, and queues what is left
    /// of it behind the others.
    method Serve(queue: seq<Group>, next: nat, ghost bag: multiset<Sub>, ghost start: map<Id, Progress>)
      returns (queue': seq<Group>, stop: Option<End>)
      requires next < |queue| && Sound() && m.cloud.admitted && Accounts(bag, start, Ahead(policy, start, queue[next..]))
      requires forall i, s :: 0 <= i < |queue| && s in queue[i].subs ==> s in m.cloud.Plan()
      requires forall s :: s in bag ==> Todo(policy, start, s)
      modifies this, m, m.cloud
      ensures Sound() && old(m.cloud.log) <= m.cloud.log && next < |queue'|
      ensures stop.Some? ==> stop.value.Stopped? || (stop.value.LimitReached? && limit > 0)
      ensures stop.None? ==> Accounts(bag, start, Ahead(policy, start, queue'[next + 1..]))
      ensures stop.None? ==>
        || Size(queue'[next + 1..]) < Size(queue[next..])
        || (Size(queue'[next + 1..]) == Size(queue[next..]) && |queue'| == |queue|)
      ensures forall i, s :: 0 <= i < |queue'| && s in queue'[i].subs ==> s in m.cloud.Plan()
    {
      hide Provider.History, Ledger, Planned, Ahead, Size, Those;
      var g, later := queue[next], queue[next + 1..];
      queue' := queue;
      assert queue[next..] == [g] + later;
      QueueCons(policy, start, g, later);
      ghost var tail := Ahead(policy, start, later);
      var rest: seq<Sub>;
      rest, stop := Drain(g, bag, start, tail);
      if stop.None? {
        if rest != [] {
          Requeued(policy, start, later, g, rest);
          queue' := queue + [g.(subs := rest)];
          assert queue'[next + 1..] == later + [g.(subs := rest)];
        } else {
          assert tail + multiset(rest) == tail;
        }
      }
    }

    /// The queue of `Run`.
    method Work(plan: seq<Sub>, activity: map<string, int>, ghost start: map<Id, Progress>) returns (ended: End)
      requires Sound() && m.cloud.admitted && !m.broken && migrated == failed == costBlocked == 0 && moved == lost == blocked == multiset{}
      requires plan == m.cloud.Plan() && start == m.entries && DistinctIds(plan)
      modifies this, m, m.cloud
      ensures Sound() && old(m.cloud.log) <= m.cloud.log
      ensures limit == 0 ==> !ended.LimitReached?
      ensures ended.Completed? ==> Accounts(multiset(Select(policy, start, plan)), start, multiset{})
    {
      hide Provider.History, Ledger, Planned, DistinctIds;
      var queue := Arrange(plan, activity);
      ghost var bag, firstLog := multiset(Select(policy, start, plan)), m.cloud.log;
      QueueStarts(plan, start, queue, policy);
      OfClass(ToDo, policy, start, plan);
      var next := 0;
      assert queue[0..] == queue;
      while next < |queue|
        invariant next <= |queue| && Sound() && firstLog <= m.cloud.log
        invariant Accounts(bag, start, Ahead(policy, start, queue[next..]))
        invariant forall i, s :: 0 <= i < |queue| && s in queue[i].subs ==> s in plan
        decreases Size(queue[next..]), |queue| - next
      {
        ghost var before := queue;
        var stop: Option<End>;
        queue, stop := Serve(queue, next, bag, start);
        if stop.Some? { return stop.value; }
        next := next + 1;
      }
      return Completed;
    }
  }

  /// What a snapshot says of itself.
  datatype Header = Header(schema: int, clientId: string, legacyCallbacks: (string, string), targetCallback: string)

  const LEGACY_CALLBACKS := ("legacy", "alias")
  const TARGET_CALLBACK := "target"

  /// `Snapshot.Validate`; `objects` are the conditions that are JSON objects.
  method Validate(header: Header, clientId: string, snapshot: seq<Sub>, objects: set<string>) returns (ok: bool)
    ensures ok <==>
      && header == Header(1, clientId, LEGACY_CALLBACKS, TARGET_CALLBACK) && DistinctIds(snapshot)
      && forall s :: s in snapshot ==> s.desc.kind != "" && s.desc.version != "" && s.desc.condition in objects
  {
    if header.schema != 1 || header.clientId != clientId || header.legacyCallbacks != LEGACY_CALLBACKS || header.targetCallback != TARGET_CALLBACK {
      return false;
    }
    var ids: set<Id> := {};
    for i := 0 to |snapshot|
      invariant forall k :: 0 <= k < i ==> snapshot[k].id in ids && snapshot[k].id != ""
      invariant forall id :: id in ids ==> exists k :: 0 <= k < i && snapshot[k].id == id
      invariant forall j, k :: 0 <= j < k < i ==> snapshot[j].id != snapshot[k].id
      invariant forall k :: 0 <= k < i ==>
        snapshot[k].desc.kind != "" && snapshot[k].desc.version != "" && snapshot[k].desc.condition in objects
    {
      var sub := snapshot[i];
      if sub.id == "" || sub.id in ids || sub.desc.kind == "" || sub.desc.version == "" { return false; }
      ids := ids + {sub.id};
      if sub.desc.condition !in objects { return false; }
    }
    ok := true;
  }

  function Open(entries: map<Id, Progress>, rollback: bool, subs: seq<Sub>): seq<Sub> {
    if subs == [] then []
    else if Finished(Entry(entries, subs[0].id), rollback) then Open(entries, rollback, subs[1..])
    else [subs[0]] + Open(entries, rollback, subs[1..])
  }

  lemma {:induction false} OpenBag(entries: map<Id, Progress>, rollback: bool, subs: seq<Sub>, s: Sub)
    ensures multiset(Open(entries, rollback, subs))[s] == if Finished(Entry(entries, s.id), rollback) then 0 else multiset(subs)[s]
  {
    if subs != [] {
      assert subs == [subs[0]] + subs[1..];
      OpenBag(entries, rollback, subs[1..], s);
    }
  }

  ghost predicate AllFinished(plan: seq<Sub>, disk: map<Id, Progress>, rollback: bool) {
    forall s :: s in plan ==> Finished(Entry(disk, s.id), rollback)
  }

  lemma NoneOpen(entries: map<Id, Progress>, rollback: bool, plan: seq<Sub>)
    requires Open(entries, rollback, plan) == []
    ensures AllFinished(plan, entries, rollback)
  {
    forall s | s in plan ensures Finished(Entry(entries, s.id), rollback) {
      OpenBag(entries, rollback, plan, s);
      assert s in multiset(plan);
    }
  }

  /// Every state of a run guards what was guarded at first.
  ghost predicate AllGuarded(plan: seq<Sub>, log: Log) {
    forall i, d :: 0 <= i < |log| && Guarded(plan, log[0].after, d) ==> Guarded(plan, log[i].after, d)
  }

  /// No backed-up subscription is deleted.
  ghost predicate Sparing(snapshot: seq<Sub>, log: Log) {
    forall i :: 0 <= i < |log| && log[i].what.Deleted? ==> !Ids(snapshot, log[i].what.id)
  }

  lemma RunIsSafe(snapshot: seq<Sub>, log: Log)
    requires Legal(snapshot, log) && Fits(snapshot, log[0].after)
    ensures AllGuarded(Planned(snapshot), log) && (log[0].what.rollback ==> Sparing(snapshot, log))
  {
    hide Legal, Fits, Guarded, Ids;
    assert log != [] && log[0].what.Began? by { NotEmpty(snapshot, log); }
    forall i, d | 0 <= i < |log| && Guarded(Planned(snapshot), log[0].after, d) ensures Guarded(Planned(snapshot), log[i].after, d) {
      LegalLess(snapshot, log, i + 1);
      assert log[..i + 1][0] == log[0] && Last(log[..i + 1]) == log[i].after;
      GuardLasts(snapshot, log[..i + 1], d);
    }
    if log[0].what.rollback {
      forall i | 0 <= i < |log| && log[i].what.Deleted? ensures !Ids(snapshot, log[i].what.id) { RollbackSpares(snapshot, log, i); }
    }
  }

  lemma NotEmpty(snapshot: seq<Sub>, log: Log)
    requires Legal(snapshot, log)
    ensures log != [] && log[0].what.Began?
  {}

  method CountOpen(entries: map<Id, Progress>, rollback: bool, plan: seq<Sub>) returns (n: nat)
    ensures n == |Open(entries, rollback, plan)|
  {
    n := 0;
    var rest := plan;
    while rest != []
      invariant n + |Open(entries, rollback, rest)| == |Open(entries, rollback, plan)|
      decreases |rest|
    {
      if !Finished(Entry(entries, rest[0].id), rollback) { n := n + 1; }
      rest := rest[1..];
    }
  }

  lemma PartitionedCounts(plan: seq<Sub>, start: map<Id, Progress>, now: map<Id, Progress>, policy: Policy,
                          moved: multiset<Sub>, lost: multiset<Sub>, blocked: multiset<Sub>)
    requires Partitioned(plan, start, now, policy, moved, lost, blocked)
    ensures |plan| == |Those(AlreadyDone, policy, start, plan)| + |Those(Skipped, policy, start, plan)| + |moved| + |lost| + |blocked|
    ensures |Open(now, policy.rollback, plan)| == |Those(Skipped, policy, start, plan)| + |lost| + |blocked|
  {
    var done, skips := multiset(Those(AlreadyDone, policy, start, plan)), multiset(Those(Skipped, policy, start, plan));
    assert |multiset(plan)| == |done| + |skips| + |moved| + |lost| + |blocked|;
    var open := multiset(Open(now, policy.rollback, plan));
    forall s ensures open[s] == (skips + lost + blocked)[s] {
      OpenBag(now, policy.rollback, plan, s);
      assert multiset(plan)[s] == done[s] + skips[s] + moved[s] + lost[s] + blocked[s];
    }
    assert open == skips + lost + blocked;
  }

  lemma QueueStarts(plan: seq<Sub>, start: map<Id, Progress>, queue: seq<Group>, policy: Policy)
    requires DistinctIds(plan) && Content(queue) == multiset(plan)
    ensures Ledger(plan, multiset(Select(policy, start, plan)), start, start, multiset{}, multiset{}, multiset{},
                   Ahead(policy, start, queue), policy.rollback)
    ensures forall i, s :: 0 <= i < |queue| && s in queue[i].subs ==> s in plan
  {
    var bag := multiset(Select(policy, start, plan));
    forall s ensures Ahead(policy, start, queue)[s] == bag[s] && bag[s] <= multiset(plan)[s] {
      AheadBag(policy, start, queue, s);
      ThoseBag(ToDo, policy, start, plan, s);
    }
    assert Ahead(policy, start, queue) == bag;
    OfClass(ToDo, policy, start, plan);
    LedgerStarts(plan, bag, start, policy.rollback);
    forall i, s | 0 <= i < |queue| && s in queue[i].subs ensures s in plan {
      ContentSplit(queue, i);
      assert s in multiset(queue[i].subs);
      assert s in multiset(plan);
    }
  }

  lemma Requeued(policy: Policy, start: map<Id, Progress>, later: seq<Group>, g: Group, rest: seq<Sub>)
    requires multiset(rest) <= multiset(Select(policy, start, g.subs))
    ensures Ahead(policy, start, later + [g.(subs := rest)]) == Ahead(policy, start, later) + multiset(rest)
    ensures Size(later + [g.(subs := rest)]) == Size(later) + |rest|
    ensures forall s :: s in rest ==> s in g.subs
  {
    forall s | s in rest ensures s in g.subs && Todo(policy, start, s) {
      assert s in multiset(rest);
      ThoseBag(ToDo, policy, start, g.subs, s);
      assert s in multiset(g.subs);
    }
    AllSelected(policy, start, rest);
    AheadAppend(policy, start, later, g.(subs := rest));
    SizeAppend(later, g.(subs := rest));
  }

  /// A run without an error leaves every planned subscription in exactly one
  /// of five places; the counters count them; and the checkpoint agrees.
  ghost predicate Partitioned(plan: seq<Sub>, start: map<Id, Progress>, now: map<Id, Progress>, policy: Policy,
                              moved: multiset<Sub>, lost: multiset<Sub>, blocked: multiset<Sub>)
  {
    var done, skips := multiset(Those(AlreadyDone, policy, start, plan)), multiset(Those(Skipped, policy, start, plan));
    && done + skips + moved + lost + blocked == multiset(plan)
    && (forall s :: s in done || s in moved ==> Finished(Entry(now, s.id), policy.rollback))
    && (forall s :: s in skips || s in lost || s in blocked ==> !Finished(Entry(now, s.id), policy.rollback))
  }

  lemma ClassesPartition(plan: seq<Sub>, policy: Policy, entries: map<Id, Progress>)
    ensures multiset(Those(AlreadyDone, policy, entries, plan)) + multiset(Those(Skipped, policy, entries, plan))
         + multiset(Select(policy, entries, plan)) == multiset(plan)
  {
    var a, b, c := multiset(Those(AlreadyDone, policy, entries, plan)), multiset(Those(Skipped, policy, entries, plan)), multiset(Select(policy, entries, plan));
    forall s ensures (a + b + c)[s] == multiset(plan)[s] {
      ThoseBag(AlreadyDone, policy, entries, plan, s);
      ThoseBag(Skipped, policy, entries, plan, s);
      ThoseBag(ToDo, policy, entries, plan, s);
    }
  }

  lemma LedgerBags(plan: seq<Sub>, start: map<Id, Progress>, now: map<Id, Progress>, policy: Policy,
                   done: multiset<Sub>, skips: multiset<Sub>, todo: multiset<Sub>, moved: multiset<Sub>, lost: multiset<Sub>, blocked: multiset<Sub>)
    requires Ledger(plan, todo, start, now, moved, lost, blocked, multiset{}, policy.rollback)
    requires done + skips + todo == multiset(plan)
    ensures done + skips + moved + lost + blocked == multiset(plan) && DistinctIds(plan)
    ensures done + (moved + lost) <= multiset(plan) && skips + (moved + lost) <= multiset(plan)
    ensures blocked + (moved + lost) <= multiset(plan) && lost + moved <= multiset(plan)
    ensures forall s :: s in moved || s in lost || s in blocked ==> s in todo
    ensures Progressed(start, now, moved, lost, policy.rollback)
  {
    hide Progressed;
    EmptyTail(moved + lost + blocked, todo);
    FiveBags(done, skips, moved, lost, blocked, todo, multiset(plan));
  }

  lemma LedgerPartitions(plan: seq<Sub>, start: map<Id, Progress>, now: map<Id, Progress>, policy: Policy,
                         moved: multiset<Sub>, lost: multiset<Sub>, blocked: multiset<Sub>)
    requires Ledger(plan, multiset(Select(policy, start, plan)), start, now, moved, lost, blocked, multiset{}, policy.rollback)
    ensures Partitioned(plan, start, now, policy, moved, lost, blocked)
  {
    hide Progressed, Those, Ledger, ClassOf, Finished, DistinctIds, Entry, Skip;
    ClassesPartition(plan, policy, start);
    var done, skips := multiset(Those(AlreadyDone, policy, start, plan)), multiset(Those(Skipped, policy, start, plan));
    LedgerBags(plan, start, now, policy, done, skips, multiset(Select(policy, start, plan)), moved, lost, blocked);
    OfClass(AlreadyDone, policy, start, plan);
    OfClass(Skipped, policy, start, plan);
    OfClass(ToDo, policy, start, plan);
    KeptAs(AlreadyDone, plan, start, now, policy, moved, lost, done);
    KeptAs(Skipped, plan, start, now, policy, moved, lost, skips);
    KeptAs(ToDo, plan, start, now, policy, moved, lost, blocked);
    LostAreUnfinished(plan, start, now, policy, moved, lost);
    MovedAreFinished(start, now, moved, lost, policy.rollback);
  }

  lemma OfClass(c: Class, policy: Policy, entries: map<Id, Progress>, plan: seq<Sub>)
    ensures forall s :: s in multiset(Those(c, policy, entries, plan)) ==> ClassOf(policy, entries, s) == c
  {
    forall s | s in multiset(Those(c, policy, entries, plan)) ensures ClassOf(policy, entries, s) == c {
      ThoseBag(c, policy, entries, plan, s);
    }
  }

  lemma KeptAs(c: Class, plan: seq<Sub>, start: map<Id, Progress>, now: map<Id, Progress>, policy: Policy,
               moved: multiset<Sub>, lost: multiset<Sub>, here: multiset<Sub>)
    requires DistinctIds(plan) && here + (moved + lost) <= multiset(plan) && Progressed(start, now, moved, lost, policy.rollback)
    requires forall s :: s in here ==> ClassOf(policy, start, s) == c
    ensures forall s :: s in here ==> Finished(Entry(now, s.id), policy.rollback) == c.AlreadyDone?
  {
    forall s | s in here ensures Finished(Entry(now, s.id), policy.rollback) == c.AlreadyDone? {
      Unsettled(plan, start, now, moved, lost, here, s, policy.rollback);
    }
  }

  lemma LostAreUnfinished(plan: seq<Sub>, start: map<Id, Progress>, now: map<Id, Progress>, policy: Policy, moved: multiset<Sub>, lost: multiset<Sub>)
    requires DistinctIds(plan) && lost + moved <= multiset(plan) && Progressed(start, now, moved, lost, policy.rollback)
    requires forall s :: s in lost ==> Todo(policy, start, s)
    ensures forall s :: s in lost ==> !Finished(Entry(now, s.id), policy.rollback)
  {
    forall s | s in lost ensures !Finished(Entry(now, s.id), policy.rollback) {
      SettledOnce(plan, lost, moved, s);
      assert Todo(policy, start, s);
    }
  }

  lemma MovedAreFinished(start: map<Id, Progress>, now: map<Id, Progress>, moved: multiset<Sub>, lost: multiset<Sub>, rollback: bool)
    requires Progressed(start, now, moved, lost, rollback)
    ensures forall s :: s in moved ==> Finished(Entry(now, s.id), rollback)
  {}

  lemma EmptyTail(a: multiset<Sub>, b: multiset<Sub>)
    requires a + multiset{} == b
    ensures a == b
  {
    assert a + multiset{} == a;
  }

  lemma FiveBags(a: multiset<Sub>, b: multiset<Sub>, c: multiset<Sub>, d: multiset<Sub>, e: multiset<Sub>, rest: multiset<Sub>, all: multiset<Sub>)
    requires a + b + rest == all && c + d + e == rest
    ensures a + b + c + d + e == all
    ensures a + (c + d) <= all && b + (c + d) <= all && e + (c + d) <= all && d + c <= all
    ensures forall s :: s in c || s in d || s in e ==> s in rest
  {
    assert a + b + c + d + e == a + b + (c + d + e);
  }

  lemma Unsettled(plan: seq<Sub>, start: map<Id, Progress>, now: map<Id, Progress>,
                  moved: multiset<Sub>, lost: multiset<Sub>, here: multiset<Sub>, s: Sub, rollback: bool)
    requires DistinctIds(plan) && here + (moved + lost) <= multiset(plan) && s in here
    requires Progressed(start, now, moved, lost, rollback)
    ensures SameDone(Entry(start, s.id), Entry(now, s.id))
  {
    SettledOnce(plan, here, moved + lost, s);
    NotHas(moved, lost, s.id);
  }

  lemma SameSelect(plan: seq<Sub>, bag: multiset<Sub>, start: map<Id, Progress>, now: map<Id, Progress>,
                   moved: multiset<Sub>, lost: multiset<Sub>, blocked: multiset<Sub>, tail: multiset<Sub>, subs: seq<Sub>, policy: Policy)
    requires Ledger(plan, bag, start, now, moved, lost, blocked, tail + multiset(Select(policy, start, subs)), policy.rollback)
    requires forall s :: s in subs ==> s in plan
    requires forall s :: s in bag ==> Todo(policy, start, s)
    ensures Select(policy, now, subs) == Select(policy, start, subs)
  {
    var mine := multiset(Select(policy, start, subs));
    forall s | s in subs ensures Todo(policy, now, s) == Todo(policy, start, s) {
      if Has(moved + lost, s.id) {
        var t :| t in moved + lost && t.id == s.id;
        assert t in bag;
        assert t in multiset(plan);
        SameId(plan, s, t);
        assert s in multiset(subs);
        ThoseBag(ToDo, policy, start, subs, s);
        assert mine + (moved + lost) <= bag;
        SettledOnce(plan, mine, moved + lost, s);
        assert false;
      }
      NotHas(moved, lost, s.id);
    }
    SelectAgrees(policy, now, start, subs);
  }

  lemma {:induction false} SelectAgrees(policy: Policy, a: map<Id, Progress>, b: map<Id, Progress>, subs: seq<Sub>)
    requires forall s :: s in subs ==> Todo(policy, a, s) == Todo(policy, b, s)
    ensures Select(policy, a, subs) == Select(policy, b, subs)
  {
    if subs != [] {
      assert Todo(policy, a, subs[0]) == Todo(policy, b, subs[0]);
      SelectAgrees(policy, a, b, subs[1..]);
    }
  }

  /// Any number of invocations, forward or back, with any limits, each of them
  /// cut off after an arbitrary step: the next one starts from whatever the
  /// provider and the disk then held. All of it is one `Life`, and what was
  /// guarded at first stays so.
  method Lifetime(snapshot: seq<Sub>, world: World, policies: seq<Policy>) returns (w: World, ghost logs: seq<Log>)
    requires Fits(snapshot, world)
    ensures |logs| == |policies| && forall k :: 0 <= k < |logs| ==> logs[k] != [] && logs[k][0].what == Began(policies[k].rollback)
    ensures Life(snapshot, world, logs) && w == Now(world, logs) && Fits(snapshot, w)
    ensures forall d :: Guarded(Planned(snapshot), world, d) ==> Guarded(Planned(snapshot), w, d)
  {
    hide Planned, Fits, Legal, Guarded;
    w, logs := world, [];
    for i := 0 to |policies|
      invariant |logs| == i && forall k :: 0 <= k < i ==> logs[k] != [] && logs[k][0].what == Began(policies[k].rollback)
      invariant Life(snapshot, world, logs) && w == Now(world, logs) && Fits(snapshot, w)
    {
      var log, _ := Invocation(snapshot, w, policies[i]);
      NotEmpty(snapshot, log);
      var cut: int := *;
      if !(0 < cut <= |log|) { cut := |log|; }
      LegalLess(snapshot, log, cut);
      NotEmpty(snapshot, log[..cut]);
      LifeMore(snapshot, world, logs, log[..cut]);
      logs := logs + [log[..cut]];
      LifeIsSafe(snapshot, world, logs);
      w := Last(log[..cut]);
    }
    LifeIsSafe(snapshot, world, logs);
  }

  /// One invocation. If it ends with nothing remaining, every planned entry is
  /// finished on disk.
  method Invocation(snapshot: seq<Sub>, world: World, policy: Policy) returns (log: Log, finished: bool)
    requires Fits(snapshot, world)
    ensures Legal(snapshot, log) && log[0] == Event(Began(policy.rollback), world)
    ensures finished ==> AllFinished(Planned(snapshot), Last(log).disk, policy.rollback)
  {
    hide Planned, Fits, Legal, AllFinished;
    var cloud := new Provider(snapshot, policy.rollback, world);
    var m := new Migrator(snapshot, cloud);
    var limit: nat := *;
    var chunkSize: nat := *;
    var configured: bool := *;
    var activity: map<string, int> := *;
    var runner := new Runner(m, policy, limit, chunkSize);
    assert cloud.log[0] == Event(Began(policy.rollback), world);
    var summary, ended := runner.Execute(activity, configured);
    log, finished := cloud.log, ended.Completed? && summary.remaining == 0;
    NotEmpty(snapshot, log);
  }
}
