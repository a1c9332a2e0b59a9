/// The EventSub callback migration, part 4: the code that moves, restores and
/// rolls back one subscription.
module Migration {
  import opened Wrappers
  import opened EventSub
  import opened Protocol
  import opened Cloud

  /// What one entry's work may change in the checkpoint.
  ghost predicate OnlyEntry(a: map<Id, Progress>, b: map<Id, Progress>, id: Id) {
    forall other :: other != id ==> Entry(a, other) == Entry(b, other)
  }

  /// Neither done nor attempted again: what a recorded failure leaves.
  ghost predicate SameDone(p: Progress, q: Progress) {
    p.deletedOld == q.deletedOld && p.rolledBack == q.rolledBack && p.attempts == q.attempts
  }

  /// `target` was logged as enabled at `at`, and still is.
  ghost predicate SeenAt(log: Log, w: World, target: Sub, at: nat) {
    && at < |log| && log[at].what == SawEnabled(target.id, target.desc, Target)
    && EnabledAt(w, target.id, target.desc, Target)
  }

  /// What awaiting `target` found: nothing yet, that it is enabled, or a failure.
  ghost predicate Verdict(log: Log, w: World, target: Sub, failure: Result<()>, resolved: bool, at: nat) {
    && (failure.Err? ==> resolved && (failure.f.kind.Plain? || failure.f.kind.Unauthorized?))
    && (failure.Ok? && resolved ==> SeenAt(log, w, target, at))
  }

  ghost predicate Verdicts(log: Log, w: World, targets: seq<Sub>, failures: seq<Result<()>>, seen: seq<nat>, from: nat) {
    && |targets| == |failures| == |seen|
    && forall j :: from <= j < |targets| ==> Verdict(log, w, targets[j], failures[j], true, seen[j])
  }

  /// Destinations seen enabled stay so while no destination is deleted.
  lemma VerdictsLast(log: Log, a: World, more: Log, b: World,
                     targets: seq<Sub>, failures: seq<Result<()>>, seen: seq<nat>, from: nat)
    requires Verdicts(log, a, targets, failures, seen, from) && log <= more && Evolves(a, b)
    requires forall id :: id in a.subs && a.subs[id].callback.Target? ==> id in b.subs
    ensures Verdicts(more, b, targets, failures, seen, from + 1)
  {
    forall j | from + 1 <= j < |targets| ensures Verdict(more, b, targets[j], failures[j], true, seen[j]) {
      assert Verdict(log, a, targets[j], failures[j], true, seen[j]);
    }
  }

  datatype Prepared = Swap | Move(target: Sub)

  method Find(list: seq<Sub>, wanted: Sub, callback: Callback) returns (r: Option<Sub>)
    ensures r.Some? ==> r.value in list && Matches(r.value, wanted, callback) && Active(r.value.status)
    ensures r.Some? && !r.value.status.Enabled? ==>
              forall s :: s in list && Matches(s, wanted, callback) ==> !s.status.Enabled?
    ensures r.None? ==> forall s :: s in list && Matches(s, wanted, callback) ==> !Active(s.status)
  {
    r := None;
    for i := 0 to |list|
      invariant r.Some? ==> r.value in list && Matches(r.value, wanted, callback) && r.value.status.Pending?
      invariant forall k :: 0 <= k < i && Matches(list[k], wanted, callback) ==> !list[k].status.Enabled?
      invariant forall k :: 0 <= k < i && Matches(list[k], wanted, callback) && r.None? ==> !list[k].status.Pending?
    {
      var sub := list[i];
      if Matches(sub, wanted, callback) {
        if sub.status.Enabled? { return Some(sub); }
        if sub.status.Pending? { r := Some(sub); }
      }
    }
  }

  method ById(list: seq<Sub>, id: Id) returns (r: Option<Sub>)
    ensures r.Some? ==> r.value in list && r.value.id == id
    ensures r.None? ==> forall s :: s in list ==> s.id != id
  {
    for i := 0 to |list|
      invariant forall k :: 0 <= k < i ==> list[k].id != id
    {
      if list[i].id == id { return Some(list[i]); }
    }
    r := None;
  }

  ghost predicate Shown(listing: Listing, wanted: Sub, callback: Callback) {
    exists u :: u in listing.data && Matches(u, wanted, callback) && Active(u.status)
  }

  function Max1(n: int): int { if n < 1 then 1 else n }

  predicate RoomAfterSwap(total: int, max: int, freed: int) {
    max <= 0 || total - freed + Max1(freed) <= max
  }

  class Migrator {
    const snapshot: seq<Sub>
    const cloud: Provider
    var entries: map<Id, Progress>
    /// Set once a checkpoint write failed: memory and disk may then differ.
    ghost var broken: bool

    ghost predicate Valid()
      reads this, cloud
    {
      && cloud.Valid() && cloud.snapshot == snapshot
      && (!broken ==> entries == cloud.world.disk)
    }

    /// Work on `source` may begin or go on: the run goes ahead, and its entry is
    /// not finished.
    ghost predicate Ready(source: Sub)
      reads this, cloud
    {
      Valid() && !broken && cloud.admitted && source in cloud.Plan() && !Finished(Entry(entries, source.id), cloud.rollback)
    }

    predicate Original(id: Id)
      ensures Original(id) <==> Ids(snapshot, id)
    {
      exists i | 0 <= i < |snapshot| :: snapshot[i].id == id
    }

    /// The subscription currently standing in for a snapshot source.
    function LiveId(source: Sub): Id
      reads this
    {
      var restored := Entry(entries, source.id).restoredId;
      if restored != "" then restored else source.id
    }

    constructor (snapshot: seq<Sub>, cloud: Provider)
      requires cloud.Valid() && cloud.snapshot == snapshot
      ensures Valid() && !broken && this.cloud == cloud && this.snapshot == snapshot
    {
      this.snapshot, this.cloud, this.entries, this.broken := snapshot, cloud, cloud.world.disk, false;
    }

    /// The destination is recorded, and as the migration's own unless it is in
    /// the backup.
    ghost predicate Adopted(p: Progress, target: Id) { p.targetId == target && (p.created || Ids(snapshot, target)) }

    /// What every method keeps of the world it found.
    twostate predicate Steps()
      reads this, cloud
    {
      Valid() && old(cloud.log) <= cloud.log && Evolves(old(cloud.world), cloud.world)
    }

    /// `Steps` without a durable write or a deletion.
    twostate predicate Quiet()
      reads this, cloud
    {
      && Steps() && cloud.world.disk == old(cloud.world.disk)
      && forall id :: id in old(cloud.world.subs) ==> id in cloud.world.subs
    }

    method Save(source: Sub, p: Progress) returns (r: Result<()>)
      requires Ready(source) && Allowed(cloud.rollback, cloud.log[|cloud.log| - 1], source, p)
      modifies this, cloud
      ensures Valid() && old(cloud.log) <= cloud.log && entries == old(entries)[source.id := p]
      ensures r.Ok? ==> !broken && cloud.log == old(cloud.log) + [Event(Saved(source.id, p), cloud.world)]
      ensures r.Ok? ==> cloud.world == Record(old(cloud.world), source.id, p)
      ensures r.Err? ==> broken && Fatal(r.f)
      ensures Evolves(old(cloud.world), cloud.world) && cloud.world.subs == old(cloud.world.subs)
    {
      hide Provider.History, Allowed, Evolves;
      entries := entries[source.id := p];
      var ok := cloud.Append(source, p);
      if ok { r := Ok(()); } else { broken := true; r := Err(Failure(Checkpoint, false)); }
    }

    /// Counts a failed attempt.
    method RecordFailure(source: Sub) returns (r: Result<()>)
      requires Ready(source)
      modifies this, cloud
      ensures Steps() && cloud.world.subs == old(cloud.world.subs)
      ensures entries == old(entries)[source.id := Entry(old(entries), source.id).(attempts := Entry(old(entries), source.id).attempts + 1)]
      ensures if r.Ok? then !broken else broken && Fatal(r.f)
    {
      hide Provider.History, Evolves;
      var progress := Entry(entries, source.id);
      progress := progress.(attempts := progress.attempts + 1);
      r := Save(source, progress);
    }

    /// `Migrator.enabled`: polls until `wanted` is enabled.
    method AwaitOne(wanted: Sub, callback: Callback) returns (r: Result<()>, at: nat)
      requires Valid() && !broken
      modifies cloud
      ensures Quiet() && Idles(old(cloud.log), cloud.log)
      ensures r.Ok? ==>
        && EnabledAt(cloud.world, wanted.id, wanted.desc, callback)
        && at < |cloud.log| && cloud.log[at].what == SawEnabled(wanted.id, wanted.desc, callback)
      ensures r.Err? ==> r.f.kind.Plain? || r.f.kind.Unauthorized?
    {
      hide Provider.History;
      var polls: nat := *;  // how many polls fit into the verify timeout
      at := 0;
      EvolvesRefl(cloud.world);
      while true
        invariant Quiet() && Idles(old(cloud.log), cloud.log)
        decreases polls
      {
        ghost var before, beforeLog := cloud.world, cloud.log;
        var listing, listed, _ := cloud.List(WithId(wanted.id));
        EvolvesTrans(old(cloud.world), before, cloud.world);
        IdlesTrans(old(cloud.log), beforeLog, cloud.log);
        if listed.Err? { return listed, at; }
        var current := ById(listing.data, wanted.id);
        if current.Some? {
          if !Matches(current.value, wanted, callback) { return Err(Failure(Plain, false)), at; }
          if current.value.status.Enabled? {
            at := cloud.Note(wanted.id, wanted.desc, callback);
            return Ok(()), at;
          }
          if !Active(current.value.status) { return Err(Failure(Plain, false)), at; }
        }
        if polls == 0 { return Err(Failure(Plain, false)), at; }
        polls := polls - 1;
      }
    }

    /// `Migrator.replacement`: an active match at `callback`, created only if
    /// the listing shows none.
    method Replacement(source: Sub, cost: int, callback: Callback, listing: Listing)
      returns (r: Result<Sub>, created: bool)
      requires Valid() && !broken && forall u :: u in listing.data ==> Reflects(cloud.world, u)
      modifies cloud
      ensures Quiet()
      ensures r.Ok? ==> Matches(r.value, source, callback) && Reflects(cloud.world, r.value)
      ensures Shown(listing, source, callback) ==> r.Ok? && !created && r.value in listing.data && cloud.log == old(cloud.log)
      ensures r.Err? ==> !r.f.kind.Checkpoint? && !r.f.kind.CostBlocked?
    {
      hide Provider.History, Evolves;
      EvolvesRefl(cloud.world);
      created := false;
      var existing := Find(listing.data, source, callback);
      if existing.Some? { return Ok(existing.value), false; }
      var duplicates := 0;
      for i := 0 to |listing.data| {
        var d := listing.data[i].desc;
        if d.kind == source.desc.kind && d.condition == source.desc.condition && Active(listing.data[i].status) {
          duplicates := duplicates + 1;
        }
      }
      if duplicates >= 3 { return Err(Failure(Plain, false)), false; }
      if cost > 0 && listing.max > 0 && listing.total + cost > listing.max { return Err(Failure(CostLimit, false)), false; }
      var posted, _ := cloud.Create(source, callback);
      if posted.Err? {
        if posted.f.kind.Conflict? {
          // A 409 proves that a duplicate exists, not where it delivers.
          ghost var before := cloud.world;
          var current, listed, _ := cloud.List(UserOf(source));
          EvolvesTrans(old(cloud.world), before, cloud.world);
          if listed.Err? { return Err(listed.f), false; }
          var target := Find(current.data, source, callback);
          if target.Some? { return Ok(target.value), false; }
          return Err(Failure(Plain, false)), false;
        }
        return Err(posted.f), false;
      }
      var sub := posted.value;
      if sub.id == "" || !Matches(sub, source, callback) || !Active(sub.status) {
        return Err(Failure(Plain, false)), false;
      }
      return posted, true;
    }

    /// Records the destination of a make-before-break.
    method Adopt(source: Sub, target: Sub, created: bool) returns (r: Result<Prepared>)
      requires Ready(source) && !cloud.rollback
      modifies this, cloud
      ensures Steps() && cloud.world.subs == old(cloud.world.subs) && OnlyEntry(old(entries), entries, source.id)
      ensures SameDone(Entry(old(entries), source.id), Entry(entries, source.id))
      ensures Entry(old(entries), source.id).sourceDeleted == Entry(entries, source.id).sourceDeleted
      ensures if r.Ok? then !broken && r.value == Move(target) else broken && Fatal(r.f)
      ensures Adopted(Entry(entries, source.id), target.id)
    {
      hide Provider.History, Evolves;
      var progress := Entry(entries, source.id);
      progress := progress.(targetId := target.id, created := progress.created || created || !Original(target.id));
      var saved := Save(source, progress);
      r := if saved.Err? then Err(saved.f) else Ok(Move(target));
    }

    /// `Migrator.prepare`: finds or creates the destination of a make-before-break,
    /// or reports that the entry needs break-before-make.
    method Prepare(source: Sub, listing: Listing) returns (r: Result<Prepared>)
      requires Ready(source) && !cloud.rollback
      requires forall u :: u in listing.data ==> Reflects(cloud.world, u)
      modifies this, cloud
      ensures Steps() && OnlyEntry(old(entries), entries, source.id)
      ensures forall id :: id in old(cloud.world.subs) ==> id in cloud.world.subs
      ensures SameDone(Entry(old(entries), source.id), Entry(entries, source.id))
      ensures r.Ok? && r.value.Move? ==> Matches(r.value.target, source, Target) && Reflects(cloud.world, r.value.target)
      ensures r.Ok? && r.value.Move? ==> Adopted(Entry(entries, source.id), r.value.target.id)
      ensures r.Ok? && r.value.Swap? ==> entries == old(entries) && !Shown(listing, source, Target)
      ensures r.Ok? && r.value.Move? && Shown(listing, source, Target) ==> r.value.target in listing.data
      ensures broken ==> r.Err? && Fatal(r.f)
    {
      var progress := Entry(entries, source.id);
      var current := ById(listing.data, LiveId(source));
      if current.Some? && !Matches(current.value, source, source.callback) { return Err(Failure(Plain, false)); }
      var existing := Find(listing.data, source, Target);
      if existing.Some? {
        r := Adopt(source, existing.value, false);
        return;
      }
      if progress.sourceDeleted && current.None? { return Ok(Swap); }
      var cost := if current.Some? then current.value.cost else source.cost;
      var total, max := listing.total, listing.max;
      if cloud.costKnown { total, max := cloud.total, cloud.max; }
      if cost > 0 && max > 0 && total + cost > max {
        if current.Some? && !RoomAfterSwap(total, max, cost) { return Err(Failure(CostBlocked, false)); }
        return Ok(Swap);
      }
      var target, created := Replacement(source, cost, Target, Listing(listing.data, total, max));
      if target.Err? {
        if target.f.kind.CostLimit? { return Ok(Swap); }
        return Err(target.f);
      }
      ghost var before := cloud.world;
      r := Adopt(source, target.value, created);
      EvolvesTrans(old(cloud.world), before, cloud.world);
    }

    /// One poll of `Migrator.awaitEnabled`: looks up the unresolved targets.
    method Resolve(live: Listing, targets: seq<Sub>, failures0: seq<Result<()>>, resolved0: seq<bool>, seen0: seq<nat>)
      returns (left: nat, failures: seq<Result<()>>, resolved: seq<bool>, seen: seq<nat>)
      requires cloud.Valid() && |failures0| == |seen0| == |resolved0| == |targets|
      requires forall u :: u in live.data ==> Truthful(cloud.world, u)
      requires forall j :: 0 <= j < |targets| ==> Verdict(cloud.log, cloud.world, targets[j], failures0[j], resolved0[j], seen0[j])
      modifies cloud`world, cloud`log
      ensures cloud.Valid() && old(cloud.log) <= cloud.log && cloud.world == old(cloud.world)
      ensures |failures| == |seen| == |resolved| == |targets|
      ensures forall j :: 0 <= j < |targets| ==> Verdict(cloud.log, cloud.world, targets[j], failures[j], resolved[j], seen[j])
      ensures left == 0 ==> forall j :: 0 <= j < |targets| ==> resolved[j]
    {
      hide Provider.History;
      left, failures, resolved, seen := 0, failures0, resolved0, seen0;
      for j := 0 to |targets|
        invariant cloud.Valid() && old(cloud.log) <= cloud.log && cloud.world == old(cloud.world)
        invariant |failures| == |seen| == |resolved| == |targets|
        invariant forall k :: 0 <= k < |targets| ==> Verdict(cloud.log, cloud.world, targets[k], failures[k], resolved[k], seen[k])
        invariant left == 0 ==> forall k :: 0 <= k < j ==> resolved[k]
      {
        if !resolved[j] {
          var current := ById(live.data, targets[j].id);
          if current.None? {
            left := left + 1;
          } else if !Matches(current.value, targets[j], Target) {
            resolved, failures := resolved[j := true], failures[j := Err(Failure(Plain, false))];
          } else if current.value.status.Enabled? {
            resolved := resolved[j := true];
            var at := cloud.Note(targets[j].id, targets[j].desc, Target);
            seen := seen[j := at];
          } else if !Active(current.value.status) {
            resolved, failures := resolved[j := true], failures[j := Err(Failure(Plain, false))];
          } else {
            left := left + 1;
          }
        }
      }
    }

    /// `Migrator.awaitEnabled`: polls the broadcaster's listing until every
    /// target is enabled or has failed. `live` is the last listing, which may be
    /// partial or failed although some targets were resolved before.
    method AwaitEnabled(owner: Sub, targets: seq<Sub>)
      returns (live: Listing, failures: seq<Result<()>>, listedAt: nat, seen: seq<nat>)
      requires Valid() && !broken
      modifies cloud
      ensures Quiet() && |failures| == |seen| == |targets|
      ensures listedAt < |cloud.log| && cloud.log[listedAt].what == Listed(live.data)
      ensures forall u :: u in live.data ==> Reflects(cloud.world, u)
      ensures Verdicts(cloud.log, cloud.world, targets, failures, seen, 0)
    {
      hide Provider.History;
      var polls: nat := *;
      failures := seq(|targets|, _ => Ok(()));
      var resolved := seq(|targets|, _ => false);
      seen := seq(|targets|, _ => 0);
      while true
        invariant Quiet() && |failures| == |seen| == |resolved| == |targets|
        invariant forall j :: 0 <= j < |targets| ==> Verdict(cloud.log, cloud.world, targets[j], failures[j], resolved[j], seen[j])
        decreases polls
      {
        ghost var before := cloud.world;
        var listed: Result<()>;
        live, listed, listedAt := cloud.List(UserOf(owner));
        EvolvesTrans(old(cloud.world), before, cloud.world);
        var left: nat := 1;
        if listed.Ok? {
          left, failures, resolved, seen := Resolve(live, targets, failures, resolved, seen);
          if left == 0 { return; }
        }
        if listed.Err? || polls == 0 {
          var failure := if listed.Err? then listed.f else Failure(Plain, false);
          failures := seq(|targets|, j requires 0 <= j < |targets| => if resolved[j] then failures[j] else Err(failure));
          return;
        }
        polls := polls - 1;
      }
    }

    /// `Migrator.deleteSource`. An entry recorded as moved has its replacement
    /// enabled. Its source is gone exactly unless the last listing, which may be
    /// partial, left it out.
    method DeleteSource(source: Sub, target: Sub, live: Listing, listedAt: nat, seenAt: nat)
      returns (r: Result<()>)
      requires Ready(source) && !cloud.rollback
      requires target.desc == source.desc && SeenAt(cloud.log, cloud.world, target, seenAt)
      requires listedAt < |cloud.log| && cloud.log[listedAt].what == Listed(live.data)
      requires forall u :: u in live.data ==> Reflects(cloud.world, u)
      modifies this, cloud
      ensures Steps() && OnlyEntry(old(entries), entries, source.id)
      ensures forall id :: id in old(cloud.world.subs) && old(cloud.world.subs)[id].callback.Target? ==> id in cloud.world.subs
      ensures r.Ok? ==> EnabledAt(cloud.world, target.id, source.desc, Target)
      ensures r.Ok? ==>
        var id := old(LiveId(source));
        id in cloud.world.subs <==> id in old(cloud.world.subs) && forall u :: u in live.data ==> u.id != id
      ensures if r.Ok? then !broken && Entry(entries, source.id).deletedOld && !Entry(entries, source.id).sourceDeleted
              else !r.f.kind.CostBlocked? && (Fatal(r.f) || (!broken && entries == old(entries)))
    {
      hide Provider.History, Permits, Evolves;
      EvolvesRefl(cloud.world);
      var id := LiveId(source);
      var current := ById(live.data, id);
      ghost var before := cloud.world;
      if current.Some? {
        if !Matches(current.value, source, source.callback) { return Err(Failure(Plain, false)); }
        cloud.Admits();
        assert Cleared(cloud.log, seenAt, source, Target);
        SourceIsPermitted(snapshot, cloud.log, source, current.value, listedAt, seenAt);
        var deleted := cloud.Delete(id, Source(source, listedAt, seenAt));
        if deleted.Err? { return deleted; }
      }
      ghost var between := cloud.world;
      assert EnabledAt(cloud.world, target.id, source.desc, Target) by { EnabledLasts(before, between, target.id, source.desc, Target); }
      r := Save(source, Entry(entries, source.id).(deletedOld := true, sourceDeleted := false));
      EvolvesTrans(before, between, cloud.world);
    }

    /// `Migrator.restore`: recreates a deleted subscription at `callback` after
    /// its replacement failed, removing the replacement first. The recreated
    /// subscription stands in for the source once it is recorded; whether it is
    /// verified later is not awaited.
    method Restore(source: Sub, callback: Callback, failedId: Option<Id>, cause: Failure, postedAt: nat)
      returns (r: Result<()>)
      requires Ready(source) && callback == Home(cloud.rollback, source)
      requires failedId.Some? ==>
        && 0 < postedAt < |cloud.log| && cloud.log[postedAt].what == Posted(failedId.value)
        && NoStandIn(cloud.Plan(), cloud.world.disk, failedId.value) && Undisturbed(cloud.log, postedAt)
      requires !cause.kind.CostBlocked? && !cause.kind.Checkpoint?
      modifies this, cloud
      ensures Steps() && OnlyEntry(old(entries), entries, source.id)
      ensures SameDone(Entry(old(entries), source.id), Entry(entries, source.id))
      ensures r.Err? && !r.f.kind.CostBlocked? && (broken ==> Fatal(r.f)) && (r.f == cause || broken)
    {
      hide Provider.History, Evolves, NoStandIn, Undisturbed, NoneRolledBack;
      EvolvesRefl(cloud.world);
      if Fatal(cause) { return Err(cause); }
      if failedId.Some? {
        if !cloud.rollback { cloud.Admits(); }
        var _ := cloud.Delete(failedId.value, Failed(postedAt));
      }
      ghost var between := cloud.world;
      var restored, _ := cloud.Create(source, callback);
      EvolvesTrans(old(cloud.world), between, cloud.world);
      if restored.Err? { return Err(cause); }
      if restored.value.id == "" || !Matches(restored.value, source, callback) { return Err(cause); }
      ghost var created := cloud.world;
      var progress := Entry(entries, source.id).(restoredId := restored.value.id, sourceDeleted := false);
      var saved := Save(source, progress);
      EvolvesTrans(old(cloud.world), created, cloud.world);
      return if saved.Err? then saved else Err(cause);
    }

    /// The first half of `Migrator.breakBeforeMake`: marks the gap durably, then
    /// deletes the source if it is still there.
    method MakeRoom(source: Sub) returns (r: Result<()>)
      requires Ready(source) && !cloud.rollback
      modifies this, cloud
      ensures Steps() && OnlyEntry(old(entries), entries, source.id)
      ensures SameDone(Entry(old(entries), source.id), Entry(entries, source.id))
      ensures r.Err? ==> !r.f.kind.Checkpoint? || broken
      ensures broken ==> r.Err? && Fatal(r.f)
      ensures r.Ok? && old(LiveId(source)) in old(cloud.world.used) ==> old(LiveId(source)) !in cloud.world.subs
    {
      hide Provider.History, Evolves;
      var id := LiveId(source);
      var live, listed, at := cloud.List(WithId(id));
      if listed.Err? { return listed; }
      var current := ById(live.data, id);
      if current.Some? {
        if !Matches(current.value, source, source.callback) { return Err(Failure(Plain, false)); }
        if !RoomAfterSwap(live.total, live.max, current.value.cost) { return Err(Failure(CostBlocked, false)); }
        ghost var listedWorld := cloud.world;
        r := FlagAndDelete(source, current.value, at);
        EvolvesTrans(old(cloud.world), listedWorld, cloud.world);
        return;
      }
      r := Ok(());
    }

    /// Marks the gap durably, then deletes the source listed as `current`.
    method FlagAndDelete(source: Sub, current: Sub, at: nat) returns (r: Result<()>)
      requires Ready(source) && !cloud.rollback && current.id == LiveId(source)
      requires at < |cloud.log| && cloud.log[at].what.Listed? && current in cloud.log[at].what.view
      requires Matches(current, source, source.callback) && Reflects(cloud.world, current)
      modifies this, cloud
      ensures Steps() && OnlyEntry(old(entries), entries, source.id)
      ensures SameDone(Entry(old(entries), source.id), Entry(entries, source.id))
      ensures r.Err? ==> !r.f.kind.Checkpoint? || broken
      ensures broken ==> r.Err? && Fatal(r.f)
      ensures r.Ok? ==> current.id !in cloud.world.subs
    {
      hide Provider.History, Permits, Evolves;
      r := Save(source, Entry(entries, source.id).(sourceDeleted := true));
      if r.Err? { return; }
      ghost var flaggedWorld := cloud.world;
      cloud.Admits();
      assert Cleared(cloud.log, |cloud.log| - 1, source, Target);
      SourceIsPermitted(snapshot, cloud.log, source, current, at, |cloud.log| - 1);
      r := cloud.Delete(current.id, Source(source, at, |cloud.log| - 1));
      EvolvesTrans(old(cloud.world), flaggedWorld, cloud.world);
    }

    /// `Migrator.breakBeforeMake`. On success the source is gone and a
    /// replacement is enabled at the target.
    method BreakBeforeMake(source: Sub) returns (r: Result<()>)
      requires Ready(source) && !cloud.rollback
      modifies this, cloud
      ensures Steps() && OnlyEntry(old(entries), entries, source.id)
      ensures r.Ok? ==> Entry(entries, source.id).deletedOld && !Entry(entries, source.id).sourceDeleted
      ensures r.Err? && !Fatal(r.f) ==> SameDone(Entry(old(entries), source.id), Entry(entries, source.id))
      ensures broken ==> r.Err? && Fatal(r.f)
      ensures r.Ok? ==> HasEnabled(cloud.world, source.desc, Target)
      ensures r.Ok? && old(LiveId(source)) in old(cloud.world.used) ==> old(LiveId(source)) !in cloud.world.subs
    {
      hide Provider.History, Evolves;
      r := MakeRoom(source);
      if r.Err? { return; }
      ghost var roomWorld := cloud.world;
      r := Make(source);
      if r.Ok? { StaysGone(old(cloud.world), roomWorld, cloud.world); }
      EvolvesTrans(old(cloud.world), roomWorld, cloud.world);
    }

    /// The second half of `Migrator.breakBeforeMake`: creates the replacement,
    /// or restores the source.
    method Make(source: Sub) returns (r: Result<()>)
      requires Ready(source) && !cloud.rollback
      modifies this, cloud
      ensures Steps() && OnlyEntry(old(entries), entries, source.id)
      ensures r.Ok? ==> Entry(entries, source.id).deletedOld && !Entry(entries, source.id).sourceDeleted
      ensures r.Err? ==> !r.f.kind.CostBlocked?
      ensures r.Err? && !Fatal(r.f) ==> SameDone(Entry(old(entries), source.id), Entry(entries, source.id))
      ensures broken ==> r.Err? && Fatal(r.f)
      ensures r.Ok? ==> HasEnabled(cloud.world, source.desc, Target)
    {
      hide Provider.History, Evolves, NoStandIn;
      var created, postedAt := cloud.Create(source, Target);
      ghost var createdWorld := cloud.world;
      if created.Err? || created.value.id == "" || !Matches(created.value, source, Target) || !Active(created.value.status) {
        r := Restore(source, source.callback, None, if created.Err? then created.f else Failure(Plain, false), 0);
      } else {
        r := Confirm(source, created.value, postedAt);
      }
      EvolvesTrans(old(cloud.world), createdWorld, cloud.world);
    }

    /// The end of `Migrator.breakBeforeMake`, once `created` exists.
    method Confirm(source: Sub, created: Sub, postedAt: nat) returns (r: Result<()>)
      requires Ready(source) && !cloud.rollback
      requires created.id in cloud.world.subs && cloud.world.subs[created.id].desc == created.desc == source.desc
      requires 0 < postedAt == |cloud.log| - 1 && cloud.log[postedAt].what == Posted(created.id)
      requires NoStandIn(cloud.Plan(), cloud.world.disk, created.id)
      modifies this, cloud
      ensures Steps() && OnlyEntry(old(entries), entries, source.id)
      ensures r.Ok? ==> Entry(entries, source.id).deletedOld && !Entry(entries, source.id).sourceDeleted
      ensures r.Err? ==> !r.f.kind.CostBlocked?
      ensures r.Err? && !Fatal(r.f) ==> SameDone(Entry(old(entries), source.id), Entry(entries, source.id))
      ensures broken ==> r.Err? && Fatal(r.f)
      ensures r.Ok? ==> HasEnabled(cloud.world, source.desc, Target)
    {
      hide Provider.History, Evolves, NoStandIn, Undisturbed;
      r := Save(source, Entry(entries, source.id).(targetId := created.id, created := true));
      if r.Err? { return; }
      ghost var savedWorld, savedLog := cloud.world, cloud.log;
      var enabled, _ := AwaitOne(created, Target);
      ghost var awaitedWorld := cloud.world;
      EvolvesTrans(old(cloud.world), savedWorld, awaitedWorld);
      if enabled.Err? {
        AdoptedOnly(old(cloud.log), savedLog, cloud.log, cloud.Plan(), source.id, Entry(entries, source.id), created.id);
        r := Restore(source, source.callback, Some(created.id), enabled.f, postedAt);
      } else {
        r := Conclude(source, created.id);
      }
      EvolvesTrans(old(cloud.world), awaitedWorld, cloud.world);
    }

    /// Records an entry as moved, its replacement being enabled.
    method Conclude(source: Sub, target: Id) returns (r: Result<()>)
      requires Ready(source) && !cloud.rollback && EnabledAt(cloud.world, target, source.desc, Target)
      modifies this, cloud
      ensures Steps() && OnlyEntry(old(entries), entries, source.id) && cloud.world.subs == old(cloud.world.subs)
      ensures HasEnabled(cloud.world, source.desc, Target)
      ensures Entry(entries, source.id) == Entry(old(entries), source.id).(deletedOld := true, sourceDeleted := false)
      ensures if r.Ok? then !broken else broken && Fatal(r.f)
    {
      hide Provider.History, Evolves;
      r := Save(source, Entry(entries, source.id).(deletedOld := true, sourceDeleted := false));
      assert EnabledAt(cloud.world, target, source.desc, Target);
    }

    /// `Migrator.owned`: destinations that are not in the backup.
    method FindOwned(listing: Listing, source: Sub) returns (owned: seq<Sub>)
      ensures forall u :: u in owned <==> u in listing.data && Matches(u, source, Target) && !Ids(snapshot, u.id)
    {
      owned := [];
      for i := 0 to |listing.data|
        invariant forall u :: u in owned <==> u in listing.data[..i] && Matches(u, source, Target) && !Ids(snapshot, u.id)
      {
        var sub := listing.data[i];
        if Matches(sub, source, Target) && !Original(sub.id) { owned := owned + [sub]; }
      }
      assert listing.data[..|listing.data|] == listing.data;
    }

    /// `Migrator.deleteOwned` for each of `owned`, until one fails.
    method DeleteAllOwned(owned: seq<Sub>, source: Sub, clearedAt: nat) returns (r: Result<()>)
      requires Ready(source) && cloud.rollback && Cleared(cloud.log, clearedAt, source, source.callback)
      requires forall u :: u in owned ==> Matches(u, source, Target) && !Ids(snapshot, u.id)
      modifies cloud
      ensures Steps() && cloud.world.disk == old(cloud.world.disk)
      ensures Cleared(cloud.log, clearedAt, source, source.callback)
      ensures forall id :: id in old(cloud.world.subs) && old(cloud.world.subs)[id].callback == source.callback ==> id in cloud.world.subs
      ensures r.Ok? ==> Retired(old(cloud.world), cloud.world, owned, |owned|)
      ensures r.Err? ==> r.f.kind.Plain? || r.f.kind.Unauthorized?
    {
      hide Provider.History, Cleared, Evolves, Retired;
      r := Ok(());
      EvolvesRefl(cloud.world);
      NoneRetired(cloud.world, cloud.world, owned);
      for i := 0 to |owned|
        invariant Steps() && cloud.world.disk == old(cloud.world.disk) && r.Ok?
        invariant Retired(old(cloud.world), cloud.world, owned, i)
        invariant Cleared(cloud.log, clearedAt, source, source.callback)
        invariant forall id :: id in old(cloud.world.subs) && old(cloud.world.subs)[id].callback == source.callback ==> id in cloud.world.subs
      {
        ghost var before := cloud.world;
        r := DeleteOwned(owned[i], source, clearedAt);
        Forward(old(cloud.world), before, cloud.world, source.callback);
        if r.Ok? { RetiredMore(old(cloud.world), before, cloud.world, owned, i); }
        EvolvesTrans(old(cloud.world), before, cloud.world);
        if r.Err? { return; }
      }
    }

    method DeleteOwned(sub: Sub, source: Sub, clearedAt: nat) returns (r: Result<()>)
      requires Ready(source) && cloud.rollback && Cleared(cloud.log, clearedAt, source, source.callback)
      requires Matches(sub, source, Target) && !Ids(snapshot, sub.id)
      modifies cloud
      ensures Steps() && cloud.world.disk == old(cloud.world.disk)
      ensures Cleared(cloud.log, clearedAt, source, source.callback)
      ensures forall id :: id in old(cloud.world.subs) && old(cloud.world.subs)[id].callback == source.callback ==> id in cloud.world.subs
      ensures r.Ok? && sub.id in old(cloud.world.used) ==> sub.id !in cloud.world.subs
      ensures r.Err? ==> r.f.kind.Plain? || r.f.kind.Unauthorized?
    {
      hide Provider.History, Permits, Cleared;
      ghost var startLog := cloud.log;
      var live, listed, at := cloud.List(WithId(sub.id));
      ClearedLasts(startLog, cloud.log, clearedAt, source, source.callback);
      if listed.Err? { return listed; }
      var current := ById(live.data, sub.id);
      if current.None? { return Ok(()); }
      if !Matches(current.value, source, Target) { return Err(Failure(Plain, false)); }
      ghost var listedLog, listedWorld := cloud.log, cloud.world;
      OwnedIsPermitted(snapshot, cloud.log, source, current.value, at, clearedAt);
      r := cloud.Delete(sub.id, Owned(source, at, clearedAt));
      ClearedLasts(listedLog, cloud.log, clearedAt, source, source.callback);
      EvolvesTrans(old(cloud.world), listedWorld, cloud.world);
    }

    /// `Migrator.rollback`. Once an entry is rolled back, no destination that the
    /// migration had made for its descriptor is left.
    method Rollback(source: Sub) returns (r: Result<()>)
      requires Ready(source) && cloud.rollback
      modifies this, cloud
      ensures Steps() && OnlyEntry(old(entries), entries, source.id)
      ensures r.Ok? ==> Entry(entries, source.id).rolledBack
      ensures r.Ok? ==> NoneMade(snapshot, old(cloud.world), cloud.world, source)
      ensures r.Err? && !Fatal(r.f) ==> SameDone(Entry(old(entries), source.id), Entry(entries, source.id))
      ensures broken ==> r.Err? && Fatal(r.f)
    {
      hide Provider.History, Cleared, Evolves, Retired, NoneMade, Whole;
      var listing, listed, _ := cloud.List(UserOf(source));
      if listed.Err? { return listed; }
      ghost var listedWorld := cloud.world;
      var progress := Entry(entries, source.id);
      var owned := FindOwned(listing, source);
      if !progress.created && !progress.deletedOld && !progress.sourceDeleted && owned == [] {
        r := MarkRolledBack(source, "");
        if r.Ok? { RollbackRetires(old(cloud.world), listedWorld, listedWorld, cloud.world, source, listing.data, owned); }
        EvolvesTrans(old(cloud.world), listedWorld, cloud.world);
        return;
      }
      var destination, _ := Replacement(source, source.cost, source.callback, listing);
      ghost var destinationWorld := cloud.world;
      EvolvesTrans(old(cloud.world), listedWorld, cloud.world);
      if destination.Err? {
        if destination.f.kind.CostLimit? {
          r := RollbackBreakFirst(source, listing, owned);
          if r.Ok? { RollbackRetires(old(cloud.world), listedWorld, destinationWorld, cloud.world, source, listing.data, owned); }
          EvolvesTrans(old(cloud.world), destinationWorld, cloud.world);
          return;
        }
        return Err(destination.f);
      }
      r := RetireOwned(source, destination.value, owned);
      if r.Ok? { RollbackRetires(old(cloud.world), listedWorld, destinationWorld, cloud.world, source, listing.data, owned); }
      EvolvesTrans(old(cloud.world), destinationWorld, cloud.world);
    }

    lemma RollbackRetires(a: World, b: World, c: World, d: World, source: Sub, data: seq<Sub>, owned: seq<Sub>)
      requires a.subs.Keys <= a.used && (forall id :: id in a.subs ==> id in b.subs) && Evolves(a, b) && Evolves(b, c) && Evolves(c, d)
      requires Whole(UserOf(source), data, b) && (forall u :: u in data ==> Truthful(b, u))
      requires forall u :: u in owned <==> u in data && Matches(u, source, Target) && !Ids(snapshot, u.id)
      requires owned == [] || Retired(c, d, owned, |owned|)
      ensures NoneMade(snapshot, a, d, source)
    {
      if owned == [] { NoneRetired(c, d, owned); }
      RetiredSooner(b, c, d, owned);
      AllMadeRetired(snapshot, a, b, d, source, data, owned);
    }

    /// The end of `Migrator.rollback`, once a legacy subscription exists.
    method RetireOwned(source: Sub, destination: Sub, owned: seq<Sub>) returns (r: Result<()>)
      requires Ready(source) && cloud.rollback && destination.desc == source.desc
      requires forall u :: u in owned ==> Matches(u, source, Target) && !Ids(snapshot, u.id)
      modifies this, cloud
      ensures Steps() && OnlyEntry(old(entries), entries, source.id)
      ensures r.Ok? ==> Retired(old(cloud.world), cloud.world, owned, |owned|)
      ensures r.Ok? ==> Entry(entries, source.id).rolledBack
      ensures r.Err? && !Fatal(r.f) ==> SameDone(Entry(old(entries), source.id), Entry(entries, source.id))
      ensures r.Err? ==> !r.f.kind.CostBlocked?
      ensures broken ==> r.Err? && Fatal(r.f)
    {
      hide Provider.History, Cleared, Evolves, Retired;
      var enabled, seenAt := AwaitOne(destination, source.callback);
      ghost var awaitedWorld := cloud.world;
      if enabled.Err? { return enabled; }
      SeenIsCleared(cloud.log, seenAt, source, destination);
      r := DeleteAllOwned(owned, source, seenAt);
      ghost var deletedWorld := cloud.world;
      EvolvesTrans(old(cloud.world), awaitedWorld, cloud.world);
      if r.Err? { return; }
      EnabledLasts(awaitedWorld, deletedWorld, destination.id, source.desc, source.callback);
      r := MarkRolledBack(source, destination.id);
      RetiredLasts(old(cloud.world), awaitedWorld, deletedWorld, cloud.world, owned);
      EvolvesTrans(old(cloud.world), deletedWorld, cloud.world);
    }

    method MarkRolledBack(source: Sub, ghost proof: Id) returns (r: Result<()>)
      requires Ready(source) && cloud.rollback
      requires Untouched(Entry(entries, source.id)) || EnabledAt(cloud.world, proof, source.desc, source.callback)
      modifies this, cloud
      ensures Steps() && OnlyEntry(old(entries), entries, source.id)
      ensures if r.Ok? then !broken && Entry(entries, source.id).rolledBack else broken && Fatal(r.f)
    {
      hide Provider.History, Evolves;
      r := Save(source, Entry(entries, source.id).(rolledBack := true));
    }

    /// `Migrator.rollbackBreakFirst`.
    method RollbackBreakFirst(source: Sub, listing: Listing, owned: seq<Sub>) returns (r: Result<()>)
      requires Ready(source) && cloud.rollback
      requires forall u :: u in owned ==> Matches(u, source, Target) && !Ids(snapshot, u.id)
      modifies this, cloud
      ensures Steps() && OnlyEntry(old(entries), entries, source.id)
      ensures r.Ok? ==> Retired(old(cloud.world), cloud.world, owned, |owned|)
      ensures r.Ok? ==> Entry(entries, source.id).rolledBack
      ensures r.Err? && !Fatal(r.f) ==> SameDone(Entry(old(entries), source.id), Entry(entries, source.id))
      ensures broken ==> r.Err? && Fatal(r.f)
    {
      hide Provider.History, Evolves, Cleared, Retired;
      EvolvesRefl(cloud.world);
      if owned == [] { return Err(Failure(CostLimit, false)); }
      var freed := 0;
      for i := 0 to |owned| { freed := freed + owned[i].cost; }
      if listing.max > 0 && listing.total - freed + 1 > listing.max { return Err(Failure(CostBlocked, false)); }
      var progress := Entry(entries, source.id).(sourceDeleted := true);
      r := Save(source, progress);
      if r.Err? { return; }
      ghost var savedWorld := cloud.world;
      SavedIsCleared(cloud.log, source, progress);
      r := DeleteAllOwned(owned, source, |cloud.log| - 1);
      ghost var deletedWorld := cloud.world;
      EvolvesTrans(old(cloud.world), savedWorld, cloud.world);
      if r.Err? { return; }
      r := Unmake(source);
      RetiredLasts(old(cloud.world), savedWorld, deletedWorld, cloud.world, owned);
      EvolvesTrans(old(cloud.world), deletedWorld, cloud.world);
    }

    /// The end of `Migrator.rollbackBreakFirst`: recreates the legacy
    /// subscription, or puts a destination back.
    method Unmake(source: Sub) returns (r: Result<()>)
      requires Ready(source) && cloud.rollback && Entry(entries, source.id).sourceDeleted
      modifies this, cloud
      ensures Steps() && OnlyEntry(old(entries), entries, source.id)
      ensures r.Ok? ==> Entry(entries, source.id).rolledBack && !Entry(entries, source.id).sourceDeleted
      ensures r.Err? && !Fatal(r.f) ==> SameDone(Entry(old(entries), source.id), Entry(entries, source.id))
      ensures broken ==> r.Err? && Fatal(r.f)
    {
      hide Provider.History, Evolves, NoStandIn, Undisturbed;
      var created, postedAt := cloud.Create(source, source.callback);
      ghost var createdWorld, createdLog := cloud.world, cloud.log;
      if created.Err? || created.value.id == "" || !Matches(created.value, source, source.callback) {
        r := Restore(source, Target, None, if created.Err? then created.f else Failure(Plain, false), 0);
        EvolvesTrans(old(cloud.world), createdWorld, cloud.world);
        return;
      }
      var enabled, _ := AwaitOne(created.value, source.callback);
      ghost var awaitedWorld := cloud.world;
      EvolvesTrans(old(cloud.world), createdWorld, cloud.world);
      if enabled.Err? {
        IdleOnly(createdLog, cloud.log);
        r := Restore(source, Target, Some(created.value.id), enabled.f, postedAt);
      } else {
        r := Save(source, Entry(entries, source.id).(rolledBack := true, sourceDeleted := false));
      }
      EvolvesTrans(old(cloud.world), awaitedWorld, cloud.world);
    }
  }

  /// The first `n` of `owned`, as far as they existed, are gone.
  ghost predicate Retired(a: World, b: World, owned: seq<Sub>, n: nat) {
    forall i :: 0 <= i < n && i < |owned| && owned[i].id in a.used ==> owned[i].id !in b.subs
  }

  lemma NoneRetired(a: World, b: World, owned: seq<Sub>)
    ensures Retired(a, b, owned, 0)
  {}

  lemma RetiredLasts(a: World, b: World, c: World, d: World, owned: seq<Sub>)
    requires Evolves(a, b) && Evolves(b, c) && Evolves(c, d) && Retired(b, c, owned, |owned|)
    ensures Retired(a, d, owned, |owned|)
  {}

  lemma StaysGone(a: World, b: World, c: World)
    requires Evolves(a, b) && Evolves(b, c)
    ensures forall id :: id in a.used && id !in b.subs ==> id !in c.subs
  {}

  lemma RetiredSooner(a: World, b: World, c: World, owned: seq<Sub>)
    requires Evolves(a, b) && Retired(b, c, owned, |owned|)
    ensures Retired(a, c, owned, |owned|)
  {}

  /// A destination of `source` that the migration made.
  ghost predicate Made(snapshot: seq<Sub>, w: World, source: Sub, id: Id) {
    id in w.subs && w.subs[id].desc == source.desc && w.subs[id].callback.Target? && !Ids(snapshot, id)
  }

  ghost predicate NoneMade(snapshot: seq<Sub>, a: World, b: World, source: Sub) {
    forall id :: Made(snapshot, a, source, id) ==> id !in b.subs
  }

  /// A complete listing shows all of them.
  lemma AllMadeRetired(snapshot: seq<Sub>, a: World, b: World, c: World, source: Sub, data: seq<Sub>, owned: seq<Sub>)
    requires a.subs.Keys <= a.used && a.used <= b.used && (forall id :: id in a.subs ==> id in b.subs) && Evolves(a, b)
    requires Whole(UserOf(source), data, b) && (forall u :: u in data ==> Truthful(b, u))
    requires forall u :: u in owned <==> u in data && Matches(u, source, Target) && !Ids(snapshot, u.id)
    requires Retired(b, c, owned, |owned|)
    ensures NoneMade(snapshot, a, c, source)
  {
    forall id | Made(snapshot, a, source, id) ensures id !in c.subs {
      assert Selects(UserOf(source), id, b.subs[id]);
      var u :| u in data && u.id == id;
      assert u in owned;
      var k :| 0 <= k < |owned| && owned[k] == u;
    }
  }

  /// What is gone stays gone.
  lemma RetiredMore(a: World, b: World, c: World, owned: seq<Sub>, n: nat)
    requires Evolves(a, b) && Evolves(b, c) && Retired(a, b, owned, n) && n < |owned|
    requires owned[n].id in b.used ==> owned[n].id !in c.subs
    ensures Retired(a, c, owned, n + 1)
  {}

  lemma SeenIsCleared(log: Log, at: nat, s: Sub, seen: Sub)
    requires at < |log| && log[at].what == SawEnabled(seen.id, seen.desc, s.callback) && seen.desc == s.desc
    requires EnabledAt(log[|log| - 1].after, seen.id, seen.desc, s.callback)
    ensures Cleared(log, at, s, s.callback)
  {}

  lemma SavedIsCleared(log: Log, s: Sub, p: Progress)
    requires |log| > 0 && log[|log| - 1].what == Saved(s.id, p) && p.sourceDeleted
    requires Entry(log[|log| - 1].after.disk, s.id) == p
    ensures Cleared(log, |log| - 1, s, s.callback)
  {}

  lemma Forward(a: World, b: World, c: World, callback: Callback)
    requires Evolves(a, b)
    requires forall id :: id in a.subs && a.subs[id].callback == callback ==> id in b.subs
    requires forall id :: id in b.subs && b.subs[id].callback == callback ==> id in c.subs
    ensures forall id :: id in a.subs && a.subs[id].callback == callback ==> id in c.subs
  {}

  /// After a creation only its destination was recorded, and waited for.
  lemma AdoptedOnly(posted: Log, saved: Log, log: Log, plan: seq<Sub>, id: Id, p: Progress, created: Id)
    requires posted != [] && saved == posted + [Event(Saved(id, p), Record(Last(posted), id, p))] && Idles(saved, log)
    requires Adopts(Entry(Last(posted).disk, id), p) && Last(log).disk == Last(saved).disk
    requires NoStandIn(plan, Last(posted).disk, created)
    ensures Undisturbed(log, |posted| - 1) && NoStandIn(plan, Last(log).disk, created)
  {
    forall k | |posted| - 1 < k < |log| && !Idle(log[k].what)
      ensures log[k].what.Saved? && Adopts(Entry(log[k - 1].after.disk, log[k].what.id), log[k].what.p)
    {
      assert k < |saved|;
      assert log[k] == saved[k] && log[k - 1] == saved[k - 1] == posted[k - 1];
    }
    forall s | s in plan ensures Entry(Last(log).disk, s.id).restoredId != created {
      assert Entry(Last(posted).disk, s.id).restoredId != created;
    }
  }

  lemma IdleOnly(posted: Log, log: Log)
    requires posted != [] && Idles(posted, log)
    ensures Undisturbed(log, |posted| - 1)
  {}

  lemma EnabledLasts(a: World, b: World, id: Id, d: Descriptor, callback: Callback)
    requires Evolves(a, b) && EnabledAt(a, id, d, callback) && id in b.subs
    ensures EnabledAt(b, id, d, callback)
  {}
}
