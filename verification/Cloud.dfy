/// The EventSub callback migration, part 3: everything outside the process.
/// Each method is one request to the provider or one durable write; the
/// outcome of every request is arbitrary, and a request may take effect and
/// still be reported lost.
module Cloud {
  import opened EventSub
  import opened Protocol

  datatype Kind = Plain | CostBlocked | CostLimit | Unauthorized | Conflict | Checkpoint

  /// An error, with what errors.Is and errors.As can find in it.
  datatype Failure = Failure(kind: Kind, uncertain: bool)

  datatype Result<+T> = Ok(value: T) | Err(f: Failure)

  predicate Fatal(f: Failure) { f.kind.Checkpoint? || f.kind.Unauthorized? }

  datatype Listing = Listing(data: seq<Sub>, total: int, max: int)

  /// `query`, or a subscription id.
  datatype Filter = UserOf(sub: Sub) | WithId(id: Id)

  predicate Selects(filter: Filter, id: Id, sub: Sub) {
    match filter
    case UserOf(s) => if s.desc.user != "" then sub.desc.user == s.desc.user else sub.desc.kind == s.desc.kind
    case WithId(wanted) => id == wanted
  }

  /// A listing without an error is complete.
  predicate Whole(filter: Filter, data: seq<Sub>, w: World) {
    forall id :: id in w.subs && Selects(filter, id, w.subs[id]) ==> exists u :: u in data && u.id == id
  }

  /// The deletion of a source, or of its stand-in, that was listed as `u`.
  lemma SourceIsPermitted(snapshot: seq<Sub>, log: Log, s: Sub, u: Sub, listedAt: nat, clearedAt: nat)
    requires log != [] && log[0].what == Began(false) && NoneRolledBack(Planned(snapshot), Last(log).disk)
    requires s in Planned(snapshot) && Cleared(log, clearedAt, s, Target) && listedAt < |log|
    requires u.id == s.id || u.id == Entry(Last(log).disk, s.id).restoredId
    requires log[listedAt].what.Listed? && u in log[listedAt].what.view && Matches(u, s, s.callback)
    ensures Permits(snapshot, log, u.id, Source(s, listedAt, clearedAt))
  {}

  lemma OwnedIsPermitted(snapshot: seq<Sub>, log: Log, s: Sub, u: Sub, listedAt: nat, clearedAt: nat)
    requires log != [] && log[0].what == Began(true)
    requires s in Planned(snapshot) && Cleared(log, clearedAt, s, s.callback) && listedAt < |log| && !Ids(snapshot, u.id)
    requires log[listedAt].what.Listed? && u in log[listedAt].what.view && Matches(u, s, Target)
    ensures Permits(snapshot, log, u.id, Owned(s, listedAt, clearedAt))
  {}

  /// Clearance lasts while the mark stays and the replacement is not deleted.
  lemma ClearedLasts(log: Log, more: Log, at: nat, s: Sub, callback: Callback)
    requires log != [] && Cleared(log, at, s, callback) && log <= more
    requires var w, w' := Last(log), Last(more);
      && Evolves(w, w') && Entry(w'.disk, s.id).sourceDeleted == Entry(w.disk, s.id).sourceDeleted
      && (forall id :: id in w.subs && w.subs[id].callback == callback ==> id in w'.subs && id in w.used)
    ensures Cleared(more, at, s, callback)
  {}

  /// A deletion stays permitted when the world drifts before it is sent.
  lemma PermitsDrifts(snapshot: seq<Sub>, log: Log, w: World, id: Id, why: Why)
    requires log != [] && log[0].what.Began? && Drifts(Last(log), w) && Permits(snapshot, log, id, why)
    ensures Permits(snapshot, log + [Event(Drifted, w)], id, why)
  {
    var more := log + [Event(Drifted, w)];
    assert forall k :: 0 <= k < |log| ==> more[k] == log[k];
    if why.Failed? {
      forall k | why.postedAt < k < |more| && !Idle(more[k].what)
        ensures more[k].what.Saved? && Adopts(Entry(more[k - 1].after.disk, more[k].what.id), more[k].what.p)
      {
        assert more[k] == log[k] && more[k - 1] == log[k - 1];
      }
    }
  }

  class Provider {
    ghost const snapshot: seq<Sub>
    const rollback: bool
    /// Whether `Run` goes ahead: not forward over an entry that was rolled back.
    ghost const admitted: bool
    var world: World
    var costKnown: bool
    var total: int
    var max: int
    /// Every step taken in this run, with the world after it.
    var log: Log

    ghost function Plan(): seq<Sub> { Planned(snapshot) }

    ghost predicate Valid()
      reads this`world, this`log
    {
      Current() && History()
    }

    ghost predicate Current()
      reads this`world, this`log
    {
      log != [] && log[0].what == Began(rollback) && Last(log) == world && world.subs.Keys <= world.used
    }

    /// Every step so far was legal.
    ghost predicate History()
      reads this`world, this`log
    {
      && Legal(snapshot, log) && Fits(snapshot, log[0].after) && Fits(snapshot, world)
      && (admitted <==> rollback || NoneRolledBack(Plan(), world.disk))
    }

    constructor (snapshot: seq<Sub>, rollback: bool, world: World)
      requires Fits(snapshot, world)
      ensures Valid() && this.world == world && this.snapshot == snapshot && this.rollback == rollback
      ensures log == [Event(Began(rollback), world)]
    {
      this.snapshot, this.rollback, this.world := snapshot, rollback, world;
      this.admitted := rollback || NoneRolledBack(Planned(snapshot), world.disk);
      this.costKnown, this.total, this.max := false, 0, 0;
      this.log := [Event(Began(rollback), world)];
    }

    lemma Admits()
      requires Valid() && admitted && !rollback
      ensures NoneRolledBack(Plan(), world.disk)
    {}

    lemma LogIsLegal()
      requires Valid()
      ensures Legal(snapshot, log) && Fits(snapshot, log[0].after) && DistinctIds(Plan())
      ensures admitted <==> rollback || NoneRolledBack(Plan(), world.disk)
    {
      PlanIsDistinct(snapshot);
    }

    /// One step of the world, and its place in the log.
    method Advance(what: What, w: World)
      requires Valid() && Next(snapshot, log, Event(what, w))
      modifies this`world, this`log
      ensures Valid() && world == w && log == old(log) + [Event(what, w)] && Evolves(old(world), world)
    {
      hide Next;
      LegalMore(snapshot, log, Event(what, w));
      EventIsSound(snapshot, log, Event(what, w));
      if !rollback { NobodyReturns(snapshot, log, Event(what, w)); }
      log := log + [Event(what, w)];
      world := w;
    }

    /// Other clients and the provider itself act between requests.
    method Interfere()
      requires Valid()
      modifies this`world, this`log
      ensures Valid() && log == old(log) + [Event(Drifted, world)]
      ensures Drifts(old(world), world) && Evolves(old(world), world)
    {
      var w: World := *;
      if !Drifts(world, w) { w := world; }
      Advance(Drifted, w);
    }

    /// `API.List`: the pages read before an error are returned with it.
    method List(filter: Filter) returns (listing: Listing, r: Result<()>, at: nat)
      requires Valid()
      modifies this
      ensures Valid() && old(log) < log && at == |log| - 1 && log[at].what == Listed(listing.data)
      ensures Evolves(old(world), world) && world.disk == old(world.disk) && Idles(old(log), log)
      ensures forall id :: id in old(world.subs) ==> id in world.subs
      ensures forall u :: u in listing.data ==> Truthful(world, u) && Reflects(world, u)
      ensures r.Ok? ==> Whole(filter, listing.data, world)
      ensures r.Err? ==> r.f.kind.Plain? || r.f.kind.Unauthorized?
    {
      hide History, Legal;
      Interfere();
      ghost var drifted := world;
      var data: seq<Sub> := *;
      if exists u :: u in data && !Truthful(world, u) { data := []; }
      listing := *;
      listing := listing.(data := data);
      if * { costKnown, total, max := true, listing.total, listing.max; }
      r := Ok(());
      var failed: bool := *;
      if failed || !Whole(filter, data, world) {
        var f: Failure := *;
        r := Err(if f.kind.Unauthorized? then f else f.(kind := Plain));
      }
      Advance(Listed(data), world);
      at := |log| - 1;
    }

    /// `API.Create`. A lost reply reports an error although the subscription
    /// exists; a definite rejection creates nothing. A creation that takes
    /// effect only later is one of the drifts. `id == ""` stands for a reply
    /// that does not describe the intended subscription.
    method Create(wanted: Sub, callback: Callback) returns (r: Result<Sub>, at: nat)
      requires Valid()
      modifies this
      ensures Valid() && old(log) < log && at == |log| - 1 && at > 0
      ensures Evolves(old(world), world) && world.disk == old(world.disk)
      ensures forall id :: id in old(world.subs) ==> id in world.subs
      ensures r.Ok? && r.value.id != "" ==>
        && r.value.id !in old(world.used) && r.value.id in world.subs && world.subs[r.value.id] == r.value
        && log[at].what == Posted(r.value.id) && NoStandIn(Plan(), world.disk, r.value.id)
        && (Matches(r.value, wanted, callback) ==> r.value.desc == wanted.desc && r.value.callback == callback)
      ensures r.Err? ==> r.f.kind in {Plain, CostLimit, Unauthorized, Conflict}
    {
      hide Legal;
      Interfere();
      ghost var drifted := world;
      var sub: Sub := *;
      sub := sub.(desc := wanted.desc, callback := callback);
      if sub.id == "" || sub.id in world.used {
        var f: Failure := *;
        r := Err(if f.kind in {CostLimit, Unauthorized, Conflict} then f else f.(kind := Plain));
        Advance(Lost, world);
      } else {
        NewIsNoStandIn(sub.id);
        Advance(Posted(sub.id), Post(world, sub));
        r := Ok(sub);
        if * {
          r := Ok(sub.(id := ""));
        } else if * {
          var f: Failure := *;
          r := Err(f.(kind := Plain));
        }
      }
      EvolvesTrans(old(world), drifted, world);
      at := |log| - 1;
    }

    lemma NewIsNoStandIn(id: Id)
      requires Valid() && id !in world.used && id != ""
      ensures NoStandIn(Plan(), world.disk, id)
    {
      forall s | s in Plan() ensures Entry(world.disk, s.id).restoredId != id { assert RestoredMatches(world, s); }
    }

    /// `API.Delete`: it may fail without effect, take effect and report an
    /// error, or find the subscription already gone.
    method Delete(id: Id, why: Why) returns (r: Result<()>)
      requires Valid() && Permits(snapshot, log, id, why)
      modifies this
      ensures Valid() && old(log) < log
      ensures world.disk == old(world.disk) && Evolves(old(world), world)
      ensures forall other :: other in old(world.subs) && other != id ==> other in world.subs
      ensures r.Ok? ==> id !in world.subs
      ensures r.Err? ==> r.f.kind.Plain? || r.f.kind.Unauthorized?
    {
      hide Permits, History;
      ghost var sent := log;
      Interfere();
      ghost var drifted := world;
      PermitsDrifts(snapshot, sent, world, id, why);
      var failed: bool := *;
      var took: bool := *;
      Advance(Deleted(id, why), if !failed || took then Drop(world, id) else world);
      EvolvesTrans(old(world), drifted, world);
      r := Ok(());
      if failed {
        var f: Failure := *;
        r := Err(if f.kind.Unauthorized? then f else f.(kind := Plain));
      }
    }

    /// `Journal.Append`: on an error the line may or may not be on disk.
    method Append(s: Sub, p: Progress) returns (ok: bool)
      requires Valid() && admitted && s in Plan() && Allowed(rollback, log[|log| - 1], s, p)
      modifies this
      ensures Valid() && old(log) < log
      ensures if log == old(log) + [Event(Saved(s.id, p), world)] then world == Record(old(world), s.id, p)
              else !ok && world == old(world) && log == old(log) + [Event(Lost, world)]
      ensures Evolves(old(world), world)
    {
      hide Legal, Fits, Allowed;
      ok := *;
      var written: bool := *;
      if ok || written {
        Advance(Saved(s.id, p), Record(world, s.id, p));
      } else {
        Advance(Lost, world);
      }
    }

    /// Remembers that a listing showed a replacement enabled.
    method Note(id: Id, d: Descriptor, callback: Callback) returns (at: nat)
      requires Valid() && EnabledAt(world, id, d, callback)
      modifies this`world, this`log
      ensures Valid() && world == old(world) && log == old(log) + [Event(SawEnabled(id, d, callback), world)]
      ensures at == |log| - 1
    {
      hide History;
      Advance(SawEnabled(id, d, callback), world);
      at := |log| - 1;
    }
  }

  /// A forward run rolls nothing back.
  lemma NobodyReturns(snapshot: seq<Sub>, log: Log, e: Event)
    requires Legal(snapshot, log) && Next(snapshot, log, e) && !log[0].what.rollback
    ensures NoneRolledBack(Planned(snapshot), Last(log).disk) <==> NoneRolledBack(Planned(snapshot), e.after.disk)
  {
  }

  /// `more` adds only listings and drift.
  ghost predicate Idles(log: Log, more: Log) {
    log <= more && forall k :: |log| <= k < |more| ==> Idle(more[k].what)
  }

  lemma IdlesTrans(a: Log, b: Log, c: Log)
    requires Idles(a, b) && Idles(b, c)
    ensures Idles(a, c)
  {
    assert forall k :: 0 <= k < |b| ==> c[k] == b[k];
  }

  /// A creation that takes effect after it was reported lost, with an id not
  /// seen before, is one of the things that may happen between two requests.
  lemma LateCreation(w: World, sub: Sub)
    requires w.subs.Keys <= w.used && "" !in w.used && (forall id :: id in w.subs ==> w.subs[id].id == id)
    requires sub.id !in w.used && sub.id != ""
    ensures Drifts(w, Post(w, sub))
  {}
}
