/// The lease that serializes provider subscription work: `with` of
/// subscriptionlock, across replicas.
module SubscriptionLock {
  import opened Wrappers
  import Leases

  type Owner = Leases.Owner

  const LEASE_DURATION := 90_000
  const WORK_BUDGET := 45_000

  datatype Doc = Doc(owner: Owner, until: int, job: string)

  /// The document in Firestore; each method is one transaction.
  class LeaseDoc {
    var doc: Option<Doc>

    /// The transaction of `with`. `first` and `second` are its two readings of
    /// the clock.
    method Take(owner: Owner, job: string, beside: set<string>, first: int, second: int) returns (acquired: bool, alongside: bool)
      modifies this
      ensures acquired == Free(old(doc), first)
      ensures doc == if acquired then Some(Doc(owner, second + LEASE_DURATION, job)) else old(doc)
      ensures alongside == (!acquired && old(doc).value.job != "" && old(doc).value.job in beside)
    {
      if doc.Some? && doc.value.until > first {
        return false, doc.value.job != "" && doc.value.job in beside;
      }
      doc := Some(Doc(owner, second + LEASE_DURATION, job));
      return true, false;
    }

    /// The deferred release of `with`.
    method Release(owner: Owner) returns (ok: bool)
      modifies this
      ensures doc == Without(old(doc), owner) && ok == (old(doc) != doc)
    {
      if doc.None? || doc.value.owner != owner { return false; }
      doc := None;
      return true;
    }
  }

  predicate Free(doc: Option<Doc>, clock: int) { doc.None? || doc.value.until <= clock }

  function Without(doc: Option<Doc>, owner: Owner): Option<Doc> {
    if doc.Some? && doc.value.owner == owner then None else doc
  }

  /// One call of `with`. `read` is when its transaction read the clock.
  datatype Phase =
    | Trying
    | Held(read: int)
    | Working(deadline: int)
    | Beside
    | Ended(retain: bool)
    | Gone

  datatype Client = Client(job: string, offset: nat, until: int, phase: Phase)

  datatype World = World(now: int, doc: Option<Doc>, clients: seq<Client>)

  /// `latency` bounds the time from reading the clock to the start of the work,
  /// `over` the time that requests go on after the deadline of the work: none
  /// when they honor its context, and 30 seconds for a migration that restores.
  datatype Bounds = Bounds(skew: nat, latency: nat, over: nat)

  datatype Act =
    | Tick(to: int)
    | Enter(job: string, offset: nat)
    | Take(o: Owner, read: int)  // commits, whether or not its caller learns it
    | Join(o: Owner, read: int, jobs: set<string>)
    | Work(o: Owner)
    | End(o: Owner, uncertain: bool)
    | Release(o: Owner)

  predicate Can(w: World, a: Act, b: Bounds) {
    match a
    case Tick(to) =>
      w.now <= to && forall o :: 0 <= o < |w.clients| && w.clients[o].phase.Working? ==> to < w.clients[o].phase.deadline + b.over
    case Enter(_, offset) => offset <= b.skew
    case Take(o, read) =>
      o < |w.clients| && w.clients[o].phase.Trying? && read <= w.now && Free(w.doc, read + w.clients[o].offset)
    case Join(o, read, jobs) =>
      && o < |w.clients| && w.clients[o].phase.Trying? && read <= w.now && !Free(w.doc, read + w.clients[o].offset)
      && w.doc.value.job != "" && w.doc.value.job in jobs
    case Work(o) => o < |w.clients| && w.clients[o].phase.Held? && w.now - w.clients[o].phase.read <= b.latency
    case End(o, _) => o < |w.clients| && w.clients[o].phase.Working?
    case Release(o) => o < |w.clients| && w.clients[o].phase == Ended(false)
  }

  function Moved(w: World, o: Owner, phase: Phase): World
    requires o < |w.clients|
  {
    w.(clients := w.clients[o := w.clients[o].(phase := phase)])
  }

  function After(w: World, a: Act, b: Bounds): World
    requires Can(w, a, b)
  {
    match a
    case Tick(to) => w.(now := to)
    case Enter(job, offset) => w.(clients := w.clients + [Client(job, offset, 0, Trying)])
    case Take(o, read) =>
      var c := w.clients[o];
      var until := read + c.offset + LEASE_DURATION;
      World(w.now, Some(Doc(o, until, c.job)), w.clients[o := c.(until := until, phase := Held(read))])
    case Join(o, _, _) => Moved(w, o, Beside)
    case Work(o) => Moved(w, o, Working(w.now + WORK_BUDGET))
    case End(o, uncertain) => Moved(w, o, Ended(w.now >= w.clients[o].phase.deadline || uncertain))
    case Release(o) => Moved(w, o, Gone).(doc := Without(w.doc, o))
  }

  ghost predicate Step(w: World, w': World, b: Bounds) { exists a :: Can(w, a, b) && w' == After(w, a, b) }

  ghost predicate Init(w: World) { w.clients == [] && w.doc == None }

  ghost predicate Run(trace: seq<World>, b: Bounds) {
    && trace != [] && Init(trace[0])
    && forall i :: 0 < i < |trace| ==> Step(trace[i - 1], trace[i], b)
  }

  predicate Live(phase: Phase) { phase.Held? || phase.Working? || phase.Ended? }

  ghost function Abs(w: World, b: Bounds): Leases.State {
    Leases.State(
      w.now, if w.doc.Some? then Some(Leases.Lease(w.doc.value.owner, w.doc.value.until)) else None,
      map o | 0 <= o < |w.clients| && Live(w.clients[o].phase) :: w.clients[o].until,
      map o | 0 <= o < |w.clients| && w.clients[o].phase.Working? :: w.clients[o].phase.deadline + b.over)
  }

  ghost predicate Inv(w: World, b: Bounds) {
    && Leases.Inv(Abs(w, b), b.skew)
    && forall o :: 0 <= o < |w.clients| ==>
         var c := w.clients[o];
         c.offset <= b.skew && (c.phase.Held? ==> c.until == c.phase.read + c.offset + LEASE_DURATION)
  }

  predicate Fits(b: Bounds) { b.latency + b.skew + b.over <= LEASE_DURATION - WORK_BUDGET }

  lemma TakeRefines(w: World, a: Act, b: Bounds)
    requires a.Take? && Can(w, a, b) && Inv(w, b)
    ensures Leases.Grant(Abs(w, b), Abs(After(w, a, b), b), b.skew, a.o, After(w, a, b).clients[a.o].until)
  {
    hide Leases.Inv;
    assert Abs(After(w, a, b), b).granted == Abs(w, b).granted[a.o := After(w, a, b).clients[a.o].until];
    assert Abs(After(w, a, b), b).working == Abs(w, b).working;
  }

  lemma WorkRefines(w: World, a: Act, b: Bounds)
    requires a.Work? && Can(w, a, b) && Inv(w, b) && Fits(b)
    ensures Leases.Start(Abs(w, b), Abs(After(w, a, b), b), b.skew, a.o, w.now + WORK_BUDGET + b.over)
  {
    var s, s' := Abs(w, b), Abs(After(w, a, b), b);
    assert s'.working == s.working[a.o := w.now + WORK_BUDGET + b.over];
    assert s'.granted == s.granted;
  }

  lemma ReleaseRefines(w: World, a: Act, b: Bounds)
    requires a.Release? && Can(w, a, b)
    ensures Leases.Release(Abs(w, b), Abs(After(w, a, b), b), a.o)
  {
    var s, s' := Abs(w, b), Abs(After(w, a, b), b);
    assert s'.granted == s.granted - {a.o} && s'.working == s.working - {a.o};
  }

  lemma TickRefines(w: World, a: Act, b: Bounds)
    requires a.Tick? && Can(w, a, b)
    ensures Leases.Tick(Abs(w, b), Abs(After(w, a, b), b))
  {}

  lemma EndRefines(w: World, a: Act, b: Bounds)
    requires a.End? && Can(w, a, b)
    ensures Leases.Stop(Abs(w, b), Abs(After(w, a, b), b), a.o)
  {
    var s, s' := Abs(w, b), Abs(After(w, a, b), b);
    assert s'.granted == s.granted && s'.working == s.working - {a.o};
  }

  lemma OthersRefine(w: World, a: Act, b: Bounds)
    requires (a.Enter? || a.Join?) && Can(w, a, b)
    ensures Abs(After(w, a, b), b) == Abs(w, b)
  {}

  lemma Refines(w: World, a: Act, b: Bounds)
    requires Inv(w, b) && Can(w, a, b) && Fits(b)
    ensures var s, s' := Abs(w, b), Abs(After(w, a, b), b); s == s' || Leases.Next(s, s', b.skew)
  {
    hide Leases.Grant, Leases.Start, Leases.Release, Leases.Inv, Leases.Tick, Leases.Stop, Abs, After, Can;
    match a
    case Tick(_) => TickRefines(w, a, b);
    case Take(_, _) => TakeRefines(w, a, b);
    case Work(_) => WorkRefines(w, a, b);
    case End(_, _) => EndRefines(w, a, b);
    case Release(_) => ReleaseRefines(w, a, b);
    case _ => OthersRefine(w, a, b);
  }

  lemma StepKeeps(w: World, a: Act, b: Bounds)
    requires Inv(w, b) && Can(w, a, b) && Fits(b)
    ensures Inv(After(w, a, b), b)
  {
    Refines(w, a, b);
    Leases.NextKeeps(Abs(w, b), Abs(After(w, a, b), b), b.skew);
  }

  lemma {:induction false} InvHolds(trace: seq<World>, b: Bounds)
    requires Run(trace, b) && Fits(b)
    ensures Inv(trace[|trace| - 1], b)
  {
    if |trace| > 1 {
      var n := |trace| - 1;
      InvHolds(trace[..n], b);
      var a :| Can(trace[n - 1], a, b) && trace[n] == After(trace[n - 1], a, b);
      StepKeeps(trace[n - 1], a, b);
    }
  }

  /// At most one holder works, leaving aside work beside a holder.
  ghost predicate Exclusive(w: World) {
    forall o, p :: 0 <= o < p < |w.clients| ==> !(w.clients[o].phase.Working? && w.clients[p].phase.Working?)
  }

  /// Two holders work at once in no run if and only if commit latency, clock
  /// skew and overrun together fit between the deadline and the lease.
  lemma MarginIsExact(b: Bounds)
    ensures b.latency + b.skew + b.over <= 45_000 <==> forall trace :: Run(trace, b) ==> Exclusive(trace[|trace| - 1])
  {
    if Fits(b) {
      forall trace | Run(trace, b) ensures Exclusive(trace[|trace| - 1]) {
        InvHolds(trace, b);
        var w := trace[|trace| - 1];
        Leases.WorkersHold(Abs(w, b), b.skew);
        forall o, p | 0 <= o < p < |w.clients| ensures !(w.clients[o].phase.Working? && w.clients[p].phase.Working?) {
          assert o in Abs(w, b).working && p in Abs(w, b).working ==> o == p;
        }
      }
    } else {
      var trace := Overlap(b);
      assert Run(trace, b) && !Exclusive(trace[|trace| - 1]);
    }
  }

  lemma Overlap(b: Bounds) returns (trace: seq<World>)
    requires !Fits(b)
    ensures Run(trace, b) && !Exclusive(trace[|trace| - 1])
  {
    var later := if LEASE_DURATION - b.skew < b.latency then b.latency else LEASE_DURATION - b.skew;
    var w0 := World(0, None, []);
    var w1 := After(w0, Enter("", 0), b);
    var w2 := After(w1, Enter("", b.skew), b);
    var w3 := After(w2, Take(0, 0), b);
    var w4 := After(w3, Tick(b.latency), b);
    var w5 := After(w4, Work(0), b);
    var w6 := After(w5, Tick(later), b);
    var w7 := After(w6, Take(1, later), b);
    var w8 := After(w7, Work(1), b);
    trace := [w0, w1, w2, w3, w4, w5, w6, w7, w8];
    assert w8.clients[0].phase.Working? && w8.clients[1].phase.Working?;
  }

  /// After an uncertain mutation, or an expired deadline, the key stays closed
  /// to every replica until some clock can see the lease expired.
  lemma RetainedStaysClosed(trace: seq<World>, b: Bounds, o: Owner)
    requires Run(trace, b) && Fits(b)
    requires var w := trace[|trace| - 1]; o < |w.clients| && w.clients[o].phase == Ended(true) && w.now + b.skew < w.clients[o].until
    ensures var w := trace[|trace| - 1];
      && w.doc.Some? && w.doc.value.owner == o
      && (forall p, read :: !Can(w, Take(p, read), b))
      && (forall a :: Can(w, a, b) ==> After(w, a, b).doc == w.doc)
  {
    InvHolds(trace, b);
    var w := trace[|trace| - 1];
    assert o in Abs(w, b).granted;
    forall p, read ensures !Can(w, Take(p, read), b) {}
    forall a | Can(w, a, b) ensures After(w, a, b).doc == w.doc {
      if a.Take? { assert false; }
    }
  }

  /// A lease is removed only by its owner, and replaced only when a clock sees
  /// it expired: a stale release frees nobody else's.
  lemma OnlyItsOwner(w: World, a: Act, b: Bounds)
    requires Can(w, a, b) && w.doc.Some? && After(w, a, b).doc != w.doc
    ensures (a.Release? && a.o == w.doc.value.owner && After(w, a, b).doc == None)
         || (a.Take? && w.doc.value.until <= a.read + w.clients[a.o].offset)
  {}
}
