/// The leases of scheduled jobs, whose `Finish` checks no ownership.
module Jobs {
  import opened Wrappers
  import Leases

  type Owner = Leases.Owner

  type Slot = int

  const ACQUIRE_BUDGET := 15_000
  const FINISH_BUDGET := 10_000
  const LEASE_MARGIN := 60_000
  const SLOT_LENGTH := 240_000

  /// The zero time of an unheld lease is `None`. The owner is not stored; it
  /// says here who wrote the lease.
  datatype Doc = Doc(lease: Option<Leases.Lease>, completed: Option<Slot>)

  predicate CanAcquire(d: Doc, slot: Slot, clock: int) {
    d.completed != Some(slot) && (d.lease.Some? ==> d.lease.value.until <= clock)
  }

  /// `Slot` of a job that is not daily: the clock cut to four minutes.
  function SlotOf(clock: int): Slot { clock - clock % SLOT_LENGTH }

  /// The document in Firestore; each method is one transaction or write.
  class JobLease {
    var doc: Doc

    method Acquire(owner: Owner, slot: Slot, clock: int, ttl: nat) returns (acquired: bool)
      modifies this
      ensures acquired == CanAcquire(old(doc), slot, clock)
      ensures doc == if acquired then Doc(Some(Leases.Lease(owner, clock + ttl)), old(doc).completed) else old(doc)
    {
      if doc.completed == Some(slot) || (doc.lease.Some? && doc.lease.value.until > clock) { return false; }
      doc := doc.(lease := Some(Leases.Lease(owner, clock + ttl)));
      return true;
    }

    method Finish(slot: Slot, success: bool)
      modifies this
      ensures doc == Doc(None, if success then Some(slot) else old(doc).completed)
    {
      doc := doc.(lease := None);
      if success { doc := doc.(completed := Some(slot)); }
    }
  }

  /// One call of `Once`; `at` is when its clock was read, and `start` when its
  /// work began.
  datatype Phase = Trying | Held | Working(start: int) | Gone

  datatype Client = Client(at: int, offset: nat, slot: Slot, until: int, phase: Phase)

  datatype World = World(now: int, doc: Doc, clients: seq<Client>)

  /// `timeout` is the job's; `settle` bounds how long its requests and the
  /// write of Finish outlive their contexts.
  datatype Bounds = Bounds(skew: nat, timeout: nat, settle: nat)

  datatype Act =
    | Tick(to: int)
    | Enter(offset: nat, slot: Slot)
    | Acquire(o: Owner)  // commits, whether or not its caller learns it
    | Work(o: Owner)
    | Finish(o: Owner, success: bool)
    | Quit(o: Owner)  // work ends and Finish is not recorded

  predicate Can(w: World, a: Act, b: Bounds) {
    match a
    case Tick(to) =>
      w.now <= to && forall o :: 0 <= o < |w.clients| && w.clients[o].phase.Working? ==>
        to < w.clients[o].phase.start + b.timeout + FINISH_BUDGET + b.settle
    case Enter(offset, _) => offset <= b.skew
    case Acquire(o) =>
      && o < |w.clients| && w.clients[o].phase.Trying?
      && CanAcquire(w.doc, w.clients[o].slot, w.clients[o].at + w.clients[o].offset)
    case Work(o) => o < |w.clients| && w.clients[o].phase.Held? && w.now <= w.clients[o].at + ACQUIRE_BUDGET
    case Finish(o, _) => o < |w.clients| && w.clients[o].phase.Working?
    case Quit(o) => o < |w.clients| && w.clients[o].phase.Working?
  }

  function Moved(w: World, o: Owner, phase: Phase): World
    requires o < |w.clients|
  {
    w.(clients := w.clients[o := w.clients[o].(phase := phase)])
  }

  function After(w: World, a: Act, b: Bounds): World
    requires Can(w, a, b)
  {
    match a
    case Tick(to) => w.(now := to)
    case Enter(offset, slot) => w.(clients := w.clients + [Client(w.now, offset, slot, w.now + offset + b.timeout + LEASE_MARGIN, Trying)])
    case Acquire(o) => Moved(w, o, Held).(doc := w.doc.(lease := Some(Leases.Lease(o, w.clients[o].until))))
    case Work(o) => Moved(w, o, Working(w.now))
    case Finish(o, success) =>
      Moved(w, o, Gone).(doc := Doc(None, if success then Some(w.clients[o].slot) else w.doc.completed))
    case Quit(o) => Moved(w, o, Gone)
  }

  ghost predicate Step(w: World, w': World, b: Bounds) { exists a :: Can(w, a, b) && w' == After(w, a, b) }

  ghost predicate Init(w: World) { w.clients == [] && w.doc.lease == None }

  ghost predicate Run(trace: seq<World>, b: Bounds) {
    && trace != [] && Init(trace[0])
    && forall i :: 0 < i < |trace| ==> Step(trace[i - 1], trace[i], b)
  }

  ghost function Abs(w: World, b: Bounds): Leases.State {
    Leases.State(
      w.now, w.doc.lease,
      map o | 0 <= o < |w.clients| && (w.clients[o].phase.Held? || w.clients[o].phase.Working?) :: w.clients[o].until,
      map o | 0 <= o < |w.clients| && w.clients[o].phase.Working? ::
        w.clients[o].phase.start + b.timeout + FINISH_BUDGET + b.settle)
  }

  /// The slot of whoever holds the lease is not completed.
  ghost predicate SlotOpen(w: World) {
    w.doc.lease.Some? ==>
      && w.doc.lease.value.owner < |w.clients|
      && w.doc.completed != Some(w.clients[w.doc.lease.value.owner].slot)
  }

  ghost predicate Inv(w: World, b: Bounds) {
    && Leases.Inv(Abs(w, b), b.skew) && SlotOpen(w)
    && forall o :: 0 <= o < |w.clients| ==>
         var c := w.clients[o]; c.offset <= b.skew && c.at <= w.now && c.until == c.at + c.offset + b.timeout + LEASE_MARGIN
  }

  predicate Fits(b: Bounds) { b.skew + b.settle <= LEASE_MARGIN - ACQUIRE_BUDGET - FINISH_BUDGET }

  lemma AcquireRefines(w: World, a: Act, b: Bounds)
    requires a.Acquire? && Can(w, a, b) && Inv(w, b)
    ensures Leases.Grant(Abs(w, b), Abs(After(w, a, b), b), b.skew, a.o, w.clients[a.o].until)
  {
    var s, s' := Abs(w, b), Abs(After(w, a, b), b);
    assert s'.granted == s.granted[a.o := w.clients[a.o].until];
    assert s'.working == s.working;
  }

  lemma WorkRefines(w: World, a: Act, b: Bounds)
    requires a.Work? && Can(w, a, b) && Inv(w, b) && Fits(b)
    ensures Leases.Start(Abs(w, b), Abs(After(w, a, b), b), b.skew, a.o, w.now + b.timeout + FINISH_BUDGET + b.settle)
  {
    var s, s' := Abs(w, b), Abs(After(w, a, b), b);
    assert s'.working == s.working[a.o := w.now + b.timeout + FINISH_BUDGET + b.settle];
    assert s'.granted == s.granted;
  }

  /// The write of Finish names no owner, yet removes only its own lease.
  lemma FinishRefines(w: World, a: Act, b: Bounds)
    requires a.Finish? && Can(w, a, b) && Inv(w, b)
    ensures w.doc.lease == Some(Leases.Lease(a.o, w.clients[a.o].until))
    ensures Leases.Release(Abs(w, b), Abs(After(w, a, b), b), a.o)
  {
    Leases.WorkersHold(Abs(w, b), b.skew);
    assert a.o in Abs(w, b).working;
    var s, s' := Abs(w, b), Abs(After(w, a, b), b);
    assert s'.granted == s.granted - {a.o} && s'.working == s.working - {a.o};
  }

  lemma QuitRefines(w: World, a: Act, b: Bounds)
    requires a.Quit? && Can(w, a, b) && Inv(w, b)
    ensures Leases.Inv(Abs(After(w, a, b), b), b.skew)
  {
    var s, s' := Abs(w, b), Abs(After(w, a, b), b);
    assert s'.granted == s.granted - {a.o} && s'.working == s.working - {a.o} && s'.lease == s.lease && s'.now == s.now;
  }

  lemma StepKeeps(w: World, a: Act, b: Bounds)
    requires Inv(w, b) && Can(w, a, b) && Fits(b)
    ensures Inv(After(w, a, b), b)
  {
    hide Leases.Grant, Leases.Start, Leases.Release, Leases.Inv;
    var s, s' := Abs(w, b), Abs(After(w, a, b), b);
    match a
    case Tick(_) => assert Leases.Tick(s, s'); Leases.NextKeeps(s, s', b.skew);
    case Acquire(_) => AcquireRefines(w, a, b); Leases.NextKeeps(s, s', b.skew);
    case Work(_) => WorkRefines(w, a, b); Leases.NextKeeps(s, s', b.skew);
    case Finish(_, _) => FinishRefines(w, a, b); Leases.NextKeeps(s, s', b.skew);
    case Quit(_) => QuitRefines(w, a, b);
    case Enter(_, _) => assert s == s';
  }

  lemma {:induction false} InvHolds(trace: seq<World>, b: Bounds)
    requires Run(trace, b) && Fits(b)
    ensures Inv(trace[|trace| - 1], b)
  {
    if |trace| > 1 {
      var n := |trace| - 1;
      InvHolds(trace[..n], b);
      var a :| Can(trace[n - 1], a, b) && trace[n] == After(trace[n - 1], a, b);
      StepKeeps(trace[n - 1], a, b);
    }
  }

  ghost predicate Exclusive(w: World) {
    forall o, p :: 0 <= o < p < |w.clients| ==> !(w.clients[o].phase.Working? && w.clients[p].phase.Working?)
  }

  /// Two replicas run a job at once in no run if and only if clock skew and
  /// settling take at most 35 seconds, whatever the job's timeout.
  lemma MarginIsExact(b: Bounds)
    ensures b.skew + b.settle <= 35_000 <==> forall trace :: Run(trace, b) ==> Exclusive(trace[|trace| - 1])
  {
    if Fits(b) {
      forall trace | Run(trace, b) ensures Exclusive(trace[|trace| - 1]) {
        InvHolds(trace, b);
        var w := trace[|trace| - 1];
        Leases.WorkersHold(Abs(w, b), b.skew);
        forall o, p | 0 <= o < p < |w.clients| ensures !(w.clients[o].phase.Working? && w.clients[p].phase.Working?) {
          assert o in Abs(w, b).working && p in Abs(w, b).working ==> o == p;
        }
      }
    } else {
      var trace := Overlap(b);
      assert Run(trace, b) && !Exclusive(trace[|trace| - 1]);
    }
  }

  lemma Overlap(b: Bounds) returns (trace: seq<World>)
    requires !Fits(b)
    ensures Run(trace, b) && !Exclusive(trace[|trace| - 1])
  {
    var expiry := b.timeout + LEASE_MARGIN;
    var later := if expiry - b.skew < ACQUIRE_BUDGET then ACQUIRE_BUDGET else expiry - b.skew;
    var w0 := World(0, Doc(None, None), []);
    var w1 := After(w0, Enter(0, 0), b);
    var w2 := After(w1, Acquire(0), b);
    var w3 := After(w2, Tick(ACQUIRE_BUDGET), b);
    var w4 := After(w3, Work(0), b);
    var w5 := After(w4, Tick(later), b);
    var w6 := After(w5, Enter(b.skew, 0), b);
    var w7 := After(w6, Acquire(1), b);
    var w8 := After(w7, Work(1), b);
    trace := [w0, w1, w2, w3, w4, w5, w6, w7, w8];
    assert w8.clients[0].phase.Working? && w8.clients[1].phase.Working?;
  }

  /// Within the margin, Finish never clears another replica's lease, and no
  /// replica works on a slot that is completed.
  lemma FinishIsSafe(trace: seq<World>, b: Bounds)
    requires Run(trace, b) && Fits(b)
    ensures var w := trace[|trace| - 1];
      forall o :: 0 <= o < |w.clients| && w.clients[o].phase.Working? ==>
        && w.doc.lease == Some(Leases.Lease(o, w.clients[o].until))
        && w.doc.completed != Some(w.clients[o].slot)
  {
    InvHolds(trace, b);
    var w := trace[|trace| - 1];
    Leases.WorkersHold(Abs(w, b), b.skew);
    forall o | 0 <= o < |w.clients| && w.clients[o].phase.Working?
      ensures w.doc.lease == Some(Leases.Lease(o, w.clients[o].until)) && w.doc.completed != Some(w.clients[o].slot)
    {
      assert o in Abs(w, b).working;
    }
  }

  function Latest(trace: seq<World>): World
    requires trace != []
  {
    trace[|trace| - 1]
  }

  ghost predicate WorksOn(w: World, o: Owner, slot: Slot) {
    o < |w.clients| && w.clients[o].phase.Working? && w.clients[o].slot == slot
  }

  /// A completed slot is worked on again only after another slot's completion
  /// was recorded.
  lemma {:induction false} AgainAfterAnother(trace: seq<World>, b: Bounds, i: nat, o: Owner, slot: Slot) returns (m: nat, q: Owner)
    requires Run(trace, b) && Fits(b) && i < |trace| && trace[i].doc.completed == Some(slot) && WorksOn(Latest(trace), o, slot)
    ensures i < m < |trace| && q < |trace[m - 1].clients| && trace[m - 1].clients[q].slot != slot
    ensures Can(trace[m - 1], Finish(q, true), b) && trace[m] == After(trace[m - 1], Finish(q, true), b)
  {
    FinishIsSafe(trace, b);
    m := |trace| - 1;
    while m > i && trace[m - 1].doc.completed != Some(slot)
      invariant i <= m < |trace| && trace[m].doc.completed != Some(slot)
    {
      m := m - 1;
    }
    assert m > i;
    var a :| Can(trace[m - 1], a, b) && trace[m] == After(trace[m - 1], a, b);
    q := a.o;
  }

  /// No other completion is recorded from position `n` on.
  ghost predicate NoneCompletes(trace: seq<World>, n: nat) {
    forall k :: n < k < |trace| ==> trace[k].doc.completed == trace[k - 1].doc.completed
  }

  /// From where `trace` ends, someone who comes later works on `slot`, no
  /// completion being recorded meanwhile.
  ghost predicate Repeats(trace: seq<World>, more: seq<World>, b: Bounds, slot: Slot)
    requires trace != []
  {
    && Run(trace + more, b) && NoneCompletes(trace + more, |trace| - 1)
    && exists o :: |Latest(trace).clients| <= o && WorksOn(Latest(trace + more), o, slot)
  }

  /// Whoever comes next may work on a slot if and only if it is not the one
  /// recorded as completed, however often it was completed before.
  lemma RunsAgainIff(trace: seq<World>, b: Bounds, slot: Slot)
    requires Run(trace, b) && Fits(b)
    ensures (exists more :: Repeats(trace, more, b, slot)) <==> Latest(trace).doc.completed != Some(slot)
  {
    if exists more :: Repeats(trace, more, b, slot) {
      var more :| Repeats(trace, more, b, slot);
      var o :| |Latest(trace).clients| <= o && WorksOn(Latest(trace + more), o, slot);
      var all := trace + more;
      FinishIsSafe(all, b);
      SameCompleted(all, |trace| - 1);
      assert all[|trace| - 1] == Latest(trace);
      assert all[|all| - 1].clients[o].phase.Working?;
    }
    if Latest(trace).doc.completed != Some(slot) {
      var more := Again(trace, b, slot);
      assert Repeats(trace, more, b, slot);
    }
  }

  lemma {:induction false} SameCompleted(trace: seq<World>, n: nat)
    requires n < |trace| && NoneCompletes(trace, n)
    ensures trace[|trace| - 1].doc.completed == trace[n].doc.completed
    decreases |trace|
  {
    if n < |trace| - 1 {
      var less := trace[..|trace| - 1];
      forall k | n < k < |less| ensures less[k].doc.completed == less[k - 1].doc.completed { assert trace[k].doc.completed == trace[k - 1].doc.completed; }
      SameCompleted(less, n);
    }
  }

  lemma RunMore(trace: seq<World>, w: World, a: Act, b: Bounds) returns (more: seq<World>)
    requires Run(trace, b) && Can(trace[|trace| - 1], a, b) && w == After(trace[|trace| - 1], a, b)
    ensures Run(more, b) && more == trace + [w]
  {
    more := trace + [w];
    forall i | 0 < i < |more| ensures Step(more[i - 1], more[i], b) { if i < |trace| { assert Step(trace[i - 1], trace[i], b); } }
  }

  /// The one at work gives up, its lease runs out, and a newcomer takes over.
  lemma Again(trace: seq<World>, b: Bounds, slot: Slot) returns (more: seq<World>)
    requires Run(trace, b) && Fits(b) && trace[|trace| - 1].doc.completed != Some(slot)
    ensures Repeats(trace, more, b, slot)
  {
    hide Run, Exclusive;
    assert trace != [] by { NotEmpty(trace, b); }
    var w, all := Latest(trace), trace;
    MarginIsExact(b);
    assert Exclusive(w);
    if o :| 0 <= o < |w.clients| && w.clients[o].phase.Working? {
      var idle := Moved(w, o, Gone);
      all := RunMore(all, idle, Quit(o), b);
      Alone(w, o);
      w := idle;
    }
    var last := Newcomer(all, b, slot);
    more := all[|trace|..] + last;
    assert trace + more == all + last;
    forall k | |trace| - 1 < k < |trace + more| ensures (trace + more)[k].doc.completed == (trace + more)[k - 1].doc.completed {
      if k < |all| { assert (trace + more)[k] == all[k]; }
    }
    assert WorksOn(Latest(trace + more), |w.clients|, slot);
  }

  lemma Newcomer(trace: seq<World>, b: Bounds, slot: Slot) returns (more: seq<World>)
    requires trace != [] && Run(trace, b) && Latest(trace).doc.completed != Some(slot)
    requires forall o :: 0 <= o < |Latest(trace).clients| ==> !Latest(trace).clients[o].phase.Working?
    ensures Run(trace + more, b) && |more| == 4 && WorksOn(more[3], |Latest(trace).clients|, slot)
    ensures forall k :: 0 <= k < 4 ==> more[k].doc.completed == Latest(trace).doc.completed
  {
    hide Run;
    var w := Latest(trace);
    var to := if w.doc.lease.Some? && w.doc.lease.value.until > w.now then w.doc.lease.value.until else w.now;
    var w1 := w.(now := to);
    var all := RunMore(trace, w1, Tick(to), b);
    var w2 := After(w1, Enter(0, slot), b);
    all := RunMore(all, w2, Enter(0, slot), b);
    var o := |w.clients|;
    var w3 := After(w2, Acquire(o), b);
    all := RunMore(all, w3, Acquire(o), b);
    var w4 := After(w3, Work(o), b);
    all := RunMore(all, w4, Work(o), b);
    more := [w1, w2, w3, w4];
    assert trace + more == all;
  }

  lemma NotEmpty(trace: seq<World>, b: Bounds)
    requires Run(trace, b)
    ensures trace != []
  {}

  lemma Alone(w: World, o: Owner)
    requires Exclusive(w) && o < |w.clients| && w.clients[o].phase.Working?
    ensures forall p :: 0 <= p < |w.clients| && p != o ==> !w.clients[p].phase.Working?
  {
    forall p | 0 <= p < |w.clients| && p != o ensures !w.clients[p].phase.Working? {
      if p < o { assert 0 <= p < o < |w.clients|; } else { assert 0 <= o < p < |w.clients|; }
    }
  }

  /// A run of a job that is not daily, in which no clock is read in the last
  /// `early` milliseconds of its slot.
  ghost predicate OnGrid(trace: seq<World>, b: Bounds, early: nat) {
    && Run(trace, b)
    && (trace[0].doc.completed.Some? ==> Starts(trace[0].doc.completed.value) && trace[0].doc.completed.value <= trace[0].now + b.skew)
    && AllRead(Latest(trace), early)
  }

  predicate Starts(slot: Slot) { slot % SLOT_LENGTH == 0 }

  ghost predicate AllRead(w: World, early: nat) { forall o :: 0 <= o < |w.clients| ==> Reads(w.clients[o], early) }

  predicate Reads(c: Client, early: nat) { c.slot == SlotOf(c.at + c.offset) && c.at + c.offset + early < c.slot + SLOT_LENGTH }

  /// What such runs keep: completed slots only grow, and whoever works does so
  /// on a later one.
  ghost predicate Grows(w: World, b: Bounds) {
    && (w.doc.completed.Some? ==> Starts(w.doc.completed.value) && w.doc.completed.value <= w.now + b.skew)
    && forall o :: 0 <= o < |w.clients| && w.clients[o].phase.Working? ==>
         && w.clients[o].phase.start <= w.now && w.clients[o].phase.start <= w.clients[o].at + ACQUIRE_BUDGET
         && (w.doc.completed.Some? ==> w.doc.completed.value <= w.clients[o].phase.start + b.skew)
  }

  /// Whoever works, works on a later slot than the one recorded.
  lemma WorksLater(w: World, b: Bounds, early: nat, o: Owner)
    requires Inv(w, b) && Grows(w, b) && early >= ACQUIRE_BUDGET + b.skew && w.doc.completed.Some?
    requires o < |w.clients| && w.clients[o].phase.Working? && Reads(w.clients[o], early)
    ensures w.doc.completed.value < w.clients[o].slot && Starts(w.clients[o].slot)
  {
    Leases.WorkersHold(Abs(w, b), b.skew);
    assert o in Abs(w, b).working;
    var c, done := w.clients[o], w.doc.completed.value;
    assert done < c.slot + SLOT_LENGTH;
    assert c.slot % SLOT_LENGTH == 0 && done % SLOT_LENGTH == 0;
    Multiples(done, c.slot);
  }

  lemma Multiples(a: int, c: int)
    requires a % SLOT_LENGTH == 0 && c % SLOT_LENGTH == 0 && a < c + SLOT_LENGTH
    ensures a <= c
  {
    var x, y := a / SLOT_LENGTH, c / SLOT_LENGTH;
    assert a == x * SLOT_LENGTH && c == y * SLOT_LENGTH;
    assert x < y + 1;
  }

  lemma GrowsOn(w: World, a: Act, b: Bounds, early: nat)
    requires Inv(w, b) && Grows(w, b) && Can(w, a, b) && Fits(b) && early >= ACQUIRE_BUDGET + b.skew && Exclusive(w)
    requires AllRead(w, early)
    ensures Grows(After(w, a, b), b)
    ensures w.doc.completed.Some? ==> After(w, a, b).doc.completed.Some? && w.doc.completed.value <= After(w, a, b).doc.completed.value
  {
    if a.Finish? {
      Alone(w, a.o);
      if w.doc.completed.Some? { WorksLater(w, b, early, a.o); }
      var c := w.clients[a.o];
      assert Starts(c.slot) && c.slot <= c.at + c.offset;
    }
  }

  lemma {:induction false} OnlyGrows(trace: seq<World>, b: Bounds, early: nat)
    requires OnGrid(trace, b, early) && Fits(b) && early >= ACQUIRE_BUDGET + b.skew
    ensures Grows(trace[|trace| - 1], b)
    ensures forall i :: 0 <= i < |trace| && trace[i].doc.completed.Some? ==>
      trace[|trace| - 1].doc.completed.Some? && trace[i].doc.completed.value <= trace[|trace| - 1].doc.completed.value
  {
    hide Inv, Grows, Exclusive, Fits, Can;
    if |trace| > 1 {
      var n := |trace| - 1;
      assert Step(trace[n - 1], trace[n], b);
      var a :| Can(trace[n - 1], a, b) && trace[n] == After(trace[n - 1], a, b);
      ReadBefore(trace[n - 1], a, b, early);
      OnlyGrows(trace[..n], b, early);
      InvHolds(trace[..n], b);
      MarginIsExact(b);
      MarginFits(b);
      GrowsOn(trace[n - 1], a, b, early);
      forall i | 0 <= i < |trace| && trace[i].doc.completed.Some?
        ensures trace[n].doc.completed.Some? && trace[i].doc.completed.value <= trace[n].doc.completed.value
      {
        if i < n { assert trace[..n][i] == trace[i]; }
      }
    } else {
      GrowsFirst(trace[0], b);
    }
  }

  lemma MarginFits(b: Bounds)
    ensures Fits(b) <==> b.skew + b.settle <= 35_000
  {}

  lemma GrowsFirst(w: World, b: Bounds)
    requires Init(w) && (w.doc.completed.Some? ==> Starts(w.doc.completed.value) && w.doc.completed.value <= w.now + b.skew)
    ensures Grows(w, b)
  {}

  lemma ReadBefore(w: World, a: Act, b: Bounds, early: nat)
    requires Can(w, a, b) && AllRead(After(w, a, b), early)
    ensures AllRead(w, early)
  {
    var w' := After(w, a, b);
    forall o | 0 <= o < |w.clients| ensures Reads(w.clients[o], early) { assert Reads(w'.clients[o], early); }
  }

  /// Nobody works on a slot completed before.
  ghost predicate Once(trace: seq<World>)
    requires trace != []
  {
    forall i, o, slot :: 0 <= i < |trace| && trace[i].doc.completed == Some(slot) ==> !WorksOn(Latest(trace), o, slot)
  }

  /// No completed slot is worked on again in any run in which no clock is read
  /// in the last `early` milliseconds of its slot, if and only if that is at
  /// least the time to acquire plus the clock skew.
  lemma OnceIff(b: Bounds, early: nat)
    requires Fits(b)
    ensures early >= 15_000 + b.skew <==> forall trace :: OnGrid(trace, b, early) ==> Once(trace)
  {
    if early >= ACQUIRE_BUDGET + b.skew {
      forall trace: seq<World> | OnGrid(trace, b, early) ensures Once(trace) {
        var w := trace[|trace| - 1];
        OnlyGrows(trace, b, early);
        InvHolds(trace, b);
        forall i, o, slot | 0 <= i < |trace| && trace[i].doc.completed == Some(slot) ensures !WorksOn(w, o, slot) {
          if WorksOn(w, o, slot) { WorksLater(w, b, early, o); }
        }
      }
    } else {
      var trace := SlotRunsTwice(b, early);
      assert trace[5].doc.completed == Some(0) && WorksOn(trace[12], 1, 0);
      assert OnGrid(trace, b, early) && !Once(trace);
    }
  }

  /// A slot is completed, the next one too, and a replica that had read its
  /// clock before still acquires the first and works on it. It needs no skew.
  lemma SlotRunsTwice(b: Bounds, early: nat) returns (trace: seq<World>)
    requires early < ACQUIRE_BUDGET + b.skew && early < SLOT_LENGTH
    ensures OnGrid(trace, b, early) && |trace| == 13
    ensures trace[5].doc.completed == Some(0) && WorksOn(trace[12], 1, 0)
  {
    hide Run;
    var ahead := if b.skew <= SLOT_LENGTH - ACQUIRE_BUDGET then b.skew else SLOT_LENGTH - ACQUIRE_BUDGET;
    var t := SLOT_LENGTH - ACQUIRE_BUDGET - ahead;
    trace := FirstTime(b, t);
    assert |trace| == 6;
    var w6 := After(trace[5], Tick(t + ACQUIRE_BUDGET), b);
    trace := RunMore(trace, w6, Tick(t + ACQUIRE_BUDGET), b);
    var w7 := After(w6, Enter(ahead, SLOT_LENGTH), b);
    trace := RunMore(trace, w7, Enter(ahead, SLOT_LENGTH), b);
    var w8 := After(w7, Acquire(2), b);
    trace := RunMore(trace, w8, Acquire(2), b);
    var w9 := After(w8, Work(2), b);
    trace := RunMore(trace, w9, Work(2), b);
    var w10 := After(w9, Finish(2, true), b);
    trace := RunMore(trace, w10, Finish(2, true), b);
    var w11 := After(w10, Acquire(1), b);
    trace := RunMore(trace, w11, Acquire(1), b);
    var w12 := After(w11, Work(1), b);
    trace := RunMore(trace, w12, Work(1), b);
  }

  /// One of two replicas that read the clock at `t` completes slot 0.
  lemma FirstTime(b: Bounds, t: int) returns (trace: seq<World>)
    ensures Run(trace, b) && |trace| == 6 && trace[0] == World(t, Doc(None, None), [])
    ensures var until := t + b.timeout + LEASE_MARGIN;
      trace[5] == World(t, Doc(None, Some(0)), [Client(t, 0, 0, until, Gone), Client(t, 0, 0, until, Trying)])
  {
    var w0 := World(t, Doc(None, None), []);
    var w1 := After(w0, Enter(0, 0), b);
    var w2 := After(w1, Enter(0, 0), b);
    var w3 := After(w2, Acquire(0), b);
    var w4 := After(w3, Work(0), b);
    var w5 := After(w4, Finish(0, true), b);
    trace := [w0, w1, w2, w3, w4, w5];
    assert Step(w0, w1, b) && Step(w1, w2, b) && Step(w2, w3, b) && Step(w3, w4, b) && Step(w4, w5, b);
  }
}
