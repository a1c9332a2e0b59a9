/// OAuth refresh across replicas: the stored grant and its refresh lease, the
/// Firestore transactions on them, and the loop of `AccessToken`.
module Refresh {
  import opened Wrappers
  import Leases

  type Owner = Leases.Owner

  const WORK_BUDGET := 30_000
  const LEASE_DURATION := 60_000
  const LEASE_SAFETY := 30_000

  datatype Expiry = Never | Unreadable | At(time: int)

  /// A stored grant: its JSON text, decoded.
  datatype Grant = Junk(text: string) | Token(access: string, refresh: string, expiry: Expiry)

  datatype Claim = Claim(token: Grant, owner: Owner, until: int)

  /// The fields of the token document that concern one provider.
  datatype Doc = Doc(token: Option<Grant>, lease: Option<Leases.Lease>)

  /// What Finish is told: a new token, a revocation, or neither.
  datatype Outcome = Replace(token: Grant) | Revoked | ReleaseOnly

  /// `valid`.
  predicate Usable(g: Grant, clock: int) {
    g.Token? && g.access != "" && match g.expiry
      case Never => true
      case Unreadable => false
      case At(t) => t - clock > 300_000
  }

  /// `refreshLeaseExpiry`.
  function LeaseExpiry(clock: int, deadline: int): int {
    if deadline + LEASE_SAFETY > clock + LEASE_DURATION then deadline + LEASE_SAFETY else clock + LEASE_DURATION
  }

  predicate CanAcquire(d: Doc, c: Claim, clock: int) {
    d.token == Some(c.token) && (d.lease.Some? ==> d.lease.value.until <= clock)
  }

  function AfterAcquire(d: Doc, c: Claim): Doc { d.(lease := Some(Leases.Lease(c.owner, c.until))) }

  predicate Owns(d: Doc, c: Claim) { d.lease.Some? && d.lease.value.owner == c.owner }

  function AfterFinish(d: Doc, c: Claim, outcome: Outcome): Doc {
    if !Owns(d, c) then d
    else if d.token != Some(c.token) then d.(lease := None)
    else match outcome
      case Replace(token) => Doc(Some(token), None)
      case Revoked => Doc(None, None)
      case ReleaseOnly => d.(lease := None)
  }

  /// The document in Firestore; each method is one transaction.
  class TokenDoc {
    var token: Option<Grant>
    var lease: Option<Leases.Lease>

    function View(): Doc
      reads this
    {
      Doc(token, lease)
    }

    /// `FirestoreStore.Acquire`.
    method Acquire(claim: Claim, clock: int) returns (acquired: bool)
      modifies this
      ensures acquired == CanAcquire(old(View()), claim, clock)
      ensures View() == if acquired then AfterAcquire(old(View()), claim) else old(View())
    {
      if token != Some(claim.token) { return false; }
      if lease.Some? && clock < lease.value.until { return false; }
      lease := Some(Leases.Lease(claim.owner, claim.until));
      return true;
    }

    /// `FirestoreStore.Finish`.
    method Finish(claim: Claim, outcome: Outcome) returns (ok: bool)
      modifies this
      ensures ok == Owns(old(View()), claim) && View() == AfterFinish(old(View()), claim, outcome)
    {
      if lease.None? || lease.value.owner != claim.owner { return false; }
      lease := None;
      if token == Some(claim.token) {
        if outcome.Replace? { token := Some(outcome.token); }
        if outcome.Revoked? { token := None; }
      }
      return true;
    }
  }

  /// One attempt to refresh. `offset` is how far its replica's clock is ahead,
  /// and `deadline` is when its context expires.
  datatype Phase = Claimed | Held | Calling | Returned(outcome: Outcome) | Gone

  datatype Client = Client(claim: Claim, offset: nat, deadline: int, phase: Phase)

  /// `clients` holds every attempt ever made, numbered by owner id.
  datatype World = World(now: int, doc: Doc, clients: seq<Client>)

  /// `skew` bounds the clocks, `settle` how long a provider call can outlive
  /// the context it was sent with.
  datatype Bounds = Bounds(skew: nat, settle: nat)

  datatype Act =
    | Tick(to: int)  // time passes, but not beyond the moment by which a call has settled
    | SignIn(stored: Option<Grant>)  // a sign-in merges a new grant into the document, and leaves the lease
    | Make(grant: Grant, offset: nat, deadline: int)  // a caller that found `grant` unusable makes a claim
    | Acquire(o: Owner, clock: int)  // Acquire commits, whether or not its caller learns it
    | Call(o: Owner)
    | Settle(o: Owner, outcome: Outcome)  // the provider is done with the call
    | Finish(o: Owner, outcome: Outcome)  // Finish commits; without a result it only releases

  /// The checks of `AccessToken` before it calls the provider.
  predicate MayCall(now: int, c: Client) {
    && now < c.deadline
    && !(c.claim.until < c.deadline + c.offset + LEASE_SAFETY) && c.claim.until - (now + c.offset) > LEASE_SAFETY
  }

  predicate Can(w: World, a: Act, b: Bounds) {
    match a
    case Tick(to) =>
      w.now <= to && forall o :: 0 <= o < |w.clients| && w.clients[o].phase.Calling? ==> to < w.clients[o].deadline + b.settle
    case SignIn(_) => true
    case Make(_, offset, deadline) => offset <= b.skew && deadline <= w.now + WORK_BUDGET
    case Acquire(o, clock) =>
      && o < |w.clients| && w.clients[o].phase.Claimed? && clock <= w.now + b.skew
      && CanAcquire(w.doc, w.clients[o].claim, clock)
    case Call(o) => o < |w.clients| && w.clients[o].phase.Held? && MayCall(w.now, w.clients[o])
    case Settle(o, _) => o < |w.clients| && w.clients[o].phase.Calling?
    case Finish(o, outcome) =>
      && o < |w.clients|
      && (w.clients[o].phase == Returned(outcome)
          || (outcome.ReleaseOnly? && (w.clients[o].phase.Held? || w.clients[o].phase.Returned?)))
  }

  function Moved(w: World, o: Owner, phase: Phase): World
    requires o < |w.clients|
  {
    w.(clients := w.clients[o := w.clients[o].(phase := phase)])
  }

  function After(w: World, a: Act, b: Bounds): World
    requires Can(w, a, b)
  {
    match a
    case Tick(to) => w.(now := to)
    case SignIn(token) => w.(doc := w.doc.(token := token))
    case Make(token, offset, deadline) =>
      w.(clients := w.clients
         + [Client(Claim(token, |w.clients|, LeaseExpiry(w.now + offset, deadline + offset)), offset, deadline, Claimed)])
    case Acquire(o, _) => Moved(w, o, Held).(doc := AfterAcquire(w.doc, w.clients[o].claim))
    case Call(o) => Moved(w, o, Calling)
    case Settle(o, outcome) => Moved(w, o, Returned(outcome))
    case Finish(o, outcome) => Moved(w, o, Gone).(doc := AfterFinish(w.doc, w.clients[o].claim, outcome))
  }

  ghost predicate Step(w: World, w': World, b: Bounds) { exists a :: Can(w, a, b) && w' == After(w, a, b) }

  ghost predicate Init(w: World) { w.clients == [] && w.doc.lease == None }

  ghost predicate Run(trace: seq<World>, b: Bounds) {
    && trace != [] && Init(trace[0])
    && forall i :: 0 < i < |trace| ==> Step(trace[i - 1], trace[i], b)
  }

  predicate Live(phase: Phase) { phase.Held? || phase.Calling? || phase.Returned? }

  ghost function Abs(w: World, b: Bounds): Leases.State {
    Leases.State(
      w.now, w.doc.lease,
      map o | 0 <= o < |w.clients| && Live(w.clients[o].phase) :: w.clients[o].claim.until,
      map o | 0 <= o < |w.clients| && w.clients[o].phase.Calling? :: w.clients[o].deadline + b.settle)
  }

  ghost predicate Inv(w: World, b: Bounds) {
    && Leases.Inv(Abs(w, b), b.skew)
    && forall o :: 0 <= o < |w.clients| ==> w.clients[o].claim.owner == o
  }

  lemma AcquireRefines(w: World, a: Act, b: Bounds)
    requires a.Acquire? && Can(w, a, b) && Inv(w, b)
    ensures Leases.Grant(Abs(w, b), Abs(After(w, a, b), b), b.skew, a.o, w.clients[a.o].claim.until)
  {
    hide Leases.Inv;
    assert Abs(After(w, a, b), b).granted == Abs(w, b).granted[a.o := w.clients[a.o].claim.until];
  }

  /// What makes the work fit the lease is the check before the call.
  lemma CallRefines(w: World, a: Act, b: Bounds)
    requires a.Call? && Can(w, a, b) && b.skew + b.settle <= LEASE_SAFETY
    ensures Leases.Start(Abs(w, b), Abs(After(w, a, b), b), b.skew, a.o, w.clients[a.o].deadline + b.settle)
  {
    var s, s' := Abs(w, b), Abs(After(w, a, b), b);
    assert s'.working == s.working[a.o := w.clients[a.o].deadline + b.settle];
    assert s'.granted == s.granted;
  }

  lemma FinishRefines(w: World, a: Act, b: Bounds)
    requires a.Finish? && Can(w, a, b) && Inv(w, b)
    ensures Leases.Release(Abs(w, b), Abs(After(w, a, b), b), a.o)
  {
    hide Leases.Inv;
    var s, s' := Abs(w, b), Abs(After(w, a, b), b);
    assert s'.granted == s.granted - {a.o} && s'.working == s.working - {a.o};
  }

  lemma TickRefines(w: World, a: Act, b: Bounds)
    requires a.Tick? && Can(w, a, b)
    ensures Leases.Tick(Abs(w, b), Abs(After(w, a, b), b))
  {}

  lemma SettleRefines(w: World, a: Act, b: Bounds)
    requires a.Settle? && Can(w, a, b)
    ensures Leases.Stop(Abs(w, b), Abs(After(w, a, b), b), a.o)
  {
    var s, s' := Abs(w, b), Abs(After(w, a, b), b);
    assert s'.granted == s.granted && s'.working == s.working - {a.o};
  }

  lemma OthersRefine(w: World, a: Act, b: Bounds)
    requires (a.SignIn? || a.Make?) && Can(w, a, b)
    ensures Abs(After(w, a, b), b) == Abs(w, b)
  {}

  /// Every step is a step of the abstract lease, or none.
  lemma Refines(w: World, a: Act, b: Bounds)
    requires Inv(w, b) && Can(w, a, b) && b.skew + b.settle <= LEASE_SAFETY
    ensures var s, s' := Abs(w, b), Abs(After(w, a, b), b); s == s' || Leases.Next(s, s', b.skew)
  {
    hide Leases.Grant, Leases.Start, Leases.Release, Leases.Inv, Leases.Tick, Leases.Stop, Abs, After, Can;
    match a
    case Tick(_) => TickRefines(w, a, b);
    case Acquire(_, _) => AcquireRefines(w, a, b);
    case Call(_) => CallRefines(w, a, b);
    case Settle(_, _) => SettleRefines(w, a, b);
    case Finish(_, _) => FinishRefines(w, a, b);
    case _ => OthersRefine(w, a, b);
  }

  lemma StepKeeps(w: World, a: Act, b: Bounds)
    requires Inv(w, b) && Can(w, a, b) && b.skew + b.settle <= LEASE_SAFETY
    ensures Inv(After(w, a, b), b)
  {
    Refines(w, a, b);
    Leases.NextKeeps(Abs(w, b), Abs(After(w, a, b), b), b.skew);
  }

  lemma {:induction false} InvHolds(trace: seq<World>, b: Bounds)
    requires Run(trace, b) && b.skew + b.settle <= LEASE_SAFETY
    ensures Inv(trace[|trace| - 1], b)
  {
    if |trace| > 1 {
      var n := |trace| - 1;
      InvHolds(trace[..n], b);
      var a :| Can(trace[n - 1], a, b) && trace[n] == After(trace[n - 1], a, b);
      StepKeeps(trace[n - 1], a, b);
    }
  }

  /// At most one provider call is under way, and its maker holds the lease.
  ghost predicate Exclusive(w: World) {
    forall o, p :: 0 <= o < |w.clients| && 0 <= p < |w.clients| && w.clients[o].phase.Calling? ==>
      Owns(w.doc, w.clients[o].claim) && (w.clients[p].phase.Calling? ==> o == p)
  }

  lemma InvExcludes(w: World, b: Bounds)
    requires Inv(w, b)
    ensures Exclusive(w)
  {
    Leases.WorkersHold(Abs(w, b), b.skew);
    forall o | 0 <= o < |w.clients| && w.clients[o].phase.Calling? ensures Owns(w.doc, w.clients[o].claim) {
      assert o in Abs(w, b).working;
    }
  }

  /// Two calls overlap in no run if and only if the clock skew and the time a
  /// call takes to settle together fit into the safety window.
  lemma MarginIsExact(b: Bounds)
    ensures b.skew + b.settle <= 30_000 <==> forall trace :: Run(trace, b) ==> Exclusive(trace[|trace| - 1])
  {
    if b.skew + b.settle <= LEASE_SAFETY {
      forall trace | Run(trace, b) ensures Exclusive(trace[|trace| - 1]) {
        InvHolds(trace, b);
        InvExcludes(trace[|trace| - 1], b);
      }
    } else {
      var trace := Overlap(b);
      assert Run(trace, b) && !Exclusive(trace[|trace| - 1]);
    }
  }

  /// The first call is still settling when the fastest clock sees its lease
  /// expire.
  lemma Overlap(b: Bounds) returns (trace: seq<World>)
    requires b.skew + b.settle > LEASE_SAFETY
    ensures Run(trace, b) && !Exclusive(trace[|trace| - 1])
  {
    var g := Token("", "r", Never);
    var later := if b.skew > LEASE_DURATION then 0 else LEASE_DURATION - b.skew;
    var w0 := World(0, Doc(Some(g), None), []);
    var w1 := After(w0, Make(g, 0, WORK_BUDGET), b);
    var w2 := After(w1, Acquire(0, 0), b);
    var w3 := After(w2, Call(0), b);
    var w4 := After(w3, Tick(later), b);
    var w5 := After(w4, Make(g, b.skew, later + WORK_BUDGET), b);
    var w6 := After(w5, Acquire(1, later + b.skew), b);
    var w7 := After(w6, Call(1), b);
    trace := [w0, w1, w2, w3, w4, w5, w6, w7];
    assert w7.clients[0].phase.Calling? && w7.clients[1].phase.Calling?;
  }

  /// A refresh replaces or removes only the very grant it was derived from,
  /// and only with what the provider returned for it.
  lemma OnlyItsOwnGrant(w: World, a: Act, b: Bounds)
    requires Can(w, a, b) && !a.SignIn? && After(w, a, b).doc.token != w.doc.token
    ensures a.Finish? && w.clients[a.o].phase == Returned(a.outcome) && Owns(w.doc, w.clients[a.o].claim)
    ensures w.doc.token == Some(w.clients[a.o].claim.token)
    ensures After(w, a, b).doc.token == if a.outcome.Replace? then Some(a.outcome.token) else None
  {}

  lemma AfterGrows(w: World, a: Act, b: Bounds, me: int)
    requires Can(w, a, b)
    ensures w.now <= After(w, a, b).now && |w.clients| <= |After(w, a, b).clients|
    ensures a.Make? || |w.clients| == |After(w, a, b).clients|
    ensures 0 <= me < |w.clients| && (a.Acquire? || a.Call? || a.Settle? || a.Finish? ==> a.o != me) ==>
              After(w, a, b).clients[me] == w.clients[me]
  {}

  lemma TickOnly(w: World, to: int, b: Bounds)
    requires Can(w, Tick(to), b)
    ensures After(w, Tick(to), b) == w.(now := to)
  {}

  datatype Failure = NoToken | RefreshBusy | ContextDone | Other

  datatype Result<+T> = Ok(value: T) | Err(failure: Failure)

  /// One replica, between whose requests the others take any steps.
  class Service {
    const b: Bounds
    const offset: nat
    var w: World
    ghost var trace: seq<World>

    ghost predicate Valid()
      reads this
    {
      && offset <= b.skew && b.skew + b.settle <= LEASE_SAFETY
      && Run(trace, b) && w == trace[|trace| - 1] && Inv(w, b)
    }

    constructor (b: Bounds, offset: nat, token: Option<Grant>)
      requires offset <= b.skew && b.skew + b.settle <= LEASE_SAFETY
      ensures Valid()
    {
      this.b, this.offset := b, offset;
      this.w := World(0, Doc(token, None), []);
      this.trace := [World(0, Doc(token, None), [])];
    }

    method Do(a: Act)
      requires Valid() && Can(w, a, b)
      modifies this
      ensures Valid() && w == After(old(w), a, b) && trace == old(trace) + [w]
    {
      hide Inv;
      StepKeeps(w, a, b);
      w := After(w, a, b);
      trace := trace + [w];
    }

    /// Any number of steps of others: none of them acts for `me`, except that
    /// the provider may finish its call.
    method Others(me: int)
      requires Valid()
      modifies this
      ensures Valid() && old(trace) <= trace && old(w.now) <= w.now && |old(w.clients)| <= |w.clients|
      ensures 0 <= me < |old(w.clients)| ==> w.clients[me] == old(w.clients)[me]
    {
      hide Run, Inv;
      var steps: nat := *;
      var n := steps;
      while n > 0
        invariant Valid() && old(trace) <= trace && old(w.now) <= w.now && |old(w.clients)| <= |w.clients|
        invariant 0 <= me < |old(w.clients)| ==> w.clients[me] == old(w.clients)[me]
      {
        var a: Act := *;
        if Can(w, a, b) && (a.Acquire? || a.Call? || a.Settle? || a.Finish? ==> a.o != me) {
          AfterGrows(w, a, b, me);
          Do(a);
        }
        n := n - 1;
      }
    }

    /// A request to Firestore or the provider takes some time.
    method Wait(me: int, least: nat)
      requires Valid() && (0 <= me < |w.clients| ==> !w.clients[me].phase.Calling?)
      modifies this
      ensures Valid() && old(trace) <= trace && |old(w.clients)| <= |w.clients|
      ensures 0 <= me < |old(w.clients)| ==> w.clients[me] == old(w.clients)[me]
      ensures w.now >= old(w.now) + least
    {
      hide Run, Inv, After;
      var to := w.now + least;
      Others(me);
      if w.now > to { to := w.now; }
      var n := |w.clients|;
      // Calls that cannot last until then settle first.
      for o := 0 to n
        invariant Valid() && old(trace) <= trace && w.now <= to && n == |w.clients| && |old(w.clients)| <= n
        invariant forall p :: 0 <= p < o && w.clients[p].phase.Calling? ==> to < w.clients[p].deadline + b.settle
        invariant 0 <= me < |old(w.clients)| ==> w.clients[me] == old(w.clients)[me]
      {
        if w.clients[o].phase.Calling? && to >= w.clients[o].deadline + b.settle {
          var outcome: Outcome := *;
          SettleOther(o, outcome);
        }
      }
      AfterGrows(w, Tick(to), b, me);
      TickOnly(w, to, b);
      Do(Tick(to));
    }

    method SettleOther(o: Owner, outcome: Outcome)
      requires Valid() && Can(w, Settle(o, outcome), b)
      modifies this
      ensures Valid() && old(trace) <= trace && w == Moved(old(w), o, Returned(outcome))
    {
      Do(Settle(o, outcome));
    }

    /// `Store.Load`, which fails once the context is done.
    method Load(deadline: int) returns (r: Result<Grant>)
      requires Valid()
      modifies this
      ensures Valid() && old(trace) <= trace && w.now > old(w.now)
      ensures r.Ok? ==> w.doc.token == Some(r.value) && w.now < deadline
    {
      Wait(-1, 1);
      if w.now >= deadline { return Err(ContextDone); }
      var failed: bool := *;
      if failed { return Err(Other); }
      if w.doc.token.None? { return Err(NoToken); }
      return Ok(w.doc.token.value);
    }

    /// `Store.Finish` for an own claim, which can fail with or without effect.
    method FinishClaim(me: Owner, outcome: Outcome) returns (r: Result<()>)
      requires Valid() && me < |w.clients|
      requires w.clients[me].phase == Returned(outcome) || (outcome.ReleaseOnly? && w.clients[me].phase.Held?)
      modifies this
      ensures Valid() && old(trace) <= trace && w.now >= old(w.now)
      ensures r.Err? ==> r.failure.RefreshBusy? || r.failure.Other?
    {
      hide Run, Inv, After;
      Wait(me, 0);
      var sent: bool := *;
      if !sent { return Err(Other); }
      var owned := Owns(w.doc, w.clients[me].claim);
      AfterGrows(w, Finish(me, outcome), b, -1);
      Do(Finish(me, outcome));
      var lost: bool := *;
      if lost { return Err(Other); }
      return if owned then Ok(()) else Err(RefreshBusy);
    }

    /// `Store.Acquire`: `None` when the claim was refused.
    method AcquireClaim(me: Owner) returns (r: Result<bool>)
      requires Valid() && me < |w.clients| && w.clients[me].phase.Claimed?
      modifies this
      ensures Valid() && old(trace) <= trace && w.now >= old(w.now) && me < |w.clients|
      ensures r.Ok? && r.value ==> w.clients[me] == old(w.clients)[me].(phase := Held)
    {
      hide Run, Inv;
      Wait(me, 0);
      var sent: bool := *;
      if !sent { return Err(Other); }
      var acquired := CanAcquire(w.doc, w.clients[me].claim, w.now + offset);
      if acquired {
        AfterGrows(w, Acquire(me, w.now + offset), b, -1);
        Do(Acquire(me, w.now + offset));
      }
      Wait(me, 0);
      var lost: bool := *;
      if lost { return Err(Other); }
      return Ok(acquired);
    }

    /// The part of the loop of `AccessToken` after `found` was not usable:
    /// `None` when the loop goes round again.
    method Rotate(found: Grant, deadline: int) returns (stop: Option<Failure>)
      requires Valid() && found.Token? && deadline <= w.now + WORK_BUDGET
      modifies this
      ensures Valid() && old(trace) <= trace && w.now >= old(w.now)
    {
      hide Run, Inv;
      var me := |w.clients|;
      AfterGrows(w, Make(found, offset, deadline), b, -1);
      Do(Make(found, offset, deadline));
      var acquired := AcquireClaim(me);
      if acquired.Err? { return Some(acquired.failure); }
      if !acquired.value {
        Wait(-1, 100);
        return if w.now >= deadline then Some(ContextDone) else None;
      }
      if w.now >= deadline {
        var _ := FinishClaim(me, ReleaseOnly);
        return Some(ContextDone);
      }
      if !MayCall(w.now, w.clients[me]) {
        var _ := FinishClaim(me, ReleaseOnly);
        return Some(RefreshBusy);
      }
      if found.refresh == "" {
        var _ := FinishClaim(me, ReleaseOnly);
        return Some(NoToken);
      }
      Wait(me, 0);  // the client's credentials are fetched
      var fetched: bool := *;
      if !fetched || w.now >= deadline { return Some(Other); }
      stop := CallProvider(me, found);
    }

    /// `refresh` and what `AccessToken` does with its result. After a failure
    /// that may have consumed the grant, the lease is kept.
    method CallProvider(me: Owner, found: Grant) returns (stop: Option<Failure>)
      requires Valid() && me < |w.clients| && w.clients[me].phase.Held? && found.Token? && MayCall(w.now, w.clients[me])
      modifies this
      ensures Valid() && old(trace) <= trace && w.now >= old(w.now)
    {
      hide Run, Inv;
      AfterGrows(w, Call(me), b, -1);
      Do(Call(me));
      Others(me);
      var lost: bool := *;
      if lost { return Some(Other); }
      var outcome: Outcome := *;
      if outcome.Replace? {
        var access: string := *;
        var refresh: string := *;
        var expiry: Expiry := *;
        if access == "" || (expiry.At? && expiry.time - (w.now + offset) <= 300_000) { return Some(Other); }
        outcome := Replace(Token(access, if refresh == "" then found.refresh else refresh, expiry));
      }
      AfterGrows(w, Settle(me, outcome), b, -1);
      Do(Settle(me, outcome));
      if outcome.ReleaseOnly? { return Some(Other); }
      var finished := FinishClaim(me, outcome);
      if finished.Err? { return Some(finished.failure); }
      return if outcome.Revoked? then Some(NoToken) else None;
    }

    /// `AccessToken`. It ends by its deadline, and what it returns was stored
    /// and usable when it was read; its steps are steps of a legal run.
    method AccessToken() returns (r: Result<string>, ghost seen: Grant, ghost at: nat)
      requires Valid()
      modifies this
      ensures Valid() && old(trace) <= trace
      ensures r.Ok? ==> at < |trace| && trace[at].doc.token == Some(seen)
      ensures r.Ok? ==> Usable(seen, trace[at].now + offset) && r.value == seen.access
    {
      hide Run, Inv, After;
      seen, at := Junk(""), 0;
      var deadline: int := *;  // the caller's own deadline may be earlier
      if deadline > w.now + WORK_BUDGET { deadline := w.now + WORK_BUDGET; }
      while true
        invariant Valid() && old(trace) <= trace && deadline <= w.now + WORK_BUDGET
        decreases deadline - w.now
      {
        var loaded := Load(deadline);
        if loaded.Err? { return Err(loaded.failure), seen, at; }
        var token := loaded.value;
        if token.Junk? { return Err(Other), seen, at; }
        if Usable(token, w.now + offset) {
          return Ok(token.access), token, |trace| - 1;
        }
        var stop := Rotate(token, deadline);
        if stop.Some? { return Err(stop.value), seen, at; }
      }
    }
  }
}
