/// `requestManager.submit`, its per-channel workers, and the latch that tells
/// when the channels of the first snapshot were applied.
module Requests {
  import opened Wrappers

  type Key = string

  datatype Change = Change(document: string, removed: bool)

  /// `initialJoins`.
  datatype Joins = Joins(pending: set<Key>, sealed: bool, fired: bool)

  /// `check`, under its lock.
  function Checked(j: Joins): Joins { if j.sealed && j.pending == {} then j.(fired := true) else j }

  predicate Fires(j: Joins) { j.sealed && j.pending == {} && !j.fired }

  /// A worker goroutine: at the head of its loop, applying a change, about to
  /// report it, about to check the latch, or gone.
  datatype Phase = Looping | Applying(change: Change) | Applied | Checking | Exited

  datatype Worker = Worker(key: Key, phase: Phase)

  /// The snapshot loop: between changes of the first snapshot, between adding
  /// a channel and submitting its change, having sealed, or past all that.
  datatype Loop = First | Added(key: Key) | Sealed | Later

  /// `submitted`, `picked`, `applied`, `added` and `fires` are history: every
  /// change submitted for a channel, the positions of those its workers picked
  /// up, how many of these they finished, the channels of the first snapshot,
  /// and how often the callback ran.
  datatype State = State(
    queued: map<Key, Change>, running: set<Key>, workers: seq<Worker>, joins: Joins, loop: Loop,
    submitted: map<Key, seq<Change>>, picked: map<Key, seq<nat>>, applied: map<Key, nat>, added: set<Key>, fires: nat)

  const Start := State(map[], {}, [], Joins({}, false, false), First, map[], map[], map[], {}, 0)

  function Submissions(s: State, k: Key): seq<Change> { if k in s.submitted then s.submitted[k] else [] }

  function Picks(s: State, k: Key): seq<nat> { if k in s.picked then s.picked[k] else [] }

  function Finished(s: State, k: Key): nat { if k in s.applied then s.applied[k] else 0 }

  datatype Act =
    | Add(key: Key)
    | Submit(key: Key, change: Change)
    | Seal
    | CheckSeal
    | Take(i: nat)
    | Apply(i: nat)
    | Done(i: nat)
    | CheckDone(i: nat)

  predicate At(s: State, i: nat, phase: Phase) { i < |s.workers| && s.workers[i].phase == phase }

  predicate Can(s: State, a: Act) {
    match a
    case Add(_) => s.loop.First?
    case Submit(k, _) => s.loop == Added(k) || s.loop.Later?
    case Seal => s.loop.First?
    case CheckSeal => s.loop.Sealed?
    case Take(i) => At(s, i, Looping)
    case Apply(i) => i < |s.workers| && s.workers[i].phase.Applying?
    case Done(i) => At(s, i, Applied)
    case CheckDone(i) => At(s, i, Checking)
  }

  function Moved(s: State, i: nat, phase: Phase): State
    requires i < |s.workers|
  {
    s.(workers := s.workers[i := s.workers[i].(phase := phase)])
  }

  function AfterCheck(s: State): State {
    s.(joins := Checked(s.joins), fires := s.fires + if Fires(s.joins) then 1 else 0)
  }

  /// `submit`: the latest change replaces a waiting one, and a worker is started
  /// unless one is running.
  function AfterSubmit(s: State, k: Key, change: Change): State {
    var t := s.(
      queued := s.queued[k := change], submitted := s.submitted[k := Submissions(s, k) + [change]],
      loop := if s.loop.Added? then First else s.loop);
    if k in s.running then t else t.(running := s.running + {k}, workers := s.workers + [Worker(k, Looping)])
  }

  /// The critical section at the head of a worker's loop.
  function AfterTake(s: State, i: nat): State
    requires i < |s.workers|
  {
    var k := s.workers[i].key;
    if k in s.queued then
      Moved(s, i, Applying(s.queued[k])).(
        queued := s.queued - {k}, picked := s.picked[k := Picks(s, k) + [if |Submissions(s, k)| > 0 then |Submissions(s, k)| - 1 else 0]])
    else Moved(s, i, Exited).(running := s.running - {k})
  }

  function After(s: State, a: Act): State
    requires Can(s, a)
  {
    match a
    case Add(k) =>
      s.(joins := if s.joins.sealed then s.joins else s.joins.(pending := s.joins.pending + {k}), loop := Added(k), added := s.added + {k})
    case Submit(k, change) => AfterSubmit(s, k, change)
    case Seal => s.(joins := s.joins.(sealed := true), loop := Sealed)
    case CheckSeal => AfterCheck(s).(loop := Later)
    case Take(i) => AfterTake(s, i)
    case Apply(i) => Moved(s, i, Applied).(applied := s.applied[s.workers[i].key := Finished(s, s.workers[i].key) + 1])
    case Done(i) => Moved(s, i, Checking).(joins := s.joins.(pending := s.joins.pending - {s.workers[i].key}))
    case CheckDone(i) => AfterCheck(Moved(s, i, Looping))
  }

  ghost predicate Step(s: State, t: State) { exists a :: Can(s, a) && t == After(s, a) }

  ghost predicate Run(trace: seq<State>) {
    && trace != [] && trace[0] == Start
    && forall i :: 0 < i < |trace| ==> Step(trace[i - 1], trace[i])
  }

  predicate Serves(s: State, i: int, k: Key) {
    0 <= i < |s.workers| && s.workers[i].key == k && !s.workers[i].phase.Exited?
  }

  ghost predicate HasWorker(s: State, k: Key) { exists i :: Serves(s, i, k) }

  /// Each channel has at most one worker, and one exactly while it is running.
  ghost predicate OneWorker(s: State) {
    && (forall k, i, j :: Serves(s, i, k) && Serves(s, j, k) ==> i == j)
    && (forall k :: k in s.running <==> HasWorker(s, k))
    && s.queued.Keys <= s.running
  }

  ghost predicate Increasing(positions: seq<nat>, below: nat) {
    && (forall i, j :: 0 <= i < j < |positions| ==> positions[i] < positions[j])
    && (forall i :: 0 <= i < |positions| ==> positions[i] < below)
  }

  ghost predicate Busy(s: State, k: Key) { exists i :: Serves(s, i, k) && s.workers[i].phase.Applying? }

  /// What was picked up is an ordered part of what was submitted; the last
  /// submission is waiting or was the last one picked up.
  ghost predicate InOrder(s: State, k: Key) {
    var subs, picks := Submissions(s, k), Picks(s, k);
    && Increasing(picks, |subs|)
    && (if k in s.queued then subs != [] && s.queued[k] == subs[|subs| - 1] && (picks != [] ==> picks[|picks| - 1] < |subs| - 1)
        else if subs == [] then picks == []
        else picks != [] && picks[|picks| - 1] == |subs| - 1)
  }

  /// Everything picked up is applied before the next, in that order.
  ghost predicate AppliesAll(s: State, k: Key) {
    && Finished(s, k) + (if Busy(s, k) then 1 else 0) == |Picks(s, k)|
    && forall i :: Serves(s, i, k) && s.workers[i].phase.Applying? ==>
         var picks := Picks(s, k);
         picks != [] && picks[|picks| - 1] < |Submissions(s, k)| && s.workers[i].phase.change == Submissions(s, k)[picks[|picks| - 1]]
  }

  /// Who will still take a pending channel off the latch.
  ghost predicate Expected(s: State, k: Key) {
    || s.loop == Added(k) || k in s.queued
    || exists i :: Serves(s, i, k) && (s.workers[i].phase.Applying? || s.workers[i].phase.Applied?)
  }

  ghost predicate Latched(s: State) {
    && (s.joins.sealed <==> s.loop.Sealed? || s.loop.Later?)
    && (s.joins.fired ==> s.joins.sealed && s.joins.pending == {})
    && s.fires == (if s.joins.fired then 1 else 0)
    && (forall k :: k in s.joins.pending ==> Expected(s, k))
    && (forall k :: k in s.added ==> k in s.joins.pending || Finished(s, k) > 0)
    && (Fires(s.joins) ==> s.loop.Sealed? || exists i :: At(s, i, Checking))
    && (forall i :: 0 <= i < |s.workers| && s.workers[i].phase.Applied? ==> Finished(s, s.workers[i].key) > 0)
  }

  ghost predicate Inv(s: State) {
    OneWorker(s) && Latched(s) && forall k :: InOrder(s, k) && AppliesAll(s, k)
  }

  /// The same workers serve the same channels in `s` and `t`.
  ghost predicate SameWorkers(s: State, t: State) { forall i, k :: Serves(t, i, k) <==> Serves(s, i, k) }

  lemma SameWorkersKeep(s: State, t: State)
    requires OneWorker(s) && SameWorkers(s, t) && t.running == s.running && t.queued.Keys <= s.queued.Keys
    ensures OneWorker(t)
  {
    forall k ensures k in t.running <==> HasWorker(t, k) {
      if i :| Serves(s, i, k) { assert Serves(t, i, k); }
      if i :| Serves(t, i, k) { assert Serves(s, i, k); }
    }
  }

  lemma MovedWorkers(s: State, i: nat, phase: Phase)
    requires i < |s.workers| && !phase.Exited? && !s.workers[i].phase.Exited?
    ensures SameWorkers(s, Moved(s, i, phase))
  {}

  lemma SubmitWorkers(s: State, k: Key, change: Change)
    requires OneWorker(s)
    ensures OneWorker(AfterSubmit(s, k, change))
  {
    var t := AfterSubmit(s, k, change);
    var n := |s.workers|;
    forall i, l ensures Serves(t, i, l) <==> Serves(s, i, l) || (k !in s.running && i == n && l == k) {}
    forall l ensures l in t.running <==> HasWorker(t, l) {
      if i :| Serves(s, i, l) { assert Serves(t, i, l); }
      if i :| Serves(t, i, l) { assert i < n ==> Serves(s, i, l); }
      if k !in s.running { assert Serves(t, n, k); }
    }
    forall l, i, j | Serves(t, i, l) && Serves(t, j, l) ensures i == j {
      if i < n { assert HasWorker(s, l); }
      if j < n { assert HasWorker(s, l); }
    }
  }

  lemma ExitWorkers(s: State, i: nat)
    requires OneWorker(s) && At(s, i, Looping) && s.workers[i].key !in s.queued
    ensures OneWorker(AfterTake(s, i))
  {
    var t, k := AfterTake(s, i), s.workers[i].key;
    assert Serves(s, i, k);
    forall j, l ensures Serves(t, j, l) <==> Serves(s, j, l) && j != i {}
    forall l ensures l in t.running <==> HasWorker(t, l) {
      if j :| Serves(s, j, l) && j != i { assert Serves(t, j, l); }
      if j :| Serves(t, j, l) { assert Serves(s, j, l); }
    }
  }

  lemma OneWorkerKept(s: State, a: Act)
    requires Can(s, a) && OneWorker(s)
    ensures OneWorker(After(s, a))
  {
    hide OneWorker;
    var t := After(s, a);
    match a
    case Submit(k, change) => SubmitWorkers(s, k, change);
    case Take(i) =>
      if s.workers[i].key in s.queued {
        MovedWorkers(s, i, Applying(s.queued[s.workers[i].key]));
        SameWorkersKeep(s, t);
      } else {
        ExitWorkers(s, i);
      }
    case Apply(i) => MovedWorkers(s, i, Applied); SameWorkersKeep(s, t);
    case Done(i) => MovedWorkers(s, i, Checking); SameWorkersKeep(s, t);
    case CheckDone(i) => MovedWorkers(s, i, Looping); SameWorkersKeep(s, t);
    case _ => SameWorkersKeep(s, t);
  }

  lemma SubmitInOrder(s: State, l: Key, change: Change, k: Key)
    requires InOrder(s, k)
    ensures InOrder(AfterSubmit(s, l, change), k)
  {
    var t := AfterSubmit(s, l, change);
    assert Picks(t, k) == Picks(s, k);
    if l != k { assert Submissions(t, k) == Submissions(s, k); }
  }

  lemma TakeInOrder(s: State, i: nat, k: Key)
    requires InOrder(s, k) && i < |s.workers|
    ensures InOrder(AfterTake(s, i), k)
  {
    var t := AfterTake(s, i);
    assert Submissions(t, k) == Submissions(s, k);
    if s.workers[i].key != k || k !in s.queued { assert Picks(t, k) == Picks(s, k); }
  }

  lemma {:induction false} InOrderKept(s: State, a: Act, k: Key)
    requires Can(s, a) && InOrder(s, k)
    ensures InOrder(After(s, a), k)
  {
    match a
    case Submit(l, change) => SubmitInOrder(s, l, change, k);
    case Take(i) => TakeInOrder(s, i, k);
    case _ => assert Submissions(After(s, a), k) == Submissions(s, k) && Picks(After(s, a), k) == Picks(s, k);
  }

  /// Nothing that counts for `k` has changed.
  ghost predicate SameFor(s: State, t: State, k: Key) {
    && Picks(t, k) == Picks(s, k) && Finished(t, k) == Finished(s, k) && Submissions(s, k) <= Submissions(t, k)
    && (forall i :: Serves(t, i, k) && t.workers[i].phase.Applying? ==> Serves(s, i, k) && s.workers[i].phase == t.workers[i].phase)
    && (forall i :: Serves(s, i, k) && s.workers[i].phase.Applying? ==> Serves(t, i, k) && s.workers[i].phase == t.workers[i].phase)
  }

  lemma SameForApplies(s: State, t: State, k: Key)
    requires AppliesAll(s, k) && SameFor(s, t, k)
    ensures AppliesAll(t, k)
  {
    if i :| Serves(s, i, k) && s.workers[i].phase.Applying? { assert Serves(t, i, k); }
  }

  lemma TakeApplies(s: State, i: nat)
    requires OneWorker(s) && At(s, i, Looping) && s.workers[i].key in s.queued
    requires InOrder(s, s.workers[i].key) && AppliesAll(s, s.workers[i].key)
    ensures AppliesAll(AfterTake(s, i), s.workers[i].key)
  {
    var t, k := AfterTake(s, i), s.workers[i].key;
    assert Serves(s, i, k) && Serves(t, i, k);
    forall j ensures Serves(t, j, k) <==> j == i { if Serves(t, j, k) && j != i { assert Serves(s, j, k); } }
    assert !Busy(s, k) && Busy(t, k);
  }

  lemma ApplyApplies(s: State, i: nat)
    requires OneWorker(s) && i < |s.workers| && s.workers[i].phase.Applying? && AppliesAll(s, s.workers[i].key)
    ensures AppliesAll(After(s, Apply(i)), s.workers[i].key)
  {
    var t, k := After(s, Apply(i)), s.workers[i].key;
    assert Serves(s, i, k);
    forall j ensures Serves(t, j, k) <==> j == i { if Serves(t, j, k) && j != i { assert Serves(s, j, k); } }
    assert Busy(s, k) && !Busy(t, k);
  }

  /// One worker moved, of another channel or without starting or ending to apply.
  lemma MovedSameFor(s: State, t: State, i: nat, k: Key)
    requires i < |s.workers| && |t.workers| == |s.workers| && s.workers[i].key == t.workers[i].key
    requires forall j :: 0 <= j < |s.workers| && j != i ==> t.workers[j] == s.workers[j]
    requires s.workers[i].key == k ==> !s.workers[i].phase.Applying? && !t.workers[i].phase.Applying?
    requires Picks(t, k) == Picks(s, k) && Finished(t, k) == Finished(s, k) && Submissions(s, k) == Submissions(t, k)
    ensures SameFor(s, t, k)
  {}

  lemma SubmitSameFor(s: State, l: Key, change: Change, k: Key)
    ensures SameFor(s, AfterSubmit(s, l, change), k)
  {
    assert Submissions(s, k) <= Submissions(AfterSubmit(s, l, change), k);
  }

  lemma OtherSameFor(s: State, a: Act, k: Key)
    requires Can(s, a)
    requires !(a.Take? && s.workers[a.i].key == k && k in s.queued) && !(a.Apply? && s.workers[a.i].key == k)
    ensures SameFor(s, After(s, a), k)
  {
    hide SameFor;
    match a
    case Submit(l, change) => SubmitSameFor(s, l, change, k);
    case Take(i) => MovedSameFor(s, After(s, a), i, k);
    case Apply(i) => MovedSameFor(s, After(s, a), i, k);
    case Done(i) => MovedSameFor(s, After(s, a), i, k);
    case CheckDone(i) => MovedSameFor(s, After(s, a), i, k);
    case _ => SameAll(s, After(s, a), k);
  }

  lemma SameAll(s: State, t: State, k: Key)
    requires t.workers == s.workers && t.picked == s.picked && t.applied == s.applied && t.submitted == s.submitted
    ensures SameFor(s, t, k)
  {}

  lemma AppliesAllKept(s: State, a: Act, k: Key)
    requires Can(s, a) && OneWorker(s) && InOrder(s, k) && AppliesAll(s, k)
    ensures AppliesAll(After(s, a), k)
  {
    hide OneWorker, InOrder, AppliesAll, SameFor;
    if a.Take? && s.workers[a.i].key == k && k in s.queued {
      TakeApplies(s, a.i);
    } else if a.Apply? && s.workers[a.i].key == k {
      ApplyApplies(s, a.i);
    } else {
      OtherSameFor(s, a, k);
      SameForApplies(s, After(s, a), k);
    }
  }

  /// The parts of `Latched` that concern one channel.
  lemma ExpectedKept(s: State, a: Act, k: Key)
    requires Can(s, a) && Expected(s, k) && !(a.Done? && s.workers[a.i].key == k)
    ensures Expected(After(s, a), k)
  {
    var t := After(s, a);
    if s.loop == Added(k) || k in s.queued {
      if a.Take? && s.workers[a.i].key == k && k in s.queued { assert Serves(t, a.i, k); }
    } else {
      var i :| Serves(s, i, k) && (s.workers[i].phase.Applying? || s.workers[i].phase.Applied?);
      assert Serves(t, i, k);
    }
  }

  lemma CheckingKept(s: State, a: Act)
    requires Can(s, a) && Latched(s) && !a.CheckSeal? && !a.CheckDone?
    ensures var t := After(s, a); Fires(t.joins) ==> t.loop.Sealed? || exists i :: At(t, i, Checking)
  {
    var t := After(s, a);
    if Fires(t.joins) {
      if a.Done? {
        assert At(t, a.i, Checking);
      } else if Fires(s.joins) && !s.loop.Sealed? {
        var i :| At(s, i, Checking);
        assert At(t, i, Checking);
      }
    }
  }

  lemma AppliedKept(s: State, a: Act)
    requires Can(s, a) && Latched(s)
    ensures var t := After(s, a);
      forall i :: 0 <= i < |t.workers| && t.workers[i].phase.Applied? ==> Finished(t, t.workers[i].key) > 0
  {}

  lemma LatchedKept(s: State, a: Act)
    requires Can(s, a) && Latched(s)
    ensures Latched(After(s, a))
  {
    hide Expected;
    var t := After(s, a);
    AppliedKept(s, a);
    if !a.CheckSeal? && !a.CheckDone? { CheckingKept(s, a); }
    forall k | k in t.joins.pending ensures Expected(t, k) {
      if k in s.joins.pending { ExpectedKept(s, a, k); } else { AddedExpected(s, a); }
    }
    forall k | k in t.added ensures k in t.joins.pending || Finished(t, k) > 0 {
      FinishedGrows(s, a, k);
    }
  }

  lemma AddedExpected(s: State, a: Act)
    requires Can(s, a) && a.Add?
    ensures Expected(After(s, a), a.key)
  {}

  lemma FinishedGrows(s: State, a: Act, k: Key)
    requires Can(s, a)
    ensures Finished(After(s, a), k) >= Finished(s, k)
  {}

  lemma StartHolds()
    ensures Inv(Start)
  {}

  lemma {:induction false} InvHolds(trace: seq<State>)
    requires Run(trace)
    ensures Inv(trace[|trace| - 1])
  {
    hide OneWorker, InOrder, AppliesAll, Latched, After, Can;
    if |trace| == 1 {
      StartHolds();
    } else {
      var n := |trace| - 1;
      InvHolds(trace[..n]);
      assert Step(trace[n - 1], trace[n]);
      var s := trace[n - 1];
      var a :| Can(s, a) && trace[n] == After(s, a);
      OneWorkerKept(s, a);
      LatchedKept(s, a);
      forall k ensures InOrder(trace[n], k) && AppliesAll(trace[n], k) {
        InOrderKept(s, a, k);
        AppliesAllKept(s, a, k);
      }
    }
  }

  /// In every run a channel has at most one worker, and its changes are applied
  /// in the order in which they were submitted, some of them left out.
  lemma Coalesces(trace: seq<State>, k: Key)
    requires Run(trace)
    ensures var s := trace[|trace| - 1];
      && (forall i, j :: Serves(s, i, k) && Serves(s, j, k) ==> i == j)
      && Increasing(Picks(s, k), |Submissions(s, k)|)
      && Finished(s, k) <= |Picks(s, k)| <= Finished(s, k) + 1
  {
    hide Latched;
    InvHolds(trace);
    assert InOrder(trace[|trace| - 1], k) && AppliesAll(trace[|trace| - 1], k);
  }

  ghost predicate Quiescent(s: State) { forall i :: 0 <= i < |s.workers| ==> s.workers[i].phase.Exited? }

  lemma NothingWaits(s: State)
    requires OneWorker(s) && Quiescent(s)
    ensures s.queued == map[]
  {
    forall k ensures k !in s.queued { assert k in s.running <==> HasWorker(s, k); }
  }

  /// Once its workers are gone, the last change submitted for a channel is the
  /// last one applied, and nothing waits.
  lemma LastApplied(trace: seq<State>, k: Key)
    requires Run(trace) && Quiescent(trace[|trace| - 1])
    ensures var s := trace[|trace| - 1];
      && s.queued == map[] && Finished(s, k) == |Picks(s, k)|
      && (Submissions(s, k) != [] ==> Picks(s, k) != [] && Picks(s, k)[|Picks(s, k)| - 1] == |Submissions(s, k)| - 1)
  {
    hide Latched;
    InvHolds(trace);
    var s := trace[|trace| - 1];
    assert InOrder(s, k) && AppliesAll(s, k);
    NothingWaits(s);
  }

  /// The callback runs at most once, only after sealing and after every channel
  /// of the first snapshot was applied; and once the workers are gone and the
  /// snapshot is sealed and checked, it has run.
  lemma FiresOnce(trace: seq<State>)
    requires Run(trace)
    ensures var s := trace[|trace| - 1];
      && s.fires <= 1
      && (s.fires == 1 ==> s.joins.sealed && forall k :: k in s.added ==> Finished(s, k) > 0)
      && (Quiescent(s) && s.loop.Later? ==> s.fires == 1)
  {
    hide InOrder, AppliesAll;
    InvHolds(trace);
    var s := trace[|trace| - 1];
    if Quiescent(s) && s.loop.Later? {
      NothingWaits(s);
      forall k ensures k !in s.joins.pending { assert !Expected(s, k); }
      assert s.joins.pending == {};
    }
  }

  /// The queue of the request manager; each method is one critical section.
  class RequestQueue {
    var queued: map<Key, Change>
    var running: set<Key>

    ghost predicate Holds(s: State)
      reads this
    {
      queued == s.queued && running == s.running
    }

    method Submit(k: Key, change: Change) returns (spawn: bool)
      modifies this
      ensures forall s: State :: old(Holds(s)) ==>
        Holds(AfterSubmit(s, k, change)) && (spawn <==> AfterSubmit(s, k, change).workers == s.workers + [Worker(k, Looping)])
    {
      queued := queued[k := change];
      if k in running { return false; }
      running := running + {k};
      return true;
    }

    method Take(k: Key) returns (change: Option<Change>)
      modifies this
      ensures forall s: State, i: nat :: old(Holds(s)) && At(s, i, Looping) && s.workers[i].key == k ==>
        && Holds(AfterTake(s, i))
        && AfterTake(s, i).workers[i].phase == (if change.Some? then Applying(change.value) else Exited)
    {
      if k !in queued {
        running := running - {k};
        return None;
      }
      change := Some(queued[k]);
      queued := queued - {k};
    }
  }

  class InitialJoins {
    var pending: set<Key>
    var sealed: bool
    var fired: bool

    ghost function View(): Joins
      reads this
    {
      Joins(pending, sealed, fired)
    }

    method Add(k: Key)
      modifies this
      ensures View() == if old(sealed) then old(View()) else old(View()).(pending := old(pending) + {k})
    {
      if !sealed { pending := pending + {k}; }
    }

    method SetSealed()
      modifies this
      ensures View() == old(View()).(sealed := true)
    {
      sealed := true;
    }

    method Remove(k: Key)
      modifies this
      ensures View() == old(View()).(pending := old(pending) - {k})
    {
      pending := pending - {k};
    }

    /// Whether the caller runs the callback.
    method Check() returns (fire: bool)
      modifies this
      ensures fire == Fires(old(View())) && View() == Checked(old(View()))
    {
      fire := sealed && pending == {} && !fired;
      if fire { fired := true; }
    }
  }
}
