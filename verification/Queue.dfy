/// `TwitchQueue`: one item per broadcaster, one worker, and the latest intent
/// wins even when it changes while an item runs.
module Queue {
  import opened Wrappers
  import opened Order

  const CAPACITY := 10_000
  const COST_CHECK_INTERVAL := 300_000
  const BUSY_DELAY := 5_000
  const MAX_ATTEMPTS := 6
  const IDLE := 3_600_000
  const REMOVED_TTL := 300_000
  const MINUTE := 60_000
  const UNCERTAIN_DELAY := 90_000

  datatype Job = Reconcile | Remove | App

  datatype Item = Item(job: Job, enqueued: nat, ready: nat, attempts: nat,
                       costHeld: bool, running: bool, changed: bool, reconcile: bool)

  /// Times are milliseconds; zero is the zero time. `running` is the item that
  /// the worker has in hand, and the job it took.
  datatype State = State(pending: map<string, Item>, removed: map<string, nat>,
                         costCheck: nat, cappedUntil: nat, running: Option<(string, Job)>)

  const Empty := State(map[], map[], 0, 0, None)

  /// `enqueue` on an item that is there already.
  function Switched(item: Item, job: Job, now: nat): Item {
    var asked := if job.Reconcile? then item.(reconcile := true) else item;
    if item.job == job then
      if job.Remove? && item.running then asked.(changed := true) else asked
    else
      var other := asked.(job := job, changed := item.running);
      if item.running then other else other.(attempts := 0, costHeld := false, ready := now)
  }

  function Asked(q: State, channel: string, job: Job, now: nat): State {
    if channel in q.pending then q.(pending := q.pending[channel := Switched(q.pending[channel], job, now)])
    else if job.Reconcile? && now < q.cappedUntil then q
    else if |q.pending| >= CAPACITY then q
    else q.(pending := q.pending[channel := Item(job, now, now, 0, false, false, false, job.Reconcile?)])
  }

  predicate Runnable(item: Item, now: nat) { !item.running && !item.costHeld && item.ready <= now }

  function Started(q: State, channel: string): State
    requires channel in q.pending
  {
    var item := q.pending[channel];
    q.(pending := q.pending[channel := item.(running := true, changed := false)], running := Some((channel, item.job)))
  }

  /// How the work of one run ended, in the order in which `process` looks.
  datatype Failure = Busy | Budget | TooMany | Refused | Other(uncertain: bool)

  datatype Ending = Ending(failure: Option<Failure>, held: bool, deleted: nat, reauthorized: bool, retryAt: nat, reset: nat, now: nat)

  datatype Outcome = Complete | Superseded | StillBusy | CostHeld | Reauthorized | RateLimited | Dropped | Retry

  function OutcomeOf(item: Item, job: Job, e: Ending): Outcome {
    if item.changed then Superseded
    else match e.failure
      case Some(Busy) => StillBusy
      case None => if e.held then CostHeld else if job.Remove? && e.reauthorized then Reauthorized else Complete
      case Some(Budget) => RateLimited
      case Some(TooMany) => RateLimited
      case Some(Refused) => Dropped
      case Some(Other(_)) => if item.attempts + 1 >= MAX_ATTEMPTS then Dropped else Retry
  }

  function Later(now: nat, at: nat, fallback: nat): nat { if at > now then at else now + fallback }

  function Max(a: nat, b: nat): nat { if a < b then b else a }

  function Backoff(attempts: nat): nat
    requires 0 < attempts < MAX_ATTEMPTS
  {
    match attempts case 1 => 30_000 case 2 => 60_000 case 3 => 120_000 case 4 => 240_000 case _ => 480_000
  }

  /// The item that stays queued, if one does.
  function Kept(item: Item, job: Job, e: Ending): Option<Item> {
    var idle := item.(running := false);
    match OutcomeOf(item, job, e)
    case Superseded => Some(idle.(changed := false, attempts := 0, costHeld := false, ready := e.now))
    case StillBusy => Some(idle.(ready := e.now + BUSY_DELAY))
    case CostHeld => Some(idle.(costHeld := true))
    case Reauthorized =>
      if item.reconcile then Some(idle.(job := Reconcile, attempts := 0, costHeld := false, ready := e.now)) else None
    case RateLimited => Some(idle.(ready := Later(e.now, if e.failure == Some(Budget) then e.reset else e.retryAt, MINUTE)))
    case Retry =>
      var delay := Backoff(item.attempts + 1);
      var delay := if e.failure.value.uncertain then Max(delay, UNCERTAIN_DELAY) else delay;
      Some(idle.(attempts := item.attempts + 1, ready := Max(e.now + delay, e.retryAt)))
    case Complete => None
    case Dropped => None
  }

  /// The removals still remembered, and the one just completed.
  function Remembered(removed: map<string, nat>, channel: string, now: nat): map<string, nat> {
    (map c | c in removed && now - removed[c] < REMOVED_TTL :: removed[c])[channel := now]
  }

  function Ended(q: State, e: Ending): State
    requires q.running.Some? && q.running.value.0 in q.pending
  {
    var (channel, job) := q.running.value;
    var item := q.pending[channel];
    var outcome := OutcomeOf(item, job, e);
    var freed := if e.deleted > 0 then q.(cappedUntil := 0, costCheck := e.now) else q;
    var capped :=
      if outcome.CostHeld? then
        freed.(cappedUntil := e.now + COST_CHECK_INTERVAL,
               costCheck := if freed.costCheck < e.now then e.now + COST_CHECK_INTERVAL else freed.costCheck)
      else freed;
    var kept := Kept(item, job, e);
    capped.(
      running := None,
      pending := if kept.Some? then q.pending[channel := kept.value] else q.pending - {channel},
      removed := if outcome.Complete? && job.Remove? then Remembered(q.removed, channel, e.now) else q.removed)
  }

  /// `checkCost`, once Twitch answered.
  function CostSeen(q: State, headroom: bool, now: nat): State {
    q.(cappedUntil := if headroom then 0 else now + COST_CHECK_INTERVAL,
       pending := if headroom
         then map c | c in q.pending :: if q.pending[c].costHeld then q.pending[c].(costHeld := false, ready := now) else q.pending[c]
         else q.pending)
  }

  datatype Event =
    | Ask(channel: string, job: Job, now: nat)
    | Start(channel: string, now: nat)
    | End(ending: Ending)
    | CostDue(now: nat)
    | Cost(headroom: bool, now: nat)

  predicate Can(q: State, e: Event) {
    match e
    case Start(c, now) => q.running.None? && c in q.pending && Runnable(q.pending[c], now)
    case End(_) => q.running.Some? && q.running.value.0 in q.pending
    case _ => true
  }

  function Next(q: State, e: Event): State
    requires Can(q, e)
  {
    match e
    case Ask(c, job, now) => Asked(q, c, job, now)
    case Start(c, _) => Started(q, c)
    case End(ending) => Ended(q, ending)
    case CostDue(now) => q.(costCheck := now + COST_CHECK_INTERVAL)
    case Cost(headroom, now) => CostSeen(q, headroom, now)
  }

  /// At most one item runs; it is the worker's, and unless its job was changed
  /// it is the job the worker took.
  ghost predicate Valid(q: State) {
    && |q.pending| <= CAPACITY
    && (forall c :: c in q.pending && q.pending[c].running ==> q.running.Some? && q.running.value.0 == c)
    && (q.running.Some? ==>
          var (c, job) := q.running.value;
          c in q.pending && q.pending[c].running && (q.pending[c].changed || q.pending[c].job == job))
    && (forall c :: c in q.pending && q.pending[c].changed ==> q.pending[c].running)
    && (forall c :: c in q.pending && q.pending[c].job.Reconcile? ==> q.pending[c].reconcile)
    && (forall c :: c in q.pending ==> q.pending[c].attempts < MAX_ATTEMPTS)
  }

  lemma AskKeeps(q: State, channel: string, job: Job, now: nat)
    requires Valid(q)
    ensures Valid(Asked(q, channel, job, now))
  {
    if channel in q.pending { assert Asked(q, channel, job, now).pending.Keys == q.pending.Keys; }
  }

  lemma StartKeeps(q: State, channel: string)
    requires Valid(q) && q.running.None? && channel in q.pending
    ensures Valid(Started(q, channel))
  {
    assert Started(q, channel).pending.Keys == q.pending.Keys;
  }

  lemma KeptShape(item: Item, job: Job, e: Ending)
    requires item.attempts < MAX_ATTEMPTS && (item.job.Reconcile? ==> item.reconcile)
    ensures Kept(item, job, e).Some? ==>
      var kept := Kept(item, job, e).value;
      && !kept.running && !kept.changed && kept.attempts < MAX_ATTEMPTS
      && (kept.job.Reconcile? ==> kept.reconcile) && kept.reconcile == item.reconcile
      && (kept.job == item.job || OutcomeOf(item, job, e).Reauthorized?)
    ensures Kept(item, job, e).None? ==> Final(OutcomeOf(item, job, e))
    ensures Kept(item, job, e).None? && item.reconcile ==> !OutcomeOf(item, job, e).Reauthorized?
  {}

  lemma EndKeeps(q: State, e: Ending)
    requires Valid(q) && q.running.Some?
    ensures Valid(Ended(q, e))
  {
    hide Kept, OutcomeOf;
    var (c, job) := q.running.value;
    KeptShape(q.pending[c], job, e);
    if Kept(q.pending[c], job, e).Some? {
      assert Ended(q, e).pending.Keys == q.pending.Keys;
    } else {
      assert Ended(q, e).pending.Keys == q.pending.Keys - {c};
    }
  }

  lemma {:induction false} NextKeeps(q: State, e: Event)
    requires Valid(q) && Can(q, e)
    ensures Valid(Next(q, e))
  {
    hide Ended, Started, Asked;
    match e
    case Ask(c, job, now) => AskKeeps(q, c, job, now);
    case Start(c, _) => StartKeeps(q, c);
    case End(ending) => EndKeeps(q, ending);
    case Cost(headroom, now) => assert CostSeen(q, headroom, now).pending.Keys == q.pending.Keys;
    case CostDue(_) =>
  }

  ghost predicate Trace(states: seq<State>, events: seq<Event>) {
    && |states| == |events| + 1 && Valid(states[0])
    && forall i :: 0 <= i < |events| ==> Can(states[i], events[i]) && states[i + 1] == Next(states[i], events[i])
  }

  lemma {:induction false} TraceValid(states: seq<State>, events: seq<Event>, j: nat)
    requires Trace(states, events) && j < |states|
    ensures Valid(states[j])
  {
    if j > 0 {
      TraceValid(states, events, j - 1);
      NextKeeps(states[j - 1], events[j - 1]);
    }
  }

  /// `job` is owed to `channel`: it is queued, and a run under way does not
  /// count unless it was started after the request, event `i`.
  ghost predicate Owed(q: State, events: seq<Event>, i: nat, j: nat, channel: string, job: Job) {
    && channel in q.pending && q.pending[channel].job == job
    && (q.pending[channel].running ==> q.pending[channel].changed || StartedIn(events, i, j, channel))
  }

  ghost predicate StartedIn(events: seq<Event>, i: nat, j: nat, channel: string) {
    exists s :: i < s < j && s < |events| && events[s].Start? && events[s].channel == channel
  }

  predicate Final(outcome: Outcome) { outcome.Complete? || outcome.Reauthorized? || outcome.Dropped? }

  /// Event `k` ends for good a run of `channel` that started after event `i`.
  ghost predicate Discharges(states: seq<State>, events: seq<Event>, i: nat, k: nat, channel: string)
    requires Trace(states, events) && k < |events|
  {
    && events[k].End? && states[k].running.value.0 == channel && StartedIn(events, i, k, channel)
    && Final(OutcomeOf(states[k].pending[channel], states[k].running.value.1, events[k].ending))
  }

  lemma OwedStep(states: seq<State>, events: seq<Event>, i: nat, j: nat, channel: string, job: Job)
    requires Trace(states, events) && i < j < |events| && Valid(states[j]) && Owed(states[j], events, i, j, channel, job)
    requires events[j].Ask? && events[j].channel == channel ==> events[j].job == job
    requires !Discharges(states, events, i, j, channel)
    ensures Owed(states[j + 1], events, i, j + 1, channel, job)
  {
    var e := events[j];
    var q, q' := states[j], Next(states[j], e);
    if e.Start? && e.channel == channel {
      assert StartedIn(events, i, j + 1, channel);
    }
    if StartedIn(events, i, j, channel) { assert StartedIn(events, i, j + 1, channel); }
  }

  /// The latest intent wins: from a request on, its job stays queued for the
  /// broadcaster until a run of it that started after the request ends for good,
  /// or a request for another job replaces it.
  lemma {:induction false} LatestIntentWins(states: seq<State>, events: seq<Event>, i: nat, j: nat, channel: string, job: Job)
    requires Trace(states, events) && i < j < |states|
    requires Owed(states[i + 1], events, i, i + 1, channel, job)
    requires forall k :: i < k < j && events[k].Ask? && events[k].channel == channel ==> events[k].job == job
    requires forall k :: i < k < j ==> !Discharges(states, events, i, k, channel)
    ensures Owed(states[j], events, i, j, channel, job)
  {
    if j > i + 1 {
      LatestIntentWins(states, events, i, j - 1, channel, job);
      TraceValid(states, events, j - 1);
      OwedStep(states, events, i, j - 1, channel, job);
    }
  }

  /// Every accepted removal is owed, even when one is running already.
  lemma RemovalIsOwed(states: seq<State>, events: seq<Event>, i: nat)
    requires Trace(states, events) && i < |events| && events[i].Ask? && events[i].job.Remove?
    requires events[i].channel in states[i + 1].pending
    ensures Owed(states[i + 1], events, i, i + 1, events[i].channel, Remove)
  {
    TraceValid(states, events, i);
  }

  /// An accepted reconcile is owed exactly unless a reconcile that no later
  /// request has superseded is running: that run is then the one that counts.
  lemma ReconcileIsOwed(states: seq<State>, events: seq<Event>, i: nat)
    requires Trace(states, events) && i < |events| && events[i].Ask? && events[i].job.Reconcile?
    requires events[i].channel in states[i + 1].pending
    ensures var c := events[i].channel;
      Owed(states[i + 1], events, i, i + 1, c, Reconcile) <==>
        !(c in states[i].pending && states[i].pending[c].running && !states[i].pending[c].changed && states[i].pending[c].job.Reconcile?)
  {
    TraceValid(states, events, i);
    assert !StartedIn(events, i, i + 1, events[i].channel);
  }

  /// So a reconcile requested after a removal was asked for and not finished is
  /// run after that request, whatever was running.
  lemma ReconcileAfterRemoval(states: seq<State>, events: seq<Event>, i: nat, j: nat)
    requires Trace(states, events) && i < |events| && i < j < |states|
    requires events[i].Ask? && events[i].job.Reconcile?
    requires var c := events[i].channel; c in states[i].pending && states[i].pending[c].job.Remove?
    requires forall k :: i < k < j && events[k].Ask? && events[k].channel == events[i].channel ==> events[k].job.Reconcile?
    requires forall k :: i < k < j ==> !Discharges(states, events, i, k, events[i].channel)
    ensures Owed(states[j], events, i, j, events[i].channel, Reconcile)
  {
    ReconcileIsOwed(states, events, i);
    LatestIntentWins(states, events, i, j, events[i].channel, Reconcile);
  }

  lemma RemovalStays(states: seq<State>, events: seq<Event>, i: nat, j: nat)
    requires Trace(states, events) && i < |events| && i < j < |states|
    requires events[i].Ask? && events[i].job.Remove? && events[i].channel in states[i + 1].pending
    requires forall k :: i < k < j && events[k].Ask? && events[k].channel == events[i].channel ==> events[k].job.Remove?
    requires forall k :: i < k < j ==> !Discharges(states, events, i, k, events[i].channel)
    ensures Owed(states[j], events, i, j, events[i].channel, Remove)
  {
    RemovalIsOwed(states, events, i);
    LatestIntentWins(states, events, i, j, events[i].channel, Remove);
  }

  /// Once a reconcile was requested for an item, a removal that finds the
  /// broadcaster re-authorized never drops it: a reconcile is queued instead.
  lemma {:induction false} ReconcileRemembered(states: seq<State>, events: seq<Event>, i: nat, j: nat)
    requires Trace(states, events) && i < j < |states| && events[i].Ask? && events[i].job.Reconcile?
    requires events[i].channel in states[i + 1].pending
    requires forall k :: i < k < j && events[k].End? && states[k].running.value.0 == events[i].channel ==>
               var c := events[i].channel;
               c in states[k].pending && !(OutcomeOf(states[k].pending[c], states[k].running.value.1, events[k].ending) in {Complete, Dropped})
    ensures events[i].channel in states[j].pending && states[j].pending[events[i].channel].reconcile
  {
    if j > i + 1 {
      ReconcileRemembered(states, events, i, j - 1);
      TraceValid(states, events, j - 1);
      RememberStep(states[j - 1], events[j - 1], events[i].channel);
    } else {
      TraceValid(states, events, i);
    }
  }

  lemma RememberStep(q: State, e: Event, channel: string)
    requires Valid(q) && Can(q, e) && channel in q.pending && q.pending[channel].reconcile
    requires e.End? && q.running.value.0 == channel ==>
               !(OutcomeOf(q.pending[channel], q.running.value.1, e.ending) in {Complete, Dropped})
    ensures channel in Next(q, e).pending && Next(q, e).pending[channel].reconcile
  {
    hide Kept, OutcomeOf;
    if e.End? && q.running.value.0 == channel {
      KeptShape(q.pending[channel], q.running.value.1, e.ending);
    }
  }

  /// The queue of one replica; each method is one critical section.
  class TwitchQueue {
    var pending: map<string, Item>
    var removed: map<string, nat>
    var costCheck: nat
    var cappedUntil: nat
    var running: Option<(string, Job)>

    ghost function View(): State
      reads this
    {
      State(pending, removed, costCheck, cappedUntil, running)
    }

    constructor ()
      ensures View() == Empty && Valid(View())
    {
      pending, removed, costCheck, cappedUntil, running := map[], map[], 0, 0, None;
    }

    /// `enqueue`.
    method Enqueue(channel: string, job: Job, now: nat)
      modifies this
      ensures View() == Asked(old(View()), channel, job, now)
    {
      if channel in pending {
        var item := pending[channel];
        if job.Reconcile? { item := item.(reconcile := true); }
        if item.job == job {
          if job.Remove? && item.running { item := item.(changed := true); }
        } else {
          item := item.(job := job, changed := item.running);
          if !item.running { item := item.(attempts := 0, costHeld := false, ready := now); }
        }
        pending := pending[channel := item];
        return;
      }
      if job.Reconcile? && now < cappedUntil { return; }
      if |pending| >= CAPACITY { return; }
      pending := pending[channel := Item(job, now, now, 0, false, false, false, job.Reconcile?)];
    }

    /// `Deauthorized`: a revocation soon after a removal is a repeat of the
    /// deauthorization that caused it.
    method Deauthorized(channel: string, revocation: bool, now: nat)
      modifies this
      ensures View() ==
        if revocation && channel in old(removed) && now - old(removed)[channel] < REMOVED_TTL then old(View())
        else Asked(old(View()), channel, Remove, now)
    {
      if revocation && channel in removed && now - removed[channel] < REMOVED_TTL { return; }
      Enqueue(channel, Remove, now);
    }

    /// `next`: the oldest item that may run, or how long until one may.
    method TakeNext(now: nat) returns (found: Option<string>, delay: int)
      requires Valid(View()) && running.None?
      modifies this
      ensures found.Some? ==>
        && Can(old(View()), Start(found.value, now)) && View() == Started(old(View()), found.value)
        && forall c :: c in old(pending) && Runnable(old(pending)[c], now) ==> !Older(old(pending), c, found.value)
      ensures found.None? ==>
        && View() == old(View()) && delay <= IDLE
        && forall c :: c in pending ==>
             !Runnable(pending[c], now) && delay <= (if pending[c].costHeld then costCheck else pending[c].ready) - now
    {
      found, delay := None, IDLE;
      var left := pending.Keys;
      while left != {}
        invariant left <= pending.Keys && delay <= IDLE && View() == old(View())
        invariant found.Some? ==> found.value in pending && Runnable(pending[found.value], now)
        invariant forall c :: c in pending && c !in left && Runnable(pending[c], now) ==>
                    found.Some? && !Older(pending, c, found.value)
        invariant forall c :: c in pending && c !in left && !Runnable(pending[c], now) ==>
                    delay <= (if pending[c].costHeld then costCheck else pending[c].ready) - now
        decreases left
      {
        var c :| c in left;
        left := left - {c};
        var item := pending[c];
        if item.running {
        } else if item.costHeld {
          if costCheck - now < delay { delay := costCheck - now; }
        } else if item.ready > now {
          if item.ready - now < delay { delay := item.ready - now; }
        } else if found.None? || Older(pending, c, found.value) {
          if found.Some? { OlderChains(pending, c, found.value); }
          found := Some(c);
        }
        OlderIrreflexive(pending, c);
      }
      if found.Some? {
        var item := pending[found.value];
        pending := pending[found.value := item.(running := true, changed := false)];
        running := Some((found.value, item.job));
      }
    }

    /// What `process` makes of its item.
    method Reschedule(was: Item, job: Job, e: Ending) returns (kept: Option<Item>)
      ensures kept == Kept(was, job, e)
    {
      var item := was.(running := false);
      if item.changed {
        return Some(item.(changed := false, attempts := 0, costHeld := false, ready := e.now));
      } else if e.failure == Some(Busy) {
        return Some(item.(ready := e.now + BUSY_DELAY));
      } else if e.failure.None? && e.held {
        return Some(item.(costHeld := true));
      } else if e.failure.None? && job.Remove? && e.reauthorized {
        if !item.reconcile { return None; }
        return Some(item.(job := Reconcile, attempts := 0, costHeld := false, ready := e.now));
      } else if e.failure.None? {
        return None;
      } else if e.failure == Some(Budget) {
        return Some(item.(ready := Later(e.now, e.reset, MINUTE)));
      } else if e.failure == Some(TooMany) {
        return Some(item.(ready := Later(e.now, e.retryAt, MINUTE)));
      } else if e.failure == Some(Refused) {
        return None;
      }
      item := item.(attempts := item.attempts + 1);
      if item.attempts >= MAX_ATTEMPTS { return None; }
      var delay := Backoff(item.attempts);
      if e.failure.value.uncertain && delay < UNCERTAIN_DELAY { delay := UNCERTAIN_DELAY; }
      item := item.(ready := e.now + delay);
      if e.retryAt > item.ready { item := item.(ready := e.retryAt); }
      return Some(item);
    }

    /// The end of `process`.
    method Finish(e: Ending)
      requires Valid(View()) && running.Some?
      modifies this
      ensures View() == Ended(old(View()), e)
    {
      hide Kept, Valid;
      assert running.value.0 in pending by { Working(View()); }
      var (channel, job) := running.value;
      var item := pending[channel];
      var kept := Reschedule(item, job, e);
      running := None;
      if e.deleted > 0 { cappedUntil, costCheck := 0, e.now; }
      if !item.changed && e.failure.None? {
        if e.held {
          if costCheck < e.now { costCheck := e.now + COST_CHECK_INTERVAL; }
          cappedUntil := e.now + COST_CHECK_INTERVAL;
        } else if job.Remove? && !e.reauthorized {
          removed := (map c | c in removed && e.now - removed[c] < REMOVED_TTL :: removed[c]);
          removed := removed[channel := e.now];
        }
      }
      pending := if kept.Some? then pending[channel := kept.value] else pending - {channel};
    }
  }

  lemma Working(q: State)
    requires Valid(q) && q.running.Some?
    ensures q.running.value.0 in q.pending
  {}

  /// Which of two items was enqueued first, and by channel when at once.
  predicate Older(pending: map<string, Item>, a: string, b: string)
    requires a in pending && b in pending
  {
    || pending[a].enqueued < pending[b].enqueued
    || (pending[a].enqueued == pending[b].enqueued && StringLess(a, b))
  }

  lemma OlderIrreflexive(pending: map<string, Item>, a: string)
    requires a in pending
    ensures !Older(pending, a, a)
  {
    if StringLess(a, a) { StringLessAsym(a, a); }
  }

  lemma OlderChains(pending: map<string, Item>, a: string, b: string)
    requires a in pending && b in pending && Older(pending, a, b)
    ensures forall c :: c in pending && Older(pending, c, a) ==> Older(pending, c, b)
  {
    forall c | c in pending && Older(pending, c, a) ensures Older(pending, c, b) {
      if pending[c].enqueued == pending[a].enqueued == pending[b].enqueued {
        StringLessSplits(c, b, a);
        if StringLess(b, a) { StringLessAsym(b, a); }
      }
    }
  }
}
