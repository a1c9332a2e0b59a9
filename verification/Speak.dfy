/// The iOS speak engine: one current utterance, a synthesis thread that keeps
/// at most two buffers ahead, and callbacks on the main queue, which is FIFO.
module Speak {
  import opened Wrappers

  const LIMIT := 2

  /// A block on the main queue, of one utterance.
  datatype Task = Enqueue(j: nat) | Played(j: nat) | SynthesisDone(j: nat) | SynthesisFailed(j: nat)

  /// `SpeakJob`. `held` and `closed` are its Gate; `playing` counts buffers that
  /// the output has and not yet reported. The last five are history.
  datatype Job = Job(
    cancelled: bool, closed: bool, held: nat, pendingBuffers: nat, synthesisDone: bool, synthesizing: bool, playing: nat,
    made: nat, scheduled: nat, reported: nat, completions: nat, terminals: nat, done: bool)

  const Fresh := Job(false, false, 0, 0, false, true, 0, 0, 0, 0, 0, 0, false)

  datatype State = State(current: Option<nat>, jobs: seq<Job>, queue: seq<Task>)

  datatype Ending = Done | Stopped | Error

  /// `finish`.
  function Finish(s: State, j: nat, end: Ending): State
    requires j < |s.jobs|
  {
    if s.current != Some(j) then s
    else
      var job := s.jobs[j];
      s.(current := None, jobs := s.jobs[j := job.(
        completions := job.completions + 1, terminals := job.terminals + 1, done := end.Done?)])
  }

  /// `cancel`, then `finish`.
  function CutOff(s: State, j: nat, end: Ending): State
    requires j < |s.jobs|
  {
    Finish(s.(jobs := s.jobs[j := s.jobs[j].(cancelled := true, closed := true)]), j, end)
  }

  function FinishIfPlayed(s: State, j: nat): State
    requires j < |s.jobs|
  {
    if s.jobs[j].synthesisDone && s.jobs[j].pendingBuffers == 0 then Finish(s, j, Done) else s
  }

  /// `enqueue`; `plays` says whether the output could be started.
  function AfterEnqueue(s: State, j: nat, plays: bool): State
    requires j < |s.jobs|
  {
    var job := s.jobs[j];
    if s.current != Some(j) || job.cancelled then s
    else
      var t := s.(jobs := s.jobs[j := job.(
        pendingBuffers := job.pendingBuffers + 1, playing := job.playing + 1, scheduled := job.scheduled + 1)]);
      if plays then t else CutOff(t, j, Error)
  }

  /// The completion of a scheduled buffer.
  function AfterPlayed(s: State, j: nat): State
    requires j < |s.jobs|
  {
    var job := s.jobs[j];
    var rest := if job.pendingBuffers > 0 then job.pendingBuffers - 1 else 0;
    FinishIfPlayed(s.(jobs := s.jobs[j := job.(
      pendingBuffers := rest, held := if job.held > 0 then job.held - 1 else 0, reported := job.reported + 1)]), j)
  }

  datatype Act =
    | Begin(fails: Option<Ending>)  // `speak`, refused while another is current; its output may not start
    | Make(j: nat)  // a buffer passed the gate
    | EndSynthesis(j: nat)
    | FailSynthesis(j: nat)
    | AbandonSynthesis(j: nat)  // cancelled, or refused by the closed gate
    | Report(j: nat)  // the output is done with a buffer, or dropped it when stopped
    | Main(plays: bool)  // the main queue runs its first block
    | Cut(end: Ending)  // `stop`, or an event of the audio output
    | Stall  // the watchdog

  predicate Can(s: State, a: Act) {
    match a
    case Begin(fails) => fails.None? || !fails.value.Done?
    case Make(j) => j < |s.jobs| && s.jobs[j].synthesizing && !s.jobs[j].closed && s.jobs[j].held < LIMIT
    case EndSynthesis(j) => j < |s.jobs| && s.jobs[j].synthesizing
    case FailSynthesis(j) => j < |s.jobs| && s.jobs[j].synthesizing
    case AbandonSynthesis(j) => j < |s.jobs| && s.jobs[j].synthesizing && s.jobs[j].cancelled
    case Report(j) => j < |s.jobs| && s.jobs[j].playing > 0
    case Main(_) => s.queue != [] && s.queue[0].j < |s.jobs|
    case Cut(end) => !end.Done?
    case Stall => s.current.Some? && s.current.value < |s.jobs| && s.jobs[s.current.value].pendingBuffers > 0
  }

  function Post(s: State, j: nat, job: Job, task: Task): State
    requires j < |s.jobs|
  {
    s.(jobs := s.jobs[j := job], queue := s.queue + [task])
  }

  /// The first block of the main queue runs.
  function AfterMain(s: State, plays: bool): State
    requires s.queue != [] && s.queue[0].j < |s.jobs|
  {
    var t := s.(queue := s.queue[1..]);
    match s.queue[0]
    case Enqueue(j) => AfterEnqueue(t, j, plays)
    case Played(j) => AfterPlayed(t, j)
    case SynthesisDone(j) => FinishIfPlayed(t.(jobs := t.jobs[j := t.jobs[j].(synthesisDone := true)]), j)
    case SynthesisFailed(j) => Finish(t, j, Error)
  }

  function After(s: State, a: Act): State
    requires Can(s, a)
  {
    match a
    case Begin(fails) =>
      if s.current.Some? then s
      else
        var t := s.(current := Some(|s.jobs|), jobs := s.jobs + [Fresh.(synthesizing := fails.None?)]);
        if fails.None? then t else Finish(t, |s.jobs|, fails.value)
    case Make(j) =>
      var job := s.jobs[j];
      Post(s, j, job.(held := job.held + 1, made := job.made + 1), Enqueue(j))
    case EndSynthesis(j) => Post(s, j, s.jobs[j].(synthesizing := false), SynthesisDone(j))
    case FailSynthesis(j) => Post(s, j, s.jobs[j].(synthesizing := false), SynthesisFailed(j))
    case AbandonSynthesis(j) => s.(jobs := s.jobs[j := s.jobs[j].(synthesizing := false)])
    case Report(j) => Post(s, j, s.jobs[j].(playing := s.jobs[j].playing - 1), Played(j))
    case Main(plays) => AfterMain(s, plays)
    case Cut(end) => if s.current.Some? && s.current.value < |s.jobs| then CutOff(s, s.current.value, end) else s
    case Stall => CutOff(s, s.current.value, Error)
  }

  /// The engine; each method is one block on the main queue, or a call there.
  class Engine {
    var current: Option<nat>
    var jobs: seq<Job>
    var queue: seq<Task>

    ghost function View(): State
      reads this
    {
      State(current, jobs, queue)
    }

    constructor ()
      ensures View() == Start
    {
      current, jobs, queue := None, [], [];
    }

    /// `finish`.
    method End(j: nat, end: Ending)
      requires j < |jobs|
      modifies this
      ensures View() == Finish(old(View()), j, end)
    {
      if current != Some(j) { return; }
      current := None;
      var job := jobs[j];
      jobs := jobs[j := job.(completions := job.completions + 1, terminals := job.terminals + 1, done := end.Done?)];
    }

    /// `cancel`, which also closes the gate.
    method Cancel(j: nat)
      requires j < |jobs|
      modifies this
      ensures View() == old(View()).(jobs := old(jobs)[j := old(jobs)[j].(cancelled := true, closed := true)])
    {
      jobs := jobs[j := jobs[j].(cancelled := true, closed := true)];
    }

    method FinishIfDone(j: nat)
      requires j < |jobs|
      modifies this
      ensures View() == FinishIfPlayed(old(View()), j)
    {
      if current == Some(j) && jobs[j].synthesisDone && jobs[j].pendingBuffers == 0 { End(j, Done); }
    }

    /// `enqueue`; `plays` says whether the output could be started.
    method Schedule(j: nat, plays: bool)
      requires j < |jobs|
      modifies this
      ensures View() == AfterEnqueue(old(View()), j, plays)
    {
      if current != Some(j) || jobs[j].cancelled { return; }
      var job := jobs[j];
      jobs := jobs[j := job.(pendingBuffers := job.pendingBuffers + 1, playing := job.playing + 1, scheduled := job.scheduled + 1)];
      if !plays {
        Cancel(j);
        End(j, Error);
      }
    }

    /// The completion of a scheduled buffer, with the gate's `release`.
    method Reported(j: nat)
      requires j < |jobs| && jobs[j].pendingBuffers > 0
      modifies this
      ensures View() == AfterPlayed(old(View()), j)
    {
      var job := jobs[j];
      jobs := jobs[j := job.(
        pendingBuffers := job.pendingBuffers - 1, held := if job.held > 0 then job.held - 1 else 0, reported := job.reported + 1)];
      FinishIfDone(j);
    }

    /// `stop`, or an event of the audio output.
    method Stop(end: Ending)
      requires !end.Done? && (current.Some? ==> current.value < |jobs|)
      modifies this
      ensures View() == After(old(View()), Cut(end))
    {
      if current.None? { return; }
      var j := current.value;
      Cancel(j);
      End(j, end);
    }

    /// The gate's `acquire` when it does not block, and the block it posts.
    method Pass(j: nat) returns (ok: bool)
      requires j < |jobs| && jobs[j].synthesizing && (jobs[j].closed || jobs[j].held < LIMIT)
      modifies this
      ensures ok == !old(jobs)[j].closed && View() == if ok then After(old(View()), Make(j)) else old(View())
    {
      if jobs[j].closed { return false; }
      jobs := jobs[j := jobs[j].(held := jobs[j].held + 1, made := jobs[j].made + 1)];
      queue := queue + [Enqueue(j)];
      return true;
    }
  }

  ghost predicate Step(s: State, t: State) { exists a :: Can(s, a) && t == After(s, a) }

  const Start := State(None, [], [])

  ghost predicate Run(trace: seq<State>) {
    && trace != [] && trace[0] == Start
    && forall i :: 0 < i < |trace| ==> Step(trace[i - 1], trace[i])
  }

  function Count(queue: seq<Task>, task: Task): nat {
    if queue == [] then 0 else (if queue[0] == task then 1 else 0) + Count(queue[1..], task)
  }

  lemma {:induction false} CountPost(queue: seq<Task>, extra: Task, task: Task)
    ensures Count(queue + [extra], task) == Count(queue, task) + if extra == task then 1 else 0
  {
    if queue != [] {
      assert (queue + [extra])[1..] == queue[1..] + [extra];
      CountPost(queue[1..], extra, task);
    }
  }

  lemma {:induction false} CountIn(queue: seq<Task>, task: Task)
    ensures Count(queue, task) > 0 <==> task in queue
  {
    if queue != [] { CountIn(queue[1..], task); }
  }

  /// No block of `j` follows the end of its synthesis.
  ghost predicate Last(queue: seq<Task>, j: nat) {
    forall i, k :: 0 <= i < k < |queue| && (queue[i] == SynthesisDone(j) || queue[i] == SynthesisFailed(j)) ==> queue[k] != Enqueue(j)
  }

  /// What always holds of one utterance.
  ghost predicate Job1(s: State, j: nat)
    requires j < |s.jobs|
  {
    var job, over := s.jobs[j], s.current != Some(j);
    && job.completions == job.terminals == (if over then 1 else 0)
    && (job.done ==> over && !job.synthesizing)
    && job.pendingBuffers == job.playing + Count(s.queue, Played(j))
    && job.reported + job.pendingBuffers == job.scheduled
    && Last(s.queue, j)
    && (job.synthesizing ==> SynthesisDone(j) !in s.queue && SynthesisFailed(j) !in s.queue && !job.synthesisDone)
    && (job.synthesisDone ==> Enqueue(j) !in s.queue)
    && (!over ==>
          && !job.cancelled && !job.closed
          && job.held == Count(s.queue, Enqueue(j)) + job.pendingBuffers && job.held <= LIMIT
          && job.made == job.scheduled + Count(s.queue, Enqueue(j))
          && (job.synthesizing || job.synthesisDone || SynthesisDone(j) in s.queue || SynthesisFailed(j) in s.queue)
          && !(job.synthesisDone && job.pendingBuffers == 0))
    && (job.done ==> job.made == job.scheduled == job.reported)
  }

  ghost predicate Inv(s: State) {
    && (s.current.Some? ==> s.current.value < |s.jobs|)
    && (forall i :: 0 <= i < |s.queue| ==> s.queue[i].j < |s.jobs|)
    && forall j :: 0 <= j < |s.jobs| ==> Job1(s, j)
  }

  /// What a queue holds of one utterance.
  ghost predicate SameTasks(a: seq<Task>, b: seq<Task>, j: nat) {
    && (forall task: Task :: task.j == j ==> Count(a, task) == Count(b, task) && (task in a <==> task in b))
    && (Last(a, j) ==> Last(b, j))
  }

  lemma PostOther(queue: seq<Task>, extra: Task, j: nat)
    requires extra.j != j
    ensures SameTasks(queue, queue + [extra], j)
  {
    forall task: Task | task.j == j ensures Count(queue, task) == Count(queue + [extra], task) { CountPost(queue, extra, task); }
  }

  lemma PopOther(queue: seq<Task>, j: nat)
    requires queue != [] && queue[0].j != j
    ensures SameTasks(queue, queue[1..], j)
  {
    assert queue == [queue[0]] + queue[1..];
  }

  lemma Frame(s: State, t: State, j: nat)
    requires j < |s.jobs| && j < |t.jobs| && Job1(s, j) && t.jobs[j] == s.jobs[j]
    requires (t.current == Some(j)) == (s.current == Some(j)) && SameTasks(s.queue, t.queue, j)
    ensures Job1(t, j)
  {}

  /// One more block at the end.
  lemma Posted(queue: seq<Task>, extra: Task)
    ensures forall task :: Count(queue + [extra], task) == Count(queue, task) + if extra == task then 1 else 0
    ensures forall j :: Last(queue, j) && (extra == Enqueue(j) ==> SynthesisDone(j) !in queue && SynthesisFailed(j) !in queue) ==> Last(queue + [extra], j)
  {
    forall task ensures Count(queue + [extra], task) == Count(queue, task) + if extra == task then 1 else 0 { CountPost(queue, extra, task); }
  }

  /// One block fewer at the front.
  lemma Popped(queue: seq<Task>)
    requires queue != []
    ensures forall task :: Count(queue[1..], task) == Count(queue, task) - if queue[0] == task then 1 else 0
    ensures forall j :: Last(queue, j) ==> Last(queue[1..], j)
    ensures forall task :: task in queue[1..] ==> task in queue
    ensures forall task :: task in queue && task != queue[0] ==> task in queue[1..]
    ensures forall j :: Last(queue, j) && (queue[0] == SynthesisDone(j) || queue[0] == SynthesisFailed(j)) ==> Enqueue(j) !in queue[1..]
  {
    assert queue == [queue[0]] + queue[1..];
  }

  lemma MakeKeeps(s: State, j: nat)
    requires Can(s, Make(j)) && Job1(s, j)
    ensures Job1(After(s, Make(j)), j)
  {
    Posted(s.queue, Enqueue(j));
  }

  lemma EndKeeps(s: State, a: Act)
    requires Can(s, a) && (a.EndSynthesis? || a.FailSynthesis?) && Job1(s, a.j)
    ensures Job1(After(s, a), a.j)
  {
    Posted(s.queue, if a.EndSynthesis? then SynthesisDone(a.j) else SynthesisFailed(a.j));
  }

  lemma ReportKeeps(s: State, j: nat)
    requires Can(s, Report(j)) && Job1(s, j)
    ensures Job1(After(s, Report(j)), j)
  {
    Posted(s.queue, Played(j));
  }

  lemma EnqueueKeeps(s: State, plays: bool)
    requires Can(s, Main(plays)) && s.queue[0].Enqueue? && Job1(s, s.queue[0].j)
    ensures Job1(AfterMain(s, plays), s.queue[0].j)
  {
    Popped(s.queue);
    CountIn(s.queue, s.queue[0]);
  }

  lemma PlayedKeeps(s: State, plays: bool)
    requires Can(s, Main(plays)) && s.queue[0].Played? && Job1(s, s.queue[0].j)
    ensures Job1(AfterMain(s, plays), s.queue[0].j)
  {
    Popped(s.queue);
    CountIn(s.queue, s.queue[0]);
    CountIn(s.queue, Enqueue(s.queue[0].j));
    CountIn(s.queue[1..], Enqueue(s.queue[0].j));
  }

  lemma DoneKeeps(s: State, plays: bool)
    requires Can(s, Main(plays)) && (s.queue[0].SynthesisDone? || s.queue[0].SynthesisFailed?) && Job1(s, s.queue[0].j)
    ensures Job1(AfterMain(s, plays), s.queue[0].j)
  {
    Popped(s.queue);
    CountIn(s.queue[1..], Enqueue(s.queue[0].j));
  }

  lemma MainKeeps(s: State, plays: bool, j: nat)
    requires Can(s, Main(plays)) && Inv(s) && j < |s.jobs|
    ensures Job1(AfterMain(s, plays), j)
  {
    hide Job1;
    assert Job1(s, j);
    if s.queue[0].j != j {
      PopOther(s.queue, j);
      Frame(s, AfterMain(s, plays), j);
    } else {
      match s.queue[0]
      case Enqueue(_) => EnqueueKeeps(s, plays);
      case Played(_) => PlayedKeeps(s, plays);
      case SynthesisDone(_) => DoneKeeps(s, plays);
      case SynthesisFailed(_) => DoneKeeps(s, plays);
    }
  }

  lemma CutKeeps(s: State, j: nat, end: Ending)
    requires j < |s.jobs| && s.current == Some(j) && Job1(s, j) && !end.Done?
    ensures Job1(CutOff(s, j, end), j)
  {}

  lemma BeginKeeps(s: State, fails: Option<Ending>)
    requires Can(s, Begin(fails)) && s.current.None? && forall i :: 0 <= i < |s.queue| ==> s.queue[i].j < |s.jobs|
    ensures Job1(After(s, Begin(fails)), |s.jobs|)
  {
    var j := |s.jobs|;
    CountIn(s.queue, Played(j));
    CountIn(s.queue, Enqueue(j));
  }

  lemma StepKeepsJob(s: State, a: Act, j: nat)
    requires Can(s, a) && Inv(s) && j < |After(s, a).jobs|
    ensures Job1(After(s, a), j)
  {
    hide Job1;
    var t := After(s, a);
    if j < |s.jobs| { assert Job1(s, j); }
    match a
    case Begin(fails) =>
      if j < |s.jobs| { Frame(s, t, j); } else { BeginKeeps(s, fails); }
    case Make(i) =>
      if i == j { MakeKeeps(s, j); } else { PostOther(s.queue, Enqueue(i), j); Frame(s, t, j); }
    case EndSynthesis(i) =>
      if i == j { EndKeeps(s, a); } else { PostOther(s.queue, SynthesisDone(i), j); Frame(s, t, j); }
    case FailSynthesis(i) =>
      if i == j { EndKeeps(s, a); } else { PostOther(s.queue, SynthesisFailed(i), j); Frame(s, t, j); }
    case AbandonSynthesis(i) =>
      if i == j { AbandonKeeps(s, j); } else { Frame(s, t, j); }
    case Report(i) =>
      if i == j { ReportKeeps(s, j); } else { PostOther(s.queue, Played(i), j); Frame(s, t, j); }
    case Main(plays) => MainKeeps(s, plays, j);
    case Cut(end) =>
      if s.current == Some(j) { CutKeeps(s, j, end); } else { Frame(s, t, j); }
    case Stall =>
      if s.current == Some(j) { CutKeeps(s, j, Error); } else { Frame(s, t, j); }
  }

  lemma AbandonKeeps(s: State, j: nat)
    requires Can(s, AbandonSynthesis(j)) && Job1(s, j)
    ensures Job1(After(s, AbandonSynthesis(j)), j)
  {}

  lemma StepKeeps(s: State, a: Act)
    requires Can(s, a) && Inv(s)
    ensures Inv(After(s, a))
  {
    forall j | 0 <= j < |After(s, a).jobs| ensures Job1(After(s, a), j) { StepKeepsJob(s, a, j); }
    hide Job1;
  }

  lemma {:induction false} InvHolds(trace: seq<State>)
    requires Run(trace)
    ensures Inv(trace[|trace| - 1])
  {
    if |trace| > 1 {
      hide Inv;
      var n := |trace| - 1;
      InvHolds(trace[..n]);
      assert Step(trace[n - 1], trace[n]);
      var a :| Can(trace[n - 1], a) && trace[n] == After(trace[n - 1], a);
      StepKeeps(trace[n - 1], a);
    }
  }

  /// In every run: each accepted utterance has exactly one completion and one
  /// terminal event once it is not current, and none before; while it is
  /// current at most two of its buffers are scheduled or on their way; and it
  /// ended as done only if every buffer made was scheduled and reported.
  lemma Utterances(trace: seq<State>, j: nat)
    requires Run(trace) && j < |trace[|trace| - 1].jobs|
    ensures var s := trace[|trace| - 1]; var job := s.jobs[j];
      && job.completions == job.terminals == (if s.current == Some(j) then 0 else 1)
      && (s.current == Some(j) ==> job.pendingBuffers + Count(s.queue, Enqueue(j)) <= LIMIT)
      && (job.done ==> job.made == job.scheduled == job.reported)
  {
    InvHolds(trace);
    assert Job1(trace[|trace| - 1], j);
  }

  /// The current utterance is never stuck: a buffer is playing, a block waits
  /// on the main queue, or its synthesis runs and can pass the gate.
  lemma NeverStuck(trace: seq<State>, j: nat)
    requires Run(trace) && trace[|trace| - 1].current == Some(j)
    ensures var s := trace[|trace| - 1];
      j < |s.jobs| && (s.jobs[j].playing > 0 || s.queue != [] || Can(s, Make(j)))
  {
    InvHolds(trace);
    assert Job1(trace[|trace| - 1], j);
  }

  /// Its gate never holds more or fewer than the buffers on their way: the
  /// lower bound in `release` is never needed while the utterance is current.
  lemma GateCounts(trace: seq<State>, j: nat)
    requires Run(trace) && trace[|trace| - 1].current == Some(j)
    ensures var s := trace[|trace| - 1];
      j < |s.jobs| && s.jobs[j].held == s.jobs[j].playing + Count(s.queue, Played(j)) + Count(s.queue, Enqueue(j))
  {
    InvHolds(trace);
    assert Job1(trace[|trace| - 1], j);
  }
}
