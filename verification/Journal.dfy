/// The durable checkpoint of the migration: a state file replaced by rename,
/// and a journal of updates that is replayed over it.
module Journal {
  import opened Wrappers
  import opened EventSub

  datatype Update = Update(id: Id, progress: Progress)

  /// A journal line as JSON. A torn line is one that does not parse: the
  /// proper prefix that a crash in the middle of an append leaves.
  datatype Line = Line(hash: string, id: Id, progress: Option<Progress>) | Torn

  datatype State = State(hash: string, entries: map<Id, Progress>)

  datatype Loaded = Entries(entries: map<Id, Progress>) | OtherSnapshot | Corrupt

  function Header(hash: string): Line { Line(hash, "", None) }

  function Written(u: Update): Line { Line("", u.id, Some(u.progress)) }

  function Lines(ups: seq<Update>): seq<Line> { seq(|ups|, i requires 0 <= i < |ups| => Written(ups[i])) }

  /// What a sequence of updates makes of `entries`.
  function Apply(entries: map<Id, Progress>, ups: seq<Update>): map<Id, Progress> {
    if ups == [] then entries
    else Apply(entries, ups[..|ups| - 1])[ups[|ups| - 1].id := ups[|ups| - 1].progress]
  }

  /// The position of the last update of `id`, or -1.
  function LastOf(ups: seq<Update>, id: Id): (k: int)
    ensures -1 <= k < |ups|
    ensures k >= 0 ==> ups[k].id == id
    ensures forall i :: k < i < |ups| ==> ups[i].id != id
  {
    if ups == [] then -1
    else if ups[|ups| - 1].id == id then |ups| - 1
    else LastOf(ups[..|ups| - 1], id)
  }

  /// The last update of an entry wins; entries without one keep their value.
  lemma {:induction false} LastWins(entries: map<Id, Progress>, ups: seq<Update>)
    ensures Apply(entries, ups).Keys == entries.Keys + set u | u in ups :: u.id
    ensures forall id :: id in Apply(entries, ups) ==>
              var k := LastOf(ups, id);
              if k >= 0 then Apply(entries, ups)[id] == ups[k].progress
              else id in entries && Apply(entries, ups)[id] == entries[id]
  {
    if ups != [] {
      var short, last := ups[..|ups| - 1], ups[|ups| - 1];
      LastWins(entries, short);
      assert ups == short + [last];
    }
  }

  lemma ApplyNone(entries: map<Id, Progress>)
    ensures Apply(entries, []) == entries
  {}

  lemma {:induction false} ApplyAppend(entries: map<Id, Progress>, ups: seq<Update>, more: seq<Update>)
    ensures Apply(entries, ups + more) == Apply(Apply(entries, ups), more)
  {
    if more == [] {
      assert ups + more == ups;
    } else {
      assert (ups + more)[..|ups + more| - 1] == ups + more[..|more| - 1];
      ApplyAppend(entries, ups, more[..|more| - 1]);
    }
  }

  /// Replaying a journal over a state file into which it was already folded
  /// changes nothing.
  lemma ReplayTwice(entries: map<Id, Progress>, ups: seq<Update>)
    ensures Apply(Apply(entries, ups), ups) == Apply(entries, ups)
  {
    LastWins(entries, ups);
    LastWins(Apply(entries, ups), ups);
    var once, twice := Apply(entries, ups), Apply(Apply(entries, ups), ups);
    forall id | id in once ensures id in twice && twice[id] == once[id] {
      assert id in twice;
    }
  }

  /// The rest of the scan of `LoadCheckpoint`.
  function Scan(hash: string, first: bool, torn: bool, lines: seq<Line>, entries: map<Id, Progress>): Loaded
    decreases |lines|
  {
    if lines == [] then Entries(entries)
    else if torn then Corrupt
    else match lines[0]
      case Torn => Scan(hash, false, true, lines[1..], entries)
      case Line(h, id, progress) =>
        if first then if h != hash then OtherSnapshot else Scan(hash, false, false, lines[1..], entries)
        else if id == "" || progress.None? then Corrupt
        else Scan(hash, false, false, lines[1..], entries[id := progress.value])
  }

  /// A journal that holds `ups`, as far as it was written: nothing yet, or a
  /// header and the updates, and at most one torn line at the very end.
  ghost predicate Holds(hash: string, lines: seq<Line>, ups: seq<Update>) {
    && (forall u :: u in ups ==> u.id != "")
    && (|| (ups == [] && (lines == [] || lines == [Torn]))
        || lines == [Header(hash)] + Lines(ups)
        || lines == [Header(hash)] + Lines(ups) + [Torn])
  }

  lemma {:induction false} ScanUpdates(hash: string, ups: seq<Update>, tail: seq<Line>, entries: map<Id, Progress>)
    requires (forall u :: u in ups ==> u.id != "") && (tail == [] || tail == [Torn])
    ensures Scan(hash, false, false, Lines(ups) + tail, entries) == Entries(Apply(entries, ups))
  {
    if ups == [] {
      assert Lines(ups) + tail == tail;
    } else {
      assert (Lines(ups) + tail)[1..] == Lines(ups[1..]) + tail;
      assert ups == ups[..1] + ups[1..];
      ScanUpdates(hash, ups[1..], tail, entries[ups[0].id := ups[0].progress]);
      ApplyAppend(entries, ups[..1], ups[1..]);
      assert Apply(entries, ups[..1]) == entries[ups[0].id := ups[0].progress];
    }
  }

  /// What was written is what is read.
  lemma ScanReads(hash: string, lines: seq<Line>, ups: seq<Update>, entries: map<Id, Progress>)
    requires Holds(hash, lines, ups)
    ensures Scan(hash, true, false, lines, entries) == Entries(Apply(entries, ups))
  {
    if lines == [] || lines == [Torn] {
    } else {
      var tail := if lines == [Header(hash)] + Lines(ups) then [] else [Torn];
      assert lines[1..] == Lines(ups) + tail;
      ScanUpdates(hash, ups, tail, entries);
    }
  }

  /// Whether a journal line past the header is one that a writer could have left.
  predicate Plain(line: Line) { line.Line? && line.id != "" && line.progress.Some? }

  /// A header is read by its hash alone, and an update by its id and progress.
  predicate Readable(hash: string, lines: seq<Line>) {
    && (forall i :: 0 < i < |lines| ==> Plain(lines[i]) || (lines[i].Torn? && i == |lines| - 1))
    && (lines != [] && lines[0].Torn? ==> |lines| == 1)
    && (lines != [] && lines[0].Line? ==> lines[0].hash == hash)
  }

  lemma {:induction false} ScanRest(hash: string, lines: seq<Line>, entries: map<Id, Progress>)
    ensures Scan(hash, false, false, lines, entries).Entries? <==>
              forall i :: 0 <= i < |lines| ==> Plain(lines[i]) || (lines[i].Torn? && i == |lines| - 1)
  {
    if lines != [] {
      if lines[0].Torn? {
        if |lines| > 1 { assert !Plain(lines[0]); }
      } else if Plain(lines[0]) {
        ScanRest(hash, lines[1..], entries[lines[0].id := lines[0].progress.value]);
        assert forall i :: 0 < i < |lines| ==> lines[i] == lines[1..][i - 1];
      }
    }
  }

  /// Exactly which journals load: one torn line is forgiven, at the end only.
  lemma LoadsIff(hash: string, lines: seq<Line>, entries: map<Id, Progress>)
    ensures Scan(hash, true, false, lines, entries).Entries? <==> Readable(hash, lines)
  {
    if lines != [] && lines[0].Line? {
      ScanRest(hash, lines[1..], entries);
      assert forall i :: 0 < i < |lines| ==> lines[i] == lines[1..][i - 1];
    }
  }

  /// The two files, as a crash would leave them.
  class Disk {
    var state: Option<State>
    var journal: Option<seq<Line>>

    function Base(): map<Id, Progress>
      reads this
    {
      if state.Some? then state.value.entries else map[]
    }

    /// Both files belong to this snapshot, and the journal holds `ups`.
    ghost predicate Valid(hash: string, ups: seq<Update>)
      reads this
    {
      && (state.Some? ==> state.value.hash == hash)
      && Holds(hash, if journal.Some? then journal.value else [], ups)
    }

    /// What the next start will read.
    ghost predicate Keeps(hash: string, entries: map<Id, Progress>)
      reads this
    {
      exists ups :: Valid(hash, ups) && Apply(Base(), ups) == entries
    }

    constructor (hash: string)
      ensures Keeps(hash, map[])
    {
      state, journal := None, None;
      new;
      assert Valid(hash, []);
    }

    /// `LoadCheckpoint`.
    method Load(hash: string) returns (r: Loaded)
      ensures r == (if state.Some? && state.value.hash != hash then OtherSnapshot
                    else if journal.None? then Entries(Base())
                    else Scan(hash, true, false, journal.value, Base()))
      ensures forall e :: Keeps(hash, e) ==> r == Entries(e)
    {
      ghost var lines := if journal.Some? then journal.value else [];
      forall ups | Valid(hash, ups) ensures Scan(hash, true, false, lines, Base()) == Entries(Apply(Base(), ups)) {
        ScanReads(hash, lines, ups, Base());
      }
      if state.Some? && state.value.hash != hash { return OtherSnapshot; }
      var entries := Base();
      if journal.None? { return Entries(entries); }
      var pending, first, i := false, true, 0;
      while i < |journal.value|
        invariant 0 <= i <= |journal.value|
        invariant Scan(hash, true, false, journal.value, Base()) == Scan(hash, first, pending, journal.value[i..], entries)
        invariant first ==> i == 0
      {
        if pending { return Corrupt; }
        var line := journal.value[i];
        assert journal.value[i..][1..] == journal.value[i + 1..];
        if line.Torn? {
          pending := true;
        } else if first {
          if line.hash != hash { return OtherSnapshot; }
        } else {
          if line.id == "" || line.progress.None? { return Corrupt; }
          entries := entries[line.id := line.progress.value];
        }
        first, i := false, i + 1;
      }
      return Entries(entries);
    }

    /// `CompactCheckpoint`. Renaming the new state file and removing the
    /// journal each become durable some time before the directory is synced; a
    /// failure or a crash ends the run at any point.
    method Compact(hash: string, entries: map<Id, Progress>) returns (ok: bool)
      requires Keeps(hash, entries)
      modifies this
      ensures Keeps(hash, entries) && (ok ==> journal == None && state == Some(State(hash, entries)))
    {
      ghost var ups :| Valid(hash, ups) && Apply(Base(), ups) == entries;
      ReplayTwice(Base(), ups);
      var renamed: bool := *;
      if !renamed { return false; }
      state := Some(State(hash, entries));
      assert Valid(hash, ups) && Apply(Base(), ups) == entries;
      var removed: bool := *;
      if !removed { return false; }
      journal := None;
      assert Valid(hash, []) && Apply(Base(), []) == entries;
      ok := *;
    }

    /// `OpenJournal`, after a compaction: the file appears, empty at first, and
    /// then the header or a part of it.
    method Open(hash: string, ghost entries: map<Id, Progress>) returns (ok: bool)
      requires Keeps(hash, entries) && journal == None
      modifies this`journal
      ensures Keeps(hash, entries)
      ensures ok ==> journal == Some([Header(hash)]) && state == old(state)
    {
      ghost var ups :| Valid(hash, ups) && Apply(Base(), ups) == entries;
      assert ups == [];
      var created: bool := *;
      if !created { return false; }
      journal := Some([]);
      assert Valid(hash, []);
      var how: int := *;
      if how == 0 {
        return false;
      } else if how == 1 {
        journal := Some([Torn]);
        assert Valid(hash, []);
        return false;
      }
      journal := Some([Header(hash)]);
      assert [Header(hash)] + Lines([]) == [Header(hash)];
      assert Valid(hash, []);
      ok := *;
    }

    /// `Journal.Append`: on an error or a crash nothing, a torn line or the
    /// whole line was written. Ids come from a validated snapshot, so none is
    /// empty.
    method Append(hash: string, u: Update, ghost ups: seq<Update>) returns (ok: bool)
      requires u.id != "" && state.Some? && state.value.hash == hash
      requires (forall v :: v in ups ==> v.id != "") && journal == Some([Header(hash)] + Lines(ups))
      modifies this`journal
      ensures ok ==> journal == Some([Header(hash)] + Lines(ups + [u]))
      ensures Keeps(hash, Apply(Base(), ups)) || Keeps(hash, Apply(Base(), ups + [u]))
      ensures ok ==> Keeps(hash, Apply(Base(), ups + [u]))
    {
      assert [Header(hash)] + Lines(ups) + [Written(u)] == [Header(hash)] + Lines(ups + [u]);
      assert Valid(hash, ups);
      var how: int := *;
      if how == 0 {
        return false;
      } else if how == 1 {
        journal := Some(journal.value + [Torn]);
        assert Valid(hash, ups);
        return false;
      }
      journal := Some(journal.value + [Written(u)]);
      assert Valid(hash, ups + [u]);
      ok := *;
    }
  }

  /// One run: what it loaded, the updates it was asked to record, how many of
  /// them were acknowledged, and how many reached the disk.
  datatype Session = Session(loaded: map<Id, Progress>, asked: seq<Update>, acked: nat, wrote: nat)

  /// Everything acknowledged was written, and at most the update that was under
  /// way when the run ended was written without being acknowledged.
  ghost predicate Honest(s: Session) {
    s.acked <= s.wrote <= s.acked + 1 && s.wrote <= |s.asked| && forall u :: u in s.asked ==> u.id != ""
  }

  /// The appends of one run, until one fails.
  method AppendAll(disk: Disk, hash: string, asked: seq<Update>) returns (acked: nat, ghost wrote: nat)
    requires disk.state.Some? && disk.state.value.hash == hash && disk.journal == Some([Header(hash)])
    requires forall u :: u in asked ==> u.id != ""
    modifies disk`journal
    ensures Honest(Session(disk.Base(), asked, acked, wrote))
    ensures disk.Keeps(hash, Apply(disk.Base(), asked[..wrote]))
  {
    hide Disk.Keeps, Holds;
    acked, wrote := 0, 0;
    EmptyJournal(disk, hash);
    while acked < |asked|
      invariant acked == wrote <= |asked|
      invariant disk.journal == Some([Header(hash)] + Lines(asked[..acked]))
      invariant disk.Keeps(hash, Apply(disk.Base(), asked[..acked]))
    {
      assert asked[..acked] + [asked[acked]] == asked[..acked + 1];
      var ok := disk.Append(hash, asked[acked], asked[..acked]);
      if !ok {
        if !disk.Keeps(hash, Apply(disk.Base(), asked[..acked])) { wrote := acked + 1; }
        return;
      }
      acked, wrote := acked + 1, wrote + 1;
    }
  }

  lemma EmptyJournal(disk: Disk, hash: string)
    requires disk.state.Some? && disk.state.value.hash == hash && disk.journal == Some([Header(hash)])
    ensures disk.Keeps(hash, Apply(disk.Base(), [])) && [Header(hash)] + Lines([]) == [Header(hash)]
  {
    assert disk.Valid(hash, []);
  }

  /// The order of `runWith`: load, compact, open, append.
  method RunSession(disk: Disk, hash: string, asked: seq<Update>, ghost before: map<Id, Progress>) returns (ghost s: Session)
    requires disk.Keeps(hash, before) && forall u :: u in asked ==> u.id != ""
    modifies disk
    ensures s.loaded == before && s.asked == asked && Honest(s)
    ensures disk.Keeps(hash, Apply(before, asked[..s.wrote]))
  {
    hide Disk.Keeps, Holds;
    s := Session(before, asked, 0, 0);
    assert asked[..0] == [];
    var r := disk.Load(hash);
    assert r == Entries(before);
    var ok := disk.Compact(hash, r.entries);
    if !ok { return; }
    ok := disk.Open(hash, r.entries);
    if !ok { return; }
    var acked, wrote := AppendAll(disk, hash, asked);
    s := Session(before, asked, acked, wrote);
  }

  /// Everything that reached the disk in a series of runs.
  ghost function Flat(history: seq<Session>): seq<Update>
    requires forall s :: s in history ==> Honest(s)
  {
    if history == [] then []
    else
      var s := history[|history| - 1];
      assert Honest(s);
      Flat(history[..|history| - 1]) + s.asked[..s.wrote]
  }

  ghost predicate Linked(first: map<Id, Progress>, history: seq<Session>) {
    && (forall s :: s in history ==> Honest(s))
    && (forall i :: 0 <= i < |history| ==> history[i].loaded == Apply(first, Flat(history[..i])))
  }

  lemma LinkedMore(first: map<Id, Progress>, history: seq<Session>, s: Session)
    requires Linked(first, history) && Honest(s) && s.loaded == Apply(first, Flat(history))
    ensures Linked(first, history + [s])
    ensures Apply(first, Flat(history + [s])) == Apply(s.loaded, s.asked[..s.wrote])
  {
    var more := history + [s];
    assert more[..|history|] == history;
    assert forall k :: 0 <= k < |history| ==> more[..k] == history[..k];
    ApplyAppend(first, Flat(history), s.asked[..s.wrote]);
  }

  /// Any number of runs over one backup, each crashing anywhere: every load
  /// succeeds, and returns all that was acknowledged before.
  method Sessions(disk: Disk, hash: string, plans: seq<seq<Update>>, ghost first: map<Id, Progress>) returns (ghost history: seq<Session>)
    requires disk.Keeps(hash, first) && forall p, u :: p in plans && u in p ==> u.id != ""
    modifies disk
    ensures |history| == |plans| && forall i :: 0 <= i < |plans| ==> history[i].asked == plans[i]
    ensures Linked(first, history) && disk.Keeps(hash, Apply(first, Flat(history)))
  {
    hide Disk.Keeps, Apply;
    history := [];
    ApplyNone(first);
    for i := 0 to |plans|
      invariant |history| == i && forall k :: 0 <= k < i ==> history[k].asked == plans[k]
      invariant Linked(first, history) && disk.Keeps(hash, Apply(first, Flat(history)))
    {
      assert plans[i] in plans;
      var s := RunSession(disk, hash, plans[i], Apply(first, Flat(history)));
      LinkedMore(first, history, s);
      history := history + [s];
    }
  }

  /// Update `j` of run `i` reached the disk.
  predicate Reached(history: seq<Session>, i: int, j: int) {
    0 <= i < |history| && 0 <= j < |history[i].asked| && j < history[i].wrote
  }

  /// Update `j` of run `i` was acknowledged after update `j0` of run `i0`.
  predicate AckedAfter(history: seq<Session>, i: int, j: int, i0: int, j0: int) {
    0 <= i < |history| && 0 <= j < |history[i].asked| && j < history[i].acked && (i > i0 || (i == i0 && j > j0))
  }

  /// `value` of `id` comes from update `j` of run `i`, and no later update of
  /// it was acknowledged.
  ghost predicate Latest(history: seq<Session>, id: Id, value: Progress, i: int, j: int) {
    && Reached(history, i, j) && history[i].asked[j] == Update(id, value)
    && forall i', j' :: AckedAfter(history, i', j', i, j) ==> history[i'].asked[j'].id != id
  }

  ghost predicate HasLatest(history: seq<Session>, id: Id, value: Progress) {
    exists i, j :: Latest(history, id, value, i, j)
  }

  ghost predicate EverAcked(history: seq<Session>, id: Id) {
    exists i, j :: AckedAfter(history, i, j, -1, 0) && history[i].asked[j].id == id
  }

  /// The last acknowledged progress of every entry survives any series of
  /// crashes; only the single unacknowledged update with which a run ended can
  /// have taken its place.
  lemma {:induction false} LastAcknowledged(first: map<Id, Progress>, history: seq<Session>, id: Id)
    requires Linked(first, history)
    ensures var now := Apply(first, Flat(history));
      || (id in now && HasLatest(history, id, now[id]))
      || ((id in now <==> id in first) && (id in now ==> now[id] == first[id]) && !EverAcked(history, id))
  {
    if history == [] { return; }
    hide Apply, LastOf, EverAcked, HasLatest, Linked;
    var n := |history| - 1;
    var short, s := history[..n], history[n];
    Shorter(first, history);
    LastAcknowledged(first, short, id);
    var was, ups := Apply(first, Flat(short)), s.asked[..s.wrote];
    ApplyAppend(first, Flat(short), ups);
    LastWins(was, ups);
    var k := LastOf(ups, id);
    if k >= 0 {
      NewLatest(history, k);
    } else {
      NoneAdded(history, id);
      if id in was && HasLatest(short, id, was[id]) { StillLatest(history, id, was[id]); }
    }
  }

  lemma Shorter(first: map<Id, Progress>, history: seq<Session>)
    requires Linked(first, history) && history != []
    ensures Linked(first, history[..|history| - 1]) && Honest(history[|history| - 1])
    ensures forall s :: s in history ==> Honest(s)
  {
    var short := history[..|history| - 1];
    assert forall i :: 0 <= i < |short| ==> short[..i] == history[..i];
  }

  lemma NewLatest(history: seq<Session>, k: nat)
    requires history != [] && Honest(history[|history| - 1])
    requires var s := history[|history| - 1];
      k < s.wrote && forall j :: k < j < s.wrote ==> s.asked[..s.wrote][j].id != s.asked[k].id
    ensures var s := history[|history| - 1]; HasLatest(history, s.asked[k].id, s.asked[k].progress)
  {
    var n := |history| - 1;
    var s := history[n];
    assert forall j :: k < j < s.acked ==> s.asked[..s.wrote][j] == s.asked[j];
    assert Latest(history, s.asked[k].id, s.asked[k].progress, n, k);
  }

  lemma NoneAdded(history: seq<Session>, id: Id)
    requires history != [] && Honest(history[|history| - 1])
    requires var s := history[|history| - 1]; forall j :: 0 <= j < s.wrote ==> s.asked[..s.wrote][j].id != id
    ensures EverAcked(history, id) ==> EverAcked(history[..|history| - 1], id)
    ensures var s := history[|history| - 1]; forall j :: 0 <= j < s.acked ==> s.asked[j].id != id
  {
    var n := |history| - 1;
    var s := history[n];
    forall j | 0 <= j < s.acked ensures s.asked[j].id != id { assert s.asked[..s.wrote][j] == s.asked[j]; }
    if i, j :| AckedAfter(history, i, j, -1, 0) && history[i].asked[j].id == id {
      assert AckedAfter(history[..n], i, j, -1, 0);
    }
  }

  lemma StillLatest(history: seq<Session>, id: Id, value: Progress)
    requires history != [] && HasLatest(history[..|history| - 1], id, value)
    requires var s := history[|history| - 1]; Honest(s) && forall j :: 0 <= j < s.acked ==> s.asked[j].id != id
    ensures HasLatest(history, id, value)
  {
    var short := history[..|history| - 1];
    var i, j :| Latest(short, id, value, i, j);
    forall i', j' | AckedAfter(history, i', j', i, j) ensures history[i'].asked[j'].id != id {
      if i' < |history| - 1 { assert AckedAfter(short, i', j', i, j); }
    }
    assert Latest(history, id, value, i, j);
  }
}
