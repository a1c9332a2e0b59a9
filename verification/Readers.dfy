/// Concurrent calls of `requestManager.apply`: the reference-counted keyed
/// mutex they take, and what becomes of every reader they open.
module Readers {
  import opened Wrappers

  datatype Provider = Twitch | YouTube | Unsupported

  datatype Key = Key(provider: Provider, channel: string)

  datatype Kind = Anonymous | Authenticated | Video

  datatype Reader = Reader(id: nat, kind: Kind)

  /// Where one call stands; `e` is the lock it uses, from entering
  /// `KeyedMutex.Lock` to the end of the function it returned.
  datatype Pc =
    | Entering
    | Waiting(e: nat)
    | Locked(e: nat)
    | Seen(e: nat, existing: Option<Reader>)
    | Opened(e: nat, existing: Option<Reader>, reader: Reader)
    | Closing(e: nat, reader: Reader)
    | Finishing(e: nat)
    | Leaving(e: nat)
    | Out

  datatype Call = Call(key: Key, removed: bool, pc: Pc)

  /// `keyedLock`.
  datatype Lock = Lock(users: nat, held: bool)

  /// Where a reader is: known for a key, in the hands of a call that is about
  /// to publish or to close it, or closed.
  datatype Place = InMap(key: Key) | New(c: nat) | Old(c: nat) | Gone

  /// `places` and `closes` are history: where every reader ever opened is, and
  /// how often it was closed.
  datatype State = State(entries: map<Key, nat>, locks: seq<Lock>, calls: seq<Call>, clients: map<Key, Reader>,
                         places: seq<Place>, closes: seq<nat>)

  const Start := State(map[], [], [], map[], [], [])

  function Find(clients: map<Key, Reader>, key: Key): Option<Reader> {
    if key in clients then Some(clients[key]) else None
  }

  /// The cases in which `applyLocked` keeps what is there. `lucky` is the draw
  /// that lets most updates of an authenticated channel be skipped.
  predicate Keeps(key: Key, existing: Option<Reader>, lucky: bool) {
    match key.provider
    case Unsupported => true
    case YouTube => existing.Some?
    case Twitch => existing.Some? && (existing.value.kind.Anonymous? || (existing.value.kind.Authenticated? && lucky))
  }

  datatype Act =
    | Begin(key: Key, removed: bool)
    | Enter(c: nat)
    | Acquire(c: nat)
    | Read(c: nat)
    | Remove(c: nat)
    | Skip(c: nat, lucky: bool)
    | Fail(c: nat, lucky: bool)
    | Open(c: nat, lucky: bool, kind: Kind)
    | Publish(c: nat)
    | Close(c: nat)
    | Release(c: nat)
    | Leave(c: nat)

  predicate Can(s: State, a: Act) {
    a.Begin? || (a.c < |s.calls| && match a
      case Enter(c) => s.calls[c].pc.Entering?
      case Acquire(c) => s.calls[c].pc.Waiting? && s.calls[c].pc.e < |s.locks| && !s.locks[s.calls[c].pc.e].held
      case Read(c) => s.calls[c].pc.Locked?
      case Remove(c) => s.calls[c].pc.Seen? && s.calls[c].removed
      case Skip(c, lucky) => s.calls[c].pc.Seen? && !s.calls[c].removed && Keeps(s.calls[c].key, s.calls[c].pc.existing, lucky)
      case Fail(c, lucky) => s.calls[c].pc.Seen? && !s.calls[c].removed && !Keeps(s.calls[c].key, s.calls[c].pc.existing, lucky)
      case Open(c, lucky, _) => s.calls[c].pc.Seen? && !s.calls[c].removed && !Keeps(s.calls[c].key, s.calls[c].pc.existing, lucky)
      case Publish(c) => s.calls[c].pc.Opened? && s.calls[c].pc.reader.id < |s.places|
      case Close(c) => s.calls[c].pc.Closing? && s.calls[c].pc.reader.id < |s.places| == |s.closes|
      case Release(c) => s.calls[c].pc.Finishing? && s.calls[c].pc.e < |s.locks|
      case Leave(c) => s.calls[c].pc.Leaving? && s.calls[c].pc.e < |s.locks| && s.locks[s.calls[c].pc.e].users > 0
      case Begin(_, _) => true)
  }

  function Goes(s: State, c: nat, pc: Pc): State
    requires c < |s.calls|
  {
    s.(calls := s.calls[c := s.calls[c].(pc := pc)])
  }

  function Handed(places: seq<Place>, existing: Option<Reader>, c: nat): seq<Place> {
    if existing.Some? && existing.value.id < |places| then places[existing.value.id := Old(c)] else places
  }

  function ToClose(e: nat, existing: Option<Reader>): Pc {
    if existing.Some? then Closing(e, existing.value) else Finishing(e)
  }

  /// The first critical section of `KeyedMutex.Lock`.
  function AfterEnter(s: State, c: nat): State
    requires c < |s.calls|
  {
    var key := s.calls[c].key;
    if key in s.entries && s.entries[key] < |s.locks| then
      var e := s.entries[key];
      Goes(s, c, Waiting(e)).(locks := s.locks[e := s.locks[e].(users := s.locks[e].users + 1)])
    else
      Goes(s, c, Waiting(|s.locks|)).(entries := s.entries[key := |s.locks|], locks := s.locks + [Lock(1, false)])
  }

  /// The last critical section of the function that `KeyedMutex.Lock` returns.
  function AfterLeave(s: State, c: nat): State
    requires Can(s, Leave(c))
  {
    var e := s.calls[c].pc.e;
    var users := s.locks[e].users - 1;
    Goes(s, c, Out).(
      locks := s.locks[e := s.locks[e].(users := users)],
      entries := if users == 0 then s.entries - {s.calls[c].key} else s.entries)
  }

  function After(s: State, a: Act): State
    requires Can(s, a)
  {
    match a
    case Begin(key, removed) => s.(calls := s.calls + [Call(key, removed, Entering)])
    case Enter(c) => AfterEnter(s, c)
    case Acquire(c) =>
      var e := s.calls[c].pc.e;
      Goes(s, c, Locked(e)).(locks := s.locks[e := s.locks[e].(held := true)])
    case Read(c) => Goes(s, c, Seen(s.calls[c].pc.e, Find(s.clients, s.calls[c].key)))
    case Remove(c) =>
      var pc := s.calls[c].pc;
      Goes(s, c, ToClose(pc.e, pc.existing)).(
        clients := s.clients - {s.calls[c].key}, places := Handed(s.places, pc.existing, c))
    case Skip(c, _) => Goes(s, c, Finishing(s.calls[c].pc.e))
    case Fail(c, _) => Goes(s, c, Finishing(s.calls[c].pc.e))
    case Open(c, _, kind) =>
      var pc := s.calls[c].pc;
      Goes(s, c, Opened(pc.e, pc.existing, Reader(|s.places|, kind))).(places := s.places + [New(c)], closes := s.closes + [0])
    case Publish(c) =>
      var pc := s.calls[c].pc;
      Goes(s, c, ToClose(pc.e, pc.existing)).(
        clients := s.clients[s.calls[c].key := pc.reader],
        places := Handed(s.places, pc.existing, c)[pc.reader.id := InMap(s.calls[c].key)])
    case Close(c) =>
      var pc := s.calls[c].pc;
      Goes(s, c, Finishing(pc.e)).(
        places := s.places[pc.reader.id := Gone], closes := s.closes[pc.reader.id := s.closes[pc.reader.id] + 1])
    case Release(c) =>
      var e := s.calls[c].pc.e;
      Goes(s, c, Leaving(e)).(locks := s.locks[e := s.locks[e].(held := false)])
    case Leave(c) => AfterLeave(s, c)
  }

  /// `KeyedMutex`; each method is one critical section under its own mutex.
  class KeyedMutex {
    var entries: map<Key, nat>
    var locks: seq<Lock>

    ghost predicate Is(s: State)
      reads this
    {
      entries == s.entries && locks == s.locks
    }

    /// The lookup in `Lock`.
    method Enter(key: Key) returns (e: nat)
      requires key in entries ==> entries[key] < |locks|
      modifies this
      ensures forall s: State, c: nat :: c < |s.calls| && s.calls[c].key == key && old(Is(s)) ==>
        Is(AfterEnter(s, c)) && AfterEnter(s, c).calls[c].pc == Waiting(e)
    {
      if key !in entries {
        entries := entries[key := |locks|];
        locks := locks + [Lock(0, false)];
      }
      e := entries[key];
      locks := locks[e := locks[e].(users := locks[e].users + 1)];
    }

    /// The end of the function that `Lock` returns.
    method Leave(key: Key, e: nat)
      requires e < |locks| && locks[e].users > 0
      modifies this
      ensures forall s: State, c: nat :: Can(s, Act.Leave(c)) && s.calls[c].key == key && s.calls[c].pc.e == e && old(Is(s)) ==> Is(AfterLeave(s, c))
    {
      locks := locks[e := locks[e].(users := locks[e].users - 1)];
      if locks[e].users == 0 { entries := entries - {key}; }
    }
  }

  ghost predicate Step(s: State, t: State) { exists a :: Can(s, a) && t == After(s, a) }

  ghost predicate Run(trace: seq<State>) {
    && trace != [] && trace[0] == Start
    && forall i :: 0 < i < |trace| ==> Step(trace[i - 1], trace[i])
  }

  /// `c` uses lock `e`; and holds it.
  predicate Uses(s: State, c: int, e: int) {
    0 <= c < |s.calls| && !s.calls[c].pc.Entering? && !s.calls[c].pc.Out? && s.calls[c].pc.e == e
  }

  predicate Holds(s: State, c: int, e: int) {
    Uses(s, c, e) && !s.calls[c].pc.Waiting? && !s.calls[c].pc.Leaving?
  }

  ghost function Users(s: State, e: int): set<int> { set c | 0 <= c < |s.calls| && Uses(s, c, e) }

  /// All calls for a key use one lock, and the map has an entry exactly while
  /// one of them does; `users` counts them.
  ghost predicate Counted(s: State) { Mapped(s) && Alive(s) && Tallied(s) }

  ghost predicate Mapped(s: State) {
    forall c, e :: Uses(s, c, e) ==> 0 <= e < |s.locks| && s.calls[c].key in s.entries && s.entries[s.calls[c].key] == e
  }

  ghost predicate Alive(s: State) {
    && (forall k :: k in s.entries ==> s.entries[k] < |s.locks| && s.locks[s.entries[k]].users > 0)
    && (forall k, l :: k in s.entries && l in s.entries && s.entries[k] == s.entries[l] ==> k == l)
  }

  ghost predicate Tallied(s: State) { forall e :: 0 <= e < |s.locks| ==> s.locks[e].users == |Users(s, e)| }

  ghost predicate Excluded(s: State) {
    && (forall c, e :: Holds(s, c, e) ==> 0 <= e < |s.locks| && s.locks[e].held)
    && (forall c, d, e :: Holds(s, c, e) && Holds(s, d, e) ==> c == d)
  }

  /// What each call knows is true, and each reader is in exactly one place.
  ghost predicate Placed(s: State) {
    && |s.places| == |s.closes| && Informed(s) && Listed(s) && InHand(s)
    && (forall r :: 0 <= r < |s.places| ==> PlaceHolds(s, r))
  }

  ghost predicate Informed(s: State) {
    forall c :: 0 <= c < |s.calls| && (s.calls[c].pc.Seen? || s.calls[c].pc.Opened?) ==> s.calls[c].pc.existing == Find(s.clients, s.calls[c].key)
  }

  ghost predicate Listed(s: State) {
    forall k :: k in s.clients ==> s.clients[k].id < |s.places| && s.places[s.clients[k].id] == InMap(k)
  }

  ghost predicate InHand(s: State) {
    && (forall c :: 0 <= c < |s.calls| && s.calls[c].pc.Opened? ==> s.calls[c].pc.reader.id < |s.places| && s.places[s.calls[c].pc.reader.id] == New(c))
    && (forall c :: 0 <= c < |s.calls| && s.calls[c].pc.Closing? ==> s.calls[c].pc.reader.id < |s.places| && s.places[s.calls[c].pc.reader.id] == Old(c))
  }

  ghost predicate PlaceHolds(s: State, r: nat)
    requires r < |s.places| == |s.closes|
  {
    && s.closes[r] == (if s.places[r].Gone? then 1 else 0)
    && match s.places[r]
       case InMap(k) => k in s.clients && s.clients[k].id == r
       case New(c) => c < |s.calls| && s.calls[c].pc.Opened? && s.calls[c].pc.reader.id == r
       case Old(c) => c < |s.calls| && s.calls[c].pc.Closing? && s.calls[c].pc.reader.id == r
       case Gone => true
  }

  /// Nobody enters or leaves a lock.
  lemma SameUsers(s: State, t: State, e: int)
    requires forall c :: Uses(t, c, e) <==> Uses(s, c, e)
    ensures Users(t, e) == Users(s, e)
  {}

  lemma CountedSame(s: State, t: State)
    requires Counted(s) && t.entries == s.entries && |t.locks| == |s.locks|
    requires forall e :: 0 <= e < |s.locks| ==> t.locks[e].users == s.locks[e].users
    requires forall c, e :: Uses(t, c, e) <==> Uses(s, c, e)
    requires forall c :: 0 <= c < |s.calls| ==> c < |t.calls| && t.calls[c].key == s.calls[c].key
    ensures Counted(t)
  {
    forall e | 0 <= e < |t.locks| ensures t.locks[e].users == |Users(t, e)| { SameUsers(s, t, e); }
    forall c, e | Uses(t, c, e) ensures 0 <= e < |t.locks| && t.calls[c].key in t.entries && t.entries[t.calls[c].key] == e {
      assert Uses(s, c, e);
    }
  }

  /// The lock that a call entering finds or makes.
  function Target(s: State, c: nat): nat
    requires c < |s.calls|
  {
    var key := s.calls[c].key;
    if key in s.entries && s.entries[key] < |s.locks| then s.entries[key] else |s.locks|
  }

  lemma EnterUses(s: State, c: nat)
    requires Can(s, Enter(c))
    ensures forall d, e :: Uses(AfterEnter(s, c), d, e) <==> Uses(s, d, e) || (d == c && e == Target(s, c))
    ensures forall e :: !Uses(s, c, e)
  {}

  lemma EnterMapped(s: State, c: nat)
    requires Can(s, Enter(c)) && Mapped(s) && Alive(s)
    ensures Mapped(AfterEnter(s, c)) && Alive(AfterEnter(s, c))
  {
    var t := AfterEnter(s, c);
    EnterUses(s, c);
    forall d, e | Uses(t, d, e) ensures 0 <= e < |t.locks| && t.calls[d].key in t.entries && t.entries[t.calls[d].key] == e {
      if d != c { assert Uses(s, d, e); }
    }
  }

  lemma EnterTallied(s: State, c: nat)
    requires Can(s, Enter(c)) && Mapped(s) && Tallied(s)
    ensures Tallied(AfterEnter(s, c))
  {
    hide Uses;
    var t, mine := AfterEnter(s, c), Target(s, c);
    EnterUses(s, c);
    forall e | 0 <= e < |t.locks| ensures t.locks[e].users == |Users(t, e)| {
      if e == mine {
        assert Users(t, e) == Users(s, e) + {c};
        assert c !in Users(s, e);
        if mine == |s.locks| { assert Users(s, e) == {}; }
      } else {
        SameUsers(s, t, e);
      }
    }
  }

  lemma LeaveUses(s: State, c: nat)
    requires Can(s, Leave(c))
    ensures forall d, e :: Uses(AfterLeave(s, c), d, e) <==> Uses(s, d, e) && d != c
    ensures forall e :: Uses(s, c, e) <==> e == s.calls[c].pc.e
  {}

  lemma LeaveTallied(s: State, c: nat)
    requires Can(s, Leave(c)) && Tallied(s)
    ensures Tallied(AfterLeave(s, c))
  {
    hide Uses;
    var t, mine := AfterLeave(s, c), s.calls[c].pc.e;
    LeaveUses(s, c);
    forall e | 0 <= e < |t.locks| ensures t.locks[e].users == |Users(t, e)| {
      if e == mine { assert Users(t, e) == Users(s, e) - {c}; } else { SameUsers(s, t, e); }
    }
  }

  lemma LeaveMapped(s: State, c: nat)
    requires Can(s, Leave(c)) && Mapped(s) && Alive(s) && Tallied(AfterLeave(s, c))
    ensures Mapped(AfterLeave(s, c)) && Alive(AfterLeave(s, c))
  {
    var t, mine := AfterLeave(s, c), s.calls[c].pc.e;
    LeaveUses(s, c);
    assert Uses(s, c, mine);
    assert s.entries[s.calls[c].key] == mine;
    forall d, e | Uses(t, d, e) ensures 0 <= e < |t.locks| && t.calls[d].key in t.entries && t.entries[t.calls[d].key] == e {
      assert Uses(s, d, e);
      if e == mine { assert d in Users(t, mine); }
    }
  }

  lemma CountedKept(s: State, a: Act)
    requires Can(s, a) && Counted(s)
    ensures Counted(After(s, a))
  {
    hide Mapped, Alive, Tallied, AfterEnter, AfterLeave;
    match a
    case Enter(c) =>
      EnterMapped(s, c);
      EnterTallied(s, c);
    case Leave(c) =>
      LeaveTallied(s, c);
      LeaveMapped(s, c);
    case _ => CountedSame(s, After(s, a));
  }

  lemma ExcludedSame(s: State, t: State)
    requires Excluded(s) && (forall c, e :: Holds(t, c, e) ==> Holds(s, c, e)) && |s.locks| <= |t.locks|
    requires forall e :: 0 <= e < |s.locks| && s.locks[e].held ==> t.locks[e].held
    ensures Excluded(t)
  {}

  lemma AcquireExcluded(s: State, c: nat)
    requires Can(s, Acquire(c)) && Excluded(s)
    ensures Excluded(After(s, Acquire(c)))
  {
    var t, mine := After(s, Acquire(c)), s.calls[c].pc.e;
    forall d, e ensures Holds(t, d, e) <==> Holds(s, d, e) || (d == c && e == mine) {}
    assert forall d :: !Holds(s, d, mine);
  }

  lemma ReleaseExcluded(s: State, c: nat)
    requires Can(s, Release(c)) && Excluded(s)
    ensures Excluded(After(s, Release(c)))
  {
    var t, mine := After(s, Release(c)), s.calls[c].pc.e;
    assert Holds(s, c, mine);
    forall d, e ensures Holds(t, d, e) <==> Holds(s, d, e) && d != c {}
  }

  lemma ExcludedKept(s: State, a: Act)
    requires Can(s, a) && Excluded(s)
    ensures Excluded(After(s, a))
  {
    hide Excluded;
    match a
    case Acquire(c) => AcquireExcluded(s, c);
    case Release(c) => ReleaseExcluded(s, c);
    case Enter(_) => ExcludedSame(s, After(s, a));
    case Leave(_) => ExcludedSame(s, After(s, a));
    case _ => ExcludedSame(s, After(s, a));
  }

  /// `KeyedMutex` never admits two holders of one key.
  lemma HoldersDiffer(s: State, c: nat, d: nat)
    requires Counted(s) && Excluded(s) && c < |s.calls| && d < |s.calls| && s.calls[c].key == s.calls[d].key
    requires exists e, f :: Holds(s, c, e) && Holds(s, d, f)
    ensures c == d
  {
    var e, f :| Holds(s, c, e) && Holds(s, d, f);
    assert Uses(s, c, e) && Uses(s, d, f);
  }

  /// A step of `c` that leaves readers alone.
  lemma PlacedSame(s: State, t: State, c: nat)
    requires Placed(s) && t.places == s.places && t.closes == s.closes && t.clients == s.clients && |s.calls| <= |t.calls|
    requires forall d :: 0 <= d < |s.calls| && d != c ==> t.calls[d] == s.calls[d]
    requires forall d :: |s.calls| <= d < |t.calls| ==> t.calls[d].pc.Entering?
    requires c < |s.calls| ==>
      && !s.calls[c].pc.Opened? && !s.calls[c].pc.Closing? && !t.calls[c].pc.Opened? && !t.calls[c].pc.Closing?
      && (t.calls[c].pc.Seen? ==> t.calls[c].pc.existing == Find(t.clients, t.calls[c].key))
    ensures Placed(t)
  {
    forall r | 0 <= r < |t.places| ensures PlaceHolds(t, r) { assert PlaceHolds(s, r); }
  }

  lemma OpenPlaced(s: State, c: nat, lucky: bool, kind: Kind)
    requires Can(s, Open(c, lucky, kind)) && Placed(s)
    ensures Placed(After(s, Open(c, lucky, kind)))
  {
    var t := After(s, Open(c, lucky, kind));
    forall r | 0 <= r < |t.places| ensures PlaceHolds(t, r) { if r < |s.places| { assert PlaceHolds(s, r); } }
  }

  lemma ClosePlaced(s: State, c: nat)
    requires Can(s, Close(c)) && Placed(s)
    ensures Placed(After(s, Close(c)))
  {
    var t, mine := After(s, Close(c)), s.calls[c].pc.reader.id;
    assert PlaceHolds(s, mine);
    forall r | 0 <= r < |t.places| ensures PlaceHolds(t, r) { assert PlaceHolds(s, r); }
  }

  /// Nobody else who knows what is there for the key of `c` is about to act on
  /// it.
  ghost predicate Alone(s: State, c: nat)
    requires c < |s.calls|
  {
    forall d :: 0 <= d < |s.calls| && d != c && (s.calls[d].pc.Seen? || s.calls[d].pc.Opened?) ==> s.calls[d].key != s.calls[c].key
  }

  lemma HolderIsAlone(s: State, c: nat)
    requires Counted(s) && Excluded(s) && c < |s.calls| && (s.calls[c].pc.Seen? || s.calls[c].pc.Opened?)
    ensures Alone(s, c)
  {
    forall d | 0 <= d < |s.calls| && (s.calls[d].pc.Seen? || s.calls[d].pc.Opened?) && s.calls[d].key == s.calls[c].key ensures d == c {
      assert Holds(s, c, s.calls[c].pc.e) && Holds(s, d, s.calls[d].pc.e);
      HoldersDiffer(s, c, d);
    }
  }

  lemma RemovePlaced(s: State, c: nat)
    requires Can(s, Remove(c)) && Placed(s) && Alone(s, c)
    ensures Placed(After(s, Remove(c)))
  {
    var t := After(s, Remove(c));
    if s.calls[c].pc.existing.Some? { assert PlaceHolds(s, s.calls[c].pc.existing.value.id); }
    forall r | 0 <= r < |t.places| ensures PlaceHolds(t, r) { assert PlaceHolds(s, r); }
  }

  /// The reader `c` opened and the one it replaces.
  lemma PublishKnows(s: State, c: nat)
    requires Can(s, Publish(c)) && Placed(s)
    ensures var pc := s.calls[c].pc;
      && s.places[pc.reader.id] == New(c) && s.closes[pc.reader.id] == 0
      && pc.existing == Find(s.clients, s.calls[c].key)
      && (pc.existing.Some? ==>
            var was := pc.existing.value.id;
            was < |s.places| && was != pc.reader.id && s.places[was] == InMap(s.calls[c].key) && s.closes[was] == 0)
  {
    assert PlaceHolds(s, s.calls[c].pc.reader.id);
    if s.calls[c].pc.existing.Some? { assert PlaceHolds(s, s.calls[c].pc.existing.value.id); }
  }

  lemma PublishHolds(s: State, c: nat, r: nat)
    requires Can(s, Publish(c)) && Placed(s) && r < |s.places|
    ensures var t := After(s, Publish(c)); |t.places| == |t.closes| == |s.places| && PlaceHolds(t, r)
  {
    hide Informed, Listed, InHand;
    PublishKnows(s, c);
    assert PlaceHolds(s, r);
  }

  lemma PublishPlaced(s: State, c: nat)
    requires Can(s, Publish(c)) && Placed(s) && Alone(s, c)
    ensures Placed(After(s, Publish(c)))
  {
    hide PlaceHolds;
    var t := After(s, Publish(c));
    PublishKnows(s, c);
    assert Informed(t) by { hide Listed, InHand; }
    assert Listed(t) by { hide Informed, InHand; }
    assert InHand(t) by { hide Informed, Listed; }
    forall r | 0 <= r < |t.places| ensures PlaceHolds(t, r) { PublishHolds(s, c, r); }
  }

  lemma PlacedKept(s: State, a: Act)
    requires Can(s, a) && Counted(s) && Excluded(s) && Placed(s)
    ensures Placed(After(s, a))
  {
    hide Placed, Excluded, Counted, Alone;
    match a
    case Begin(_, _) => PlacedSame(s, After(s, a), |s.calls|);
    case Open(c, lucky, kind) => OpenPlaced(s, c, lucky, kind);
    case Close(c) => ClosePlaced(s, c);
    case Remove(c) => HolderIsAlone(s, c); RemovePlaced(s, c);
    case Publish(c) => HolderIsAlone(s, c); PublishPlaced(s, c);
    case Enter(c) => PlacedSame(s, After(s, a), c);
    case Leave(c) => PlacedSame(s, After(s, a), c);
    case _ => PlacedSame(s, After(s, a), a.c);
  }

  lemma {:induction false} InvHolds(trace: seq<State>)
    requires Run(trace)
    ensures var s := trace[|trace| - 1]; Counted(s) && Excluded(s) && Placed(s)
  {
    if |trace| > 1 {
      hide Counted, Excluded, Placed;
      var n := |trace| - 1;
      InvHolds(trace[..n]);
      assert Step(trace[n - 1], trace[n]);
      var a :| Can(trace[n - 1], a) && trace[n] == After(trace[n - 1], a);
      CountedKept(trace[n - 1], a);
      ExcludedKept(trace[n - 1], a);
      PlacedKept(trace[n - 1], a);
    }
  }

  /// In every run: at most one call holds a key, and the map has an entry for a
  /// key exactly while some call uses it.
  lemma MutexIsExact(trace: seq<State>)
    requires Run(trace)
    ensures var s := trace[|trace| - 1];
      && (forall c, d, e, f :: Holds(s, c, e) && Holds(s, d, f) && s.calls[c].key == s.calls[d].key ==> c == d)
      && (forall k :: k in s.entries <==> exists c, e :: Uses(s, c, e) && s.calls[c].key == k)
  {
    InvHolds(trace);
    var s := trace[|trace| - 1];
    forall c, d, e, f | Holds(s, c, e) && Holds(s, d, f) && s.calls[c].key == s.calls[d].key ensures c == d {
      assert Uses(s, c, e) && Uses(s, d, f);
    }
    forall k | k in s.entries ensures exists c, e :: Uses(s, c, e) && s.calls[c].key == k {
      var e := s.entries[k];
      assert |Users(s, e)| > 0;
      var c :| c in Users(s, e);
      assert s.entries[s.calls[c].key] == e;
    }
  }

  /// In every run, a reader was closed at most once, and never while it is
  /// known; and when no call is under way, each reader ever opened is either
  /// the one known for its key or was closed exactly once.
  lemma NoReaderIsLost(trace: seq<State>)
    requires Run(trace)
    ensures var s := trace[|trace| - 1];
      && |s.places| == |s.closes|
      && (forall k :: k in s.clients ==> s.clients[k].id < |s.closes| && s.closes[s.clients[k].id] == 0)
      && (forall r :: 0 <= r < |s.closes| ==> s.closes[r] <= 1)
      && ((forall c :: 0 <= c < |s.calls| ==> s.calls[c].pc.Out?) ==>
            forall r :: 0 <= r < |s.closes| ==> (s.closes[r] == 1 <==> forall k :: k in s.clients ==> s.clients[k].id != r))
  {
    InvHolds(trace);
    var s := trace[|trace| - 1];
    forall k | k in s.clients ensures s.closes[s.clients[k].id] == 0 { assert PlaceHolds(s, s.clients[k].id); }
    forall r | 0 <= r < |s.closes| ensures s.closes[r] <= 1 { assert PlaceHolds(s, r); }
    if forall c :: 0 <= c < |s.calls| ==> s.calls[c].pc.Out? {
      forall r | 0 <= r < |s.closes| ensures s.closes[r] == 1 <==> forall k :: k in s.clients ==> s.clients[k].id != r {
        assert PlaceHolds(s, r);
      }
    }
  }
}
