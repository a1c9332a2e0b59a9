/// Reconciling a broadcaster's Twitch subscriptions: `reconcileTwitch` and
/// `removeTwitch`.
module Reconcile {
  import opened Wrappers

  datatype Key = Broadcaster | Moderator | ToBroadcaster | FromBroadcaster | OtherKey(name: string)

  type Condition = map<Key, string>

  datatype Kind =
    | Follow | Subscribe | Gift | Resubscribe | SubscriptionEnd | Cheer | Raid | Ban | Unban
    | RedemptionAdd | RedemptionUpdate | PollBegin | PollProgress | PollEnd
    | PredictionBegin | PredictionProgress | PredictionLock | PredictionEnd
    | HypeTrainBegin | HypeTrainProgress | HypeTrainEnd
    | ChannelUpdate | StreamOnline | StreamOffline | ShoutoutCreate | ShoutoutReceive
    | OtherKind(name: string)

  const KINDS := [
    Follow, Subscribe, Gift, Resubscribe, SubscriptionEnd, Cheer, Raid, Ban, Unban,
    RedemptionAdd, RedemptionUpdate, PollBegin, PollProgress, PollEnd,
    PredictionBegin, PredictionProgress, PredictionLock, PredictionEnd,
    HypeTrainBegin, HypeTrainProgress, HypeTrainEnd,
    ChannelUpdate, StreamOnline, StreamOffline, ShoutoutCreate, ShoutoutReceive]

  datatype Wanted = Wanted(kind: Kind, version: string, condition: Condition)

  datatype Status = Enabled | Pending | Failed

  /// `own`: delivered to one of our webhook callbacks.
  datatype Sub = Sub(kind: Kind, version: string, status: Status, condition: Condition, own: bool)

  predicate Active(s: Sub) { !s.status.Failed? }

  function Get(c: Condition, key: Key): string { if key in c then c[key] else "" }

  /// A condition without its empty fields.
  function Normal(c: Condition): Condition { map key | key in c && c[key] != "" :: c[key] }

  /// One of the two loops of `sameCondition`.
  method Covered(a: Condition, b: Condition) returns (r: bool)
    ensures r <==> forall key :: key in a && a[key] != "" ==> Get(b, key) == a[key]
  {
    var left := a.Keys;
    while left != {}
      invariant left <= a.Keys
      invariant forall key :: key in a && key !in left && a[key] != "" ==> Get(b, key) == a[key]
      decreases left
    {
      var key :| key in left;
      left := left - {key};
      if a[key] != "" && Get(b, key) != a[key] { return false; }
    }
    return true;
  }

  /// `sameCondition`: equal once empty fields are dropped, so it is an
  /// equivalence.
  method SameCondition(a: Condition, b: Condition) returns (r: bool)
    ensures r <==> Normal(a) == Normal(b)
  {
    r := Covered(a, b);
    if r { r := Covered(b, a); }
    NormalEqual(a, b);
  }

  lemma NormalEqual(a: Condition, b: Condition)
    ensures Normal(a) == Normal(b) <==>
      && (forall key :: key in a && a[key] != "" ==> Get(b, key) == a[key])
      && (forall key :: key in b && b[key] != "" ==> Get(a, key) == b[key])
  {
    if Normal(a) == Normal(b) {
      forall key | key in a && a[key] != "" ensures Get(b, key) == a[key] { assert key in Normal(a); assert key in Normal(b); }
      forall key | key in b && b[key] != "" ensures Get(a, key) == b[key] { assert key in Normal(b); assert key in Normal(a); }
    }
  }

  /// What makes two entries the same subscription.
  predicate SameTopic(a: Wanted, b: Wanted) {
    a.kind == b.kind && a.version == b.version && Normal(a.condition) == Normal(b.condition)
  }

  predicate Matches(s: Sub, w: Wanted) { SameTopic(Wanted(s.kind, s.version, s.condition), w) }

  function WantedOf(kind: Kind, id: string): seq<Wanted> {
    if kind.Raid? then [Wanted(Raid, "1", map[ToBroadcaster := id]), Wanted(Raid, "1", map[FromBroadcaster := id])]
    else if kind.Follow? then [Wanted(kind, "2", map[Broadcaster := id, Moderator := id])]
    else if kind.ShoutoutCreate? || kind.ShoutoutReceive? then [Wanted(kind, "1", map[Broadcaster := id, Moderator := id])]
    else [Wanted(kind, "1", map[Broadcaster := id])]
  }

  function AllWanted(kinds: seq<Kind>, id: string): seq<Wanted> {
    if kinds == [] then [] else AllWanted(kinds[..|kinds| - 1], id) + WantedOf(kinds[|kinds| - 1], id)
  }

  /// `twitchConditions`.
  method Conditions(id: string) returns (wanted: seq<Wanted>)
    ensures wanted == AllWanted(KINDS, id)
  {
    wanted := [];
    for i := 0 to |KINDS|
      invariant wanted == AllWanted(KINDS[..i], id)
    {
      assert KINDS[..i + 1][..i] == KINDS[..i];
      wanted := wanted + WantedOf(KINDS[i], id);
    }
    assert KINDS[..|KINDS|] == KINDS;
  }

  ghost predicate Distinct(wanted: seq<Wanted>) {
    forall i, j :: 0 <= i < j < |wanted| ==> !SameTopic(wanted[i], wanted[j])
  }

  ghost predicate DistinctKinds(kinds: seq<Kind>) { forall i, j :: 0 <= i < j < |kinds| ==> kinds[i] != kinds[j] }

  function Rank(kind: Kind): nat {
    match kind
    case Follow => 0 case Subscribe => 1 case Gift => 2 case Resubscribe => 3 case SubscriptionEnd => 4 case Cheer => 5
    case Raid => 6 case Ban => 7 case Unban => 8 case RedemptionAdd => 9 case RedemptionUpdate => 10 case PollBegin => 11
    case PollProgress => 12 case PollEnd => 13 case PredictionBegin => 14 case PredictionProgress => 15 case PredictionLock => 16
    case PredictionEnd => 17 case HypeTrainBegin => 18 case HypeTrainProgress => 19 case HypeTrainEnd => 20 case ChannelUpdate => 21
    case StreamOnline => 22 case StreamOffline => 23 case ShoutoutCreate => 24 case ShoutoutReceive => 25 case _ => 26
  }

  lemma KindsAreDistinct()
    ensures DistinctKinds(KINDS)
  {
    assert forall i :: 0 <= i < |KINDS| ==> Rank(KINDS[i]) == i;
  }

  lemma {:induction false} KindsOfWanted(kinds: seq<Kind>, id: string)
    ensures forall w :: w in AllWanted(kinds, id) ==> w.kind in kinds
  {
    if kinds != [] { KindsOfWanted(kinds[..|kinds| - 1], id); }
  }

  lemma {:induction false} WantedIsDistinct(kinds: seq<Kind>, id: string)
    requires DistinctKinds(kinds) && id != ""
    ensures Distinct(AllWanted(kinds, id))
  {
    if kinds != [] {
      var n := |kinds| - 1;
      WantedIsDistinct(kinds[..n], id);
      KindsOfWanted(kinds[..n], id);
      var first, last := AllWanted(kinds[..n], id), WantedOf(kinds[n], id);
      assert kinds[n] !in kinds[..n];
      forall w, v | w in first && v in last ensures !SameTopic(w, v) { assert w.kind in kinds[..n]; }
      if kinds[n].Raid? {
        assert ToBroadcaster in Normal(last[0].condition) && ToBroadcaster !in Normal(last[1].condition);
      }
    }
  }

  /// No two wanted entries are the same subscription, except that without an id
  /// raids in both directions are.
  lemma DistinctIff(id: string)
    ensures Distinct(AllWanted(KINDS, id)) <==> id != ""
  {
    KindsAreDistinct();
    if id != "" {
      WantedIsDistinct(KINDS, id);
    } else {
      RaidsAt(id);
    }
  }

  lemma RaidsAt(id: string)
    ensures var w := AllWanted(KINDS, id); |w| >= 8 && w[6..8] == WantedOf(Raid, id)
    ensures id == "" ==> !Distinct(AllWanted(KINDS, id))
  {
    var w := AllWanted(KINDS, id);
    PrefixOfWanted(KINDS, 7, id);
    assert KINDS[..7] == [Follow, Subscribe, Gift, Resubscribe, SubscriptionEnd, Cheer, Raid];
    SingleWanted(KINDS[..6], id);
    assert KINDS[..7][..6] == KINDS[..6];
    assert AllWanted(KINDS[..7], id)[6..8] == WantedOf(Raid, id);
    if id == "" { assert SameTopic(w[6], w[7]); }
  }

  lemma {:induction false} SingleWanted(kinds: seq<Kind>, id: string)
    requires Raid !in kinds
    ensures |AllWanted(kinds, id)| == |kinds|
  {
    if kinds != [] { SingleWanted(kinds[..|kinds| - 1], id); }
  }

  lemma {:induction false} PrefixOfWanted(kinds: seq<Kind>, n: nat, id: string)
    requires n <= |kinds|
    ensures AllWanted(kinds[..n], id) <= AllWanted(kinds, id)
  {
    if n < |kinds| {
      PrefixOfWanted(kinds[..|kinds| - 1], n, id);
      assert kinds[..|kinds| - 1][..n] == kinds[..n];
    } else {
      assert kinds[..n] == kinds;
    }
  }

  /// The subscriptions of one broadcaster at the provider. Ids stand in the
  /// order in which the provider lists them.
  type Store = map<int, Sub>

  /// No active subscription is what `w` wants.
  predicate Vacant(subs: Store, w: Wanted) { forall id :: id in subs && Matches(subs[id], w) ==> !Active(subs[id]) }

  datatype Reply = Okay | Missing | Exists | NoScope | CostFull | Rejected | OutOfBudget | RateLimited | Broken

  /// `purge` tells the deletions of `removeTwitch` from those of a reconcile.
  datatype Request = List | Post(w: Wanted) | Delete(id: int, purge: bool)

  datatype Event = Event(sent: Request, before: Store, after: Store)

  /// How the rest of the world behaves while the lease is held. `alone`: nobody
  /// else creates subscriptions. `calm`: no active subscription is lost.
  datatype Others = Others(alone: bool, calm: bool)

  /// A POST adds nothing beside an active match, and a DELETE removes nothing
  /// foreign, nor anything active unless the broadcaster is being removed.
  ghost predicate Safe(e: Event) {
    match e.sent
    case List => e.after == e.before
    case Post(w) => e.after == e.before || (Vacant(e.before, w) && exists id, s :: Adds(e, id, s) && Matches(s, w))
    case Delete(id, purge) =>
      && (e.after == e.before || e.after == e.before - {id})
      && (id in e.before ==> e.before[id].own && (purge || !Active(e.before[id])))
  }

  ghost predicate Adds(e: Event, id: int, s: Sub) { id !in e.before && e.after == e.before[id := s] }

  ghost predicate Single(subs: Store, w: Wanted) {
    forall a, b :: a in subs && b in subs && Matches(subs[a], w) && Matches(subs[b], w) && Active(subs[a]) && Active(subs[b]) ==> a == b
  }

  /// So no request ever makes a second active match of anything.
  lemma NeverTwo(e: Event, w: Wanted)
    requires Safe(e) && Single(e.before, w)
    ensures Single(e.after, w)
  {
    if e.sent.Post? && e.after != e.before {
      var id, s :| Adds(e, id, s) && Matches(s, e.sent.w);
      assert Matches(s, w) ==> Vacant(e.before, w);
    }
  }

  predicate SameBut(now: Sub, was: Sub) { was.(status := now.status) == now && (Active(now) ==> Active(was)) }

  /// Between two requests subscriptions are verified, fail, or disappear.
  predicate Drifts(a: Store, b: Store, used: set<int>, o: Others) {
    && (forall id :: id in b && id in a ==> SameBut(b[id], a[id]))
    && (forall id :: id in b && id !in a ==> !o.alone && id !in used)
    && (o.calm ==> forall id :: id in a && Active(a[id]) ==> id in b && Active(b[id]))
  }

  datatype Entry = Entry(id: int, sub: Sub)

  /// Everything, once, in order.
  predicate Whole(list: seq<Entry>, subs: Store) {
    && (forall i :: 0 <= i < |list| ==> list[i].id in subs && subs[list[i].id] == list[i].sub)
    && (forall id :: id in subs ==> exists i :: 0 <= i < |list| && list[i].id == id)
    && (forall i, j :: 0 <= i < j < |list| ==> list[i].id < list[j].id)
  }

  /// What is still there of a listing is the same, and was not revived.
  ghost predicate Reflects(subs: Store, used: set<int>, list: seq<Entry>) {
    forall i :: 0 <= i < |list| ==> list[i].id in used && (list[i].id in subs ==> SameBut(subs[list[i].id], list[i].sub))
  }

  /// What was listed active still is, unless active subscriptions get lost.
  ghost predicate Lasts(subs: Store, list: seq<Entry>, o: Others) {
    o.calm ==> forall i :: 0 <= i < |list| && Active(list[i].sub) ==> list[i].id in subs && Active(subs[list[i].id])
  }

  ghost predicate Lists(list: seq<Entry>, id: int) { exists i :: 0 <= i < |list| && list[i].id == id }

  /// Whatever matches `w` was listed.
  ghost predicate Known(subs: Store, list: seq<Entry>, w: Wanted) {
    forall id :: id in subs && Matches(subs[id], w) ==> Lists(list, id)
  }

  ghost predicate HasActive(subs: Store, w: Wanted) { exists m :: m in subs && Matches(subs[m], w) && Active(subs[m]) }

  ghost predicate FirstActive(subs: Store, w: Wanted, m: int) {
    m in subs && Matches(subs[m], w) && Active(subs[m]) && forall id :: id in subs && id < m ==> !Matches(subs[id], w)
  }

  /// The first subscription listed for `w` is active.
  ghost predicate Ready(subs: Store, w: Wanted) { exists m :: FirstActive(subs, w, m) }

  /// What a clean pass leaves for `w`.
  ghost predicate Settled(subs: Store, w: Wanted, o: Others) { o.calm ==> HasActive(subs, w) && (o.alone ==> Ready(subs, w)) }

  lemma ReadyHasActive(subs: Store, w: Wanted)
    requires Ready(subs, w)
    ensures HasActive(subs, w)
  {
    var m :| FirstActive(subs, w, m);
  }

  lemma DriftKeeps(a: Store, b: Store, used: set<int>, o: Others, list: seq<Entry>, w: Wanted)
    requires Drifts(a, b, used, o)
    ensures Reflects(a, used, list) ==> Reflects(b, used, list)
    ensures Lasts(a, list, o) ==> Lasts(b, list, o)
    ensures o.alone && Known(a, list, w) ==> Known(b, list, w)
    ensures o.alone && Vacant(a, w) ==> Vacant(b, w)
    ensures Settled(a, w, o) ==> Settled(b, w, o)
  {
    if o.calm && HasActive(a, w) {
      var m :| m in a && Matches(a[m], w) && Active(a[m]);
      assert m in b && Matches(b[m], w);
    }
    if o.calm && o.alone && Ready(a, w) {
      var m :| FirstActive(a, w, m);
      assert FirstActive(b, w, m);
    }
  }

  lemma DropKeeps(a: Store, id: int, used: set<int>, o: Others, list: seq<Entry>, w: Wanted)
    requires id in a ==> !Active(a[id])
    ensures var b := a - {id};
      && (Reflects(a, used, list) ==> Reflects(b, used, list)) && (Lasts(a, list, o) ==> Lasts(b, list, o)) && (Known(a, list, w) ==> Known(b, list, w))
      && (Vacant(a, w) ==> Vacant(b, w)) && (Settled(a, w, o) ==> Settled(b, w, o))
  {
    var b := a - {id};
    if m :| m in a && Matches(a[m], w) && Active(a[m]) { assert m in b; }
    if m :| FirstActive(a, w, m) { assert FirstActive(b, w, m); }
  }

  /// A new subscription for another topic.
  lemma AddKeeps(a: Store, id: int, sub: Sub, used: set<int>, o: Others, list: seq<Entry>, w: Wanted)
    requires id !in used && a.Keys <= used && !Matches(sub, w)
    ensures var b := a[id := sub];
      && (Reflects(a, used, list) ==> Reflects(b, used, list)) && (Lasts(a, list, o) ==> Lasts(b, list, o)) && (Known(a, list, w) ==> Known(b, list, w))
      && (Settled(a, w, o) ==> Settled(b, w, o))
  {
    var b := a[id := sub];
    if m :| m in a && Matches(a[m], w) && Active(a[m]) { assert m in b; }
    if m :| FirstActive(a, w, m) { assert FirstActive(b, w, m); }
  }

  /// A new subscription where nothing matched.
  lemma AddSettles(a: Store, id: int, sub: Sub, o: Others, list: seq<Entry>, w: Wanted)
    requires Matches(sub, w) && Active(sub) && id !in a
    requires o.alone ==> forall x :: x in a ==> !Matches(a[x], w)
    ensures Settled(a[id := sub], w, o)
  {
    var b := a[id := sub];
    assert id in b;
    if o.alone { assert FirstActive(b, w, id); }
  }

  /// Replies to a POST after which the pass goes on.
  predicate Answered(r: Reply) { r.Okay? || r.Exists? || r.NoScope? || r.CostFull? || r.Rejected? }

  class Provider {
    const o: Others
    var subs: Store
    var used: set<int>
    ghost var log: seq<Event>
    /// How many requests failed.
    ghost var faults: nat

    /// While the lease excludes other creators, every request so far was safe.
    ghost predicate Valid()
      reads this
    {
      subs.Keys <= used && (o.alone ==> forall i :: 0 <= i < |log| ==> Safe(log[i]))
    }

    constructor (subs: Store, o: Others)
      ensures Valid() && this.subs == subs && this.o == o && log == []
    {
      this.subs, this.used, this.log, this.o, this.faults := subs, subs.Keys, [], o, 0;
    }

    method Interfere()
      requires Valid()
      modifies this`subs, this`used
      ensures Valid() && Drifts(old(subs), subs, old(used), o) && old(used) <= used
    {
      var b: Store := *;
      if Drifts(subs, b, used, o) { subs, used := b, used + b.Keys; }
    }

    /// `listTwitch`.
    method ListAll() returns (list: seq<Entry>, ok: bool)
      requires Valid()
      modifies this
      ensures Valid() && Drifts(old(subs), subs, old(used), o) && old(used) <= used && log == old(log) + [Event(List, subs, subs)]
      ensures ok ==> Whole(list, subs)
      ensures faults == if ok then old(faults) else old(faults) + 1
    {
      Interfere();
      list := *;
      ok := Whole(list, subs);
      faults := if ok then faults else faults + 1;
      log := log + [Event(List, subs, subs)];
    }

    /// A DELETE may take effect although it is reported failed.
    method Remove(id: int, purge: bool) returns (reply: Reply, ghost mid: Store)
      requires Valid() && id in used && (id in subs ==> subs[id].own && (purge || !Active(subs[id])))
      modifies this
      ensures Valid() && old(used) <= used && log == old(log) + [Event(Delete(id, purge), mid, subs)]
      ensures Drifts(old(subs), mid, old(used), o) && mid.Keys <= used && (subs == mid || subs == mid - {id})
      ensures id in mid && !purge ==> !Active(mid[id])
      ensures reply.Okay? || reply.Missing? ==> id !in subs
      ensures faults == if reply.Okay? || reply.Missing? then old(faults) else old(faults) + 1
    {
      Interfere();
      mid := subs;
      reply := *;
      if reply.Missing? && id in subs { reply := Broken; }
      var lost: bool := *;
      if reply.Okay? || lost { subs := subs - {id}; }
      faults := if reply.Okay? || reply.Missing? then faults else faults + 1;
      log := log + [Event(Delete(id, purge), mid, subs)];
    }

    /// A POST may take effect although it is reported failed; it is refused as
    /// existing only when an active match exists.
    method Create(w: Wanted) returns (reply: Reply, ghost mid: Store, ghost seen: set<int>, ghost added: Option<Entry>)
      requires Valid() && (o.alone ==> Vacant(subs, w))
      modifies this
      ensures Valid() && old(used) <= used && log == old(log) + [Event(Post(w), mid, subs)]
      ensures Drifts(old(subs), mid, old(used), o) && old(used) <= seen && mid.Keys <= seen
      ensures added.None? ==> subs == mid && used == seen
      ensures added.Some? ==>
        && subs == mid[added.value.id := added.value.sub] && added.value.id !in seen && used == seen + {added.value.id}
        && Active(added.value.sub) && Matches(added.value.sub, w)
      ensures reply.Okay? ==> added.Some?
      ensures added.Some? ==> reply.Okay? || reply.Broken?
      ensures reply.Exists? ==> added.None? && HasActive(subs, w) && !o.alone
      ensures faults == if Answered(reply) then old(faults) else old(faults) + 1
    {
      Interfere();
      DriftKeeps(old(subs), subs, old(used), o, [], w);
      mid, seen, added := subs, used, None;
      var id: int := *;
      var condition: Condition := *;
      if Normal(condition) != Normal(w.condition) { condition := w.condition; }
      reply := *;
      if reply.Exists? && Vacant(subs, w) { reply := Broken; }
      var lost: bool := *;
      if reply.Okay? || (reply.Broken? && lost) {
        if id in used {
          reply := Broken;
        } else {
          var sub := Sub(w.kind, w.version, Pending, condition, true);
          added := Some(Entry(id, sub));
          subs, used := subs[id := sub], used + {id};
          assert Adds(Event(Post(w), mid, subs), id, sub);
        }
      }
      faults := if Answered(reply) then faults else faults + 1;
      log := log + [Event(Post(w), mid, subs)];
    }
  }

  /// Where a pass stands after `n` wanted entries; `clean` if none was skipped
  /// or held.
  ghost predicate Progress(subs: Store, used: set<int>, list: seq<Entry>, wanted: seq<Wanted>, n: nat, o: Others, clean: bool) {
    && subs.Keys <= used && Reflects(subs, used, list) && Lasts(subs, list, o)
    && (o.alone ==> forall k :: n <= k < |wanted| ==> Known(subs, list, wanted[k]))
    && (clean ==> forall k :: 0 <= k < n && k < |wanted| ==> Settled(subs, wanted[k], o))
  }

  lemma ProgressDrifts(a: Store, b: Store, used: set<int>, used': set<int>, list: seq<Entry>, wanted: seq<Wanted>, n: nat, o: Others, clean: bool)
    requires Progress(a, used, list, wanted, n, o, clean) && Drifts(a, b, used, o) && used <= used' && b.Keys <= used'
    ensures Progress(b, used', list, wanted, n, o, clean)
  {
    hide Known, Settled, Lasts, Drifts;
    assert Reflects(b, used, list) by { DriftKeeps(a, b, used, o, list, Wanted(Raid, "", map[])); }
    assert Lasts(b, list, o) by { DriftKeeps(a, b, used, o, list, Wanted(Raid, "", map[])); }
    forall k | 0 <= k < |wanted|
      ensures (o.alone && Known(a, list, wanted[k]) ==> Known(b, list, wanted[k])) && (Settled(a, wanted[k], o) ==> Settled(b, wanted[k], o))
    {
      DriftKeeps(a, b, used, o, list, wanted[k]);
    }
  }

  lemma ProgressDrops(a: Store, id: int, used: set<int>, list: seq<Entry>, wanted: seq<Wanted>, n: nat, o: Others, clean: bool)
    requires Progress(a, used, list, wanted, n, o, clean) && (id in a ==> !Active(a[id]))
    ensures Progress(a - {id}, used, list, wanted, n, o, clean)
  {
    hide Known, Settled, Lasts, Reflects;
    DropKeeps(a, id, used, o, list, Wanted(Raid, "", map[]));
    forall k | 0 <= k < |wanted|
      ensures (Known(a, list, wanted[k]) ==> Known(a - {id}, list, wanted[k])) && (Settled(a, wanted[k], o) ==> Settled(a - {id}, wanted[k], o))
    {
      DropKeeps(a, id, used, o, list, wanted[k]);
    }
  }

  /// Creating what entry `n` wants leaves the others as they are.
  lemma ProgressAdds(a: Store, e: Entry, used: set<int>, list: seq<Entry>, wanted: seq<Wanted>, n: nat, o: Others, clean: bool)
    requires Progress(a, used, list, wanted, n, o, clean) && Distinct(wanted) && n < |wanted|
    requires e.id !in used && Active(e.sub) && Matches(e.sub, wanted[n])
    requires o.alone ==> forall x :: x in a ==> !Matches(a[x], wanted[n])
    ensures Progress(a[e.id := e.sub], used + {e.id}, list, wanted, n + 1, o, clean)
  {
    hide Known, Settled, Lasts, SameTopic;
    var b := a[e.id := e.sub];
    forall k | 0 <= k < |wanted| && k != n
      ensures (Known(a, list, wanted[k]) ==> Known(b, list, wanted[k])) && (Settled(a, wanted[k], o) ==> Settled(b, wanted[k], o))
    {
      OtherTopic(e.sub, wanted, n, k);
      AddKeeps(a, e.id, e.sub, used, o, list, wanted[k]);
    }
    AddSettles(a, e.id, e.sub, o, list, wanted[n]);
    assert Lasts(b, list, o) by { AddLasts(a, e.id, e.sub, list, o); }
  }

  lemma AddLasts(a: Store, id: int, sub: Sub, list: seq<Entry>, o: Others)
    requires Lasts(a, list, o) && id !in a
    ensures Lasts(a[id := sub], list, o)
  {}

  lemma OtherTopic(sub: Sub, wanted: seq<Wanted>, n: nat, k: nat)
    requires Distinct(wanted) && n < |wanted| && k < |wanted| && n != k && Matches(sub, wanted[n])
    ensures !Matches(sub, wanted[k])
  {
    if k < n { assert !SameTopic(wanted[k], wanted[n]); } else { assert !SameTopic(wanted[n], wanted[k]); }
  }

  /// Every listed match is ours.
  ghost predicate Unopposed(list: seq<Entry>, w: Wanted) {
    forall i :: 0 <= i < |list| && Matches(list[i].sub, w) ==> list[i].sub.own
  }

  /// The first listed match is active.
  ghost predicate Quiet(list: seq<Entry>, w: Wanted) {
    exists i :: 0 <= i < |list| && Matches(list[i].sub, w) && Active(list[i].sub) && forall j :: 0 <= j < i ==> !Matches(list[j].sub, w)
  }

  ghost predicate Sorted(list: seq<Entry>) { forall i, j :: 0 <= i < j < |list| ==> list[i].id < list[j].id }

  method Same(sub: Sub, w: Wanted) returns (r: bool)
    ensures r <==> Matches(sub, w)
  {
    if sub.kind != w.kind || sub.version != w.version { return false; }
    r := SameCondition(sub.condition, w.condition);
  }

  /// The check before any request that changes something.
  method Conflicts(list: seq<Entry>, wanted: seq<Wanted>) returns (r: bool)
    ensures r <==> exists k :: 0 <= k < |wanted| && !Unopposed(list, wanted[k])
  {
    for k := 0 to |wanted|
      invariant forall m :: 0 <= m < k ==> Unopposed(list, wanted[m])
    {
      for i := 0 to |list|
        invariant forall j :: 0 <= j < i && Matches(list[j].sub, wanted[k]) ==> list[j].sub.own
      {
        var same := Same(list[i].sub, wanted[k]);
        if same && !list[i].sub.own { return true; }
      }
    }
    return false;
  }

  /// No listed match before `i` is left.
  ghost predicate Gone(subs: Store, list: seq<Entry>, w: Wanted, i: nat) {
    forall j :: 0 <= j < i && j < |list| && Matches(list[j].sub, w) ==> !Active(list[j].sub) && list[j].id !in subs
  }

  lemma FoundSettles(subs: Store, used: set<int>, list: seq<Entry>, w: Wanted, i: nat, o: Others)
    requires Reflects(subs, used, list) && Lasts(subs, list, o) && (o.alone ==> Known(subs, list, w))
    requires Sorted(list) && i < |list| && Gone(subs, list, w, i) && Matches(list[i].sub, w) && Active(list[i].sub)
    ensures Settled(subs, w, o)
  {
    if o.calm {
      assert list[i].id in subs;
      if o.alone {
        forall id | id in subs && Matches(subs[id], w) ensures id >= list[i].id {
          var j :| 0 <= j < |list| && list[j].id == id;
          assert Matches(list[j].sub, w);
        }
        assert FirstActive(subs, w, list[i].id);
      }
    }
  }

  lemma GoneIsVacant(subs: Store, used: set<int>, list: seq<Entry>, w: Wanted)
    requires Reflects(subs, used, list) && Known(subs, list, w) && Gone(subs, list, w, |list|)
    ensures forall id :: id in subs ==> !Matches(subs[id], w)
  {}

  lemma GoneDrifts(a: Store, b: Store, used: set<int>, o: Others, list: seq<Entry>, w: Wanted, i: nat)
    requires Gone(a, list, w, i) && Drifts(a, b, used, o) && Reflects(a, used, list)
    ensures Gone(b, list, w, i)
  {}

  /// The loop of `reconcileTwitch` over what was listed for one entry: failed
  /// subscriptions are deleted until an active one is found.
  method Clear(p: Provider, list: seq<Entry>, ghost wanted: seq<Wanted>, ghost n: nat, w: Wanted, ghost clean: bool) returns (found: bool, ok: bool)
    requires p.Valid() && n < |wanted| && w == wanted[n] && Sorted(list) && Unopposed(list, w)
    requires Progress(p.subs, p.used, list, wanted, n, p.o, clean)
    modifies p
    ensures p.Valid() && Progress(p.subs, p.used, list, wanted, n, p.o, clean) && old(p.log) <= p.log
    ensures ok && found ==> Settled(p.subs, w, p.o)
    ensures ok && !found ==> Gone(p.subs, list, w, |list|)
    ensures Quiet(list, w) ==> ok && found && p.log == old(p.log)
    ensures if ok then p.faults == old(p.faults) else p.faults > old(p.faults)
  {
    hide Progress, Drifts, Settled, Lasts, Known;
    for i := 0 to |list|
      invariant p.Valid() && Progress(p.subs, p.used, list, wanted, n, p.o, clean) && old(p.log) <= p.log
      invariant Gone(p.subs, list, w, i) && p.faults == old(p.faults)
      invariant Quiet(list, w) ==> p.log == old(p.log) && forall j :: 0 <= j < i ==> !Matches(list[j].sub, w)
    {
      var same := Same(list[i].sub, w);
      if same {
        ProgressAt(p.subs, p.used, list, wanted, n, p.o, clean);
        if Active(list[i].sub) {
          FoundSettles(p.subs, p.used, list, w, i, p.o);
          return true, true;
        }
        ghost var before, used := p.subs, p.used;
        var reply, mid := p.Remove(list[i].id, false);
        ProgressDrifts(before, mid, used, p.used, list, wanted, n, p.o, clean);
        GoneDrifts(before, mid, used, p.o, list, w, i);
        ProgressDrops(mid, list[i].id, p.used, list, wanted, n, p.o, clean);
        if !reply.Okay? && !reply.Missing? { return false, false; }
      }
    }
    return false, true;
  }

  lemma ProgressAt(subs: Store, used: set<int>, list: seq<Entry>, wanted: seq<Wanted>, n: nat, o: Others, clean: bool)
    requires Progress(subs, used, list, wanted, n, o, clean) && n < |wanted|
    ensures Reflects(subs, used, list) && Lasts(subs, list, o) && (o.alone ==> Known(subs, list, wanted[n]))
  {}

  lemma ProgressNext(subs: Store, used: set<int>, list: seq<Entry>, wanted: seq<Wanted>, n: nat, o: Others, clean: bool, next: bool)
    requires Progress(subs, used, list, wanted, n, o, clean) && n < |wanted| && (next ==> clean && Settled(subs, wanted[n], o))
    ensures Progress(subs, used, list, wanted, n + 1, o, next)
  {}

  datatype Result = Result(created: nat, skipped: seq<Kind>, held: seq<Kind>) {
    predicate Clean() { skipped == [] && held == [] }
  }

  /// Creates one missing entry.
  method Fill(p: Provider, list: seq<Entry>, ghost wanted: seq<Wanted>, ghost n: nat, w: Wanted, was: Result) returns (r: Result, ok: bool)
    requires p.Valid() && Distinct(wanted) && n < |wanted| && w == wanted[n] && Gone(p.subs, list, w, |list|)
    requires Progress(p.subs, p.used, list, wanted, n, p.o, was.Clean())
    modifies p
    ensures p.Valid() && old(p.log) <= p.log
    ensures ok ==> Progress(p.subs, p.used, list, wanted, n + 1, p.o, r.Clean())
    ensures if ok then p.faults == old(p.faults) else p.faults > old(p.faults)
  {
    hide Progress, Drifts, Settled, Lasts, Known, Gone;
    r, ok := was, true;
    ProgressAt(p.subs, p.used, list, wanted, n, p.o, was.Clean());
    if p.o.alone { GoneIsVacant(p.subs, p.used, list, w); }
    ghost var before, used := p.subs, p.used;
    var reply, mid, seen, added := p.Create(w);
    ProgressDrifts(before, mid, used, seen, list, wanted, n, p.o, was.Clean());
    if added.Some? {
      GoneDrifts(before, mid, used, p.o, list, w, |list|);
      ProgressAt(mid, seen, list, wanted, n, p.o, was.Clean());
      if p.o.alone { GoneIsVacant(mid, seen, list, w); }
      ProgressAdds(mid, added.value, seen, list, wanted, n, p.o, was.Clean());
    }
    match reply
    case Okay => r := r.(created := r.created + 1);
    case Exists =>
      assert Settled(p.subs, w, p.o) by { ActiveSettles(p.subs, w, p.o); }
      ProgressNext(p.subs, p.used, list, wanted, n, p.o, was.Clean(), was.Clean());
    case NoScope =>
      r := r.(skipped := r.skipped + [w.kind]);
      ProgressNext(p.subs, p.used, list, wanted, n, p.o, was.Clean(), false);
    case CostFull =>
      r := r.(held := r.held + [w.kind]);
      ProgressNext(p.subs, p.used, list, wanted, n, p.o, was.Clean(), false);
    case Rejected =>
      r := r.(skipped := r.skipped + [w.kind]);
      ProgressNext(p.subs, p.used, list, wanted, n, p.o, was.Clean(), false);
    case _ => ok := false;
  }

  lemma ActiveSettles(subs: Store, w: Wanted, o: Others)
    requires HasActive(subs, w) && !o.alone
    ensures Settled(subs, w, o)
  {}

  /// Every wanted entry is active, or the first listed is, as far as others
  /// leave them so.
  ghost predicate AllSettled(subs: Store, id: string, o: Others) {
    forall w :: w in AllWanted(KINDS, id) ==> Settled(subs, w, o)
  }

  ghost predicate AllReady(subs: Store, id: string) { forall w :: w in AllWanted(KINDS, id) ==> Ready(subs, w) }

  /// Something wanted is delivered to a foreign callback.
  ghost predicate Opposed(subs: Store, id: string) {
    exists w, x :: w in AllWanted(KINDS, id) && x in subs && Matches(subs[x], w) && !subs[x].own
  }

  /// `reconcileTwitch`. After a pass without an error, with nothing skipped or
  /// held, every wanted entry is active; and a pass over such a state only
  /// lists. It ends with an error only if a request failed, or if something
  /// wanted is delivered elsewhere, in which case it changed nothing.
  method Pass(p: Provider, id: string) returns (r: Result, ok: bool)
    requires p.Valid() && id != ""
    modifies p
    ensures p.Valid() && old(p.log) <= p.log
    ensures ok && r.Clean() ==> AllSettled(p.subs, id, p.o)
    ensures !ok && p.faults == old(p.faults) ==> Opposed(p.subs, id) && |p.log| == |old(p.log)| + 1 && p.log[|old(p.log)|].sent.List?
    ensures ok ==> p.faults == old(p.faults)
    ensures p.o.alone && p.o.calm && old(AllReady(p.subs, id)) ==> |p.log| == |old(p.log)| + 1 && p.log[|old(p.log)|].sent.List?
  {
    hide Progress, Drifts, Settled, Quiet, Provider.Valid, AllWanted, Ready, Whole, Opposed, Unopposed;
    r, ok := Result(0, [], []), false;
    var list, listed := p.ListAll();
    if !listed { return; }
    ghost var subs := p.subs;
    var wanted := Conditions(id);
    DistinctIff(id);
    if p.o.alone && p.o.calm && old(AllReady(p.subs, id)) { ReadyIsQuiet(old(p.subs), subs, old(p.used), p.o, list, wanted); }
    var conflict := Conflicts(list, wanted);
    if conflict {
      ConflictOpposes(p.subs, list, wanted, id);
      return;
    }
    ProgressStarts(p, list, wanted);
    ghost var quiet := forall w :: w in wanted ==> Quiet(list, w);
    ghost var listLog := p.log;
    for n := 0 to |wanted|
      invariant p.Valid() && listLog <= p.log
      invariant Progress(p.subs, p.used, list, wanted, n, p.o, r.Clean())
      invariant p.faults == old(p.faults)
      invariant quiet ==> p.log == listLog
    {
      assert wanted[n] in wanted;
      var found, cleared := Clear(p, list, wanted, n, wanted[n], r.Clean());
      if !cleared { return; }
      if found {
        ProgressNext(p.subs, p.used, list, wanted, n, p.o, r.Clean(), r.Clean());
      } else {
        var filled: bool;
        r, filled := Fill(p, list, wanted, n, wanted[n], r);
        if !filled { return; }
      }
    }
    ok := true;
    ProgressEnds(p.subs, p.used, list, wanted, p.o, r.Clean());
  }

  lemma ConflictOpposes(subs: Store, list: seq<Entry>, wanted: seq<Wanted>, id: string)
    requires Whole(list, subs) && wanted == AllWanted(KINDS, id) && exists k :: 0 <= k < |wanted| && !Unopposed(list, wanted[k])
    ensures Opposed(subs, id)
  {
    hide AllWanted;
    var k :| 0 <= k < |wanted| && !Unopposed(list, wanted[k]);
    var i :| 0 <= i < |list| && Matches(list[i].sub, wanted[k]) && !list[i].sub.own;
    assert wanted[k] in wanted && list[i].id in subs;
  }

  lemma ProgressStarts(p: Provider, list: seq<Entry>, wanted: seq<Wanted>)
    requires p.Valid() && Whole(list, p.subs)
    ensures Progress(p.subs, p.used, list, wanted, 0, p.o, true) && Sorted(list)
  {}

  lemma ProgressEnds(subs: Store, used: set<int>, list: seq<Entry>, wanted: seq<Wanted>, o: Others, clean: bool)
    requires Progress(subs, used, list, wanted, |wanted|, o, clean)
    ensures clean ==> forall w :: w in wanted ==> Settled(subs, w, o)
  {}

  lemma ReadyIsQuiet(a: Store, b: Store, used: set<int>, o: Others, list: seq<Entry>, wanted: seq<Wanted>)
    requires Drifts(a, b, used, o) && o.alone && o.calm && Whole(list, b)
    requires forall w :: w in wanted ==> Ready(a, w)
    ensures forall w :: w in wanted ==> Quiet(list, w)
  {
    forall w | w in wanted ensures Quiet(list, w) {
      ReadyHasActive(a, w);
      DriftKeeps(a, b, used, o, list, w);
      var m :| FirstActive(b, w, m);
      var i :| 0 <= i < |list| && list[i].id == m;
    }
  }

  /// So after a clean pass the next one sends neither a POST nor a DELETE.
  method PassTwice(p: Provider, id: string) returns (clean: bool, ghost first: seq<Event>)
    requires p.Valid() && id != "" && p.o.alone && p.o.calm
    modifies p
    ensures p.Valid() && first <= p.log
    ensures clean ==> |p.log| == |first| + 1 && p.log[|first|].sent.List?
  {
    var r, ok := Pass(p, id);
    first, clean := p.log, ok && r.Clean();
    if clean {
      var _, _ := Pass(p, id);
    }
  }

  /// `twitchTargets`.
  predicate Targets(sub: Sub, id: string) {
    Get(sub.condition, Broadcaster) == id || Get(sub.condition, ToBroadcaster) == id || Get(sub.condition, FromBroadcaster) == id
  }

  predicate Removable(sub: Sub, id: string) { sub.own && Targets(sub, id) }

  /// Everything wanted for a broadcaster is removed with them.
  lemma {:induction false} WantedTargets(kinds: seq<Kind>, id: string)
    requires id != ""
    ensures forall w, sub :: w in AllWanted(kinds, id) && Matches(sub, w) ==> Targets(sub, id)
  {
    if kinds != [] {
      WantedTargets(kinds[..|kinds| - 1], id);
      forall w, sub | w in WantedOf(kinds[|kinds| - 1], id) && Matches(sub, w) ensures Targets(sub, id) {
        var key := if ToBroadcaster in w.condition then ToBroadcaster else if FromBroadcaster in w.condition then FromBroadcaster else Broadcaster;
        assert key in Normal(w.condition);
        assert key in Normal(sub.condition) && sub.condition[key] == id;
      }
    }
  }

  /// What is left was listed, but nothing removable listed before `i` is.
  ghost predicate Purged(subs: Store, used: set<int>, list: seq<Entry>, i: nat, id: string, o: Others) {
    && Reflects(subs, used, list)
    && (o.alone ==> forall x :: x in subs ==> Lists(list, x))
    && (forall j :: 0 <= j < i && j < |list| && Removable(list[j].sub, id) ==> list[j].id !in subs)
  }

  lemma PurgedKeeps(a: Store, mid: Store, b: Store, used: set<int>, used': set<int>, list: seq<Entry>, i: nat, id: string, o: Others)
    requires Purged(a, used, list, i, id, o) && Drifts(a, mid, used, o) && used <= used' && i < |list|
    requires b == mid || b == mid - {list[i].id}
    ensures Purged(b, used', list, i, id, o)
  {}

  /// `removeTwitch`. Without an error nothing at our callbacks is left for the
  /// broadcaster; where nothing is, it only lists.
  method RemoveAll(p: Provider, id: string) returns (deleted: nat, ok: bool)
    requires p.Valid()
    modifies p
    ensures p.Valid() && old(p.log) <= p.log
    ensures ok && p.o.alone ==> forall x :: x in p.subs ==> !Removable(p.subs[x], id)
    ensures if ok then p.faults == old(p.faults) else p.faults > old(p.faults)
    ensures p.o.alone && old(forall x :: x in p.subs ==> !Removable(p.subs[x], id)) ==>
              deleted == 0 && |p.log| == |old(p.log)| + 1 && p.log[|old(p.log)|].sent.List?
  {
    hide Drifts, Reflects, Provider.Valid;
    deleted, ok := 0, false;
    var list, listed := p.ListAll();
    if !listed { return; }
    ghost var none := p.o.alone && forall x :: x in old(p.subs) ==> !Removable(old(p.subs)[x], id);
    PurgeStarts(old(p.subs), p, list, id, old(p.used));
    ghost var listLog := p.log;
    for i := 0 to |list|
      invariant p.Valid() && listLog <= p.log && p.faults == old(p.faults) && (none ==> p.log == listLog && deleted == 0)
      invariant Purged(p.subs, p.used, list, i, id, p.o)
    {
      if Removable(list[i].sub, id) {
        ListedIsOwn(p.subs, p.used, list, i);
        ghost var before, used := p.subs, p.used;
        var reply, mid := p.Remove(list[i].id, true);
        PurgedKeeps(before, mid, p.subs, used, p.used, list, i, id, p.o);
        if reply.Okay? { deleted := deleted + 1; } else if !reply.Missing? { return; }
      }
    }
    ok := true;
    NoneLeft(p.subs, p.used, list, id, p.o);
  }

  lemma PurgeStarts(a: Store, p: Provider, list: seq<Entry>, id: string, used: set<int>)
    requires p.Valid() && Whole(list, p.subs) && Drifts(a, p.subs, used, p.o)
    ensures Purged(p.subs, p.used, list, 0, id, p.o)
    ensures p.o.alone && (forall x :: x in a ==> !Removable(a[x], id)) ==> forall i :: 0 <= i < |list| ==> !Removable(list[i].sub, id)
  {}

  lemma ListedIsOwn(subs: Store, used: set<int>, list: seq<Entry>, i: nat)
    requires Reflects(subs, used, list) && i < |list| && list[i].sub.own
    ensures list[i].id in used && (list[i].id in subs ==> subs[list[i].id].own)
  {}

  lemma NoneLeft(subs: Store, used: set<int>, list: seq<Entry>, id: string, o: Others)
    requires Purged(subs, used, list, |list|, id, o)
    ensures o.alone ==> forall x :: x in subs ==> !Removable(subs[x], id)
  {}
}
