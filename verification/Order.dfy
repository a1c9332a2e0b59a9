/// `Snapshot.Order`: one group per broadcaster, most recently active first.
module Order {
  import opened EventSub

  datatype Group = Group(key: string, broadcaster: string, lastActive: int, subs: seq<Sub>)

  /// Go's `<` on strings.
  predicate StringLess(a: string, b: string) {
    b != [] && (a == [] || a[0] < b[0] || (a[0] == b[0] && StringLess(a[1..], b[1..])))
  }

  predicate SubBefore(a: Sub, b: Sub) { StringLess(a.id, b.id) }

  predicate GroupBefore(a: Group, b: Group) {
    if a.lastActive != b.lastActive then a.lastActive > b.lastActive
    else if (a.broadcaster == "") != (b.broadcaster == "") then b.broadcaster == ""
    else StringLess(a.key, b.key)
  }

  /// A strict weak order.
  ghost predicate Strict<T(!new)>(less: (T, T) -> bool) {
    && (forall x, y :: less(x, y) ==> !less(y, x))
    && (forall x, y, z :: less(x, z) ==> less(x, y) || less(y, z))
  }

  ghost predicate Sorted<T>(less: (T, T) -> bool, xs: seq<T>) {
    forall i, j :: 0 <= i < j < |xs| ==> !less(xs[j], xs[i])
  }

  function Insert<T>(less: (T, T) -> bool, x: T, xs: seq<T>): (r: seq<T>)
    ensures multiset(r) == multiset(xs) + multiset{x}
  {
    if xs == [] || less(x, xs[0]) then [x] + xs
    else
      assert xs == [xs[0]] + xs[1..];
      [xs[0]] + Insert(less, x, xs[1..])
  }

  /// What sort.Slice promises.
  function Sort<T>(less: (T, T) -> bool, xs: seq<T>): (r: seq<T>)
    ensures multiset(r) == multiset(xs)
  {
    if xs == [] then []
    else
      assert xs == [xs[0]] + xs[1..];
      Insert(less, xs[0], Sort(less, xs[1..]))
  }

  lemma {:induction false} InsertSorts<T(!new)>(less: (T, T) -> bool, x: T, xs: seq<T>)
    requires Strict(less) && Sorted(less, xs)
    ensures Sorted(less, Insert(less, x, xs))
  {
    var r := Insert(less, x, xs);
    if xs == [] {
    } else if less(x, xs[0]) {
      forall y | y in xs ensures !less(y, x) {
        assert y == xs[0] || !less(y, xs[0]);
      }
    } else {
      InsertSorts(less, x, xs[1..]);
      var tail := Insert(less, x, xs[1..]);
      forall y | y in tail ensures !less(y, xs[0]) {
        assert y in multiset(tail);
        assert y in multiset(xs[1..]) || y == x;
      }
    }
  }

  lemma {:induction false} SortSorts<T(!new)>(less: (T, T) -> bool, xs: seq<T>)
    requires Strict(less)
    ensures Sorted(less, Sort(less, xs))
  {
    if xs != [] {
      SortSorts(less, xs[1..]);
      InsertSorts(less, xs[0], Sort(less, xs[1..]));
    }
  }

  lemma {:induction false} StringLessAsym(a: string, b: string)
    requires StringLess(a, b)
    ensures !StringLess(b, a)
  {
    if a != [] && a[0] == b[0] { StringLessAsym(a[1..], b[1..]); }
  }

  lemma {:induction false} StringLessSplits(a: string, b: string, c: string)
    requires StringLess(a, c)
    ensures StringLess(a, b) || StringLess(b, c)
  {
    if a != [] && b != [] && a[0] == b[0] == c[0] { StringLessSplits(a[1..], b[1..], c[1..]); }
  }

  lemma OrdersAreStrict()
    ensures Strict(SubBefore) && Strict(GroupBefore)
  {
    forall a, b | SubBefore(a, b) ensures !SubBefore(b, a) { StringLessAsym(a.id, b.id); }
    forall a, b, c | SubBefore(a, c) ensures SubBefore(a, b) || SubBefore(b, c) { StringLessSplits(a.id, b.id, c.id); }
    forall a, b | GroupBefore(a, b) ensures !GroupBefore(b, a) {
      if StringLess(a.key, b.key) { StringLessAsym(a.key, b.key); }
    }
    forall a, b, c | GroupBefore(a, c) ensures GroupBefore(a, b) || GroupBefore(b, c) {
      if StringLess(a.key, c.key) { StringLessSplits(a.key, b.key, c.key); }
    }
  }

  /// Everything in a queue of groups.
  ghost function Content(queue: seq<Group>): multiset<Sub> {
    if queue == [] then multiset{} else multiset(queue[0].subs) + Content(queue[1..])
  }

  lemma {:induction false} ContentAppend(queue: seq<Group>, g: Group)
    ensures Content(queue + [g]) == Content(queue) + multiset(g.subs)
  {
    if queue != [] {
      assert (queue + [g])[1..] == queue[1..] + [g];
      ContentAppend(queue[1..], g);
    }
  }

  lemma ContentCons(g: Group, queue: seq<Group>)
    ensures Content([g] + queue) == multiset(g.subs) + Content(queue)
  {
    assert ([g] + queue)[1..] == queue;
  }

  lemma {:induction false} ContentSplit(queue: seq<Group>, i: nat)
    requires i < |queue|
    ensures Content(queue) == Content(queue[..i] + queue[i + 1..]) + multiset(queue[i].subs)
  {
    hide Content;
    var g, tail := queue[0], queue[1..];
    assert queue == [g] + tail;
    ContentCons(g, tail);
    if i == 0 {
      assert queue[..0] + queue[1..] == tail;
    } else {
      var short := tail[..i - 1] + tail[i..];
      ContentSplit(tail, i - 1);
      ContentCons(g, short);
      assert queue[..i] + queue[i + 1..] == [g] + short;
    }
  }

  lemma ContentUpdate(queue: seq<Group>, i: nat, g: Group, extra: multiset<Sub>)
    requires i < |queue| && multiset(g.subs) == multiset(queue[i].subs) + extra
    ensures Content(queue[i := g]) == Content(queue) + extra
  {
    ContentSplit(queue, i);
    ContentSplit(queue[i := g], i);
    assert queue[i := g][..i] + queue[i := g][i + 1..] == queue[..i] + queue[i + 1..];
  }

  lemma {:induction false} ContentInsert(less: (Group, Group) -> bool, g: Group, queue: seq<Group>)
    ensures Content(Insert(less, g, queue)) == Content(queue) + multiset(g.subs)
  {
    if queue == [] || less(g, queue[0]) {
      assert ([g] + queue)[1..] == queue;
    } else {
      var tail := Insert(less, g, queue[1..]);
      assert ([queue[0]] + tail)[1..] == tail;
      ContentInsert(less, g, queue[1..]);
    }
  }

  lemma {:induction false} ContentSort(less: (Group, Group) -> bool, queue: seq<Group>)
    ensures Content(Sort(less, queue)) == Content(queue)
  {
    if queue != [] {
      ContentSort(less, queue[1..]);
      ContentInsert(less, queue[0], Sort(less, queue[1..]));
    }
  }

  function Key(sub: Sub): string {
    if sub.desc.user == "" then "twitch-eventsub-" + sub.id else "twitch:" + sub.desc.user
  }

  ghost predicate Grouped(g: Group) {
    g.subs != [] && forall s :: s in g.subs ==> Key(s) == g.key && s.desc.user == g.broadcaster
  }

  ghost predicate DistinctKeys(groups: seq<Group>) {
    forall i, j :: 0 <= i < j < |groups| ==> groups[i].key != groups[j].key
  }

  ghost predicate Indexed(groups: seq<Group>, index: map<string, nat>) {
    && (forall key :: key in index ==> index[key] < |groups| && groups[index[key]].key == key)
    && (forall i :: 0 <= i < |groups| ==> groups[i].key in index && index[groups[i].key] == i)
  }

  /// One round of the first loop of `Order`.
  method Add(groups: seq<Group>, index: map<string, nat>, sub: Sub, activity: map<string, int>)
    returns (groups': seq<Group>, index': map<string, nat>)
    requires Indexed(groups, index) && forall i :: 0 <= i < |groups| ==> Grouped(groups[i])
    ensures Indexed(groups', index') && forall i :: 0 <= i < |groups'| ==> Grouped(groups'[i])
    ensures Content(groups') == Content(groups) + multiset{sub}
  {
    hide Content;
    var user, key := sub.desc.user, Key(sub);
    if key in index {
      var i := index[key];
      SameKey(groups[i].subs[0], sub);
      var g := groups[i].(subs := groups[i].subs + [sub]);
      ContentUpdate(groups, i, g, multiset{sub});
      assert Grouped(g);
      groups', index' := groups[i := g], index;
    } else {
      var g := Group(key, user, if user != "" && user in activity then activity[user] else 0, [sub]);
      ContentAppend(groups, g);
      groups', index' := groups + [g], index[key := |groups|];
    }
  }

  lemma NoContent()
    ensures Content([]) == multiset{}
  {}

  /// The first loop of `Order`.
  method Partition(plan: seq<Sub>, activity: map<string, int>) returns (groups: seq<Group>)
    ensures Content(groups) == multiset(plan) && DistinctKeys(groups)
    ensures forall i :: 0 <= i < |groups| ==> Grouped(groups[i])
  {
    hide Content, Grouped;
    var index: map<string, nat> := map[];
    groups := [];
    assert Content(groups) == multiset(plan[..0]) by { NoContent(); }
    for n := 0 to |plan|
      invariant Indexed(groups, index) && forall i :: 0 <= i < |groups| ==> Grouped(groups[i])
      invariant Content(groups) == multiset(plan[..n])
    {
      assert plan[..n + 1] == plan[..n] + [plan[n]];
      groups, index := Add(groups, index, plan[n], activity);
    }
    assert plan[..|plan|] == plan;
  }

  lemma SameKey(a: Sub, b: Sub)
    requires Key(a) == Key(b)
    ensures a.desc.user == b.desc.user
  {
    assert Key(a)[6] == (if a.desc.user == "" then '-' else ':');
    assert Key(b)[6] == (if b.desc.user == "" then '-' else ':');
    if a.desc.user != "" {
      assert Key(a)[7..] == a.desc.user && Key(b)[7..] == b.desc.user;
    }
  }

  method SortGroup(g: Group) returns (sorted: Group)
    requires Grouped(g)
    ensures Grouped(sorted) && sorted == g.(subs := sorted.subs) && Sorted(SubBefore, sorted.subs)
    ensures multiset(sorted.subs) == multiset(g.subs)
  {
    OrdersAreStrict();
    SortSorts(SubBefore, g.subs);
    sorted := g.(subs := Sort(SubBefore, g.subs));
    forall s | s in sorted.subs ensures s in g.subs { assert s in multiset(sorted.subs); }
    assert |multiset(sorted.subs)| == |multiset(g.subs)|;
  }

  /// Sorting keeps the keys apart.
  lemma {:induction false} InsertApart(less: (Group, Group) -> bool, g: Group, queue: seq<Group>)
    requires DistinctKeys(queue) && forall i :: 0 <= i < |queue| ==> queue[i].key != g.key
    ensures DistinctKeys(Insert(less, g, queue))
    ensures forall h :: h in Insert(less, g, queue) ==> h == g || h in queue
  {
    if queue != [] && !less(g, queue[0]) {
      var tail := queue[1..];
      InsertApart(less, g, tail);
      forall h | h in Insert(less, g, tail) ensures h.key != queue[0].key {
        if h != g { var k :| 0 <= k < |tail| && tail[k] == h; assert queue[k + 1] == h; }
      }
    }
  }

  lemma {:induction false} SortApart(less: (Group, Group) -> bool, queue: seq<Group>)
    requires DistinctKeys(queue)
    ensures DistinctKeys(Sort(less, queue))
  {
    if queue != [] {
      var tail := Sort(less, queue[1..]);
      SortApart(less, queue[1..]);
      forall i | 0 <= i < |tail| ensures tail[i].key != queue[0].key {
        assert tail[i] in multiset(tail);
        var k :| 0 <= k < |queue[1..]| && queue[1..][k] == tail[i];
        assert queue[k + 1] == tail[i];
      }
      InsertApart(less, queue[0], tail);
    }
  }

  /// `Snapshot.Order`: one group a broadcaster.
  method Arrange(plan: seq<Sub>, activity: map<string, int>) returns (queue: seq<Group>)
    ensures Content(queue) == multiset(plan) && Sorted(GroupBefore, queue) && DistinctKeys(queue)
    ensures forall g :: g in queue ==> Grouped(g) && Sorted(SubBefore, g.subs)
  {
    var groups := Partition(plan, activity);
    ghost var n := |groups|;
    for i := 0 to |groups|
      invariant Content(groups) == multiset(plan) && |groups| == n && DistinctKeys(groups)
      invariant forall k :: 0 <= k < |groups| ==> Grouped(groups[k])
      invariant forall k :: 0 <= k < i ==> Sorted(SubBefore, groups[k].subs)
    {
      var g := SortGroup(groups[i]);
      ContentUpdate(groups, i, g, multiset{});
      groups := groups[i := g];
    }
    OrdersAreStrict();
    queue := Sort(GroupBefore, groups);
    SortSorts(GroupBefore, groups);
    ContentSort(GroupBefore, groups);
    SortApart(GroupBefore, groups);
    forall g | g in queue ensures g in groups { assert g in multiset(queue); }
  }
}
