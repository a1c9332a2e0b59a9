/// One EventSub request with its retries, and the paged listing.
module Api {
  import opened Wrappers

  const MAX_ATTEMPTS := 4

  datatype Method = GET | POST | DELETE

  /// What one attempt gets back: nothing, or a status. `decodes` tells whether
  /// the body of a success can be read, and `items` how many subscriptions it
  /// lists; `costFull` a 429 that names the cost limit; `patient` that the delay
  /// asked for is at most 30 seconds.
  datatype Reply = Lost | Status(code: nat, decodes: bool, items: nat, costFull: bool, patient: bool)

  /// One attempt as the world plays it: whether the pacer let it go, what came
  /// back, whether an ambiguous reply hides an effect, whether the context was
  /// cancelled, and whether the pause before the next one was slept through.
  datatype Try = Try(paced: bool, reply: Reply, took: bool, cancelled: bool, slept: bool)

  type Tries = t: seq<Try> | |t| == MAX_ATTEMPTS witness seq(MAX_ATTEMPTS, _ => Try(false, Lost, false, false, false))

  datatype Failure = Failure(uncertain: bool, costLimit: bool)

  datatype Outcome = Done(items: nat) | Undecoded | Failed(f: Failure)

  predicate Success(r: Reply) { r.Status? && 200 <= r.code < 300 }

  /// The provider may have done what was asked although the reply does not say
  /// so. Any other error status is a refusal.
  predicate Ambiguous(r: Reply) { r.Lost? || r.code >= 500 }

  /// A success took effect, a refusal did not, and after an ambiguous reply
  /// either is possible.
  predicate Takes(t: Try) { Success(t.reply) || (Ambiguous(t.reply) && t.took) }

  /// How a request ends, how many attempts were sent, and how many took effect.
  datatype End = End(outcome: Outcome, sent: nat, applied: nat)

  function Give(uncertain: bool, sent: nat, applied: nat): End { End(Failed(Failure(uncertain, false)), sent, applied) }

  /// `API.request` from attempt `i` on.
  function Rest(m: Method, tries: Tries, i: nat, uncertain: bool, applied: nat): End
    requires i <= MAX_ATTEMPTS
    decreases MAX_ATTEMPTS - i
  {
    if i == MAX_ATTEMPTS || !tries[i].paced then Give(uncertain, i, applied)
    else
      var t, sent, now := tries[i], i + 1, if Takes(tries[i]) then applied + 1 else applied;
      if t.reply.Lost? then
        if m.POST? || i == 3 || t.cancelled || !t.slept then Give(uncertain || !m.GET?, sent, now)
        else Rest(m, tries, sent, uncertain || !m.GET?, now)
      else if Success(t.reply) then End(if t.reply.decodes || m.DELETE? then Done(t.reply.items) else Undecoded, sent, now)
      else if t.reply.code == 404 && m.DELETE? then End(Done(0), sent, now)
      else if t.reply.code == 429 && m.POST? && t.reply.costFull then End(Failed(Failure(uncertain, true)), sent, now)
      else
        var doubt := uncertain || (!m.GET? && t.reply.code >= 500);
        if i < 3 && (t.reply.code == 429 || (t.reply.code >= 500 && !m.POST?)) && t.reply.patient && t.slept then Rest(m, tries, sent, doubt, now)
        else Give(doubt, sent, now)
  }

  /// `API.request`.
  method Request(m: Method, tries: Tries) returns (end: End)
    ensures end == Rest(m, tries, 0, false, 0)
  {
    var uncertain, applied := false, 0;
    for attempt := 0 to MAX_ATTEMPTS
      invariant Rest(m, tries, 0, false, 0) == Rest(m, tries, attempt, uncertain, applied)
    {
      var t := tries[attempt];
      if !t.paced { return End(Failed(Failure(uncertain, false)), attempt, applied); }
      if Takes(t) { applied := applied + 1; }
      var r := t.reply;
      if r.Lost? {
        if !m.GET? { uncertain := true; }
        if m.POST? || attempt == 3 || t.cancelled || !t.slept { return End(Failed(Failure(uncertain, false)), attempt + 1, applied); }
      } else if Success(r) {
        return End(if r.decodes || m.DELETE? then Done(r.items) else Undecoded, attempt + 1, applied);
      } else if r.code == 404 && m.DELETE? {
        return End(Done(0), attempt + 1, applied);
      } else if r.code == 429 && m.POST? && r.costFull {
        return End(Failed(Failure(uncertain, true)), attempt + 1, applied);
      } else {
        if !m.GET? && r.code >= 500 { uncertain := true; }
        if !(attempt < 3 && (r.code == 429 || (r.code >= 500 && !m.POST?)) && r.patient && t.slept) {
          return End(Failed(Failure(uncertain, false)), attempt + 1, applied);
        }
      }
    }
    return End(Failed(Failure(uncertain, false)), MAX_ATTEMPTS, applied);
  }

  /// What an end may be, for attempts from `i` on.
  ghost predicate Certain(m: Method, tries: Tries, i: nat, end: End) {
    && i <= end.sent <= MAX_ATTEMPTS && (m.POST? ==> end.applied <= 1)
    && (end.outcome.Done? && !m.DELETE? ==> end.applied >= 1)
    && (end.outcome.Undecoded? <==> i < end.sent && Success(tries[end.sent - 1].reply) && !tries[end.sent - 1].reply.decodes && !m.DELETE?)
    && (end.outcome.Undecoded? ==> end.applied >= 1)
    && (end.outcome.Failed? && !m.GET? && !end.outcome.f.uncertain ==> end.applied == 0)
    && (end.outcome.Failed? && end.outcome.f.costLimit ==> m.POST? && end.applied == 0)
  }

  /// What is known before attempt `i`.
  ghost predicate Known(m: Method, uncertain: bool, applied: nat) {
    (m.POST? ==> applied == 0 && !uncertain) && (!m.GET? && !uncertain ==> applied == 0)
  }

  lemma Later(m: Method, tries: Tries, i: nat, end: End)
    requires i < MAX_ATTEMPTS && Certain(m, tries, i + 1, end) && !Success(tries[i].reply)
    ensures Certain(m, tries, i, end)
  {}

  lemma {:induction false} RestIsCertain(m: Method, tries: Tries, i: nat, uncertain: bool, applied: nat)
    requires i <= MAX_ATTEMPTS && Known(m, uncertain, applied)
    ensures Certain(m, tries, i, Rest(m, tries, i, uncertain, applied))
    decreases MAX_ATTEMPTS - i
  {
    if i < MAX_ATTEMPTS && tries[i].paced {
      var t, now := tries[i], if Takes(tries[i]) then applied + 1 else applied;
      if t.reply.Lost? {
        if !(m.POST? || i == 3 || t.cancelled || !t.slept) { Again(m, tries, i, uncertain || !m.GET?, now); }
      } else if !Success(t.reply) && !(t.reply.code == 404 && m.DELETE?) && !(t.reply.code == 429 && m.POST? && t.reply.costFull) {
        var doubt := uncertain || (!m.GET? && t.reply.code >= 500);
        if i < 3 && (t.reply.code == 429 || (t.reply.code >= 500 && !m.POST?)) && t.reply.patient && t.slept {
          Again(m, tries, i, doubt, now);
        }
      }
    }
  }

  lemma {:induction false} Again(m: Method, tries: Tries, i: nat, uncertain: bool, applied: nat)
    requires i < MAX_ATTEMPTS && Known(m, uncertain, applied) && !Success(tries[i].reply)
    ensures Certain(m, tries, i, Rest(m, tries, i + 1, uncertain, applied))
    decreases MAX_ATTEMPTS - i, 0
  {
    hide Certain, Rest;
    RestIsCertain(m, tries, i + 1, uncertain, applied);
    Later(m, tries, i, Rest(m, tries, i + 1, uncertain, applied));
  }

  /// However the world plays: at most four attempts; a POST takes effect at most
  /// once; and a failure that is not reported uncertain had no effect, a cost
  /// limit included. A body that cannot be read is neither: it comes only from
  /// a success, which took effect.
  lemma RequestIsCertain(m: Method, tries: Tries)
    ensures Certain(m, tries, 0, Rest(m, tries, 0, false, 0))
  {
    hide Rest, Certain;
    assert Known(m, false, 0);
    RestIsCertain(m, tries, 0, false, 0);
  }

  /// What `API.Create` returns: the one subscription, or an error that is plain
  /// unless the request's own failure was uncertain.
  datatype Created = One | Err(uncertain: bool)

  method Create(tries: Tries) returns (created: Created, end: End)
    ensures end == Rest(POST, tries, 0, false, 0) && created == CreatedOf(end)
  {
    end := Request(POST, tries);
    match end.outcome
    case Failed(f) => created := Err(f.uncertain);
    case Undecoded => created := Err(false);
    case Done(items) => created := if items != 1 then Err(false) else One;
  }

  function CreatedOf(end: End): Created {
    match end.outcome
    case Failed(f) => Err(f.uncertain)
    case Undecoded => Err(false)
    case Done(items) => if items == 1 then One else Err(false)
  }

  /// The last reply was a success that cannot be read, or does not list exactly
  /// one subscription.
  predicate Garbled(tries: Tries, end: End) {
    0 < end.sent <= MAX_ATTEMPTS && Success(tries[end.sent - 1].reply)
    && (!tries[end.sent - 1].reply.decodes || tries[end.sent - 1].reply.items != 1)
  }

  /// A creation that took effect is reported as a plain error exactly after a
  /// success whose body does not say what was created. Otherwise a plain error
  /// means that nothing was.
  lemma HiddenIff(tries: Tries)
    ensures var end := Rest(POST, tries, 0, false, 0);
      CreatedOf(end) == Err(false) && end.applied > 0 <==> Garbled(tries, end)
  {
    hide Rest;
    RequestIsCertain(POST, tries);
    DoneIsSuccess(tries, 0, false, 0);
  }

  /// A plain end has the success it speaks of as its last reply.
  ghost predicate Told(tries: Tries, i: nat, end: End) {
    && i <= end.sent <= MAX_ATTEMPTS
    && (end.outcome.Done? ==> i < end.sent && Success(tries[end.sent - 1].reply) && tries[end.sent - 1].reply.decodes
                              && tries[end.sent - 1].reply.items == end.outcome.items)
    && (i < end.sent && Success(tries[end.sent - 1].reply) ==> !end.outcome.Failed?)
  }

  lemma {:induction false} DoneIsSuccess(tries: Tries, i: nat, uncertain: bool, applied: nat)
    requires i <= MAX_ATTEMPTS
    ensures Told(tries, i, Rest(POST, tries, i, uncertain, applied))
    decreases MAX_ATTEMPTS - i
  {
    if i < MAX_ATTEMPTS && tries[i].paced && tries[i].reply.Status? && !Success(tries[i].reply) {
      var now := if Takes(tries[i]) then applied + 1 else applied;
      DoneIsSuccess(tries, i + 1, uncertain, now);
      DoneIsSuccess(tries, i + 1, true, now);
    }
  }

  /// Both happen: a body that cannot be read, and one that lists nothing.
  lemma HiddenCreations() returns (unread: Tries, empty: Tries)
    ensures var end := Rest(POST, unread, 0, false, 0);
      end.outcome.Undecoded? && end.applied == 1 && CreatedOf(end) == Err(false)
    ensures var end := Rest(POST, empty, 0, false, 0);
      end.outcome == Done(0) && end.applied == 1 && CreatedOf(end) == Err(false)
  {
    unread := seq(MAX_ATTEMPTS, _ => Try(true, Status(202, false, 1, false, true), false, false, true));
    empty := seq(MAX_ATTEMPTS, _ => Try(true, Status(202, true, 0, false, true), false, false, true));
  }

  datatype Sub = Sub(id: string, rest: string)

  /// One page, or a failed request.
  datatype Page = Page(data: Option<seq<Sub>>, cursor: string) | NoPage

  ghost predicate DistinctIds(subs: seq<Sub>) {
    forall i, j :: 0 <= i < j < |subs| ==> subs[i].id != subs[j].id
  }

  function Ids(subs: seq<Sub>): set<string> { set s | s in subs :: s.id }

  /// `API.List`, given the pages that the provider answers with: the first
  /// subscription of each id, in order, until a page names no next one. A
  /// cursor seen before ends it with an error; what was read is kept.
  method List(pages: seq<Page>) returns (all: seq<Sub>, ok: bool, read: nat)
    ensures read <= |pages| && DistinctIds(all)
    ensures forall k :: 0 <= k < read && pages[k].Page? && pages[k].data.Some? ==> forall s :: s in pages[k].data.value ==> s.id in Ids(all)
    ensures forall s :: s in all ==> exists k :: 0 <= k < read && pages[k].Page? && pages[k].data.Some? && s in pages[k].data.value
    ensures ok ==> read > 0 && pages[read - 1].Page? && pages[read - 1].cursor == "" && forall k :: 0 <= k < read ==> pages[k].Page? && pages[k].data.Some?
    ensures ok ==> forall i, j :: 0 <= i < j < read ==> pages[i].cursor != pages[j].cursor
  {
    all, ok, read := [], false, 0;
    var seen: set<string> := {};
    while read < |pages|
      invariant read <= |pages| && DistinctIds(all) && !ok
      invariant forall k :: 0 <= k < read ==> pages[k].Page? && pages[k].data.Some? && pages[k].cursor in seen && pages[k].cursor != ""
      invariant forall k :: 0 <= k < read ==> forall s :: s in pages[k].data.value ==> s.id in Ids(all)
      invariant forall s :: s in all ==> exists k :: 0 <= k < read && pages[k].Page? && pages[k].data.Some? && s in pages[k].data.value
      invariant forall i, j :: 0 <= i < j < read ==> pages[i].cursor != pages[j].cursor
      invariant forall c :: c in seen ==> exists k :: 0 <= k < read && pages[k].cursor == c
    {
      var page := pages[read];
      read := read + 1;
      if page.NoPage? || page.data.None? { return; }
      var merged := Merge(all, page.data.value);
      all := merged;
      if page.cursor == "" { return all, true, read; }
      if page.cursor in seen { return; }
      seen := seen + {page.cursor};
    }
  }

  method Merge(all: seq<Sub>, data: seq<Sub>) returns (merged: seq<Sub>)
    requires DistinctIds(all)
    ensures DistinctIds(merged) && all <= merged && Ids(merged) == Ids(all) + Ids(data)
    ensures forall s :: s in merged ==> s in all || s in data
  {
    merged := all;
    var ids := Ids(all);
    for i := 0 to |data|
      invariant DistinctIds(merged) && all <= merged && ids == Ids(merged) == Ids(all) + Ids(data[..i])
      invariant forall s :: s in merged ==> s in all || s in data
    {
      assert data[..i + 1] == data[..i] + [data[i]];
      assert Ids(data[..i + 1]) == Ids(data[..i]) + {data[i].id};
      if data[i].id !in ids {
        assert Ids(merged + [data[i]]) == Ids(merged) + {data[i].id};
        merged, ids := merged + [data[i]], ids + {data[i].id};
      }
    }
    assert data[..|data|] == data;
  }
}
