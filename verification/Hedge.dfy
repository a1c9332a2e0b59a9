/// `chatmessage.Create`: hedged attempts to create one document.
module Hedge {
  import opened Wrappers

  const MAX_ATTEMPTS := 3

  /// The status an attempt ends with. `Transient` stands for the four codes
  /// that are tried again, `Fatal` for all others.
  datatype Code = OK | AlreadyExists | Transient | Fatal

  datatype Error = Attempt(code: Code) | ContextDone

  datatype Event = Result(attempt: nat, code: Code) | HedgeDue | RetryDue | Cancelled

  /// One call of `Create`, and the document. An attempt takes effect once or
  /// not at all, at any moment while it is under way or after. It is assumed
  /// that an attempt ends with AlreadyExists only if another write created the
  /// document, and not because the client library had sent its own request
  /// twice; `creator` is the
  /// attempt that created the document, if one of this call did.
  class Write {
    var started: nat
    var inFlight: set<nat>
    var retry: bool  // the retry timer is armed
    var hedge: bool  // the hedge timer is armed
    var present: bool
    var creator: Option<nat>
    ghost var before: bool  // the document existed before the call

    ghost predicate Valid()
      reads this
    {
      && started <= MAX_ATTEMPTS && (forall a :: a in inFlight ==> a < started) && |inFlight| <= started
      && (creator.Some? ==> present && creator.value < started && !before)
      && (before ==> present)
    }

    /// What `select` can wait for: without it, the call would block for ever.
    ghost predicate Wakes()
      reads this
    {
      inFlight != {} || (retry && started < MAX_ATTEMPTS)
    }

    constructor (already: bool)
      ensures Valid() && started == 0 && inFlight == {} && !retry && creator == None && before == present == already
    {
      started, inFlight, retry, hedge, present, creator, before := 0, {}, false, false, already, None, already;
    }

    method Launch()
      requires Valid() && started < MAX_ATTEMPTS && started !in inFlight
      modifies this`started, this`inFlight
      ensures Valid() && started == old(started) + 1 && inFlight == old(inFlight) + {old(started)}
    {
      inFlight := inFlight + {started};
      started := started + 1;
    }

    /// Others may create the document, and so may any attempt made so far.
    method Interfere()
      requires Valid()
      modifies this`present, this`creator
      ensures Valid() && (old(present) ==> present && creator == old(creator))
    {
      var a: nat := *;
      if * {
        if !present && a < started { present, creator := true, Some(a); }
      } else if * {
        present := true;
      }
    }

    /// What the runtime delivers: the result of an attempt under way, a timer
    /// that is armed, or the end of the context.
    method Next() returns (e: Event)
      requires Valid() && Wakes()
      modifies this`present, this`creator
      ensures Valid() && (old(present) ==> present && creator == old(creator))
      ensures match e
        case Result(a, code) =>
          && a in inFlight
          && (code.OK? ==> creator == Some(a)) && (code.AlreadyExists? ==> present && creator != Some(a))
        case HedgeDue => hedge
        case RetryDue => retry
        case Cancelled => true
    {
      Interfere();
      e := *;
      match e
      case Result(a, code) =>
        if a !in inFlight || (code.OK? && !(present && creator == Some(a))) || (code.AlreadyExists? && !(present && creator != Some(a))) {
          e := Cancelled;
        }
      case HedgeDue => if !hedge { e := Cancelled; }
      case RetryDue => if !retry { e := Cancelled; }
      case Cancelled =>
    }

    /// `Create`. It starts at most three attempts and always has something to
    /// wait for. It reports success only if the document exists, and a
    /// duplicate only if no attempt of this call created it; and it gives up on
    /// transient failures only when all three attempts failed or it was cancelled.
    method Create() returns (duplicate: bool, err: Option<Error>, ghost cancelled: bool)
      requires Valid() && started == 0 && inFlight == {} && !retry && creator == None
      modifies this
      ensures Valid() && 1 <= started <= MAX_ATTEMPTS
      ensures err.None? ==> present
      ensures duplicate ==> err.None? && creator == None
      ensures err == Some(Attempt(Transient)) ==> cancelled || (started == MAX_ATTEMPTS && inFlight == {})
    {
      duplicate, err, cancelled := false, None, false;
      Launch();
      hedge := true;
      while true
        invariant Valid() && Wakes() && started >= 1
        invariant started == 1 ==> inFlight <= {0}
        invariant err.None? || err == Some(Attempt(Transient))
        decreases MAX_ATTEMPTS - started, |inFlight|, retry, hedge
      {
        var e := Next();
        match e
        case Result(attempt, code) =>
          inFlight := inFlight - {attempt};
          match code {
            case OK => return false, None, cancelled;
            case AlreadyExists => return started == 1, None, cancelled;
            case Fatal => return false, Some(Attempt(Fatal)), cancelled;
            case Transient => err := Some(Attempt(Transient));
          }
          var done: bool := *;
          cancelled := cancelled || done;
          if !done && started < MAX_ATTEMPTS {
            retry := true;
          } else if inFlight == {} {
            return false, err, cancelled;
          }
        case HedgeDue =>
          if started < MAX_ATTEMPTS { Launch(); } else { hedge := false; }
        case RetryDue =>
          retry := false;
          if started < MAX_ATTEMPTS {
            Launch();
            hedge := true;
          }
        case Cancelled =>
          if err.None? { err := Some(ContextDone); }
          return false, err, true;
      }
    }
  }
}
