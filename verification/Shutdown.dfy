/** scripts/ui-walk/shutdown.ts: teardown that stops its resources once, retries the removal of files, and gives up at
    a deadline. Each method is what runs between two awaits; they may come in any order their guards allow. */
module Shutdown {
  import opened Outcomes

  datatype Event =
    | Started(removes: bool, automatic: bool)
    | StopResources(throws: bool)
    | StopServer
    | Ended(removes: bool, ok: bool)
    | RetryScheduled
    | Exhausted

  // ----- What may be seen

  /** What an observer of the events knows: is an attempt in flight, must it stop the resources next, is the retry timer
      set, and what has happened. */
  datatype Told = Told(inFlight: bool, owes: bool, waiting: bool, stopped: bool, removed: bool, failed: bool, exhausted: bool)

  const NOTHING := Told(false, false, false, false, false, false, false)

  function After(told: Told, e: Event): Told {
    match e
    case Started(_, _) => told.(inFlight := true, owes := !told.stopped, waiting := false)
    case StopResources(throws) => told.(owes := false, stopped := told.stopped || !throws)
    case StopServer => told
    case Ended(removes, ok) =>
      told.(inFlight := false, removed := told.removed || (removes && ok), failed := told.failed || (removes && !ok))
    case RetryScheduled => told.(waiting := true)
    case Exhausted => told.(exhausted := true, waiting := false)
  }

  /** One attempt at a time and none after the files are gone; an attempt stops the resources first, just when their stop
      was not begun; an automatic attempt comes from a scheduled retry; one surrender, only after a failure, and no retry
      after it. */
  predicate Allowed(told: Told, e: Event) {
    match e
    case Started(_, automatic) => !told.inFlight && !told.removed && (automatic ==> told.waiting)
    case StopResources(_) => told.inFlight && told.owes
    case StopServer => (told.inFlight || told.failed) && !told.owes
    case Ended(_, _) => told.inFlight && !told.owes
    case RetryScheduled => !told.inFlight && !told.waiting && told.failed && !told.exhausted && !told.removed
    case Exhausted => told.failed && !told.exhausted && !told.removed && !told.owes
  }

  function Seen(log: seq<Event>): Told { if log == [] then NOTHING else After(Seen(log[..|log| - 1]), log[|log| - 1]) }

  predicate Lawful(log: seq<Event>) {
    log == [] || (Lawful(log[..|log| - 1]) && Allowed(Seen(log[..|log| - 1]), log[|log| - 1]))
  }

  lemma {:induction false} OneMore(log: seq<Event>, e: Event)
    ensures Seen(log + [e]) == After(Seen(log), e)
    ensures Lawful(log + [e]) <==> Lawful(log) && Allowed(Seen(log), e)
  {
    assert (log + [e])[..|log|] == log;
  }

  // ----- What lawful events mean

  function Count(log: seq<Event>, e: Event): nat {
    if log == [] then 0 else Count(log[..|log| - 1], e) + if log[|log| - 1] == e then 1 else 0
  }

  /** How often `stopResources` was called. */
  function Calls(log: seq<Event>): nat {
    if log == [] then 0 else Calls(log[..|log| - 1]) + if log[|log| - 1].StopResources? then 1 else 0
  }

  lemma {:induction false} OnceAtMost(log: seq<Event>)
    requires Lawful(log)
    ensures Count(log, StopResources(false)) == (if Seen(log).stopped then 1 else 0)
    ensures Calls(log) == Count(log, StopResources(false)) + Count(log, StopResources(true))
    ensures Count(log, Exhausted) == (if Seen(log).exhausted then 1 else 0)
  {
    if log != [] {
      OnceAtMost(log[..|log| - 1]);
    }
  }

  lemma {:induction false} OwesNothing(log: seq<Event>)
    requires Lawful(log)
    ensures Seen(log).owes ==> Seen(log).inFlight && !Seen(log).stopped
  {
    if log != [] {
      OwesNothing(log[..|log| - 1]);
    }
  }

  /** An attempt began after a call of `stopResources` that threw. */
  predicate BegunAgain(log: seq<Event>) {
    log != [] && (BegunAgain(log[..|log| - 1]) || (log[|log| - 1].Started? && StopResources(true) in log[..|log| - 1]))
  }

  /** Between the methods of a shutdown no attempt is about to stop the resources. */
  predicate Settled(log: seq<Event>) { Lawful(log) && !Seen(log).owes }

  /** `stopResources` is called at most once just when no attempt begins after a call that threw instead of returning a
      promise: a promise is kept, also one that is rejected. */
  lemma {:induction false} CalledOnceUnlessItThrew(log: seq<Event>)
    requires Settled(log)
    ensures Calls(log) <= 1 <==> !BegunAgain(log)
  {
    CallsOwed(log);
  }

  lemma {:induction false} CallsOwed(log: seq<Event>)
    requires Lawful(log)
    ensures Calls(log) + (if Seen(log).owes then 1 else 0) <= 1 <==> !BegunAgain(log)
  {
    if log != [] {
      var before, e := log[..|log| - 1], log[|log| - 1];
      CallsOwed(before);
      OwesNothing(before);
      OnceAtMost(before);
      Threw(before);
    }
  }

  lemma {:induction false} Threw(log: seq<Event>)
    ensures StopResources(true) in log <==> Count(log, StopResources(true)) > 0
  {
    if log != [] {
      assert log == log[..|log| - 1] + [log[|log| - 1]];
      Threw(log[..|log| - 1]);
    }
  }

  /** The events of a shutdown whose first stop throws and is retried. */
  function RetriedLog(): seq<Event> {
    [Started(true, false), StopResources(true), StopServer] + [Ended(true, false), RetryScheduled] + [Started(true, true), StopResources(false)]
  }

  lemma {:induction false} RetriedCalls()
    ensures Calls(RetriedLog()) == 2
  {
    var a, b, c := [Started(true, false), StopResources(true), StopServer], [Ended(true, false), RetryScheduled], [Started(true, true), StopResources(false)];
    CallsOfPair(a[0], a[1]);
    CalledMore([a[0], a[1]], a[2]);
    CallsOfPair(b[0], b[1]);
    CallsOfPair(c[0], c[1]);
    hide Calls;
    assert [a[0], a[1]] + [a[2]] == a;
    CallsJoined(a, b);
    CallsJoined(a + b, c);
  }

  lemma {:induction false} CallsOfPair(d: Event, e: Event)
    ensures Calls([d, e]) == (if d.StopResources? then 1 else 0) + if e.StopResources? then 1 else 0
  {
    CalledMore([], d);
    CalledMore([d], e);
    assert [] + [d] == [d] && [d] + [e] == [d, e];
  }

  lemma {:induction false} CallsJoined(log: seq<Event>, more: seq<Event>)
    ensures Calls(log + more) == Calls(log) + Calls(more)
    decreases |more|
  {
    if more == [] {
      assert log + more == log;
    } else {
      assert (log + more)[..|log + more| - 1] == log + more[..|more| - 1];
      CallsJoined(log, more[..|more| - 1]);
    }
  }

  lemma {:induction false} CalledMore(log: seq<Event>, e: Event)
    ensures Calls(log + [e]) == Calls(log) + if e.StopResources? then 1 else 0
  {
    assert (log + [e])[..|log|] == log;
  }

  /** After the surrender nothing is scheduled or started on its own, and after a removal nothing starts at all. */
  lemma {:induction false} NothingFollows(log: seq<Event>, k: nat, j: nat)
    requires Lawful(log) && k < j < |log|
    ensures log[k] == Exhausted ==> log[j] != RetryScheduled && !(log[j].Started? && log[j].automatic)
    ensures log[k] == Ended(true, true) ==> !log[j].Started? && log[j] != RetryScheduled && log[j] != Exhausted
    decreases |log|
  {
    var before := log[..|log| - 1];
    if j < |log| - 1 {
      NothingFollows(before, k, j);
      assert before[k] == log[k] && before[j] == log[j];
    } else {
      Stays(before, k);
      assert before[k] == log[k];
    }
  }

  lemma {:induction false} Stays(log: seq<Event>, k: nat)
    requires Lawful(log) && k < |log|
    ensures log[k] == Exhausted ==> Seen(log).exhausted && !Seen(log).waiting
    ensures log[k] == Ended(true, true) ==> Seen(log).removed
    decreases |log|
  {
    if k < |log| - 1 {
      Stays(log[..|log| - 1], k);
      assert log[..|log| - 1][k] == log[k];
    }
  }

  // ----- The closures of createShutdown

  datatype Phase = Stopping | Removing | Over(ok: bool)

  datatype Attempt = Attempt(removes: bool, phase: Phase)

  datatype Resources = Stopped | Waiting | Broken

  class Shutdown {
    var resources: Option<Resources>
    var pending: Option<Attempt>
    var retry: bool
    var deadline: bool
    var completed: bool
    var expired: bool
    ghost var log: seq<Event>

    /** The events so far are lawful, the variables say what they told, and from the first failure on a deadline is
        set until the files are gone or it is over. */
    ghost predicate Valid()
      reads this
    {
      && Settled(log)
      && Seen(log).inFlight == pending.Some? && Seen(log).waiting == retry && Seen(log).stopped == resources.Some?
      && Seen(log).removed == completed && Seen(log).exhausted == expired
      && (pending.Some? && pending.value.phase.Stopping? ==> resources.Some?)
      && deadline == (Seen(log).failed && !completed && !expired)
      && (retry ==> pending.None? && deadline) && (completed ==> pending.None?)
    }

    constructor ()
      ensures Valid() && log == [] && resources == None && pending == None && !completed && !expired
    {
      resources, pending, retry, deadline, completed, expired, log := None, None, false, false, false, false, [];
    }

    ghost method Tell(e: Event)
      requires Lawful(log) && Allowed(Seen(log), e)
      modifies this
      ensures Lawful(log) && log == old(log) + [e] && Seen(log) == After(old(Seen(log)), e)
      ensures resources == old(resources) && pending == old(pending) && retry == old(retry) && deadline == old(deadline)
      ensures completed == old(completed) && expired == old(expired)
    {
      OneMore(log, e);
      log := log + [e];
    }

    /** `close`; stopping the resources may throw at once instead of returning a promise. The attempt it starts or
        joins settles what it returned. */
    method Close(removes: bool, automatic: bool, throws: bool) returns (joined: Option<Attempt>)
      requires Valid() && (automatic ==> Seen(log).waiting)
      modifies this
      ensures Valid() && old(log) <= log && deadline == old(deadline) && completed == old(completed) && expired == old(expired)
      ensures old(completed) ==> joined == None && log == old(log)
      ensures old(pending).Some? ==> joined == old(pending) && log == old(log)
      ensures !old(completed) && old(pending).None? ==> joined.Some? && joined == pending && !retry
      ensures !old(completed) && old(pending).None? ==>
                && joined.value == Attempt(removes, if old(resources).None? && throws then Over(false) else Stopping)
                && resources == if old(resources).None? && !throws then Some(Waiting) else old(resources)
      ensures !old(completed) && old(pending).None? ==>
                log == old(log) + [Started(removes, automatic)] + if old(resources).Some? then [] else if throws then [StopResources(true), StopServer] else [StopResources(false)]
    {
      hide Seen, Lawful;
      if completed {
        return None;
      }
      if pending.Some? {
        return pending;
      }
      retry := false;
      Tell(Started(removes, automatic));
      pending := Some(Attempt(removes, Stopping));
      if resources.None? {
        Tell(StopResources(throws));
        if throws {
          pending := Some(Attempt(removes, Over(false)));
          Tell(StopServer);
          return pending;
        }
        resources := Some(Waiting);
      }
      joined := pending;
    }

    /** The promise of the stopped resources settles. */
    method ResourcesSettle(ok: bool)
      requires Valid() && resources == Some(Waiting)
      modifies this
      ensures Valid() && log == old(log) && resources == Some(if ok then Stopped else Broken) && pending == old(pending)
    {
      resources := Some(if ok then Stopped else Broken);
    }

    /** The attempt goes on after its resources. */
    method Continue()
      requires Valid() && pending.Some? && pending.value.phase == Stopping && !resources.value.Waiting?
      modifies this
      ensures Valid() && resources == old(resources) && pending.Some? && pending.value.removes == old(pending.value.removes)
      ensures log == old(log) + if pending.value.phase.Over? then [StopServer] else []
      ensures pending.value.phase == if resources.value.Broken? then Over(false) else if pending.value.removes then Removing else Over(true)
    {
      var a, stopped := pending.value, resources.value.Stopped?;
      if stopped && a.removes {
        pending := Some(a.(phase := Removing));
      } else {
        pending := Some(a.(phase := Over(stopped)));
        Tell(StopServer);
      }
    }

    /** The removal of the files settles. */
    method RemovalSettles(ok: bool)
      requires Valid() && pending.Some? && pending.value.phase == Removing
      modifies this
      ensures Valid() && log == old(log) + [StopServer] && pending == Some(old(pending).value.(phase := Over(ok)))
    {
      pending := Some(pending.value.(phase := Over(ok)));
      Tell(StopServer);
    }

    /** What the promise of the attempt calls once it is over. */
    method Settle()
      requires Valid() && pending.Some? && pending.value.phase.Over?
      modifies this
      ensures Valid() && pending.None? && resources == old(resources) && expired == old(expired)
      ensures var a := old(pending).value;
              log == old(log) + [Ended(a.removes, a.phase.ok)] + if a.removes && !a.phase.ok && !expired then [RetryScheduled] else []
      ensures completed == (old(pending).value.removes && old(pending).value.phase.ok)
      ensures completed ==> !retry && !deadline
      ensures old(pending).value.removes && !old(pending).value.phase.ok ==> retry == !expired && deadline == !expired
    {
      var a := pending.value;
      pending := None;
      Tell(Ended(a.removes, a.phase.ok));
      if a.removes {
        if a.phase.ok {
          completed := true;
          CancelTimers();
        } else {
          Failed();
        }
      }
    }

    method CancelTimers()
      modifies this
      ensures !retry && !deadline && resources == old(resources) && pending == old(pending) && log == old(log)
      ensures completed == old(completed) && expired == old(expired)
    {
      retry, deadline := false, false;
    }

    /** `failed`. */
    method Failed()
      requires Lawful(log) && Seen(log).failed && !Seen(log).removed && Seen(log).exhausted == expired
      requires !Seen(log).inFlight && Seen(log).waiting == retry && (expired ==> !deadline) && !retry
      modifies this
      ensures Lawful(log) && log == old(log) + (if expired then [] else [RetryScheduled]) && retry == !expired && deadline == !expired
      ensures Seen(log) == old(Seen(log)).(waiting := !expired)
      ensures resources == old(resources) && pending == old(pending) && completed == old(completed) && expired == old(expired)
    {
      if expired {
        return;
      }
      if !deadline {
        deadline := true;
      }
      retry := true;
      Tell(RetryScheduled);
    }

    method RetryFires(throws: bool)
      requires Valid() && retry
      modifies this
      ensures Valid() && pending.Some? && pending.value.removes && !retry && deadline
      ensures log == old(log) + [Started(true, true)] + if old(resources).Some? then [] else if throws then [StopResources(true), StopServer] else [StopResources(false)]
    {
      var _ := Close(true, true, throws);
    }

    method DeadlineFires()
      requires Valid() && deadline
      modifies this
      ensures Valid() && expired && !retry && !deadline && log == old(log) + [StopServer, Exhausted]
      ensures resources == old(resources) && pending == old(pending) && completed == old(completed)
    {
      expired := true;
      retry, deadline := false, false;
      Tell(StopServer);
      Tell(Exhausted);
    }
  }

  /** The failing case is real: a stop that throws is called again by the retry. */
  method ThrownStopIsCalledAgain() returns (s: Shutdown)
    ensures fresh(s) && s.Valid() && s.log == RetriedLog() && Calls(s.log) == 2 && BegunAgain(s.log)
  {
    s := new Shutdown();
    var _ := s.Close(true, false, true);
    s.Settle();
    s.RetryFires(false);
    assert s.log == [] + ([Started(true, false)] + [StopResources(true), StopServer])
                    + ([Ended(true, false)] + [RetryScheduled]) + ([Started(true, true)] + [StopResources(false)]);
    assert s.log == RetriedLog();
    RetriedCalls();
    CalledOnceUnlessItThrew(s.log);
  }
}
