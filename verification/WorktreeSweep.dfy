/** extensions/agent/src/worktree.ts: worktrees that are left behind, marked, announced, and deleted by a later sweep.
    Times are those of one clock that never goes back; the file system stamps what is written with it. */
module WorktreeSweep {
  import opened Outcomes

  /** A worktree's directory: when it last changed, and whether another process works in it. */
  datatype Tree = Tree(modifiedAt: nat, busy: bool)

  /** A mark beside a worktree: when it was written, by which sweep, and whether that sweep got to list it. */
  datatype Mark = Mark(at: nat, sweep: nat, listed: bool)

  /** How a sweep ended: it returned and the user was told its list, or it never returned one. */
  datatype End = Told(at: nat) | Silent

  /** A sweep that began at `now`; it may wait for git to remove a worktree. */
  datatype Sweep = Sweep(now: nat, waiting: Option<string>, end: Option<End>)

  /** The directories, the marks, the sweeps of all processes so far, and the time. */
  datatype State = State(dirs: map<string, Tree>, marks: map<string, Mark>, sweeps: seq<Sweep>, clock: nat)

  datatype Limits = Limits(maxAge: nat, notice: nat)

  // ----- What happens

  /** Sweeps are told apart by their place among all. One may be long under way when it gets to a worktree; between
      deciding on a deletion and doing it it waits for git, and at its end for git again, before the user is told what
      it listed; anything else may happen meanwhile. */
  datatype Event =
    | Passed(time: nat)
    | Created(name: string)
    | Changed(name: string)
    | Extended(name: string)
    | Discarded(name: string)
    | Shown(name: string, deleteAfter: nat)
    | Began
    | Marked(sweep: nat, name: string, listed: bool, deleteAfter: nat)
    | Unmarked(sweep: nat, name: string)
    | Checked(sweep: nat, name: string)
    | Deleted(sweep: nat, name: string, gone: bool, markGone: bool)
    | Returned(sweep: nat)
    | Stopped(sweep: nat)
    | Cleaned(name: string)

  function SweepOf(s: State, w: nat): Sweep { if w < |s.sweeps| then s.sweeps[w] else Sweep(0, None, Some(Silent)) }

  function With(s: State, w: nat, sweep: Sweep): State { if w < |s.sweeps| then s.(sweeps := s.sweeps[w := sweep]) else s }

  /** A sweep that has not ended and does not wait for git. */
  predicate Going(s: State, w: nat) { SweepOf(s, w).end.None? && SweepOf(s, w).waiting.None? }

  predicate Free(s: State, name: string) { name in s.dirs && !s.dirs[name].busy }

  /** `deleteAfter` of `keptWorktree`. */
  function DeleteAfter(l: Limits, s: State, name: string): nat
    requires name in s.dirs
  {
    if name in s.marks then s.marks[name].at + l.notice else s.dirs[name].modifiedAt + l.maxAge + l.notice
  }

  predicate Stale(l: Limits, s: State, name: string, now: nat)
    requires name in s.dirs
  {
    s.dirs[name].modifiedAt + l.maxAge < now
  }

  /** No sweep is about to delete it. */
  predicate NotPending(s: State, name: string) { forall w | 0 <= w < |s.sweeps| :: s.sweeps[w].waiting != Some(name) }

  /** A sweep that was stopped while it waited leaves git to finish, and does nothing after that. */
  predicate Allowed(l: Limits, s: State, e: Event) {
    match e
    case Passed(time) => s.clock <= time
    case Created(name) => name !in s.dirs && name !in s.marks && NotPending(s, name)
    case Changed(name) => name in s.dirs
    case Extended(name) => name in s.dirs
    case Discarded(name) => name in s.dirs
    case Shown(name, deleteAfter) => name in s.dirs && deleteAfter == DeleteAfter(l, s, name)
    case Began => true
    case Marked(sweep, name, _, deleteAfter) =>
      && Going(s, sweep) && Free(s, name) && name !in s.marks && Stale(l, s, name, SweepOf(s, sweep).now)
      && deleteAfter == s.clock + l.notice
    case Unmarked(sweep, name) => Going(s, sweep) && Free(s, name) && name in s.marks && !Stale(l, s, name, SweepOf(s, sweep).now)
    case Checked(sweep, name) =>
      && Going(s, sweep) && Free(s, name) && name in s.marks && Stale(l, s, name, SweepOf(s, sweep).now)
      && s.marks[name].at + l.notice <= SweepOf(s, sweep).now
    case Deleted(sweep, name, gone, markGone) =>
      SweepOf(s, sweep).waiting == Some(name) && (markGone ==> gone && SweepOf(s, sweep).end.None?)
    case Returned(sweep) => Going(s, sweep)
    case Stopped(sweep) => SweepOf(s, sweep).end.None?
    case Cleaned(name) => name !in s.dirs
  }

  function After(s: State, e: Event): State {
    match e
    case Passed(time) => s.(clock := time)
    case Created(name) => s.(dirs := s.dirs[name := Tree(s.clock, false)])
    case Changed(name) => if name in s.dirs then s.(dirs := s.dirs[name := s.dirs[name].(modifiedAt := s.clock)]) else s
    case Extended(name) =>
      if name in s.dirs then s.(dirs := s.dirs[name := s.dirs[name].(modifiedAt := s.clock)], marks := s.marks - {name}) else s
    case Discarded(name) => s.(dirs := s.dirs - {name}, marks := s.marks - {name})
    case Shown(_, _) => s
    case Began => s.(sweeps := s.sweeps + [Sweep(s.clock, None, None)])
    case Marked(sweep, name, listed, _) => s.(marks := s.marks[name := Mark(s.clock, sweep, listed)])
    case Unmarked(_, name) => s.(marks := s.marks - {name})
    case Checked(sweep, name) => With(s, sweep, SweepOf(s, sweep).(waiting := Some(name)))
    case Deleted(sweep, name, gone, markGone) =>
      With(s, sweep, SweepOf(s, sweep).(waiting := None))
      .(dirs := if gone then s.dirs - {name} else s.dirs, marks := if markGone then s.marks - {name} else s.marks)
    case Returned(sweep) => With(s, sweep, SweepOf(s, sweep).(end := Some(Told(s.clock))))
    case Stopped(sweep) => With(s, sweep, SweepOf(s, sweep).(end := Some(Silent)))
    case Cleaned(name) => s.(marks := s.marks - {name})
  }

  function Seen(s: State, log: seq<Event>): State { if log == [] then s else After(Seen(s, log[..|log| - 1]), log[|log| - 1]) }

  predicate Lawful(l: Limits, s: State, log: seq<Event>) {
    log == [] || (Lawful(l, s, log[..|log| - 1]) && Allowed(l, Seen(s, log[..|log| - 1]), log[|log| - 1]))
  }

  lemma {:induction false} OneMore(l: Limits, s: State, log: seq<Event>, e: Event)
    ensures Seen(s, log + [e]) == After(Seen(s, log), e)
    ensures Lawful(l, s, log + [e]) <==> Lawful(l, s, log) && Allowed(l, Seen(s, log), e)
  {
    assert (log + [e])[..|log|] == log;
  }

  lemma {:induction false} LawfulAt(l: Limits, s: State, log: seq<Event>, i: nat)
    requires Lawful(l, s, log) && i <= |log|
    ensures Lawful(l, s, log[..i])
    ensures i < |log| ==> Allowed(l, Seen(s, log[..i]), log[i])
    decreases |log|
  {
    hide Allowed, After;
    if i < |log| {
      assert log[..|log| - 1][..i] == log[..i];
      if i < |log| - 1 {
        LawfulAt(l, s, log[..|log| - 1], i);
      }
    } else {
      assert log[..i] == log;
    }
  }

  /** Nothing was marked, changed or begun in the future. */
  predicate Sound(s: State) {
    && (forall name | name in s.marks :: s.marks[name].at <= s.clock)
    && (forall w | 0 <= w < |s.sweeps| :: s.sweeps[w].now <= s.clock)
    && (forall name | name in s.dirs :: s.dirs[name].modifiedAt <= s.clock)
  }

  /** Nothing was swept yet. */
  predicate Unswept(s: State) { s.marks == map[] && s.sweeps == [] }

  // ----- When the user is warned

  /** The time at which an event of a log happened. */
  function TimeOf(s: State, log: seq<Event>, i: nat): nat
    requires i <= |log|
  {
    Seen(s, log[..i]).clock
  }

  /** A worktree loses its mark. */
  predicate TakesOff(e: Event, name: string) {
    match e
    case Extended(n) => n == name
    case Discarded(n) => n == name
    case Unmarked(_, n) => n == name
    case Deleted(_, n, _, markGone) => n == name && markGone
    case Cleaned(n) => n == name
    case _ => false
  }

  predicate NeverOff(log: seq<Event>, k: nat, name: string) { forall i | k <= i < |log| :: !TakesOff(log[i], name) }

  /** An event wrote a mark, and the worktree kept it since. */
  predicate Wrote(s: State, log: seq<Event>, m: nat, name: string, mark: Mark) {
    && m < |log| && log[m].Marked? && log[m].name == name && mark == Mark(TimeOf(s, log, m), log[m].sweep, log[m].listed)
    && NeverOff(log, m + 1, name)
  }

  lemma {:induction false} WroteStays(s: State, log: seq<Event>, e: Event, m: nat, name: string, mark: Mark)
    requires m < |log|
    ensures Wrote(s, log + [e], m, name, mark) <==> Wrote(s, log, m, name, mark) && !TakesOff(e, name)
  {
    hide Seen, TakesOff;
    var more := log + [e];
    assert more[..m] == log[..m] && more[m] == log[m];
    assert forall i | 0 <= i < |log| :: more[i] == log[i];
    assert more[|log|] == e;
  }

  lemma {:induction false} MarkStep(l: Limits, s: State, e: Event, name: string)
    requires Allowed(l, s, e)
    ensures name in After(s, e).marks <==> (e.Marked? && e.name == name) || (name in s.marks && !TakesOff(e, name))
    ensures name in s.marks && !TakesOff(e, name) ==> After(s, e).marks[name] == s.marks[name] && !(e.Marked? && e.name == name)
    ensures e.Marked? ==> After(s, e).marks[e.name] == Mark(s.clock, e.sweep, e.listed)
  {
  }

  /** Every mark was written by a sweep. */
  lemma {:induction false} MarkWasWritten(l: Limits, s: State, log: seq<Event>, name: string) returns (m: nat)
    requires Unswept(s) && Lawful(l, s, log) && name in Seen(s, log).marks
    ensures Wrote(s, log, m, name, Seen(s, log).marks[name])
  {
    hide After, Allowed, TakesOff;
    var before, e := log[..|log| - 1], log[|log| - 1];
    assert log == before + [e];
    MarkStep(l, Seen(s, before), e, name);
    if e.Marked? && e.name == name {
      m := |log| - 1;
    } else {
      m := MarkWasWritten(l, s, before, name);
      WroteStays(s, before, e, m, name, Seen(s, before).marks[name]);
    }
  }

  /** A mark that was written and kept is there. */
  lemma {:induction false} WrittenIsThere(l: Limits, s: State, log: seq<Event>, m: nat, name: string, mark: Mark)
    requires Lawful(l, s, log) && Wrote(s, log, m, name, mark)
    ensures name in Seen(s, log).marks && Seen(s, log).marks[name] == mark
    decreases |log|
  {
    hide After, Allowed, TakesOff;
    var before, e := log[..|log| - 1], log[|log| - 1];
    assert log == before + [e];
    MarkStep(l, Seen(s, before), e, name);
    if m < |log| - 1 {
      WroteStays(s, before, e, m, name, mark);
      WrittenIsThere(l, s, before, m, name, mark);
    }
  }

  lemma {:induction false} SweepStep(l: Limits, s: State, e: Event, w: nat)
    requires Allowed(l, s, e)
    ensures w < |s.sweeps| ==> w < |After(s, e).sweeps| && SweepOf(After(s, e), w).now == SweepOf(s, w).now
    ensures e == Returned(w) ==> SweepOf(After(s, e), w).end == Some(Told(s.clock))
    ensures w < |s.sweeps| && SweepOf(s, w).end.Some? ==> SweepOf(After(s, e), w).end == SweepOf(s, w).end
    ensures SweepOf(After(s, e), w).end.Some? && SweepOf(After(s, e), w).end.value.Told? ==>
              e == Returned(w) || SweepOf(s, w).end == SweepOf(After(s, e), w).end
    ensures SweepOf(After(s, e), w).waiting.Some? ==>
              e == Checked(w, SweepOf(After(s, e), w).waiting.value)
              || (SweepOf(s, w).waiting == SweepOf(After(s, e), w).waiting && !(e.Deleted? && e.sweep == w))
  {
  }

  /** A sweep that told the user returned. */
  lemma {:induction false} TellingWasSeen(l: Limits, s: State, log: seq<Event>, w: nat, at: nat) returns (j: nat)
    requires Unswept(s) && Lawful(l, s, log) && SweepOf(Seen(s, log), w).end == Some(Told(at))
    ensures j < |log| && log[j] == Returned(w) && TimeOf(s, log, j) == at
  {
    hide After, Allowed;
    var before, e := log[..|log| - 1], log[|log| - 1];
    SweepStep(l, Seen(s, before), e, w);
    if e == Returned(w) {
      j := |log| - 1;
    } else {
      j := TellingWasSeen(l, s, before, w, at);
      assert before[..j] == log[..j];
    }
  }

  /** A sweep that returned told the user then, and that is its end. */
  lemma {:induction false} ReturnedIsTold(l: Limits, s: State, log: seq<Event>, j: nat)
    requires Lawful(l, s, log) && j < |log| && log[j].Returned?
    ensures log[j].sweep < |Seen(s, log).sweeps| && SweepOf(Seen(s, log), log[j].sweep).end == Some(Told(TimeOf(s, log, j)))
    decreases |log|
  {
    var before, e := log[..|log| - 1], log[|log| - 1];
    SweepStep(l, Seen(s, before), e, log[j].sweep);
    if j < |log| - 1 {
      hide After, Allowed;
      ReturnedIsTold(l, s, before, j);
      assert before[..j] == log[..j];
    }
  }

  /** A sweep marks nothing after it has returned. */
  lemma {:induction false} MarkedThenReturned(l: Limits, s: State, log: seq<Event>, m: nat, j: nat)
    requires Lawful(l, s, log) && m < |log| && j < |log| && log[m].Marked? && log[j] == Returned(log[m].sweep)
    ensures m < j
  {
    if j < m {
      LawfulAt(l, s, log, m);
      ReturnedIsTold(l, s, log[..m], j);
    }
  }

  /** A sweep that had marked and listed a worktree returned, and the user was told, a notice before `now`; and the
      worktree has kept that mark. */
  predicate Warns(l: Limits, s: State, log: seq<Event>, name: string, now: nat, m: nat, j: nat) {
    && m < j < |log| && log[m].Marked? && log[m].name == name && log[m].listed && log[j] == Returned(log[m].sweep)
    && TimeOf(s, log, j) + l.notice <= now && NeverOff(log, m + 1, name)
  }

  ghost predicate Warned(l: Limits, s: State, log: seq<Event>, name: string, now: nat) {
    exists m: nat, j: nat :: Warns(l, s, log, name, now, m, j)
  }

  /** The sweep whose mark a worktree has listed it, and has returned its list by `now` less a notice. */
  predicate ReturnedInTime(l: Limits, s: State, name: string, now: nat) {
    name in s.marks && s.marks[name].listed &&
    match SweepOf(s, s.marks[name].sweep).end
    case Some(Told(at)) => at + l.notice <= now
    case _ => false
  }

  /** Whatever happened: the user was warned a notice ago just when the sweep that wrote the mark returned its list by then. */
  lemma {:induction false} WarnedIfReturnedInTime(l: Limits, s: State, log: seq<Event>, name: string, now: nat)
    requires Unswept(s) && Lawful(l, s, log)
    ensures Warned(l, s, log, name, now) <==> ReturnedInTime(l, Seen(s, log), name, now)
  {
    if Warned(l, s, log, name, now) {
      var m: nat, j: nat :| Warns(l, s, log, name, now, m, j);
      WarnedIsTold(l, s, log, name, now, m, j);
    }
    if ReturnedInTime(l, Seen(s, log), name, now) {
      var m, j := ToldIsWarned(l, s, log, name, now);
    }
  }

  lemma {:induction false} WarnedIsTold(l: Limits, s: State, log: seq<Event>, name: string, now: nat, m: nat, j: nat)
    requires Lawful(l, s, log) && Warns(l, s, log, name, now, m, j)
    ensures ReturnedInTime(l, Seen(s, log), name, now)
  {
    hide Lawful, Seen, NeverOff;
    WrittenIsThere(l, s, log, m, name, Mark(TimeOf(s, log, m), log[m].sweep, true));
    ReturnedIsTold(l, s, log, j);
  }

  lemma {:induction false} ToldIsWarned(l: Limits, s: State, log: seq<Event>, name: string, now: nat) returns (m: nat, j: nat)
    requires Unswept(s) && Lawful(l, s, log) && ReturnedInTime(l, Seen(s, log), name, now)
    ensures Warns(l, s, log, name, now, m, j)
  {
    hide Lawful, Seen, NeverOff;
    var mark := Seen(s, log).marks[name];
    m := MarkWasWritten(l, s, log, name);
    j := TellingWasSeen(l, s, log, mark.sweep, SweepOf(Seen(s, log), mark.sweep).end.value.at);
    MarkedThenReturned(l, s, log, m, j);
  }

  // ----- Every deletion

  /** A sweep decides at `c` on the deletion that it does at `d`. */
  predicate Decides(log: seq<Event>, c: nat, d: nat) {
    && c < d < |log| && log[d].Deleted? && log[c] == Checked(log[d].sweep, log[d].name)
    && forall i | c < i < d :: !(log[i].Deleted? && log[i].sweep == log[d].sweep)
  }

  lemma {:induction false} WaitsSince(l: Limits, s: State, log: seq<Event>, w: nat, name: string) returns (c: nat)
    requires Unswept(s) && Lawful(l, s, log) && SweepOf(Seen(s, log), w).waiting == Some(name)
    ensures c < |log| && log[c] == Checked(w, name) && forall i | c < i < |log| :: !(log[i].Deleted? && log[i].sweep == w)
    ensures w < |Seen(s, log[..c]).sweeps| && SweepOf(Seen(s, log), w).now == SweepOf(Seen(s, log[..c]), w).now
    decreases |log|
  {
    var before, e := log[..|log| - 1], log[|log| - 1];
    SweepStep(l, Seen(s, before), e, w);
    if e == Checked(w, name) {
      c := |log| - 1;
    } else {
      hide After, Allowed;
      c := WaitsSince(l, s, before, w, name);
      assert before[..c] == log[..c];
      SweepsLast(l, s, before, c, w);
    }
  }

  lemma {:induction false} SweepsLast(l: Limits, s: State, log: seq<Event>, c: nat, w: nat)
    requires Lawful(l, s, log) && c <= |log| && w < |Seen(s, log[..c]).sweeps|
    ensures w < |Seen(s, log).sweeps| && SweepOf(Seen(s, log), w).now == SweepOf(Seen(s, log[..c]), w).now
    decreases |log|
  {
    hide After, Allowed;
    if c < |log| {
      var before := log[..|log| - 1];
      assert before[..c] == log[..c];
      SweepsLast(l, s, before, c, w);
      SweepStep(l, Seen(s, before), log[|log| - 1], w);
    } else {
      assert log[..c] == log;
    }
  }

  /** Every deletion was decided on. */
  lemma {:induction false} DeletionIsDecided(l: Limits, s: State, log: seq<Event>, d: nat) returns (c: nat)
    requires Unswept(s) && Lawful(l, s, log) && d < |log| && log[d].Deleted?
    ensures Decides(log, c, d)
  {
    LawfulAt(l, s, log, d);
    hide After, Seen, Lawful;
    c := WaitsSince(l, s, log[..d], log[d].sweep, log[d].name);
    assert forall i | 0 <= i < d :: log[..d][i] == log[i];
  }

  /** When the sweep began that does an event. */
  function NowAt(s: State, log: seq<Event>, c: nat): nat
    requires c < |log| && log[c].Checked?
  {
    SweepOf(Seen(s, log[..c]), log[c].sweep).now
  }

  /** The promise: the user was warned of every worktree a notice before the sweep that deletes it. */
  ghost predicate EveryDeletionWarned(l: Limits, s: State, log: seq<Event>) {
    forall c: nat, d: nat | Decides(log, c, d) && log[d].gone :: Warned(l, s, log[..c], log[c].name, NowAt(s, log, c))
  }

  ghost predicate EveryMarkReturned(l: Limits, s: State, log: seq<Event>) {
    forall c: nat, d: nat | Decides(log, c, d) && log[d].gone :: ReturnedInTime(l, Seen(s, log[..c]), log[c].name, NowAt(s, log, c))
  }

  /** In a run of any sweeps, users and worktrees the promise is kept just when each sweep that wrote a mark another
      acts on had returned its list a notice before the other began. */
  lemma {:induction false} PromiseKeptIfReturned(l: Limits, s: State, log: seq<Event>)
    requires Unswept(s) && Lawful(l, s, log)
    ensures EveryDeletionWarned(l, s, log) <==> EveryMarkReturned(l, s, log)
  {
    hide Lawful, Seen, Warned, ReturnedInTime;
    forall c: nat, d: nat | Decides(log, c, d) && log[d].gone
      ensures Warned(l, s, log[..c], log[c].name, NowAt(s, log, c)) <==> ReturnedInTime(l, Seen(s, log[..c]), log[c].name, NowAt(s, log, c))
    {
      LawfulAt(l, s, log, c);
      WarnedIfReturnedInTime(l, s, log[..c], log[c].name, NowAt(s, log, c));
    }
  }

  /** What always holds: a sweep deletes a worktree only if an earlier one marked it a notice before this one began. */
  lemma {:induction false} MarkedANoticeBefore(l: Limits, s: State, log: seq<Event>, w: nat, name: string, gone: bool, markGone: bool)
    returns (m: nat)
    requires Unswept(s) && Lawful(l, s, log) && Allowed(l, Seen(s, log), Deleted(w, name, gone, markGone))
    ensures m < |log| && log[m].Marked? && log[m].name == name && TimeOf(s, log, m) + l.notice <= SweepOf(Seen(s, log), w).now
    ensures log[m].deleteAfter == TimeOf(s, log, m) + l.notice
  {
    var c := WaitsSince(l, s, log, w, name);
    LawfulAt(l, s, log, c);
    m := MarkWasWritten(l, s, log[..c], name);
    assert log[..c][..m] == log[..m];
    LawfulAt(l, s, log, m);
    hide Lawful, Seen;
  }

  // ----- Never before the time that was shown

  /** No sweep decides to delete a worktree earlier than this, as long as it stays. */
  function Earliest(l: Limits, s: State, name: string): nat
    requires name in s.dirs
  {
    if name in s.marks then s.marks[name].at + l.notice
    else (if s.dirs[name].modifiedAt + l.maxAge > s.clock then s.dirs[name].modifiedAt + l.maxAge else s.clock) + l.notice
  }

  lemma {:induction false} EarliestNeverFalls(l: Limits, s: State, e: Event, name: string)
    requires Sound(s) && Allowed(l, s, e) && name in s.dirs && name in After(s, e).dirs
    ensures Earliest(l, After(s, e), name) >= Earliest(l, s, name)
  {
  }

  lemma {:induction false} StaysSound(l: Limits, s: State, log: seq<Event>)
    requires Sound(s) && Lawful(l, s, log)
    ensures Sound(Seen(s, log)) && s.clock <= Seen(s, log).clock
  {
    if log != [] {
      hide Sound, After, Allowed;
      StaysSound(l, s, log[..|log| - 1]);
      SoundStep(l, Seen(s, log[..|log| - 1]), log[|log| - 1]);
    }
  }

  lemma {:induction false} SoundStep(l: Limits, s: State, e: Event)
    requires Sound(s) && Allowed(l, s, e)
    ensures Sound(After(s, e)) && s.clock <= After(s, e).clock
  {
  }

  /** A worktree stays through some events. */
  predicate Stays(s: State, log: seq<Event>, name: string) {
    name in Seen(s, log).dirs && (log == [] || Stays(s, log[..|log| - 1], name))
  }

  lemma {:induction false} EarliestHolds(l: Limits, s: State, log: seq<Event>, name: string)
    requires Sound(s) && Lawful(l, s, log) && Stays(s, log, name)
    ensures name in s.dirs && name in Seen(s, log).dirs && Earliest(l, Seen(s, log), name) >= Earliest(l, s, name)
  {
    if log != [] {
      var before := log[..|log| - 1];
      EarliestHolds(l, s, before, name);
      StaysSound(l, s, before);
      EarliestNeverFalls(l, Seen(s, before), log[|log| - 1], name);
    }
  }

  /** No deletion of it is decided on that began too early for a time. */
  predicate NoneBefore(s: State, name: string, time: nat) {
    forall w | 0 <= w < |s.sweeps| && s.sweeps[w].waiting == Some(name) :: time <= s.sweeps[w].now
  }

  lemma {:induction false} NoneBeforeStep(l: Limits, s: State, e: Event, name: string, time: nat)
    requires Allowed(l, s, e) && NoneBefore(s, name, time) && (name in s.dirs ==> time <= Earliest(l, s, name))
    ensures NoneBefore(After(s, e), name, time)
  {
  }

  /** Deletions that are decided on later respect the time a worktree had. */
  lemma {:induction false} DecidedLater(l: Limits, s: State, log: seq<Event>, name: string)
    requires Sound(s) && Lawful(l, s, log) && Stays(s, log, name) && NotPending(s, name)
    ensures name in s.dirs && NoneBefore(Seen(s, log), name, Earliest(l, s, name))
  {
    if log != [] {
      hide Sound, After, Allowed, Earliest;
      var before := log[..|log| - 1];
      DecidedLater(l, s, before, name);
      EarliestHolds(l, s, before, name);
      NoneBeforeStep(l, Seen(s, before), log[|log| - 1], name, Earliest(l, s, name));
    }
  }

  /** No sweep deletes a worktree before a time that was shown for it while no sweep had decided to delete it. */
  lemma {:induction false} NotBeforeShown(l: Limits, s: State, log: seq<Event>, w: nat, name: string, gone: bool, markGone: bool)
    requires Sound(s) && Lawful(l, s, log) && Stays(s, log, name) && NotPending(s, name)
    requires Allowed(l, Seen(s, log), Deleted(w, name, gone, markGone))
    ensures name in s.dirs && DeleteAfter(l, s, name) <= SweepOf(Seen(s, log), w).now
  {
    DecidedLater(l, s, log, name);
  }

  /** Keeping a worktree that no sweep had decided to delete starts its time again. */
  lemma {:induction false} ExtendedLasts(l: Limits, s: State, log: seq<Event>, w: nat, name: string, gone: bool, markGone: bool)
    requires Sound(s) && name in s.dirs && NotPending(s, name)
    requires Lawful(l, After(s, Extended(name)), log) && Stays(After(s, Extended(name)), log, name)
    requires Allowed(l, Seen(After(s, Extended(name)), log), Deleted(w, name, gone, markGone))
    ensures s.clock + l.maxAge + l.notice <= SweepOf(Seen(After(s, Extended(name)), log), w).now
  {
    NotBeforeShown(l, After(s, Extended(name)), log, w, name, gone, markGone);
  }

  // ----- While a sweep waits for git

  /** Every time a worktree had during some events is over by `time`. */
  predicate Respected(l: Limits, s: State, log: seq<Event>, name: string, time: nat) {
    && name in Seen(s, log).dirs && DeleteAfter(l, Seen(s, log), name) <= time
    && (log == [] || Respected(l, s, log[..|log| - 1], name, time))
  }

  /** The time that an event gives a worktree, if it gives it another. */
  function NewTime(l: Limits, s: State, e: Event, name: string): Option<nat> {
    if name !in s.dirs then None
    else match e
      case Extended(n) => if n == name then Some(s.clock + l.maxAge + l.notice) else None
      case Changed(n) => if n == name && name !in s.marks then Some(s.clock + l.maxAge + l.notice) else None
      case Unmarked(_, n) => if n == name then Some(s.dirs[name].modifiedAt + l.maxAge + l.notice) else None
      case Marked(_, n, _, _) => if n == name then Some(s.clock + l.notice) else None
      case _ => None
  }

  /** The times that events gave a worktree are over by `time`. */
  predicate NewTimesOver(l: Limits, s: State, log: seq<Event>, name: string, time: nat) {
    log == [] ||
      var before := log[..|log| - 1];
      && NewTimesOver(l, s, before, name, time)
      && match NewTime(l, Seen(s, before), log[|log| - 1], name) case Some(t) => t <= time case None => true
  }

  lemma {:induction false} NewTimeStep(l: Limits, s: State, e: Event, name: string)
    requires Allowed(l, s, e) && name in s.dirs && name in After(s, e).dirs
    ensures DeleteAfter(l, After(s, e), name) == match NewTime(l, s, e, name) case Some(t) => t case None => DeleteAfter(l, s, name)
  {
  }

  /** A time that is over stays respected just as long as every event that gives the worktree another gives one that is
      over too. */
  lemma {:induction false} RespectedIfNewTimesOver(l: Limits, s: State, log: seq<Event>, name: string, time: nat)
    requires Lawful(l, s, log) && Stays(s, log, name) && name in s.dirs && DeleteAfter(l, s, name) <= time
    ensures Respected(l, s, log, name, time) <==> NewTimesOver(l, s, log, name, time)
  {
    if log != [] {
      hide After, Allowed, NewTime, DeleteAfter;
      var before := log[..|log| - 1];
      RespectedIfNewTimesOver(l, s, before, name, time);
      NewTimeStep(l, Seen(s, before), log[|log| - 1], name);
      if Respected(l, s, before, name, time) {
        LastTimeOver(l, s, before, name, time);
      }
    }
  }

  lemma {:induction false} LastTimeOver(l: Limits, s: State, log: seq<Event>, name: string, time: nat)
    requires Respected(l, s, log, name, time)
    ensures name in Seen(s, log).dirs && DeleteAfter(l, Seen(s, log), name) <= time
  {
  }

  /** Its mark was taken away, by the user who keeps it or by a sweep that found it changed. */
  predicate Unmarks(e: Event, name: string) { e == Extended(name) || (e.Unmarked? && e.name == name) }

  predicate Unmoved(log: seq<Event>, name: string) {
    log == [] || (!Unmarks(log[|log| - 1], name) && Unmoved(log[..|log| - 1], name))
  }

  /** Sweeps that unmark it began less than a notice before `time`. */
  predicate Prompt(l: Limits, s: State, log: seq<Event>, name: string, time: nat) {
    log == [] ||
      var before, e := log[..|log| - 1], log[|log| - 1];
      && Prompt(l, s, before, name, time)
      && (e.Unmarked? && e.name == name ==> time < SweepOf(Seen(s, before), e.sweep).now + l.notice)
  }

  lemma {:induction false} MarkStays(l: Limits, s: State, log: seq<Event>, name: string)
    requires Lawful(l, s, log) && Stays(s, log, name) && Unmoved(log, name) && name in s.marks
    ensures name in Seen(s, log).marks && Seen(s, log).marks[name] == s.marks[name]
  {
    if log != [] {
      MarkStays(l, s, log[..|log| - 1], name);
    }
  }

  lemma {:induction false} UnmovedIsRespected(l: Limits, s: State, log: seq<Event>, name: string, time: nat)
    requires Lawful(l, s, log) && Stays(s, log, name) && Unmoved(log, name) && name in s.marks && s.marks[name].at + l.notice <= time
    ensures Respected(l, s, log, name, time)
  {
    MarkStays(l, s, log, name);
    if log != [] {
      UnmovedIsRespected(l, s, log[..|log| - 1], name, time);
    }
  }

  lemma {:induction false} MovedIsNotRespected(l: Limits, s: State, log: seq<Event>, name: string, time: nat)
    requires Sound(s) && Lawful(l, s, log) && Stays(s, log, name) && !Unmoved(log, name)
    requires Prompt(l, s, log, name, time) && time < s.clock + l.maxAge + l.notice
    ensures !Respected(l, s, log, name, time)
  {
    var before := log[..|log| - 1];
    if Unmarks(log[|log| - 1], name) {
      StaysSound(l, s, before);
    } else {
      MovedIsNotRespected(l, s, before, name, time);
    }
  }

  lemma {:induction false} EarlierIsRespected(l: Limits, s: State, log: seq<Event>, name: string, time: nat)
    requires Sound(s) && Lawful(l, s, log) && Stays(s, log, name) && Earliest(l, Seen(s, log), name) <= time
    ensures Respected(l, s, log, name, time)
  {
    if log != [] {
      var before := log[..|log| - 1];
      StaysSound(l, s, before);
      EarliestNeverFalls(l, Seen(s, before), log[|log| - 1], name);
      EarlierIsRespected(l, s, before, name, time);
    }
  }

  /** A sweep decides to delete a worktree after the events `log`, and deletes it after the further events `meanwhile`.
      All times it ever had before the decision are over then. Those it had since are over just when every event that
      gave it another gave one that is over. When less than an age and a notice lies between, and the sweeps that unmark
      it meanwhile began less than a notice before the deletion, that is just when nobody took its mark away. */
  lemma {:induction false} RespectedUnlessMoved(l: Limits, s: State, log: seq<Event>, w: nat, name: string, meanwhile: seq<Event>)
    requires Sound(s) && Lawful(l, s, log) && Stays(s, log, name) && Allowed(l, Seen(s, log), Checked(w, name))
    requires var checked := After(Seen(s, log), Checked(w, name));
             Lawful(l, checked, meanwhile) && Stays(checked, meanwhile, name)
    ensures var checked := After(Seen(s, log), Checked(w, name));
            var time := Seen(checked, meanwhile).clock;
            && Respected(l, s, log, name, time)
            && (Respected(l, checked, meanwhile, name, time) <==> NewTimesOver(l, checked, meanwhile, name, time))
            && (Prompt(l, checked, meanwhile, name, time) && time < checked.clock + l.maxAge + l.notice ==>
                  (Respected(l, checked, meanwhile, name, time) <==> Unmoved(meanwhile, name)))
  {
    var checked := After(Seen(s, log), Checked(w, name));
    var time := Seen(checked, meanwhile).clock;
    StaysSound(l, s, log);
    StaysSound(l, checked, meanwhile);
    EarlierIsRespected(l, s, log, name, time);
    RespectedIfNewTimesOver(l, checked, meanwhile, name, time);
    if Unmoved(meanwhile, name) {
      UnmovedIsRespected(l, checked, meanwhile, name, time);
    } else if Prompt(l, checked, meanwhile, name, time) && time < checked.clock + l.maxAge + l.notice {
      MovedIsNotRespected(l, checked, meanwhile, name, time);
    }
  }

  lemma {:induction false} Steps(l: Limits, s: State, a: Event, b: Event, c: Event)
    ensures Seen(s, [a, b, c]) == After(After(After(s, a), b), c)
    ensures Lawful(l, s, [a, b, c]) <==> Allowed(l, s, a) && Allowed(l, After(s, a), b) && Allowed(l, After(After(s, a), b), c)
  {
    OneMore(l, s, [], a);
    OneMore(l, s, [a], b);
    OneMore(l, s, [a, b], c);
    assert [] + [a] == [a] && [a] + [b] == [a, b] && [a, b] + [c] == [a, b, c];
  }

  lemma {:induction false} Joined(l: Limits, s: State, log: seq<Event>, more: seq<Event>)
    ensures Seen(s, log + more) == Seen(Seen(s, log), more)
    ensures Lawful(l, s, log + more) <==> Lawful(l, s, log) && Lawful(l, Seen(s, log), more)
    decreases |more|
  {
    if more == [] {
      assert log + more == log;
    } else {
      Joined(l, s, log, more[..|more| - 1]);
      OneMore(l, s, log + more[..|more| - 1], more[|more| - 1]);
      assert log + more[..|more| - 1] + [more[|more| - 1]] == log + more;
    }
  }

  // ----- Runs in which the user is told late, or not at all, or keeps what goes

  /** One worktree, old enough to be marked. */
  function Old(l: Limits, name: string): State { State(map[name := Tree(0, false)], map[], [], l.maxAge + 1) }

  /** A worktree was marked, the sweep that did so ended as `end` says, and the second sweep began when the mark's notice
      had run out. */
  function SecondSweep(l: Limits, name: string, listed: bool, end: End): State {
    var clock, now := l.maxAge + 1, l.maxAge + 1 + l.notice;
    State(map[name := Tree(0, false)], map[name := Mark(clock, 0, listed)], [Sweep(clock, None, Some(end)), Sweep(now, None, None)], now)
  }

  /** The second sweep deletes the worktree; if the first had not told the user in time, it breaks the promise. */
  lemma {:induction false} SecondDeletes(l: Limits, name: string, s: State, log: seq<Event>, listed: bool, end: End)
    requires Unswept(s) && Lawful(l, s, log) && Seen(s, log) == SecondSweep(l, name, listed, end)
    ensures var all := log + [Checked(1, name), Deleted(1, name, true, true), Returned(1)];
            Lawful(l, s, all) && (!listed || end.Silent? || end.at > l.maxAge + 1 ==> !EveryDeletionWarned(l, s, all))
  {
    var rest := [Checked(1, name), Deleted(1, name, true, true), Returned(1)];
    var all := log + rest;
    Steps(l, SecondSweep(l, name, listed, end), rest[0], rest[1], rest[2]);
    assert rest == [rest[0], rest[1], rest[2]];
    Joined(l, s, log, rest);
    assert all[..|log|] == log;
    hide Lawful, Seen, After, Allowed, EveryDeletionWarned;
    if !listed || end.Silent? || end.at > l.maxAge + 1 {
      assert all[|log|] == rest[0] && all[|log| + 1] == rest[1];
      NotReturned(l, s, all, |log|);
    }
  }

  lemma {:induction false} NotReturned(l: Limits, s: State, log: seq<Event>, c: nat)
    requires Unswept(s) && Lawful(l, s, log) && Decides(log, c, c + 1) && log[c + 1].gone
    requires !ReturnedInTime(l, Seen(s, log[..c]), log[c].name, NowAt(s, log, c))
    ensures !EveryDeletionWarned(l, s, log)
  {
    hide Lawful, Seen, ReturnedInTime, Warned;
    PromiseKeptIfReturned(l, s, log);
  }

  /** The user is told late: while the first sweep still waits for git, the second begins to count from its mark, and the
      worktree goes less than a notice after the user was told. */
  lemma {:induction false} ToldLate(l: Limits, name: string, delay: nat) returns (log: seq<Event>)
    requires 0 < delay <= l.notice
    ensures var clock, now := l.maxAge + 1, l.maxAge + 1 + l.notice;
            log == [Began, Marked(0, name, true, now), Passed(clock + delay)] + [Returned(0), Passed(now), Began]
                   + [Checked(1, name), Deleted(1, name, true, true), Returned(1)]
    ensures Lawful(l, Old(l, name), log) && !EveryDeletionWarned(l, Old(l, name), log)
  {
    var clock, now := l.maxAge + 1, l.maxAge + 1 + l.notice;
    var s, a, b := Old(l, name), [Began, Marked(0, name, true, now), Passed(clock + delay)], [Returned(0), Passed(now), Began];
    MarkedAndWaiting(l, name, delay);
    WaitedAndTold(l, name, delay);
    hide Lawful, Seen, After, Allowed, EveryMarkReturned, EveryDeletionWarned;
    Joined(l, s, a, b);
    SecondDeletes(l, name, s, a + b, true, Told(clock + delay));
    log := a + b + [Checked(1, name), Deleted(1, name, true, true), Returned(1)];
  }

  lemma {:induction false} MarkedAndWaiting(l: Limits, name: string, delay: nat)
    ensures var clock, now := l.maxAge + 1, l.maxAge + 1 + l.notice;
            var log := [Began, Marked(0, name, true, now), Passed(clock + delay)];
            && Lawful(l, Old(l, name), log)
            && Seen(Old(l, name), log) == State(map[name := Tree(0, false)], map[name := Mark(clock, 0, true)], [Sweep(clock, None, None)], clock + delay)
  {
    Steps(l, Old(l, name), Began, Marked(0, name, true, l.maxAge + 1 + l.notice), Passed(l.maxAge + 1 + delay));
    hide Lawful, Seen;
  }

  lemma {:induction false} WaitedAndTold(l: Limits, name: string, delay: nat)
    requires delay <= l.notice
    ensures var clock, now := l.maxAge + 1, l.maxAge + 1 + l.notice;
            var s := State(map[name := Tree(0, false)], map[name := Mark(clock, 0, true)], [Sweep(clock, None, None)], clock + delay);
            var log := [Returned(0), Passed(now), Began];
            Lawful(l, s, log) && Seen(s, log) == SecondSweep(l, name, true, Told(clock + delay))
  {
    var clock, now := l.maxAge + 1, l.maxAge + 1 + l.notice;
    var s := State(map[name := Tree(0, false)], map[name := Mark(clock, 0, true)], [Sweep(clock, None, None)], clock + delay);
    Steps(l, s, Returned(0), Passed(now), Began);
    hide Lawful, Seen;
  }

  /** Nobody is told: the first sweep is stopped, or its list lost, or the mark is written and the listing fails; the mark
      stays, and the second sweep goes by it. */
  lemma {:induction false} NeverTold(l: Limits, name: string, listed: bool, end: Event) returns (log: seq<Event>)
    requires end == Stopped(0) || (end == Returned(0) && !listed)
    ensures var now := l.maxAge + 1 + l.notice;
            log == [Began, Marked(0, name, listed, now), end] + [Passed(now), Began] + [Checked(1, name), Deleted(1, name, true, true), Returned(1)]
    ensures Lawful(l, Old(l, name), log) && !EveryDeletionWarned(l, Old(l, name), log)
  {
    var s, now := Old(l, name), l.maxAge + 1 + l.notice;
    var a, b := [Began, Marked(0, name, listed, now), end], [Passed(now), Began];
    var x := MarkedAndEnded(l, name, listed, end);
    hide Lawful, Seen, After, Allowed, EveryMarkReturned, EveryDeletionWarned;
    Joined(l, s, a, b);
    SecondDeletes(l, name, s, a + b, listed, x);
    log := a + b + [Checked(1, name), Deleted(1, name, true, true), Returned(1)];
  }

  lemma {:induction false} MarkedAndEnded(l: Limits, name: string, listed: bool, end: Event) returns (x: End)
    requires end == Stopped(0) || end == Returned(0)
    ensures x == if end == Stopped(0) then Silent else Told(l.maxAge + 1)
    ensures var log, s := [Began, Marked(0, name, listed, l.maxAge + 1 + l.notice), end], Old(l, name);
            && Lawful(l, s, log) && Lawful(l, Seen(s, log), [Passed(l.maxAge + 1 + l.notice), Began])
            && Seen(Seen(s, log), [Passed(l.maxAge + 1 + l.notice), Began]) == SecondSweep(l, name, listed, x)
  {
    var clock := l.maxAge + 1;
    x := if end == Stopped(0) then Silent else Told(clock);
    Steps(l, Old(l, name), Began, Marked(0, name, listed, clock + l.notice), end);
    var t := State(map[name := Tree(0, false)], map[name := Mark(clock, 0, listed)], [Sweep(clock, None, Some(x))], clock);
    assert Seen(Old(l, name), [Began, Marked(0, name, listed, clock + l.notice), end]) == t;
    SecondBegins(l, name, listed, x, t);
    hide Lawful, Seen;
  }

  lemma {:induction false} SecondBegins(l: Limits, name: string, listed: bool, x: End, t: State)
    requires t == State(map[name := Tree(0, false)], map[name := Mark(l.maxAge + 1, 0, listed)], [Sweep(l.maxAge + 1, None, Some(x))], l.maxAge + 1)
    ensures Lawful(l, t, [Passed(l.maxAge + 1 + l.notice), Began])
    ensures Seen(t, [Passed(l.maxAge + 1 + l.notice), Began]) == SecondSweep(l, name, listed, x)
  {
    var a, b := Passed(l.maxAge + 1 + l.notice), Began;
    OneMore(l, t, [], a);
    OneMore(l, t, [a], b);
    Empty(l, t);
    hide Lawful, Seen;
    assert [] + [a] == [a] && [a] + [b] == [a, b];
  }

  lemma {:induction false} Empty(l: Limits, s: State)
    ensures Seen(s, []) == s && Lawful(l, s, [])
  {
  }

  /** The user keeps a worktree while a sweep waits for git, is shown a time far ahead, and the sweep deletes it. */
  lemma {:induction false} KeptAndDeleted(l: Limits, name: string) returns (log: seq<Event>)
    requires l.maxAge + l.notice > 0
    ensures var now := l.maxAge + 1 + l.notice;
            log == [Began, Marked(0, name, true, now), Returned(0)] + [Passed(now), Began]
                   + ([Checked(1, name), Extended(name), Shown(name, now + l.maxAge + l.notice)] + [Deleted(1, name, true, true)])
    ensures var now, s := l.maxAge + 1 + l.notice, Old(l, name);
            Sound(s) && Lawful(l, s, log) && Seen(s, log).clock < now + l.maxAge + l.notice && name !in Seen(s, log).dirs
  {
    hide Lawful, Seen, After, Allowed, Old, SecondSweep, Sound;
    var s, now := Old(l, name), l.maxAge + 1 + l.notice;
    OldIsSound(l, name);
    var a, b := [Began, Marked(0, name, true, now), Returned(0)], [Passed(now), Began];
    var c := [Checked(1, name), Extended(name), Shown(name, now + l.maxAge + l.notice)] + [Deleted(1, name, true, true)];
    var x := MarkedAndEnded(l, name, true, Returned(0));
    Undone(l, name, x);
    Chained(l, s, a, b, c);
    log := a + b + c;
  }

  lemma {:induction false} OldIsSound(l: Limits, name: string)
    ensures Sound(Old(l, name))
  {
  }

  lemma {:induction false} Chained(l: Limits, s: State, a: seq<Event>, b: seq<Event>, c: seq<Event>)
    requires Lawful(l, s, a) && Lawful(l, Seen(s, a), b) && Lawful(l, Seen(Seen(s, a), b), c)
    ensures Lawful(l, s, a + b + c) && Seen(s, a + b + c) == Seen(Seen(Seen(s, a), b), c)
  {
    hide Lawful, Seen;
    Joined(l, s, a, b);
    Joined(l, s, a + b, c);
  }

  lemma {:induction false} Undone(l: Limits, name: string, end: End)
    ensures var now, s := l.maxAge + 1 + l.notice, SecondSweep(l, name, true, end);
            var log := [Checked(1, name), Extended(name), Shown(name, now + l.maxAge + l.notice)] + [Deleted(1, name, true, true)];
            Lawful(l, s, log) && Seen(s, log).clock == now && name !in Seen(s, log).dirs
  {
    var now, s := l.maxAge + 1 + l.notice, SecondSweep(l, name, true, end);
    var a := [Checked(1, name), Extended(name), Shown(name, now + l.maxAge + l.notice)];
    Steps(l, s, a[0], a[1], a[2]);
    OneMore(l, s, a, Deleted(1, name, true, true));
    hide Lawful, Seen;
    assert a == [a[0], a[1], a[2]];
  }

  // ----- A change is no extension

  /** A change to an announced worktree does not take its notice back: the old mark counts just as long as no sweep sees
      the worktree while it is fresh and the user does not keep it. */
  lemma {:induction false} ChangeIsNoExtension(l: Limits, s: State, log: seq<Event>, name: string)
    requires Sound(s) && name in s.dirs && name in s.marks
    requires Lawful(l, After(s, Changed(name)), log) && Stays(After(s, Changed(name)), log, name)
    ensures var later := Seen(After(s, Changed(name)), log);
            (name in later.marks && later.marks[name] == s.marks[name]) <==> Unmoved(log, name)
  {
    if Unmoved(log, name) {
      MarkStays(l, After(s, Changed(name)), log, name);
    } else {
      NewMark(l, After(s, Changed(name)), log, name, s.marks[name].at);
    }
  }

  /** Once unmarked, a worktree is only marked again later. */
  lemma {:induction false} NewMark(l: Limits, s: State, log: seq<Event>, name: string, mark: nat)
    requires Sound(s) && Lawful(l, s, log) && Stays(s, log, name) && !Unmoved(log, name)
    requires name in s.dirs && mark <= s.dirs[name].modifiedAt
    ensures var later := Seen(s, log); name in later.marks ==> later.marks[name].at > mark
  {
    hide Sound, After, Allowed, Unmarks;
    var before := log[..|log| - 1];
    ModifiedLater(l, s, before, name);
    if !Unmoved(before, name) {
      NewMark(l, s, before, name, mark);
    }
    StaysSound(l, s, before);
    NewMarkStep(l, Seen(s, before), log[|log| - 1], name, mark);
  }

  lemma {:induction false} NewMarkStep(l: Limits, s: State, e: Event, name: string, mark: nat)
    requires Sound(s) && Allowed(l, s, e) && name in s.dirs && mark <= s.dirs[name].modifiedAt
    requires Unmarks(e, name) || (name in s.marks ==> s.marks[name].at > mark)
    ensures name in After(s, e).marks ==> After(s, e).marks[name].at > mark
  {
  }

  lemma {:induction false} ModifiedLater(l: Limits, s: State, log: seq<Event>, name: string)
    requires Sound(s) && Lawful(l, s, log) && Stays(s, log, name)
    ensures name in s.dirs && Seen(s, log).dirs[name].modifiedAt >= s.dirs[name].modifiedAt
  {
    if log != [] {
      hide Sound, After, Allowed;
      StaysSound(l, s, log[..|log| - 1]);
      ModifiedLater(l, s, log[..|log| - 1], name);
      ModifiedStep(l, Seen(s, log[..|log| - 1]), log[|log| - 1], name);
    }
  }

  lemma {:induction false} ModifiedStep(l: Limits, s: State, e: Event, name: string)
    requires Sound(s) && Allowed(l, s, e) && name in s.dirs && name in After(s, e).dirs
    ensures After(s, e).dirs[name].modifiedAt >= s.dirs[name].modifiedAt
  {
  }

  // ----- The sweep

  /** What fails: writing a mark, which may leave one all the same; listing what was marked; removing a mark; git;
      removing the directory, or the files beside it. */
  datatype Faults = Faults(writing: bool, leaving: bool, listing: bool, unmarking: bool, git: bool, directory: bool, beside: bool)

  /** `SweepResult`: what is gone for good, and what was listed with the time that the user is shown. */
  datatype Report = Report(removed: seq<string>, expiring: seq<(string, nat)>)

  class Worktrees {
    const limits: Limits
    var dirs: map<string, Tree>
    var marks: map<string, Mark>
    var sweeps: seq<Sweep>
    var clock: nat

    function Now(): State
      reads this
    {
      State(dirs, marks, sweeps, clock)
    }

    constructor (limits: Limits, s: State)
      ensures this.limits == limits && Now() == s
    {
      this.limits, dirs, marks, sweeps, clock := limits, s.dirs, s.marks, s.sweeps, s.clock;
    }

    /** The sweep at one entry of the directory, up to where it waits for git; what it did, if anything. */
    method Visit(w: nat, name: string, faults: Faults) returns (e: Option<Event>)
      requires w < |sweeps| && Going(Now(), w)
      modifies this
      ensures clock == old(clock) && dirs == old(dirs)
      ensures match e
              case None => Now() == old(Now())
              case Some(e) => Allowed(limits, old(Now()), e) && Now() == After(old(Now()), e)
      ensures Free(old(Now()), name) && Stale(limits, old(Now()), name, old(sweeps)[w].now) ==>
                e == if name in old(marks) then if old(marks)[name].at + limits.notice <= old(sweeps)[w].now then Some(Checked(w, name)) else None
                     else if faults.writing && !faults.leaving then None
                     else Some(Marked(w, name, !faults.writing && !faults.listing, clock + limits.notice))
      ensures Free(old(Now()), name) && !Stale(limits, old(Now()), name, old(sweeps)[w].now) ==>
                e == if name in old(marks) && !faults.unmarking then Some(Unmarked(w, name)) else None
      ensures name in dirs && dirs[name].busy ==> e.None?
      ensures name !in old(dirs) ==>
                e == if name in old(marks) && old(marks)[name].at + limits.maxAge < old(sweeps)[w].now && !faults.unmarking then Some(Cleaned(name)) else None
      ensures |sweeps| == |old(sweeps)|
      ensures e.Some? ==>
                && NameOf(e.value) == Some(name)
                && if e.value.Checked? then e.value == Checked(w, name) && sweeps[w].waiting == Some(name) && sweeps[w].end.None?
                   else !e.value.Deleted? && Going(Now(), w)
    {
      var now := sweeps[w].now;
      if name !in dirs {
        if name !in marks || marks[name].at + limits.maxAge >= now || faults.unmarking {
          return None;
        }
        marks := marks - {name};
        return Some(Cleaned(name));
      }
      if dirs[name].busy {
        return None;
      }
      if dirs[name].modifiedAt + limits.maxAge >= now {
        if name !in marks || faults.unmarking {
          return None;
        }
        marks := marks - {name};
        return Some(Unmarked(w, name));
      }
      if name !in marks {
        if faults.writing && !faults.leaving {
          return None;
        }
        var listed := !faults.writing && !faults.listing;
        marks := marks[name := Mark(clock, w, listed)];
        return Some(Marked(w, name, listed, clock + limits.notice));
      }
      if marks[name].at + limits.notice > now {
        return None;
      }
      sweeps := sweeps[w := sweeps[w].(waiting := Some(name))];
      e := Some(Checked(w, name));
    }

    /** The rest, once git is done: what anybody did meanwhile is not looked at. */
    method Delete(w: nat, name: string, faults: Faults) returns (e: Event)
      requires w < |sweeps| && sweeps[w].waiting == Some(name) && sweeps[w].end.None?
      modifies this
      ensures clock == old(clock)
      ensures Allowed(limits, old(Now()), e) && Now() == After(old(Now()), e)
      ensures e == Deleted(w, name, !faults.git || !faults.directory, !faults.directory && !faults.beside)
      ensures !faults.git || !faults.directory ==> name !in dirs
      ensures |sweeps| == |old(sweeps)| && Going(Now(), w)
    {
      e := Deleted(w, name, !faults.git || !faults.directory, !faults.directory && !faults.beside);
      sweeps := sweeps[w := sweeps[w].(waiting := None)];
      if e.gone {
        dirs := dirs - {name};
      }
      if e.markGone {
        marks := marks - {name};
      }
    }

    /** `sweepWorktrees` with nothing else going on. When git cannot prune in the end, the report is lost. */
    method SweepAll(names: seq<string>, keep: set<string>, faults: seq<Faults>, pruning: bool) returns (report: Option<Report>, ghost log: seq<Event>)
      requires |faults| == |names|
      modifies this
      ensures Lawful(limits, old(Now()), log) && Now() == Seen(old(Now()), log)
      ensures report == if pruning then None else Some(Report(RemovedIn(log), ListedIn(log)))
      ensures Distinct(names) ==>
                log == [Began] + Turns(limits, old(Now()), |old(sweeps)|, names, keep, faults) + [if pruning then Stopped(|old(sweeps)|) else Returned(|old(sweeps)|)]
      ensures log != [] && log[|log| - 1] == if pruning then Stopped(|old(sweeps)|) else Returned(|old(sweeps)|)
      ensures NoneOf(log, keep)
    {
      hide Lawful, Seen, RemovedIn, ListedIn, NoneOf, After, Allowed, Going, Distinct, SameFrom, Turns;
      ghost var s0 := Now();
      var w := |sweeps|;
      log := [];
      NothingSeen(limits, Now(), keep);
      BeganGoing(limits, Now());
      log := Log(old(Now()), log, Began, keep);
      sweeps := sweeps + [Sweep(clock, None, None)];
      var removed: seq<string>, expiring: seq<(string, nat)> := [], [];
      NothingTurned(limits, s0, Now(), w, names, keep, faults);
      for i := 0 to |names|
        invariant w < |sweeps| && w == |old(sweeps)| && Going(Now(), w)
        invariant Lawful(limits, old(Now()), log) && Now() == Seen(old(Now()), log)
        invariant removed == RemovedIn(log) && expiring == ListedIn(log)
        invariant NoneOf(log, keep) && s0 == old(Now()) && clock == s0.clock && sweeps[w].now == s0.clock
        invariant Distinct(names) ==> SameFrom(s0, Now(), names, i) && log == [Began] + Turns(limits, s0, w, names[..i], keep, faults[..i])
      {
        ghost var st, before := Now(), log;
        if names[i] !in keep {
          var r, events := Turn(w, names[i], faults[i]);
          Joined(limits, old(Now()), log, events);
          ListedMore(log, events);
          NoneOfMore(log, events, names[i], keep);
          OneMoreTurn(limits, s0, st, Now(), w, names, keep, faults, i, events);
          assert [Began] + Turns(limits, s0, w, names[..i], keep, faults[..i]) + events == [Began] + (Turns(limits, s0, w, names[..i], keep, faults[..i]) + events);
          removed, expiring, log := removed + r.removed, expiring + r.expiring, log + events;
        } else {
          OneMoreKept(limits, s0, st, w, names, keep, faults, i);
        }
      }
      assert names[..|names|] == names && faults[..|names|] == faults;
      ghost var last := if pruning then Stopped(w) else Returned(w);
      EndStep(limits, Now(), w, last);
      log := Log(old(Now()), log, last, keep);
      if pruning {
        sweeps := sweeps[w := sweeps[w].(end := Some(Silent))];
        return None, log;
      }
      sweeps := sweeps[w := sweeps[w].(end := Some(Told(clock)))];
      report := Some(Report(removed, expiring));
    }

    /** One event more, of no worktree. */
    ghost method Log(s: State, log: seq<Event>, e: Event, keep: set<string>) returns (more: seq<Event>)
      requires Lawful(limits, s, log) && Allowed(limits, Seen(s, log), e) && NameOf(e).None? && NoneOf(log, keep)
      ensures more == log + [e] && Lawful(limits, s, more) && Seen(s, more) == After(Seen(s, log), e) && NoneOf(more, keep)
      ensures RemovedIn(more) == RemovedIn(log) && ListedIn(more) == ListedIn(log)
    {
      hide After, Allowed, Seen, Lawful;
      OneMore(limits, s, log, e);
      ListedOneMore(log, e);
      more := log + [e];
    }

    /** The sweep at one entry, uninterrupted. */
    method Turn(w: nat, name: string, faults: Faults) returns (report: Report, ghost log: seq<Event>)
      requires w < |sweeps| && Going(Now(), w)
      modifies this
      ensures w < |sweeps| && Going(Now(), w) && clock == old(clock) && Lawful(limits, old(Now()), log) && Now() == Seen(old(Now()), log)
      ensures report == Report(RemovedIn(log), ListedIn(log))
      ensures forall e | e in log :: NameOf(e) == Some(name)
      ensures log == TurnOf(limits, old(Now()), old(sweeps)[w].now, w, name, faults)
      ensures sweeps[w].now == old(sweeps)[w].now && SameBut(old(Now()), Now(), name)
    {
      hide Stale, Free, Going, After, Allowed, Seen, Lawful, RemovedIn, ListedIn, SameBut, TurnOf;
      ghost var s0 := Now();
      Unturned(limits, s0, s0.sweeps[w].now, w, name, faults);
      report, log := Report([], []), [];
      NothingSeen(limits, Now(), {});
      var e := Visit(w, name, faults);
      if e.Some? {
        OneMore(limits, old(Now()), [], e.value);
        ListedOneMore([], e.value);
        OnlyOwn(s0, e.value, name, w);
        log := [] + [e.value];
        if e.value.Marked? && e.value.listed {
          report := Report([], [(e.value.name, e.value.deleteAfter)]);
        }
        if e.value.Checked? {
          ghost var s1 := Now();
          var d := Delete(w, name, faults);
          OnlyOwn(s1, d, name, w);
          OnlyBoth(s0, s1, Now(), name);
          OneMore(limits, old(Now()), log, d);
          ListedOneMore(log, d);
          log := log + [d];
          if d.markGone {
            report := Report([name], []);
          }
        }
      }
    }

    /** `extendKept`. */
    method Extend(name: string) returns (deleteAfter: nat)
      requires name in dirs
      modifies this
      ensures Allowed(limits, old(Now()), Extended(name)) && Now() == After(old(Now()), Extended(name))
      ensures name in dirs && deleteAfter == DeleteAfter(limits, Now(), name) == clock + limits.maxAge + limits.notice
    {
      dirs := dirs[name := dirs[name].(modifiedAt := clock)];
      marks := marks - {name};
      deleteAfter := DeleteAfter(limits, Now(), name);
    }
  }

  predicate Distinct(names: seq<string>) { forall i, j | 0 <= i < j < |names| :: names[i] != names[j] }

  /** A worktree's directory and mark are the same. */
  predicate SameAt(s: State, s': State, name: string) {
    && (name in s.dirs <==> name in s'.dirs) && (name in s.dirs ==> s.dirs[name] == s'.dirs[name])
    && (name in s.marks <==> name in s'.marks) && (name in s.marks ==> s.marks[name] == s'.marks[name])
  }

  ghost predicate SameBut(s: State, s': State, name: string) { forall other | other != name :: SameAt(s, s', other) }

  ghost predicate SameFrom(s: State, s': State, names: seq<string>, i: nat) { forall j | i <= j < |names| :: SameAt(s, s', names[j]) }

  /** What a sweep does with one entry, by the entry's own age and mark: nothing, or one step, or the check and the removal. */
  function TurnOf(l: Limits, s: State, now: nat, w: nat, name: string, faults: Faults): seq<Event> {
    if name !in s.dirs then
      if name in s.marks && s.marks[name].at + l.maxAge < now && !faults.unmarking then [Cleaned(name)] else []
    else if s.dirs[name].busy then []
    else if !Stale(l, s, name, now) then
      if name in s.marks && !faults.unmarking then [Unmarked(w, name)] else []
    else if name !in s.marks then
      if faults.writing && !faults.leaving then [] else [Marked(w, name, !faults.writing && !faults.listing, s.clock + l.notice)]
    else if s.marks[name].at + l.notice <= now then
      [Checked(w, name), Deleted(w, name, !faults.git || !faults.directory, !faults.directory && !faults.beside)]
    else []
  }

  /** A sweep's turns at all entries but those in `keep`, each as the entry was when the sweep began. */
  function Turns(l: Limits, s: State, w: nat, names: seq<string>, keep: set<string>, faults: seq<Faults>): seq<Event>
    requires |faults| == |names|
  {
    if names == [] then []
    else
      var n := |names| - 1;
      Turns(l, s, w, names[..n], keep, faults[..n]) + if names[n] in keep then [] else TurnOf(l, s, s.clock, w, names[n], faults[n])
  }

  /** The cases of one entry. */
  lemma {:induction false} Unturned(l: Limits, s: State, now: nat, w: nat, name: string, faults: Faults)
    ensures SameBut(s, s, name)
    ensures name !in s.dirs ==>
              TurnOf(l, s, now, w, name, faults) == if name in s.marks && s.marks[name].at + l.maxAge < now && !faults.unmarking then [Cleaned(name)] else []
    ensures name in s.dirs && s.dirs[name].busy ==> TurnOf(l, s, now, w, name, faults) == []
    ensures Free(s, name) && Stale(l, s, name, now) ==>
              TurnOf(l, s, now, w, name, faults) ==
                if name in s.marks then
                  if s.marks[name].at + l.notice <= now
                  then [Checked(w, name), Deleted(w, name, !faults.git || !faults.directory, !faults.directory && !faults.beside)]
                  else []
                else if faults.writing && !faults.leaving then []
                else [Marked(w, name, !faults.writing && !faults.listing, s.clock + l.notice)]
    ensures Free(s, name) && !Stale(l, s, name, now) ==>
              TurnOf(l, s, now, w, name, faults) == if name in s.marks && !faults.unmarking then [Unmarked(w, name)] else []
    ensures name in s.dirs ==> s.dirs[name].busy || Free(s, name)
  {
  }

  lemma {:induction false} OnlyOwn(s: State, e: Event, name: string, w: nat)
    requires NameOf(e) == Some(name) && w < |s.sweeps|
    ensures SameBut(s, After(s, e), name) && w < |After(s, e).sweeps| && After(s, e).sweeps[w].now == s.sweeps[w].now
  {
  }

  lemma {:induction false} OnlyBoth(a: State, b: State, c: State, name: string)
    requires SameBut(a, b, name) && SameBut(b, c, name)
    ensures SameBut(a, c, name)
  {
    forall other | other != name ensures SameAt(a, c, other) {
      assert SameAt(a, b, other) && SameAt(b, c, other);
    }
  }

  lemma {:induction false} NothingTurned(l: Limits, s: State, s': State, w: nat, names: seq<string>, keep: set<string>, faults: seq<Faults>)
    requires |faults| == |names| && s'.dirs == s.dirs && s'.marks == s.marks
    ensures SameFrom(s, s', names, 0) && Turns(l, s, w, names[..0], keep, faults[..0]) == []
  {
  }

  lemma {:induction false} TurnsUnfold(l: Limits, s: State, w: nat, names: seq<string>, keep: set<string>, faults: seq<Faults>, i: nat)
    requires |faults| == |names| && i < |names|
    ensures Turns(l, s, w, names[..i + 1], keep, faults[..i + 1]) ==
              Turns(l, s, w, names[..i], keep, faults[..i]) + if names[i] in keep then [] else TurnOf(l, s, s.clock, w, names[i], faults[i])
  {
    hide TurnOf;
    assert names[..i + 1][..i] == names[..i] && faults[..i + 1][..i] == faults[..i];
  }

  lemma {:induction false} OneMoreTurn(l: Limits, s0: State, st: State, st': State, w: nat, names: seq<string>, keep: set<string>, faults: seq<Faults>, i: nat, events: seq<Event>)
    requires |faults| == |names| && i < |names| && names[i] !in keep && st.clock == s0.clock
    requires SameBut(st, st', names[i]) && events == TurnOf(l, st, s0.clock, w, names[i], faults[i])
    ensures Distinct(names) && SameFrom(s0, st, names, i) ==>
              SameFrom(s0, st', names, i + 1) && Turns(l, s0, w, names[..i + 1], keep, faults[..i + 1]) == Turns(l, s0, w, names[..i], keep, faults[..i]) + events
  {
    TurnsUnfold(l, s0, w, names, keep, faults, i);
    hide Turns;
    if Distinct(names) && SameFrom(s0, st, names, i) {
      assert SameAt(s0, st, names[i]);
      forall j | i + 1 <= j < |names| ensures SameAt(s0, st', names[j]) {
        assert SameAt(s0, st, names[j]) && SameAt(st, st', names[j]);
      }
    }
  }

  lemma {:induction false} OneMoreKept(l: Limits, s0: State, st: State, w: nat, names: seq<string>, keep: set<string>, faults: seq<Faults>, i: nat)
    requires |faults| == |names| && i < |names| && names[i] in keep
    ensures SameFrom(s0, st, names, i) ==> SameFrom(s0, st, names, i + 1)
    ensures Turns(l, s0, w, names[..i + 1], keep, faults[..i + 1]) == Turns(l, s0, w, names[..i], keep, faults[..i])
  {
    TurnsUnfold(l, s0, w, names, keep, faults, i);
    hide Turns, SameAt;
  }

  lemma {:induction false} BeganGoing(l: Limits, s: State)
    ensures Allowed(l, s, Began)
    ensures After(s, Began) == s.(sweeps := s.sweeps + [Sweep(s.clock, None, None)]) && Going(After(s, Began), |s.sweeps|)
  {
  }

  lemma {:induction false} EndStep(l: Limits, s: State, w: nat, e: Event)
    requires w < |s.sweeps| && Going(s, w) && (e == Stopped(w) || e == Returned(w))
    ensures Allowed(l, s, e)
    ensures After(s, e) == s.(sweeps := s.sweeps[w := s.sweeps[w].(end := Some(if e == Stopped(w) then Silent else Told(s.clock)))])
  {
  }

  /** What a sweep reports as removed, and as about to go. */
  function RemovedIn(log: seq<Event>): seq<string> {
    if log == [] then [] else
      RemovedIn(log[..|log| - 1]) + if log[|log| - 1].Deleted? && log[|log| - 1].markGone then [log[|log| - 1].name] else []
  }

  function ListedIn(log: seq<Event>): seq<(string, nat)> {
    if log == [] then [] else
      ListedIn(log[..|log| - 1])
      + if log[|log| - 1].Marked? && log[|log| - 1].listed then [(log[|log| - 1].name, log[|log| - 1].deleteAfter)] else []
  }

  /** The worktree an event is about. */
  function NameOf(e: Event): Option<string> {
    if e.Passed? || e.Began? || e.Returned? || e.Stopped? then None else Some(e.name)
  }

  /** None of some worktrees is touched. */
  predicate NoneOf(log: seq<Event>, keep: set<string>) { forall e | e in log && NameOf(e).Some? :: NameOf(e).value !in keep }

  lemma {:induction false} NoneOfMore(log: seq<Event>, more: seq<Event>, name: string, keep: set<string>)
    requires NoneOf(log, keep) && name !in keep && forall e | e in more :: NameOf(e) == Some(name)
    ensures NoneOf(log + more, keep)
  {
  }

  lemma {:induction false} ListedMore(log: seq<Event>, more: seq<Event>)
    ensures RemovedIn(log + more) == RemovedIn(log) + RemovedIn(more) && ListedIn(log + more) == ListedIn(log) + ListedIn(more)
    decreases |more|
  {
    hide RemovedIn, ListedIn;
    if more == [] {
      NothingListed();
      assert log + more == log;
    } else {
      var before, e := more[..|more| - 1], more[|more| - 1];
      ListedMore(log, before);
      ListedOneMore(log + before, e);
      ListedOneMore(before, e);
      assert log + before + [e] == log + more && before + [e] == more;
    }
  }

  lemma {:induction false} NothingSeen(l: Limits, s: State, keep: set<string>)
    ensures Seen(s, []) == s && Lawful(l, s, []) && RemovedIn([]) == [] && ListedIn([]) == [] && NoneOf([], keep)
  {
  }

  lemma {:induction false} NothingListed()
    ensures RemovedIn([]) == [] && ListedIn([]) == []
  {
  }

  lemma {:induction false} ListedOneMore(log: seq<Event>, e: Event)
    ensures RemovedIn(log + [e]) == RemovedIn(log) + if e.Deleted? && e.markGone then [e.name] else []
    ensures ListedIn(log + [e]) == ListedIn(log) + if e.Marked? && e.listed then [(e.name, e.deleteAfter)] else []
  {
    assert (log + [e])[..|log|] == log;
  }
}
