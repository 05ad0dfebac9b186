/** The class `MonitorEvents` of extensions/builtin-tools/src/monitor-events.ts: output lines become events, events
    become notices, and one lease on the owner is held until the final notice. */
module MonitorEvents {
  import opened Outcomes
  import opened SourceText

  const MAX_EVENTS := 200
  const MAX_MONITOR_LINE_CHARS := 65536
  const NOTICE_BYTES := 4096
  const OVERSIZED :=
    "An output line exceeded 65536 characters and was omitted before filtering. Limit the command's line length to monitor it."

  /** What a monitor is set up with: its filter, the size of a line in bytes, and its clock settings. */
  datatype Setup = Setup(passes: string -> bool, bytes: string -> nat, batchMs: nat, intervalMs: nat)

  // ----- The events of a whole text

  /** The event a line stands for, if the filter lets it through; a line too long to filter is reported as such. */
  function EventOf(setup: Setup, line: string): Option<string> {
    if |line| > MAX_MONITOR_LINE_CHARS then Some(OVERSIZED)
    else if setup.passes(DropCr(line)) then Some(DropCr(line))
    else None
  }

  function EventsOf(setup: Setup, lines: seq<string>): seq<string> {
    if lines == [] then []
    else
      var before := EventsOf(setup, lines[..|lines| - 1]);
      match EventOf(setup, lines[|lines| - 1])
      case None => before
      case Some(event) => before + [event]
  }

  function First(n: nat, events: seq<string>): seq<string> { if |events| <= n then events else events[..n] }

  /** The complete lines of a text so far, and the unfinished one. */
  function Complete(text: string): seq<string> {
    var parts := SplitOnNewline(text);
    parts[..|parts| - 1]
  }

  function Unfinished(text: string): string {
    var parts := SplitOnNewline(text);
    parts[|parts| - 1]
  }

  lemma {:induction false} EventsMore(setup: Setup, lines: seq<string>, line: string)
    ensures EventsOf(setup, lines + [line]) ==
              EventsOf(setup, lines) + match EventOf(setup, line) case None => [] case Some(event) => [event]
  {
    assert (lines + [line])[..|lines|] == lines;
  }

  /** Later lines only add events. */
  lemma {:induction false} EventsExtend(setup: Setup, lines: seq<string>, rest: seq<string>)
    ensures |EventsOf(setup, lines)| <= |EventsOf(setup, lines + rest)|
    ensures EventsOf(setup, lines + rest)[..|EventsOf(setup, lines)|] == EventsOf(setup, lines)
  {
    if rest == [] {
      assert lines + rest == lines;
    } else {
      var n := |rest| - 1;
      assert lines + rest == lines + rest[..n] + [rest[n]];
      EventsMore(setup, lines + rest[..n], rest[n]);
      EventsExtend(setup, lines, rest[..n]);
    }
  }

  /** Once enough events are there, nothing that follows changes the first ones. */
  lemma {:induction false} FirstIsFinal(setup: Setup, lines: seq<string>, rest: seq<string>)
    requires |EventsOf(setup, lines)| >= MAX_EVENTS
    ensures First(MAX_EVENTS, EventsOf(setup, lines + rest)) == First(MAX_EVENTS, EventsOf(setup, lines))
    ensures |EventsOf(setup, lines + rest)| >= MAX_EVENTS
  {
    EventsExtend(setup, lines, rest);
    hide EventsOf;
    var a, b := EventsOf(setup, lines), EventsOf(setup, lines + rest);
    assert b[..|a|][..MAX_EVENTS] == b[..MAX_EVENTS];
  }

  lemma {:induction false} CompleteLonger(text: string, more: string)
    ensures |Complete(text)| <= |Complete(text + more)| && Complete(text + more)[..|Complete(text)|] == Complete(text)
  {
    SplitConcat(text, more);
  }

  // ----- Books kept on events

  /** The events that were kept, in order. */
  function KeptOf(seen: seq<string>, marks: seq<bool>): seq<string>
    requires |seen| == |marks|
  {
    if seen == [] then []
    else
      var n := |seen| - 1;
      KeptOf(seen[..n], marks[..n]) + if marks[n] then [seen[n]] else []
  }

  function OmittedOf(marks: seq<bool>): nat {
    if marks == [] then 0 else OmittedOf(marks[..|marks| - 1]) + if marks[|marks| - 1] then 0 else 1
  }

  lemma {:induction false} BooksMore(seen: seq<string>, marks: seq<bool>, event: string, kept: bool)
    requires |seen| == |marks|
    ensures KeptOf(seen + [event], marks + [kept]) == KeptOf(seen, marks) + if kept then [event] else []
    ensures OmittedOf(marks + [kept]) == OmittedOf(marks) + if kept then 0 else 1
  {
    assert (seen + [event])[..|seen|] == seen && (marks + [kept])[..|marks|] == marks;
  }

  // ----- The monitor

  /** What the code keeps of the text, and what has happened: events `seen`, which of them were kept (`marks`),
      the lines already `sent` or `discarded`, and how many were only counted. */
  datatype State = State(partial: string, oversized: bool, lines: seq<string>, bytes: nat, omitted: nat, events: nat, paused: bool,
                         seen: seq<string>, marks: seq<bool>, sent: seq<string>, discarded: seq<string>, sentOmitted: nat)

  /** The monitor has taken in exactly `text`: it saw the first events of its complete lines. */
  ghost predicate Reads(setup: Setup, st: State, text: string) {
    var events := EventsOf(setup, Complete(text));
    && st.seen == First(MAX_EVENTS, events) && st.events == |st.seen| && st.paused == (|events| >= MAX_EVENTS)
    && (!st.paused ==>
          && st.oversized == (|Unfinished(text)| > MAX_MONITOR_LINE_CHARS)
          && st.partial == if st.oversized then "" else Unfinished(text))
  }

  /** Every event seen is in one place: sent, waiting, discarded at the end, or counted. */
  ghost predicate Books(st: State) {
    && |st.marks| == |st.seen|
    && KeptOf(st.seen, st.marks) == st.sent + st.lines + st.discarded
    && (st.discarded != [] ==> st.lines == [])
    && OmittedOf(st.marks) == st.sentOmitted + st.omitted
  }

  /** One more piece of an unfinished line. */
  function Longer(st: State, piece: string): State {
    if st.oversized then st
    else if |st.partial| + |piece| > MAX_MONITOR_LINE_CHARS then st.(partial := "", oversized := true)
    else st.(partial := st.partial + piece)
  }

  /** An event is kept if its bytes still fit into a notice, else counted. */
  function Kept(setup: Setup, st: State, line: string): State {
    var kept := st.bytes + (setup.bytes(line) + 1) <= NOTICE_BYTES - 512;
    st.(events := st.events + 1, paused := st.paused || st.events + 1 >= MAX_EVENTS,
        lines := if kept then st.lines + [line] else st.lines,
        bytes := if kept then st.bytes + (setup.bytes(line) + 1) else st.bytes,
        omitted := if kept then st.omitted else st.omitted + 1,
        seen := st.seen + [line], marks := st.marks + [kept])
  }

  /** The end of a line. */
  function Ended(setup: Setup, st: State): State {
    var line := if st.oversized then OVERSIZED else DropCr(st.partial);
    var emptied := st.(partial := "", oversized := false);
    if !st.oversized && !setup.passes(line) then emptied else Kept(setup, emptied, line)
  }

  lemma {:induction false} LongerReads(setup: Setup, st: State, text: string, piece: string)
    requires Reads(setup, st, text) && !st.paused && '\n' !in piece
    ensures Reads(setup, Longer(st, piece), text + piece) && !Longer(st, piece).paused
    ensures Books(st) ==> Books(Longer(st, piece))
  {
    hide SplitOnNewline, EventsOf, KeptOf, OmittedOf;
    SplitLonger(text, piece);
    var p := SplitOnNewline(text);
    assert SplitOnNewline(text + piece)[..|p| - 1] == p[..|p| - 1];
  }

  lemma {:induction false} EndedReads(setup: Setup, st: State, text: string)
    requires Reads(setup, st, text) && !st.paused
    ensures Reads(setup, Ended(setup, st), text + "\n")
  {
    hide SplitOnNewline, EventsOf;
    SplitBreak(text);
    var p := SplitOnNewline(text);
    assert p == p[..|p| - 1] + [p[|p| - 1]] && SplitOnNewline(text + "\n")[..|p|] == p;
    EventsMore(setup, Complete(text), Unfinished(text));
  }

  lemma {:induction false} EndedBooks(setup: Setup, st: State)
    requires Books(st) && st.discarded == []
    ensures Books(Ended(setup, st)) && Ended(setup, st).discarded == []
  {
    var line := if st.oversized then OVERSIZED else DropCr(st.partial);
    var kept := st.bytes + (setup.bytes(line) + 1) <= NOTICE_BYTES - 512;
    BooksMore(st.seen, st.marks, line, kept);
    hide KeptOf, OmittedOf;
    assert st.sent + (st.lines + [line]) == st.sent + st.lines + [line];
    assert st.sent + st.lines + [] == st.sent + st.lines;
  }

  /** Text after the monitor paused changes nothing. */
  lemma {:induction false} PausedReads(setup: Setup, st: State, text: string, more: string)
    requires Reads(setup, st, text) && st.paused
    ensures Reads(setup, st, text + more)
  {
    CompleteLonger(text, more);
    var c := Complete(text + more);
    assert c == Complete(text) + c[|Complete(text)|..];
    FirstIsFinal(setup, Complete(text), c[|Complete(text)|..]);
  }

  /** The end of the output counts as the end of an unfinished line. */
  lemma {:induction false} FinalReads(setup: Setup, st: State, text: string)
    requires Reads(setup, st, text)
    ensures var open := !st.paused && (st.partial != "" || st.oversized);
            (if open then Ended(setup, st) else st).seen == First(MAX_EVENTS, EventsOf(setup, AllLines(text)))
  {
    var p := SplitOnNewline(text);
    assert p == p[..|p| - 1] + [p[|p| - 1]];
    EventsMore(setup, Complete(text), Unfinished(text));
    EventsExtend(setup, Complete(text), [Unfinished(text)]);
    if st.paused {
      FirstIsFinal(setup, Complete(text), [Unfinished(text)]);
    }
    hide SplitOnNewline, EventsOf;
  }

  // ----- Notices and the lease

  /** A notice put together: whether it went out, whether it is the final one, what it says, and when. */
  datatype Notice = Notice(delivered: bool, last: bool, lines: seq<string>, omitted: nat, throttled: bool, at: int)

  /** After a timeout `run` goes on in its own time; the job may end before it does. */
  datatype Phase = Running | TimedOut(ended: Option<bool>) | Stopping(owned: bool) | Over

  function SentLines(notices: seq<Notice>): seq<string> {
    if notices == [] then [] else SentLines(notices[..|notices| - 1]) + notices[|notices| - 1].lines
  }

  function SentOmitted(notices: seq<Notice>): nat {
    if notices == [] then 0 else SentOmitted(notices[..|notices| - 1]) + notices[|notices| - 1].omitted
  }

  function Finals(notices: seq<Notice>): nat {
    if notices == [] then 0 else Finals(notices[..|notices| - 1]) + if notices[|notices| - 1].last then 1 else 0
  }

  /** Notices other than the final one keep their distance from the one before. */
  ghost predicate Spaced(notices: seq<Notice>, intervalMs: nat) {
    forall i | 0 < i < |notices| && !notices[i].last :: notices[i - 1].at + intervalMs <= notices[i].at
  }

  lemma {:induction false} NoticesMore(notices: seq<Notice>, notice: Notice)
    ensures SentLines(notices + [notice]) == SentLines(notices) + notice.lines
    ensures SentOmitted(notices + [notice]) == SentOmitted(notices) + notice.omitted
    ensures Finals(notices + [notice]) == Finals(notices) + if notice.last then 1 else 0
  {
    assert (notices + [notice])[..|notices|] == notices;
  }

  /** The rest of what a monitor keeps: `taken` and `settled` count leases. */
  datatype Duty = Duty(notices: seq<Notice>, throttled: bool, lastSent: int, timer: Option<int>, pending: bool, phase: Phase,
                       leased: bool, taken: nat, settled: nat)

  ghost predicate DutySound(setup: Setup, duty: Duty) {
    && Spaced(duty.notices, setup.intervalMs)
    && (duty.notices != [] ==> duty.lastSent == duty.notices[|duty.notices| - 1].at)
    && (duty.timer.Some? ==> duty.lastSent + setup.intervalMs <= duty.timer.value)
    && duty.taken == duty.settled + (if duty.pending then 1 else 0)
    && (duty.phase.Over? ==> !duty.pending && duty.timer.None?)
    && (!duty.phase.Over? ==> Finals(duty.notices) == 0 && (duty.leased ==> duty.pending))
    && (duty.leased ==> forall n | n in duty.notices :: n.delivered)
    && Finals(duty.notices) <= 1
  }

  // ----- The bytes of a notice

  const BUDGET := NOTICE_BYTES - 512

  function Total(setup: Setup, lines: seq<string>): nat {
    if lines == [] then 0 else Total(setup, lines[..|lines| - 1]) + setup.bytes(lines[|lines| - 1]) + 1
  }

  /** Of some events, those that fit into one notice, taken in order; one that does not fit is passed over. */
  function Fitting(setup: Setup, events: seq<string>): (kept: seq<string>)
    ensures Total(setup, kept) <= BUDGET && |kept| <= |events|
  {
    if events == [] then []
    else
      var kept, event := Fitting(setup, events[..|events| - 1]), events[|events| - 1];
      assert (kept + [event])[..|kept|] == kept;
      if Total(setup, kept) + setup.bytes(event) + 1 <= BUDGET then kept + [event] else kept
  }

  /** How many events some notices account for. */
  function ToldIn(notices: seq<Notice>): nat {
    if notices == [] then 0 else ToldIn(notices[..|notices| - 1]) + |notices[|notices| - 1].lines| + notices[|notices| - 1].omitted
  }

  /** Each notice says what fits of the events since the one before, and counts the others. */
  ghost predicate SaysWhatFits(setup: Setup, seen: seq<string>, notices: seq<Notice>) {
    notices == [] ||
      var before, last := notices[..|notices| - 1], notices[|notices| - 1];
      && SaysWhatFits(setup, seen, before) && ToldIn(notices) <= |seen|
      && last.lines == Fitting(setup, seen[ToldIn(before)..ToldIn(notices)])
  }

  /** What waits for the next notice is what fits of the events since the last one. */
  ghost predicate Waits(setup: Setup, st: State, notices: seq<Notice>) {
    && ToldIn(notices) + |st.lines| + st.omitted == |st.seen|
    && st.lines == Fitting(setup, st.seen[ToldIn(notices)..]) && st.bytes == Total(setup, st.lines)
  }

  ghost predicate InBudget(setup: Setup, st: State, duty: Duty) {
    SaysWhatFits(setup, st.seen, duty.notices) && (!duty.phase.Over? ==> Waits(setup, st, duty.notices))
  }

  lemma {:induction false} SaysStays(setup: Setup, seen: seq<string>, event: string, notices: seq<Notice>)
    requires SaysWhatFits(setup, seen, notices)
    ensures SaysWhatFits(setup, seen + [event], notices)
  {
    hide Fitting;
    if notices != [] {
      var before := notices[..|notices| - 1];
      SaysStays(setup, seen, event, before);
      assert (seen + [event])[ToldIn(before)..ToldIn(notices)] == seen[ToldIn(before)..ToldIn(notices)];
    }
  }

  lemma {:induction false} FittingMore(setup: Setup, events: seq<string>, event: string)
    ensures var kept := Fitting(setup, events);
            Fitting(setup, events + [event]) == if Total(setup, kept) + setup.bytes(event) + 1 <= BUDGET then kept + [event] else kept
    ensures Total(setup, events + [event]) == Total(setup, events) + setup.bytes(event) + 1
  {
    assert (events + [event])[..|events|] == events;
  }

  lemma {:induction false} KeptInBudget(setup: Setup, st: State, duty: Duty, line: string)
    requires InBudget(setup, st, duty) && !duty.phase.Over?
    ensures InBudget(setup, Kept(setup, st, line), duty)
  {
    hide Fitting, Total;
    SaysStays(setup, st.seen, line, duty.notices);
    var since := st.seen[ToldIn(duty.notices)..];
    assert (st.seen + [line])[ToldIn(duty.notices)..] == since + [line];
    FittingMore(setup, since, line);
    FittingMore(setup, st.lines, line);
  }

  lemma {:induction false} EndedInBudget(setup: Setup, st: State, duty: Duty)
    requires InBudget(setup, st, duty) && !duty.phase.Over?
    ensures InBudget(setup, Ended(setup, st), duty)
  {
    var line := if st.oversized then OVERSIZED else DropCr(st.partial);
    var emptied := st.(partial := "", oversized := false);
    assert InBudget(setup, emptied, duty);
    KeptInBudget(setup, emptied, duty, line);
    hide InBudget, Kept, DropCr;
  }

  lemma {:induction false} ToldMore(notices: seq<Notice>, notice: Notice)
    ensures ToldIn(notices + [notice]) == ToldIn(notices) + |notice.lines| + notice.omitted
  {
    assert (notices + [notice])[..|notices|] == notices;
  }

  lemma {:induction false} NoticedInBudget(setup: Setup, st: State, duty: Duty, last: bool, now: int)
    requires InBudget(setup, st, duty) && !duty.phase.Over?
    ensures InBudget(setup, Drained(st), Noticed(st, duty, last, now)) && InBudget(setup, Drained(st), Noticed(st, duty, last, now).(phase := Over))
  {
    var notice := Notice(duty.pending, last, st.lines, st.omitted, duty.throttled, now);
    ToldMore(duty.notices, notice);
    hide ToldIn;
    assert (duty.notices + [notice])[..|duty.notices|] == duty.notices;
    assert st.seen[ToldIn(duty.notices)..|st.seen|] == st.seen[ToldIn(duty.notices)..];
    assert Fitting(setup, st.seen[|st.seen|..]) == [] && Total(setup, []) == 0;
  }

  /** Draining nothing changes nothing. */
  lemma {:induction false} DrainedInBudget(setup: Setup, st: State, duty: Duty)
    requires InBudget(setup, st, duty) && NothingToSay(st, duty)
    ensures InBudget(setup, Drained(st), duty)
  {
    hide Fitting, SaysWhatFits;
    assert Total(setup, []) == 0;
  }

  lemma {:induction false} InBudgetIgnores(setup: Setup, st: State, duty: Duty, st': State, duty': Duty)
    requires InBudget(setup, st, duty) && duty'.notices == duty.notices && (duty'.phase.Over? || !duty.phase.Over?) && st'.seen == st.seen
    requires !duty'.phase.Over? ==> st'.lines == st.lines && st'.omitted == st.omitted && st'.bytes == st.bytes
    ensures InBudget(setup, st', duty')
  {
    hide Fitting, SaysWhatFits;
  }

  ghost predicate Sound(setup: Setup, st: State, duty: Duty) {
    && Books(st) && DutySound(setup, duty) && InBudget(setup, st, duty)
    && st.sent == SentLines(duty.notices) && st.sentOmitted == SentOmitted(duty.notices)
    && (!duty.phase.Over? ==> st.discarded == [])
  }

  /** A timer is set for when the next notice may go out. */
  function Armed(setup: Setup, duty: Duty, now: int, stopRequested: bool): Duty {
    if duty.timer.Some? || stopRequested then duty
    else
      var wait := duty.lastSent + setup.intervalMs - now;
      duty.(timer := Some(now + if setup.batchMs < wait then wait else setup.batchMs))
  }

  /** What a line that became an event does to the rest: the monitor may be throttled, and the timer is armed. */
  function Heard(setup: Setup, st: State, duty: Duty, now: int, stopRequested: bool): Duty {
    var events := Ended(setup, st).events;
    if events == st.events then duty
    else Armed(setup, duty.(throttled := duty.throttled || events >= MAX_EVENTS), now, stopRequested)
  }

  /** What `#flush` takes out of the state. */
  function Drained(st: State): State { st.(lines := [], bytes := 0, omitted := 0, sent := st.sent + st.lines, sentOmitted := st.sentOmitted + st.omitted) }

  predicate NothingToSay(st: State, duty: Duty) { st.lines == [] && st.omitted == 0 && !duty.throttled }

  /** What sending a notice does to the lease: the held one is used, and renewed unless this is the last. */
  function Noticed(st: State, duty: Duty, last: bool, now: int): Duty {
    var notice := Notice(duty.pending, last, st.lines, st.omitted, duty.throttled, now);
    duty.(notices := duty.notices + [notice], throttled := false, lastSent := now, timer := None, pending := !last,
          taken := duty.taken + (if last then 0 else 1), settled := duty.settled + (if duty.pending then 1 else 0))
  }

  lemma {:induction false} DrainedBooks(st: State)
    requires Books(st) && st.discarded == []
    ensures Books(Drained(st))
  {
    assert st.sent + st.lines + [] == st.sent + st.lines && st.sent + st.lines + [] + [] == st.sent + st.lines;
    hide KeptOf, OmittedOf;
  }

  lemma {:induction false} NoticedSound(setup: Setup, st: State, duty: Duty, last: bool, now: int)
    requires Sound(setup, st, duty) && !duty.phase.Over?
    requires !last ==> duty.notices == [] || duty.lastSent + setup.intervalMs <= now
    ensures !last ==> Sound(setup, Drained(st), Noticed(st, duty, last, now))
    ensures last ==> Sound(setup, Drained(st), Noticed(st, duty, last, now).(phase := Over))
    ensures last ==> Finals(Noticed(st, duty, last, now).notices) == 1
  {
    hide Books, SentLines, SentOmitted, Finals, InBudget;
    DrainedBooks(st);
    NoticedInBudget(setup, st, duty, last, now);
    var notice := Notice(duty.pending, last, st.lines, st.omitted, duty.throttled, now);
    NoticesMore(duty.notices, notice);
    SpacedMore(duty.notices, notice, setup.intervalMs);
    hide Spaced;
  }

  lemma {:induction false} SpacedMore(notices: seq<Notice>, notice: Notice, intervalMs: nat)
    requires Spaced(notices, intervalMs)
    requires notice.last || notices == [] || notices[|notices| - 1].at + intervalMs <= notice.at
    ensures Spaced(notices + [notice], intervalMs)
  {
  }

  lemma {:induction false} ArmedSound(setup: Setup, duty: Duty, now: int, stopRequested: bool)
    requires DutySound(setup, duty) && !duty.phase.Over?
    ensures DutySound(setup, Armed(setup, duty, now, stopRequested))
  {
    hide Finals;
  }

  /** What `run` does in the end: the lease is given back and what was not sent is discarded. */
  function Closed(st: State): State { st.(partial := "", lines := [], discarded := st.discarded + st.lines) }

  function Released(duty: Duty): Duty {
    duty.(phase := Over, timer := None, pending := false, settled := duty.settled + if duty.pending then 1 else 0)
  }

  lemma {:induction false} ClosedSound(setup: Setup, st: State, duty: Duty)
    requires Sound(setup, st, duty)
    ensures Sound(setup, Closed(st), Released(duty))
    ensures Released(duty).taken == Released(duty).settled
  {
    hide KeptOf, OmittedOf, SentLines, SentOmitted, Finals, InBudget;
    InBudgetIgnores(setup, st, duty, Closed(st), Released(duty));
    assert st.sent + st.lines + st.discarded == st.sent + [] + (st.discarded + st.lines) by {
      if st.discarded != [] {
        assert st.lines == [];
      }
      assert st.sent + [] == st.sent && [] + st.lines == st.lines && st.discarded + [] == st.discarded && st.sent + [] + st.discarded == st.sent + st.discarded;
    }
  }

  lemma {:induction false} StartSound(setup: Setup, pending: bool)
    ensures var st, duty := State("", false, [], 0, 0, 0, false, [], [], [], [], 0),
                            Duty([], false, 0, None, pending, Running, pending, if pending then 1 else 0, 0);
            Sound(setup, st, duty) && Reads(setup, st, "")
  {
    assert Complete("") == [] && Unfinished("") == "";
  }

  /** What has happened: the events seen and which were kept, what was sent and discarded, and the leases. */
  datatype Ledger = Ledger(seen: seq<string>, marks: seq<bool>, sent: seq<string>, discarded: seq<string>, sentOmitted: nat, taken: nat, settled: nat)

  class Monitor {
    const setup: Setup
    var partial: string
    var oversized: bool
    var lines: seq<string>
    var bytes: nat
    var omitted: nat
    var events: nat
    var paused: bool
    var throttled: bool
    var lastSent: int
    var timer: Option<int>
    var pending: bool
    var phase: Phase
    var stopRequested: bool
    var notices: seq<Notice>
    ghost var ledger: Ledger
    ghost const leased: bool

    ghost function Now(): State
      reads this
    {
      State(partial, oversized, lines, bytes, omitted, events, paused, ledger.seen, ledger.marks, ledger.sent, ledger.discarded, ledger.sentOmitted)
    }

    ghost function Duties(): Duty
      reads this
    {
      Duty(notices, throttled, lastSent, timer, pending, phase, leased, ledger.taken, ledger.settled)
    }

    constructor (setup: Setup, pending: bool)
      ensures this.setup == setup && leased == pending && phase == Running
      ensures Sound(setup, Now(), Duties()) && Reads(setup, Now(), "")
    {
      this.setup := setup;
      partial, oversized, lines, bytes, omitted, events, paused := "", false, [], 0, 0, 0, false;
      throttled, lastSent, timer, this.pending, phase, stopRequested, notices := false, 0, None, pending, Running, false, [];
      leased, ledger := pending, Ledger([], [], [], [], 0, if pending then 1 else 0, 0);
      new;
      hide Sound, Reads;
      StartSound(setup, pending);
    }

    /** `#line`: the end of a line. */
    method Line(now: int, ghost text: string)
      requires Sound(setup, Now(), Duties()) && Reads(setup, Now(), text) && !paused && !phase.Over?
      modifies this
      ensures Now() == Ended(setup, old(Now())) && phase == old(phase) && stopRequested == old(stopRequested) && notices == old(notices)
      ensures Duties() == Heard(setup, old(Now()), old(Duties()), now, stopRequested)
      ensures Sound(setup, Now(), Duties()) && Reads(setup, Now(), text + "\n")
    {
      hide Sound, Reads, DropCr, SplitOnNewline;
      ghost var st, duty := Now(), Duties();
      EndedReads(setup, st, text);
      EndedSound(setup, st, duty, duty.throttled, now, stopRequested);
      EndedSound(setup, st, duty, duty.throttled || Ended(setup, st).events >= MAX_EVENTS, now, stopRequested);
      var line := if oversized then OVERSIZED else DropCr(partial);
      var filtered := !oversized && !setup.passes(line);
      partial, oversized := "", false;
      if !filtered {
        Hear(line, now);
      }
      assert Now() == Ended(setup, st);
      hide Ended, Armed;
      assert Duties() == Heard(setup, st, duty, now, stopRequested);
    }

    /** The rest of `#line` for an event. */
    method Hear(line: string, now: int)
      modifies this
      ensures Now() == Kept(setup, old(Now()), line) && stopRequested == old(stopRequested)
      ensures Duties() == Armed(setup, old(Duties()).(throttled := old(throttled) || events >= MAX_EVENTS), now, stopRequested)
    {
      ghost var duty := Duties();
      Count(line);
      if events >= MAX_EVENTS {
        throttled := true;
      }
      if timer.None? && !stopRequested {
        var wait := lastSent + setup.intervalMs - now;
        timer := Some(now + if setup.batchMs < wait then wait else setup.batchMs);
      }
    }

    method Count(line: string)
      modifies this
      ensures Now() == Kept(setup, old(Now()), line)
      ensures Duties() == old(Duties()) && stopRequested == old(stopRequested)
    {
      var size := setup.bytes(line) + 1;
      ledger := ledger.(seen := ledger.seen + [line], marks := ledger.marks + [bytes + size <= NOTICE_BYTES - 512]);
      events := events + 1;
      if bytes + size <= NOTICE_BYTES - 512 {
        lines, bytes := lines + [line], bytes + size;
      } else {
        omitted := omitted + 1;
      }
      if events >= MAX_EVENTS {
        paused := true;
      }
    }

    /** `#feed`: takes in a piece of output, up to the event at which the monitor pauses. */
    method Feed(text: string, now: int, ghost before: string)
      requires Sound(setup, Now(), Duties()) && Reads(setup, Now(), before) && !phase.Over?
      modifies this
      ensures Sound(setup, Now(), Duties()) && Reads(setup, Now(), before + text)
      ensures phase == old(phase) && stopRequested == old(stopRequested) && notices == old(notices)
    {
      hide Sound, Reads, Ended, SplitOnNewline, DropCr;
      var at := 0;
      assert before + text[..0] == before;
      while at < |text| && !paused
        invariant 0 <= at <= |text| && Sound(setup, Now(), Duties()) && Reads(setup, Now(), before + text[..at])
        invariant phase == old(phase) && stopRequested == old(stopRequested) && notices == old(notices)
        decreases |text| - at
      {
        var nl := IndexOfBreak(text, at);
        var stop := if nl.None? then |text| else nl.value;
        Append(text[at..stop], before + text[..at]);
        assert before + text[..at] + text[at..stop] == before + text[..stop];
        if nl.None? {
          assert before + text[..stop] == before + text;
          return;
        }
        Line(now, before + text[..stop]);
        assert before + text[..stop] + "\n" == before + text[..stop + 1];
        at := stop + 1;
      }
      if at < |text| {
        PausedReads(setup, Now(), before + text[..at], text[at..]);
      }
      assert before + text[..at] + text[at..] == before + text;
      assert at == |text| ==> before + text[..at] == before + text;
    }

    method Append(piece: string, ghost text: string)
      requires Sound(setup, Now(), Duties()) && Reads(setup, Now(), text) && !paused && '\n' !in piece
      modifies this
      ensures Sound(setup, Now(), Duties()) && Reads(setup, Now(), text + piece)
      ensures !paused && phase == old(phase) && stopRequested == old(stopRequested) && notices == old(notices)
    {
      hide Sound, Reads;
      LongerReads(setup, Now(), text, piece);
      LongerSound(setup, Now(), Duties(), piece);
      ghost var longer := Longer(Now(), piece);
      if !oversized {
        if |partial| + |piece| > MAX_MONITOR_LINE_CHARS {
          partial, oversized := "", true;
        } else {
          partial := partial + piece;
        }
      }
      assert Now() == longer;
    }

    /** The end of the output: an unfinished line counts. */
    method LastLine(now: int, ghost text: string)
      requires Sound(setup, Now(), Duties()) && Reads(setup, Now(), text) && !phase.Over?
      modifies this
      ensures Sound(setup, Now(), Duties()) && ledger.seen == First(MAX_EVENTS, EventsOf(setup, AllLines(text)))
      ensures phase == old(phase) && stopRequested == old(stopRequested) && notices == old(notices)
    {
      hide Sound, Reads, SplitOnNewline, EventsOf;
      FinalReads(setup, Now(), text);
      ghost var st := Now();
      if !paused && (partial != "" || oversized) {
        Line(now, text);
        assert Now() == Ended(setup, st);
      }
    }

    /** `#flush`: what has gathered goes out as one notice, unless the owner is gone; the last one always does. */
    method Flush(last: bool, owns: bool, now: int)
      requires Sound(setup, Now(), Duties()) && !phase.Over?
      requires !last ==> notices == [] || lastSent + setup.intervalMs <= now
      modifies this
      ensures Sound(setup, Now(), Duties()) && phase == if last then Over else old(phase)
      ensures ledger.seen == old(ledger).seen && stopRequested == old(stopRequested) && paused == old(paused) && partial == old(partial) && oversized == old(oversized)
      ensures events == old(events)
      ensures last ==> Finals(notices) == 1
      ensures var says := last || (owns && !stopRequested && !NothingToSay(old(Now()), old(Duties())));
              notices == old(notices) + if says then [Notice(old(pending), last, old(lines), old(omitted), old(throttled), now)] else []
    {
      hide Sound, Finals, Spaced, Noticed, Drained;
      ghost var st, duty := Now(), Duties();
      NoticedSound(setup, st, duty, last, now);
      UnarmedSound(setup, st, duty);
      DrainedKeeps(st);
      NoticedKeeps(st, duty, last, now);
      timer := None;
      assert Duties() == duty.(timer := None);
      if !last && (stopRequested || !owns) {
        return;
      }
      var notice := Notice(pending, last, lines, omitted, throttled, now);
      Drain();
      if !last && notice.lines == [] && notice.omitted == 0 && !notice.throttled {
        return;
      }
      Send(notice, st, duty);
    }

    method Drain()
      modifies this
      ensures Now() == Drained(old(Now())) && Duties() == old(Duties()) && stopRequested == old(stopRequested)
    {
      ghost var st := Now();
      ledger := ledger.(sent := ledger.sent + lines, sentOmitted := ledger.sentOmitted + omitted);
      lines, bytes, omitted := [], 0, 0;
      assert Now() == Drained(st);
    }

    /** Uses the lease for a notice and renews it first, unless the notice is the last. */
    method Send(notice: Notice, ghost st: State, ghost duty: Duty)
      requires Duties() == duty.(timer := None)
      requires notice == Notice(duty.pending, notice.last, st.lines, st.omitted, duty.throttled, notice.at)
      modifies this
      ensures Now() == old(Now()) && stopRequested == old(stopRequested)
      ensures Duties() == var d := Noticed(st, duty, notice.last, notice.at); if notice.last then d.(phase := Over) else d
    {
      ledger := ledger.(taken := ledger.taken + (if notice.last then 0 else 1), settled := ledger.settled + (if pending then 1 else 0));
      pending := !notice.last;
      notices, throttled, lastSent := notices + [notice], false, notice.at;
      if notice.last {
        phase := Over;
      }
    }

    /** `observe` of output. */
    method Output(text: string, requested: bool, now: int, ghost before: string)
      requires Sound(setup, Now(), Duties()) && (!phase.Over? ==> Reads(setup, Now(), before))
      modifies this
      ensures Sound(setup, Now(), Duties()) && phase == old(phase) && notices == old(notices)
      ensures !phase.Over? && !requested ==> Reads(setup, Now(), before + text)
      ensures !phase.Over? && requested ==> Reads(setup, Now(), before) && timer == None
      ensures !phase.Over? ==> stopRequested == requested
    {
      hide Sound, Reads;
      if phase.Over? {
        return;
      }
      stopRequested := requested;
      if requested {
        Disarm();
      } else {
        Feed(text, now, before);
      }
    }

    method Disarm()
      requires Sound(setup, Now(), Duties()) && !phase.Over?
      modifies this
      ensures Sound(setup, Now(), Duties()) && Now() == old(Now())
      ensures phase == old(phase) && notices == old(notices) && stopRequested == old(stopRequested) && timer == None
    {
      hide Sound;
      UnarmedSound(setup, Now(), Duties());
      ghost var duty := Duties();
      timer := None;
      assert Duties() == duty.(timer := None);
    }

    /** The timer fires, never before its time. */
    method TimerFires(owns: bool, now: int, ghost text: string)
      requires Sound(setup, Now(), Duties()) && Reads(setup, Now(), text) && timer.Some? && timer.value <= now
      modifies this
      ensures Sound(setup, Now(), Duties()) && Reads(setup, Now(), text) && phase == old(phase)
      ensures notices == old(notices) + if !owns || stopRequested || NothingToSay(old(Now()), old(Duties())) then []
                                        else [Notice(old(pending), false, old(lines), old(omitted), old(throttled), now)]
    {
      TimerIsDue(setup, Now(), Duties());
      hide Sound, EventsOf, SplitOnNewline;
      Flush(false, owns, now);
    }

    /** `observe` of the job's end: with its notices owned, the final one goes out before anything else can, and
        the monitor is over; after a timeout that final notice is left to the timeout, with the notices owned as now. */
    method JobEnds(owns: bool, requested: bool, now: int, ghost text: string)
      requires Sound(setup, Now(), Duties()) && (!phase.Over? ==> Reads(setup, Now(), text))
      modifies this
      ensures Sound(setup, Now(), Duties())
      ensures old(phase).Over? ==> phase == old(phase) && notices == old(notices)
      ensures old(phase).Stopping? ==> phase == old(phase) && notices == old(notices)
      ensures old(phase).TimedOut? ==> phase == TimedOut(Some(owns)) && notices == old(notices)
      ensures !old(phase).Over? ==> ledger.seen == First(MAX_EVENTS, EventsOf(setup, AllLines(text)))
      ensures old(phase).Running? ==> phase.Over? && Finals(notices) == if owns then 1 else 0
      ensures !old(phase).Over? ==> stopRequested == requested
    {
      hide Sound, Reads, Finals, EventsOf;
      if phase.Over? {
        return;
      }
      NoFinalYet(setup, Now(), Duties());
      stopRequested := requested;
      if requested {
        Disarm();
      }
      LastLine(now, text);
      if phase.Running? {
        if owns {
          Flush(true, true, now);
        }
        Close();
      } else if phase.TimedOut? {
        ToPhase(TimedOut(Some(owns)));
      }
    }

    /** The time is over. */
    method TimesOut()
      requires Sound(setup, Now(), Duties()) && phase.Running?
      modifies this
      ensures Sound(setup, Now(), Duties()) && phase == TimedOut(None) && Now() == old(Now()) && notices == old(notices)
    {
      ToPhase(TimedOut(None));
    }

    method ToPhase(next: Phase)
      requires Sound(setup, Now(), Duties()) && !phase.Over? && !next.Over?
      modifies this
      ensures Sound(setup, Now(), Duties()) && phase == next && Now() == old(Now()) && notices == old(notices) && stopRequested == old(stopRequested)
    {
      hide Sound;
      PhaseSound(setup, Now(), Duties(), next);
      ghost var duty := Duties();
      phase := next;
      assert Duties() == duty.(phase := next);
    }

    /** `run` goes on after the timeout. It asks for a stop, and who owns the notices is decided now; unless the job has
        ended meanwhile: then the final notice goes out if they were owned at its end. */
    method Proceed(owns: bool, now: int)
      requires Sound(setup, Now(), Duties()) && phase.TimedOut?
      modifies this
      ensures Sound(setup, Now(), Duties()) && ledger.seen == old(ledger).seen
      ensures match old(phase).ended
              case None => phase == Stopping(owns) && Now() == old(Now()) && notices == old(notices)
              case Some(owned) => phase.Over? && Finals(notices) == if owned then 1 else 0
    {
      hide Sound, Finals;
      NoFinalYet(setup, Now(), Duties());
      match phase.ended
      case None =>
        ToPhase(Stopping(owns));
      case Some(owned) =>
        if owned {
          Flush(true, true, now);
        }
        Close();
    }

    /** The stop has been answered: the final notice says so, and the monitor is over. */
    method StopAnswered(now: int)
      requires Sound(setup, Now(), Duties()) && phase.Stopping?
      modifies this
      ensures Sound(setup, Now(), Duties()) && phase.Over? && ledger.seen == old(ledger).seen
      ensures Finals(notices) == if old(phase).owned then 1 else 0
    {
      hide Sound, Finals;
      NoFinalYet(setup, Now(), Duties());
      if phase.owned {
        Flush(true, true, now);
      }
      Close();
    }

    /** The end of `run`. */
    method Close()
      requires Sound(setup, Now(), Duties())
      modifies this
      ensures Sound(setup, Now(), Duties()) && phase.Over? && notices == old(notices) && ledger.seen == old(ledger).seen
      ensures ledger.taken == ledger.settled && stopRequested == old(stopRequested)
    {
      hide Sound;
      ghost var st, duty := Now(), Duties();
      ClosedSound(setup, st, duty);
      phase, timer, partial := Over, None, "";
      ledger := ledger.(discarded := ledger.discarded + lines, settled := ledger.settled + if pending then 1 else 0);
      lines := [];
      pending := false;
      assert Now() == Closed(st);
      assert Duties() == Released(duty);
    }
  }

  lemma {:induction false} TimerIsDue(setup: Setup, st: State, duty: Duty)
    requires Sound(setup, st, duty) && duty.timer.Some?
    ensures !duty.phase.Over? && duty.lastSent + setup.intervalMs <= duty.timer.value
  {
    hide Books, Finals, Spaced, SentLines, SentOmitted, InBudget;
  }

  lemma {:induction false} NoFinalYet(setup: Setup, st: State, duty: Duty)
    requires Sound(setup, st, duty) && !duty.phase.Over?
    ensures Finals(duty.notices) == 0
  {
    hide Books, Finals, Spaced, SentLines, SentOmitted, InBudget;
  }

  lemma {:induction false} PhaseSound(setup: Setup, st: State, duty: Duty, next: Phase)
    requires Sound(setup, st, duty) && !duty.phase.Over? && !next.Over?
    ensures Sound(setup, st, duty.(phase := next))
  {
    InBudgetIgnores(setup, st, duty, st, duty.(phase := next));
    hide Books, Finals, Spaced, SentLines, SentOmitted, InBudget;
  }

  // ----- What this means

  /** A monitor given a lease holds exactly one until it is over, and none then; all its notices were delivered,
      at most one of them final, the others `intervalMs` apart. */
  lemma {:induction false} OneLease(setup: Setup, st: State, duty: Duty)
    requires Sound(setup, st, duty) && duty.leased
    ensures duty.taken == duty.settled + if duty.phase.Over? then 0 else 1
    ensures Finals(duty.notices) <= 1 && Spaced(duty.notices, setup.intervalMs) && forall n | n in duty.notices :: n.delivered
  {
    hide Books, SentLines, SentOmitted, InBudget;
  }

  /** Each notice says, of the events since the one before, those that fit into its bytes, and counts the others; so
      does what waits for the next one. */
  lemma {:induction false} NoticesAreFilled(setup: Setup, st: State, duty: Duty)
    requires Sound(setup, st, duty)
    ensures SaysWhatFits(setup, st.seen, duty.notices) && forall n | n in duty.notices :: Total(setup, n.lines) <= BUDGET
    ensures !duty.phase.Over? ==> st.lines == Fitting(setup, st.seen[ToldIn(duty.notices)..])
  {
    hide Books, DutySound, Fitting, Total;
    AllFit(setup, st.seen, duty.notices);
  }

  lemma {:induction false} AllFit(setup: Setup, seen: seq<string>, notices: seq<Notice>)
    requires SaysWhatFits(setup, seen, notices)
    ensures forall n | n in notices :: Total(setup, n.lines) <= BUDGET
  {
    if notices != [] {
      AllFit(setup, seen, notices[..|notices| - 1]);
      assert notices == notices[..|notices| - 1] + [notices[|notices| - 1]];
    }
  }

  /** Each event seen is in exactly one place: in a notice, counted in one, waiting to be, or discarded at the end. */
  lemma {:induction false} EveryEventIsSomewhere(setup: Setup, st: State, duty: Duty)
    requires Sound(setup, st, duty)
    ensures |st.seen| == |SentLines(duty.notices)| + |st.lines| + |st.discarded| + SentOmitted(duty.notices) + st.omitted
    ensures KeptOf(st.seen, st.marks) == SentLines(duty.notices) + st.lines + st.discarded
  {
    hide InBudget;
    KeptAndOmitted(st.seen, st.marks);
  }

  lemma {:induction false} KeptAndOmitted(seen: seq<string>, marks: seq<bool>)
    requires |seen| == |marks|
    ensures |KeptOf(seen, marks)| + OmittedOf(marks) == |seen|
  {
    if seen != [] {
      KeptAndOmitted(seen[..|seen| - 1], marks[..|seen| - 1]);
    }
  }

  lemma {:induction false} DrainedKeeps(st: State)
    ensures var d := Drained(st);
            d.seen == st.seen && d.paused == st.paused && d.partial == st.partial && d.oversized == st.oversized && d.events == st.events
  {
  }

  lemma {:induction false} NoticedKeeps(st: State, duty: Duty, last: bool, now: int)
    ensures Noticed(st, duty, last, now).notices == duty.notices + [Notice(duty.pending, last, st.lines, st.omitted, duty.throttled, now)]
    ensures Noticed(st, duty, last, now).phase == duty.phase
  {
  }

  lemma {:induction false} LongerSound(setup: Setup, st: State, duty: Duty, piece: string)
    requires Sound(setup, st, duty)
    ensures Sound(setup, Longer(st, piece), duty)
  {
    InBudgetIgnores(setup, st, duty, Longer(st, piece), duty);
    hide KeptOf, OmittedOf, DutySound, InBudget;
  }

  /** A flush that has nothing to say, or nobody to say it to, only clears the timer. */
  lemma {:induction false} UnarmedSound(setup: Setup, st: State, duty: Duty)
    requires Sound(setup, st, duty) && !duty.phase.Over?
    ensures Sound(setup, st, duty.(timer := None))
    ensures NothingToSay(st, duty) ==> Sound(setup, Drained(st), duty.(timer := None))
  {
    DrainedBooks(st);
    InBudgetIgnores(setup, st, duty, st, duty.(timer := None));
    if NothingToSay(st, duty) {
      DrainedInBudget(setup, st, duty.(timer := None));
    }
    hide Books, SentLines, SentOmitted, Finals, Spaced, InBudget;
    assert st.sent + [] == st.sent;
  }

  /** The end of a line keeps the books, and may arm the timer. */
  lemma {:induction false} EndedSound(setup: Setup, st: State, duty: Duty, throttled: bool, now: int, stopRequested: bool)
    requires Sound(setup, st, duty) && !duty.phase.Over?
    ensures Sound(setup, Ended(setup, st), duty.(throttled := throttled))
    ensures Sound(setup, Ended(setup, st), Armed(setup, duty.(throttled := throttled), now, stopRequested))
  {
    EndedBooks(setup, st);
    EndedInBudget(setup, st, duty);
    var throttling := duty.(throttled := throttled);
    ArmedSound(setup, throttling, now, stopRequested);
    InBudgetIgnores(setup, Ended(setup, st), duty, Ended(setup, st), throttling);
    InBudgetIgnores(setup, Ended(setup, st), duty, Ended(setup, st), Armed(setup, throttling, now, stopRequested));
    hide Books, SentLines, SentOmitted, Finals, InBudget, Ended;
  }
}
