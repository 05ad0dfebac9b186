/** Background sub-agents and their reports (extensions/agent/src/index.ts and tools.ts): each report is handed
    out once, by an `agent_result` call or in one message. */
module AgentReports {
  import opened Outcomes

  type JobId = string
  type Session = string

  /** A job in the background: its commander, the table it was filed in, and whether its notice is still held. */
  datatype Job = Job(commander: Session, table: nat, done: bool, notice: bool, waiters: nat)

  /** An `agent_result` call with the jobs it found. */
  datatype Call = Call(session: Session, table: nat, found: seq<JobId>, waiting: bool)

  /** `tables` are the maps made for commanders: a call keeps the one it started with, also when `background`
      no longer leads there. `handed`, `leased`, `settled` and `dropped` record what has happened. */
  datatype State = State(jobs: map<JobId, Job>, background: map<Session, nat>, tables: seq<set<JobId>>, batches: map<Session, seq<JobId>>,
                         delivered: set<JobId>, calls: seq<Call>,
                         handed: multiset<JobId>, leased: set<JobId>, settled: multiset<JobId>, dropped: set<JobId>)

  // ----- Where a report is

  predicate InTable(st: State, j: JobId) { j in st.jobs && st.jobs[j].table < |st.tables| && j in st.tables[st.jobs[j].table] }

  predicate InBatch(st: State, j: JobId) { j in st.jobs && st.jobs[j].commander in st.batches && j in st.batches[st.jobs[j].commander] }

  /** How often waiting calls list a job. */
  function Waiting(calls: seq<Call>, j: JobId): nat {
    if calls == [] then 0 else (if calls[0].waiting then multiset(calls[0].found)[j] else 0) + Waiting(calls[1..], j)
  }

  // ----- What always holds

  ghost predicate TablesSound(st: State) {
    && (forall s | s in st.background :: st.background[s] < |st.tables|)
    && (forall s, t | s in st.background && t in st.background && s != t :: st.background[s] != st.background[t])
    && (forall j | j in st.jobs :: st.jobs[j].table < |st.tables|)
    && (forall s, j | s in st.background && j in st.jobs && st.jobs[j].table == st.background[s] :: st.jobs[j].commander == s)
    && forall n, j | 0 <= n < |st.tables| && j in st.tables[n] :: j in st.jobs && st.jobs[j].table == n
  }

  /** Every job is in exactly one place: its table, a batch, handed out, or dropped with its commander's batch. */
  ghost predicate PlacesSound(st: State) {
    && (forall j | j in st.jobs :: InTable(st, j) || InBatch(st, j) || j in st.handed || j in st.dropped)
    && (forall j | j in st.jobs && InTable(st, j) :: !InBatch(st, j) && j !in st.handed && j !in st.dropped)
    && (forall j | j in st.jobs && InBatch(st, j) :: j !in st.handed && j !in st.dropped)
    && (forall j | j in st.handed :: j in st.jobs && j !in st.dropped && st.jobs[j].done && st.handed[j] == 1)
    && (forall j | j in st.dropped :: j in st.jobs && st.jobs[j].done)
  }

  ghost predicate BatchesSound(st: State) {
    && (forall s | s in st.batches :: st.batches[s] != [])
    && (forall s, j | s in st.batches && j in st.batches[s] ::
          j in st.jobs && st.jobs[j].commander == s && st.jobs[j].done && st.jobs[j].notice && multiset(st.batches[s])[j] == 1)
  }

  /** A notice is settled once, and exactly when its job is no longer filed with it and in no batch. */
  ghost predicate LeasesSound(st: State) {
    && (forall j | j in st.leased :: j in st.jobs && (j in st.settled <==> !((InTable(st, j) && st.jobs[j].notice) || InBatch(st, j))))
    && (forall j | j in st.settled :: j in st.leased && st.settled[j] == 1)
    && (forall j | j in st.jobs && st.jobs[j].notice :: j in st.leased)
  }

  ghost predicate CallsSound(st: State) {
    && (forall j | j in st.jobs :: st.jobs[j].waiters == Waiting(st.calls, j))
    && forall c, j | c in st.calls && j in c.found :: j in st.jobs && st.jobs[j].commander == c.session && st.jobs[j].table == c.table
  }

  /** A job with a notice is in its commander's present table; once done, only while a call waits for it. */
  ghost predicate HeldSound(st: State, excused: seq<JobId>) {
    forall j | j in st.jobs && InTable(st, j) && st.jobs[j].notice ::
      && st.jobs[j].commander in st.background && st.background[st.jobs[j].commander] == st.jobs[j].table
      && (st.jobs[j].done ==> st.jobs[j].waiters > 0 || j in excused)
  }

  ghost predicate DeliveredSound(st: State) {
    forall j | j in st.delivered :: j in st.jobs && !InTable(st, j)
  }

  ghost predicate Sound(st: State, excused: seq<JobId>) {
    && TablesSound(st) && PlacesSound(st) && BatchesSound(st) && LeasesSound(st) && CallsSound(st) && HeldSound(st, excused)
    && DeliveredSound(st)
  }

  lemma {:induction false} NothingYet(st: State)
    requires st.jobs == map[] && st.background == map[] && st.tables == [] && st.batches == map[] && st.delivered == {} && st.calls == []
    requires st.handed == multiset{} && st.leased == {} && st.settled == multiset{} && st.dropped == {}
    ensures Sound(st, [])
  {
  }

  // ----- Effects

  function WithoutEntry(st: State, j: JobId): State
    requires j in st.jobs && st.jobs[j].table < |st.tables|
  {
    var t := st.jobs[j].table;
    st.(tables := st.tables[t := st.tables[t] - {j}])
  }

  /** `finished`: the report goes into its commander's batch, unless a call waits for it. */
  function Finish(st: State, j: JobId): State
    requires j in st.jobs
  {
    var job := st.jobs[j];
    if !job.notice || job.waiters > 0 then st
    else
      var batch := if job.commander in st.batches then st.batches[job.commander] else [];
      var tables := if job.commander in st.background && st.background[job.commander] < |st.tables|
                    then var t := st.background[job.commander]; st.tables[t := st.tables[t] - {j}]
                    else st.tables;
      st.(tables := tables, delivered := st.delivered + {j}, batches := st.batches[job.commander := batch + [j]])
  }

  /** An `agent_result` call hands the report out. */
  function Collect(st: State, j: JobId): State
    requires j in st.jobs && st.jobs[j].table < |st.tables|
  {
    var st' := WithoutEntry(st, j);
    st'.(handed := st.handed + multiset{j}, settled := st.settled + if st.jobs[j].notice then multiset{j} else multiset{})
  }

  /** A batch goes out as one message: its first notice delivers it, the others are cancelled. */
  function Flushed(st: State, s: Session): State {
    if s !in st.batches then st
    else st.(batches := st.batches - {s}, handed := st.handed + multiset(st.batches[s]), settled := st.settled + multiset(st.batches[s]))
  }

  // ----- Effects keep what always holds

  function NoticesOf(st: State, jobs: set<JobId>): set<JobId> { set i | i in jobs && i in st.jobs && st.jobs[i].notice }

  /** How jobs move: from a table to a call (`taken`) or a batch (`joined`), from a batch to a message (`sent`) or nowhere (`lost`). */
  datatype Delta = Delta(taken: set<JobId>, joined: set<JobId>, sent: set<JobId>, lost: set<JobId>)

  ghost predicate Moves(st: State, st': State, d: Delta) {
    && st'.jobs == st.jobs && st'.background == st.background && st'.calls == st.calls && st'.leased == st.leased
    && forall i | i in st.jobs ::
         && InTable(st', i) == (InTable(st, i) && i !in d.taken && i !in d.joined)
         && InBatch(st', i) == ((InBatch(st, i) && i !in d.sent && i !in d.lost) || i in d.joined)
  }

  /** Moving jobs are where they move from. */
  ghost predicate Movable(st: State, d: Delta) {
    && (forall i | i in d.taken || i in d.joined :: i in st.jobs && InTable(st, i) && st.jobs[i].done)
    && (forall i | i in d.sent || i in d.lost :: i in st.jobs && InBatch(st, i) && st.jobs[i].done && st.jobs[i].notice)
    && (forall i | i in d.joined :: st.jobs[i].notice && i !in d.taken)
    && (forall i | i in d.sent :: i !in d.lost)
  }

  /** What is recorded about the moves. */
  ghost predicate Recorded(st: State, st': State, d: Delta) {
    && st'.handed == st.handed + multiset(d.taken) + multiset(d.sent)
    && st'.settled == st.settled + multiset(NoticesOf(st, d.taken)) + multiset(d.sent) + multiset(d.lost)
    && st'.dropped == st.dropped + d.lost && st'.delivered == st.delivered + d.joined
  }

  lemma {:induction false} MovesPlaces(st: State, st': State, d: Delta)
    requires PlacesSound(st) && Moves(st, st', d) && Movable(st, d)
    requires st'.handed == st.handed + multiset(d.taken) + multiset(d.sent) && st'.dropped == st.dropped + d.lost
    ensures PlacesSound(st')
  {
    hide InTable, InBatch;
    forall i | i in st'.handed ensures i in st.jobs && st'.handed[i] == 1 && (i in st.handed || i in d.taken || i in d.sent) {
    }
  }

  lemma {:induction false} MovesLeases(st: State, st': State, d: Delta)
    requires LeasesSound(st) && PlacesSound(st) && Moves(st, st', d) && Movable(st, d)
    requires st'.settled == st.settled + multiset(NoticesOf(st, d.taken)) + multiset(d.sent) + multiset(d.lost)
    ensures LeasesSound(st')
  {
    hide InTable, InBatch;
    forall i | i in st.leased ensures i in st'.settled <==> !((InTable(st', i) && st.jobs[i].notice) || InBatch(st', i)) {
    }
    forall i | i in st'.settled ensures i in st.leased && st'.settled[i] == 1 {
    }
  }

  lemma {:induction false} MovesHeld(st: State, st': State, d: Delta, excused: seq<JobId>, rest: seq<JobId>)
    requires HeldSound(st, excused) && Moves(st, st', d) && forall i | i in excused :: i in d.taken || i in d.joined || i in rest
    ensures HeldSound(st', rest)
  {
    hide InTable, InBatch;
  }

  lemma {:induction false} MovesOthers(st: State, st': State, d: Delta)
    requires CallsSound(st) && DeliveredSound(st) && Moves(st, st', d) && Movable(st, d) && st'.delivered == st.delivered + d.joined
    ensures CallsSound(st') && DeliveredSound(st')
  {
    hide InTable, InBatch, Waiting;
  }

  lemma {:induction false} MovesSound(st: State, st': State, d: Delta, excused: seq<JobId>, rest: seq<JobId>)
    requires Sound(st, excused) && TablesSound(st') && BatchesSound(st') && Moves(st, st', d) && Movable(st, d) && Recorded(st, st', d)
    requires forall i | i in excused :: i in d.taken || i in d.joined || i in rest
    ensures Sound(st', rest)
  {
    hide TablesSound, BatchesSound, InTable, InBatch, PlacesSound, LeasesSound, CallsSound, HeldSound, DeliveredSound, Moves, Movable, NoticesOf;
    MovesPlaces(st, st', d);
    MovesLeases(st, st', d);
    MovesHeld(st, st', d, excused, rest);
    MovesOthers(st, st', d);
  }

  lemma {:induction false} Appended(batch: seq<JobId>, j: JobId)
    requires j !in batch && forall i | i in batch :: multiset(batch)[i] == 1
    ensures forall i | i in batch + [j] :: (i in batch || i == j) && multiset(batch + [j])[i] == 1
    ensures forall i | i in batch || i == j :: i in batch + [j]
  {
    assert multiset(batch + [j]) == multiset(batch) + multiset{j};
  }

  lemma {:induction false} BatchIsOnce(st: State, s: Session)
    requires BatchesSound(st) && s in st.batches
    ensures forall j | j in st.batches[s] :: multiset(st.batches[s])[j] == 1
  {
    forall j | j in st.batches[s] ensures multiset(st.batches[s])[j] == 1 {
      assert st.jobs[j].commander == s;
    }
  }

  lemma {:induction false} FinishWhere(st: State, st': State, j: JobId, batch: seq<JobId>)
    requires TablesSound(st) && BatchesSound(st) && InTable(st, j) && !InBatch(st, j) && st'.jobs == st.jobs && st'.background == st.background
    requires st'.calls == st.calls && st'.leased == st.leased && st'.dropped == st.dropped
    requires st'.batches == st.batches[st.jobs[j].commander := batch + [j]]
    requires batch == if st.jobs[j].commander in st.batches then st.batches[st.jobs[j].commander] else []
    requires st'.tables == st.tables[st.jobs[j].table := st.tables[st.jobs[j].table] - {j}]
    ensures Moves(st, st', Delta({}, {j}, {}, {}))
  {
    forall i | i in st.jobs ensures InTable(st', i) == (InTable(st, i) && i != j) && InBatch(st', i) == (InBatch(st, i) || i == j) {
      if st.jobs[i].commander == st.jobs[j].commander {
        assert st'.batches[st.jobs[i].commander] == batch + [j];
      }
    }
    hide InTable, InBatch;
  }

  lemma {:induction false} FinishMoves(st: State, j: JobId, excused: seq<JobId>)
    requires Sound(st, excused) && InTable(st, j) && st.jobs[j].done && st.jobs[j].notice && st.jobs[j].waiters == 0
    ensures Moves(st, Finish(st, j), Delta({}, {j}, {}, {})) && TablesSound(Finish(st, j)) && BatchesSound(Finish(st, j))
  {
    var job, st' := st.jobs[j], Finish(st, j);
    assert HeldSound(st, excused) && st.background[job.commander] == job.table;
    assert !InBatch(st, j) by {
      assert PlacesSound(st);
    }
    hide HeldSound, PlacesSound, LeasesSound, CallsSound, DeliveredSound;
    var batch := if job.commander in st.batches then st.batches[job.commander] else [];
    assert st'.tables == st.tables[job.table := st.tables[job.table] - {j}];
    hide TablesSound, BatchesSound, Moves;
    FinishTables(st, st', j);
    FinishBatches(st, st', j, batch);
    FinishWhere(st, st', j, batch);
  }

  lemma {:induction false} FinishTables(st: State, st': State, j: JobId)
    requires TablesSound(st) && j in st.jobs && st'.jobs == st.jobs && st'.background == st.background
    requires st'.tables == st.tables[st.jobs[j].table := st.tables[st.jobs[j].table] - {j}]
    ensures TablesSound(st')
  {
  }

  lemma {:induction false} FinishBatches(st: State, st': State, j: JobId, batch: seq<JobId>)
    requires BatchesSound(st) && j in st.jobs && st'.jobs == st.jobs && st.jobs[j].done && st.jobs[j].notice
    requires st'.batches == st.batches[st.jobs[j].commander := batch + [j]] && j !in batch
    requires batch == if st.jobs[j].commander in st.batches then st.batches[st.jobs[j].commander] else []
    ensures BatchesSound(st')
  {
    if st.jobs[j].commander in st.batches {
      BatchIsOnce(st, st.jobs[j].commander);
    }
    Appended(batch, j);
  }

  lemma {:induction false} FinishRecords(st: State, j: JobId)
    requires InTable(st, j) && st.jobs[j].done && st.jobs[j].notice && st.jobs[j].waiters == 0
    ensures Recorded(st, Finish(st, j), Delta({}, {j}, {}, {})) && Movable(st, Delta({}, {j}, {}, {}))
  {
    assert NoticesOf(st, {}) == {};
  }

  lemma {:induction false} FinishSound(st: State, j: JobId, excused: seq<JobId>, rest: seq<JobId>)
    requires Sound(st, excused) && InTable(st, j) && st.jobs[j].done && forall i | i in excused :: i == j || i in rest
    ensures Sound(Finish(st, j), rest)
  {
    if st.jobs[j].notice && st.jobs[j].waiters == 0 {
      FinishMoves(st, j, excused);
      hide Sound, TablesSound, BatchesSound, PlacesSound, LeasesSound, HeldSound, CallsSound, DeliveredSound, Moves;
      FinishRecords(st, j);
      hide InTable, InBatch, Recorded, Movable, Finish;
      var st', d := Finish(st, j), Delta({}, {j}, {}, {});
      MovesSound(st, st', d, excused, rest);
    } else {
      hide TablesSound, BatchesSound, InTable, PlacesSound, LeasesSound, CallsSound, DeliveredSound;
    }
  }

  lemma {:induction false} CollectMoves(st: State, j: JobId)
    requires TablesSound(st) && BatchesSound(st) && InTable(st, j)
    ensures Moves(st, Collect(st, j), Delta({j}, {}, {}, {})) && TablesSound(Collect(st, j)) && BatchesSound(Collect(st, j))
  {
    CollectTables(st, j);
    CollectBatches(st, j);
    hide TablesSound, BatchesSound;
    assert forall i, n | 0 <= n < |st.tables| :: i in Collect(st, j).tables[n] <==> i in st.tables[n] && (n != st.jobs[j].table || i != j);
  }

  lemma {:induction false} CollectTables(st: State, j: JobId)
    requires TablesSound(st) && InTable(st, j)
    ensures TablesSound(Collect(st, j))
  {
  }

  lemma {:induction false} CollectBatches(st: State, j: JobId)
    requires BatchesSound(st) && InTable(st, j)
    ensures BatchesSound(Collect(st, j))
  {
  }

  lemma {:induction false} CollectRecords(st: State, j: JobId)
    requires InTable(st, j) && st.jobs[j].done
    ensures Recorded(st, Collect(st, j), Delta({j}, {}, {}, {})) && Movable(st, Delta({j}, {}, {}, {}))
  {
    assert NoticesOf(st, {j}) == if st.jobs[j].notice then {j} else {};
  }

  lemma {:induction false} CollectSound(st: State, j: JobId, excused: seq<JobId>, rest: seq<JobId>)
    requires Sound(st, excused) && InTable(st, j) && st.jobs[j].done && forall i | i in excused :: i == j || i in rest
    ensures Sound(Collect(st, j), rest)
  {
    CollectMoves(st, j);
    hide Sound, TablesSound, BatchesSound, PlacesSound, LeasesSound, HeldSound, CallsSound, DeliveredSound, Moves;
    CollectRecords(st, j);
    hide InTable, InBatch, Recorded, Movable, Collect;
    var st', d := Collect(st, j), Delta({j}, {}, {}, {});
    MovesSound(st, st', d, excused, rest);
  }

  lemma {:induction false} WithoutBatch(st: State, st': State, s: Session)
    requires TablesSound(st) && BatchesSound(st) && s in st.batches
    requires st'.jobs == st.jobs && st'.background == st.background && st'.tables == st.tables && st'.batches == st.batches - {s}
    ensures TablesSound(st') && BatchesSound(st')
    ensures forall i | i in st.jobs :: InTable(st', i) == InTable(st, i) && InBatch(st', i) == (InBatch(st, i) && i !in st.batches[s])
  {
    forall i | i in st.jobs ensures InBatch(st', i) == (InBatch(st, i) && i !in st.batches[s]) {
      if i in st.batches[s] {
        assert st.jobs[i].commander == s;
      }
    }
    assert forall r | r in st'.batches :: r in st.batches && st'.batches[r] == st.batches[r];
  }

  lemma {:induction false} BatchMembers(st: State, s: Session)
    requires BatchesSound(st) && s in st.batches
    ensures multiset(st.batches[s]) == multiset(set j | j in st.batches[s])
    ensures forall i | i in st.batches[s] :: i in st.jobs && InBatch(st, i) && st.jobs[i].done && st.jobs[i].notice
  {
    BatchIsOnce(st, s);
    forall i | i in st.batches[s] ensures i in st.jobs && InBatch(st, i) && st.jobs[i].done && st.jobs[i].notice {
      assert st.jobs[i].commander == s;
    }
  }

  lemma {:induction false} FlushMoves(st: State, s: Session)
    requires TablesSound(st) && BatchesSound(st) && s in st.batches
    ensures var batch := st.batches[s];
            var d := Delta({}, {}, set j | j in batch, {});
            && Moves(st, Flushed(st, s), d) && TablesSound(Flushed(st, s)) && BatchesSound(Flushed(st, s))
            && multiset(batch) == multiset(d.sent) && Movable(st, d)
  {
    hide TablesSound, BatchesSound, InTable, InBatch;
    WithoutBatch(st, Flushed(st, s), s);
    BatchMembers(st, s);
  }

  lemma {:induction false} FlushRecords(st: State, s: Session)
    requires s in st.batches && multiset(st.batches[s]) == multiset(set j | j in st.batches[s])
    ensures Recorded(st, Flushed(st, s), Delta({}, {}, set j | j in st.batches[s], {}))
  {
    assert NoticesOf(st, {}) == {};
  }

  lemma {:induction false} FlushSound(st: State, s: Session)
    requires Sound(st, [])
    ensures Sound(Flushed(st, s), [])
  {
    if s in st.batches {
      FlushMoves(st, s);
      hide Sound, TablesSound, BatchesSound, PlacesSound, LeasesSound, HeldSound, CallsSound, DeliveredSound, Moves;
      FlushRecords(st, s);
      hide InTable, InBatch, Recorded, Movable, Flushed;
      var st', d := Flushed(st, s), Delta({}, {}, set j | j in st.batches[s], {});
      MovesSound(st, st', d, [], []);
    }
  }

  // ----- Effects that leave every report where it is

  /** `adopt`, before a report that is already there is sent. */
  function Filed(st: State, commander: Session, j: JobId, notice: bool, done: bool): State {
    var t := if commander in st.background then st.background[commander] else |st.tables|;
    var tables := if commander in st.background then st.tables else st.tables + [{}];
    if t < |tables| then
      st.(jobs := st.jobs[j := Job(commander, t, done, notice, 0)], background := st.background[commander := t],
          tables := tables[t := tables[t] + {j}], leased := st.leased + if notice then {j} else {})
    else st
  }

  function MarkedDone(st: State, j: JobId): State
    requires j in st.jobs
  {
    st.(jobs := st.jobs[j := st.jobs[j].(done := true)])
  }

  function Bumped(jobs: map<JobId, Job>, found: seq<JobId>): map<JobId, Job> {
    map i | i in jobs :: jobs[i].(waiters := jobs[i].waiters + multiset(found)[i])
  }

  function Eased(jobs: map<JobId, Job>, found: seq<JobId>): map<JobId, Job> {
    map i | i in jobs :: jobs[i].(waiters := if jobs[i].waiters < multiset(found)[i] then 0 else jobs[i].waiters - multiset(found)[i])
  }

  /** A call starts to wait for what it found. */
  function Entered(st: State, call: Call): State { st.(jobs := Bumped(st.jobs, call.found), calls := st.calls + [call]) }

  /** ... and stops waiting. */
  function Left(st: State, c: nat): State
    requires c < |st.calls|
  {
    st.(jobs := Eased(st.jobs, st.calls[c].found), calls := st.calls[c := st.calls[c].(waiting := false)])
  }

  lemma {:induction false} WaitingNone(calls: seq<Call>, j: JobId)
    requires forall c | c in calls :: j !in c.found
    ensures Waiting(calls, j) == 0
  {
    if calls != [] {
      WaitingNone(calls[1..], j);
    }
  }

  function Share(call: Call, j: JobId): nat { if call.waiting then multiset(call.found)[j] else 0 }

  lemma {:induction false} WaitingMore(calls: seq<Call>, call: Call, j: JobId)
    ensures Waiting(calls + [call], j) == Waiting(calls, j) + Share(call, j)
  {
    if calls == [] {
      assert calls + [call] == [call] && [call][1..] == [];
    } else {
      assert (calls + [call])[1..] == calls[1..] + [call];
      WaitingMore(calls[1..], call, j);
    }
  }

  lemma {:induction false} WaitingUpdate(calls: seq<Call>, c: nat, call: Call, j: JobId)
    requires c < |calls|
    ensures Waiting(calls[c := call], j) + Share(calls[c], j) == Waiting(calls, j) + Share(call, j)
  {
    if c == 0 {
      assert calls[c := call][1..] == calls[1..];
    } else {
      assert calls[c := call][1..] == calls[1..][c - 1 := call];
      WaitingUpdate(calls[1..], c - 1, call, j);
    }
  }

  /** A job some waiting call lists has a waiter. */
  lemma {:induction false} WaitingCovers(calls: seq<Call>, c: nat, j: JobId)
    requires c < |calls| && calls[c].waiting
    ensures Waiting(calls, j) >= multiset(calls[c].found)[j]
  {
    if c > 0 {
      WaitingCovers(calls[1..], c - 1, j);
    }
  }

  ghost predicate SameWhere(st: State, st': State) {
    forall i | i in st.jobs :: i in st'.jobs && InTable(st', i) == InTable(st, i) && InBatch(st', i) == InBatch(st, i)
  }

  /** How filing job `j` changes the tables. */
  ghost predicate Files(st: State, st': State, commander: Session, j: JobId, notice: bool, done: bool) {
    && st' == st.(jobs := st'.jobs, background := st'.background, tables := st'.tables, leased := st.leased + if notice then {j} else {})
    && commander in st'.background && st'.jobs == st.jobs[j := Job(commander, st'.background[commander], done, notice, 0)]
    && st'.background == st.background[commander := st'.background[commander]]
    && (commander in st.background ==> st'.background == st.background)
  }

  lemma {:induction false} FiledFiles(st: State, commander: Session, j: JobId, notice: bool, done: bool)
    requires TablesSound(st) && j !in st.jobs
    ensures var st' := Filed(st, commander, j, notice, done);
            && Files(st, st', commander, j, notice, done) && |st.tables| <= |st'.tables| && st'.background[commander] < |st'.tables|
            && (forall n | 0 <= n < |st.tables| :: st'.tables[n] == st.tables[n] + if n == st'.background[commander] then {j} else {})
            && (forall n | |st.tables| <= n < |st'.tables| :: n == st'.background[commander] && st'.tables[n] == {j})
            && (commander !in st.background ==> st'.background[commander] == |st.tables|)
  {
  }

  lemma {:induction false} FiledTables(st: State, commander: Session, j: JobId, notice: bool, done: bool)
    requires TablesSound(st) && j !in st.jobs
    ensures TablesSound(Filed(st, commander, j, notice, done))
  {
    FiledFiles(st, commander, j, notice, done);
    hide Filed;
  }

  lemma {:induction false} FiledWhere(st: State, commander: Session, j: JobId, notice: bool, done: bool)
    requires TablesSound(st) && BatchesSound(st) && j !in st.jobs
    ensures SameWhere(st, Filed(st, commander, j, notice, done))
    ensures InTable(Filed(st, commander, j, notice, done), j) && !InBatch(Filed(st, commander, j, notice, done), j)
  {
    hide Filed, InTable, InBatch, TablesSound;
    var st' := Filed(st, commander, j, notice, done);
    forall i | i in st.jobs ensures i in st'.jobs && InTable(st', i) == InTable(st, i) && InBatch(st', i) == InBatch(st, i) {
      OtherStays(st, commander, j, notice, done, i);
    }
    NewIsFiled(st, commander, j, notice, done);
  }

  lemma {:induction false} OtherStays(st: State, commander: Session, j: JobId, notice: bool, done: bool, i: JobId)
    requires TablesSound(st) && i in st.jobs && j !in st.jobs
    ensures var st' := Filed(st, commander, j, notice, done);
            i in st'.jobs && InTable(st', i) == InTable(st, i) && InBatch(st', i) == InBatch(st, i)
  {
    FiledFiles(st, commander, j, notice, done);
    hide Filed;
  }

  lemma {:induction false} NewIsFiled(st: State, commander: Session, j: JobId, notice: bool, done: bool)
    requires TablesSound(st) && BatchesSound(st) && j !in st.jobs
    ensures InTable(Filed(st, commander, j, notice, done), j) && !InBatch(Filed(st, commander, j, notice, done), j)
  {
    FiledFiles(st, commander, j, notice, done);
    hide Filed, TablesSound;
  }

  lemma {:induction false} FiledBatches(st: State, st': State, commander: Session, j: JobId, notice: bool, done: bool)
    requires BatchesSound(st) && j !in st.jobs && Files(st, st', commander, j, notice, done)
    ensures BatchesSound(st')
  {
    forall s, i | s in st'.batches && i in st'.batches[s]
      ensures i in st'.jobs && st'.jobs[i].commander == s && st'.jobs[i].done && st'.jobs[i].notice && multiset(st'.batches[s])[i] == 1
    {
      assert i in st.jobs && st.jobs[i].commander == s;
    }
  }

  lemma {:induction false} FiledPlaces(st: State, st': State, j: JobId)
    requires PlacesSound(st) && SameWhere(st, st') && j !in st.jobs && st'.jobs.Keys == st.jobs.Keys + {j} && InTable(st', j) && !InBatch(st', j)
    requires st'.handed == st.handed && st'.dropped == st.dropped && forall i | i in st.jobs :: st'.jobs[i] == st.jobs[i]
    ensures PlacesSound(st')
  {
    hide InTable, InBatch;
  }

  lemma {:induction false} FiledLeases(st: State, st': State, j: JobId)
    requires LeasesSound(st) && SameWhere(st, st') && j !in st.jobs && st'.jobs.Keys == st.jobs.Keys + {j} && InTable(st', j) && !InBatch(st', j)
    requires st'.settled == st.settled && st'.leased == st.leased + (if st'.jobs[j].notice then {j} else {})
    requires forall i | i in st.jobs :: st'.jobs[i] == st.jobs[i]
    ensures LeasesSound(st')
  {
    hide InTable, InBatch;
  }

  lemma {:induction false} FiledCalls(st: State, st': State, j: JobId)
    requires CallsSound(st) && j !in st.jobs && st'.jobs.Keys == st.jobs.Keys + {j} && st'.jobs[j].waiters == 0 && st'.calls == st.calls
    requires forall i | i in st.jobs :: st'.jobs[i] == st.jobs[i]
    ensures CallsSound(st')
  {
    WaitingNone(st.calls, j);
    hide Waiting;
  }

  lemma {:induction false} FiledSound(st: State, commander: Session, j: JobId, notice: bool, done: bool)
    requires Sound(st, []) && j !in st.jobs
    ensures Sound(Filed(st, commander, j, notice, done), [j]) && (!(notice && done) ==> Sound(Filed(st, commander, j, notice, done), []))
  {
    hide TablesSound, BatchesSound, InTable, InBatch, Waiting, CallsSound, PlacesSound, LeasesSound, HeldSound, DeliveredSound, Filed, SameWhere;
    var st' := Filed(st, commander, j, notice, done);
    FiledFiles(st, commander, j, notice, done);
    FiledTables(st, commander, j, notice, done);
    FiledWhere(st, commander, j, notice, done);
    FiledBatches(st, st', commander, j, notice, done);
    FiledPlaces(st, st', j);
    FiledLeases(st, st', j);
    FiledCalls(st, st', j);
    FiledHeld(st, st', commander, j);
    assert DeliveredSound(st') by {
      FiledDelivered(st, st', j);
    }
  }

  lemma {:induction false} FiledDelivered(st: State, st': State, j: JobId)
    requires DeliveredSound(st) && SameWhere(st, st') && st'.delivered == st.delivered
    ensures DeliveredSound(st')
  {
    hide InTable, InBatch;
  }

  lemma {:induction false} FiledHeld(st: State, st': State, commander: Session, j: JobId)
    requires HeldSound(st, []) && j !in st.jobs && j in st'.jobs && st'.jobs[j].waiters == 0
    requires st'.jobs.Keys == st.jobs.Keys + {j} && forall i | i in st.jobs :: st'.jobs[i] == st.jobs[i]
    requires st'.jobs[j].commander == commander && SameWhere(st, st')
    requires commander in st'.background && st'.background == st.background[commander := st'.background[commander]]
    requires commander in st.background ==> st'.background == st.background
    requires st'.jobs[j].table == st'.background[commander]
    ensures HeldSound(st', [j]) && (!(st'.jobs[j].notice && st'.jobs[j].done) ==> HeldSound(st', []))
  {
    hide InTable;
  }

  /** Only numbers of waiters change, or a job gets done. */
  ghost predicate Relabelled(st: State, st': State) {
    && st' == st.(jobs := st'.jobs, calls := st'.calls) && st'.jobs.Keys == st.jobs.Keys
    && forall i | i in st.jobs ::
         st'.jobs[i] == st.jobs[i].(waiters := st'.jobs[i].waiters, done := st'.jobs[i].done) && (st.jobs[i].done ==> st'.jobs[i].done)
  }

  lemma {:induction false} RelabelledWhere(st: State, st': State)
    requires Relabelled(st, st')
    ensures SameWhere(st, st') && (TablesSound(st) ==> TablesSound(st'))
  {
  }

  lemma {:induction false} RelabelledBatches(st: State, st': State)
    requires Relabelled(st, st') && BatchesSound(st)
    ensures BatchesSound(st')
  {
    forall s, j | s in st'.batches && j in st'.batches[s]
      ensures j in st'.jobs && st'.jobs[j].commander == s && st'.jobs[j].done && st'.jobs[j].notice && multiset(st'.batches[s])[j] == 1
    {
      assert j in st.jobs && st.jobs[j].commander == s;
    }
  }

  lemma {:induction false} RelabelledPlaces(st: State, st': State)
    requires Relabelled(st, st') && SameWhere(st, st') && PlacesSound(st)
    ensures PlacesSound(st')
  {
    hide InTable, InBatch;
  }

  lemma {:induction false} RelabelledLeases(st: State, st': State)
    requires Relabelled(st, st') && SameWhere(st, st') && LeasesSound(st)
    ensures LeasesSound(st')
  {
    hide InTable, InBatch;
  }

  lemma {:induction false} RelabelledHeld(st: State, st': State, excused: seq<JobId>)
    requires Relabelled(st, st') && SameWhere(st, st') && HeldSound(st, [])
    requires forall i | i in st.jobs && st'.jobs[i].waiters == 0 && st'.jobs[i].done :: (st.jobs[i].waiters == 0 && st.jobs[i].done) || i in excused
    ensures HeldSound(st', excused)
  {
    hide InTable, InBatch;
  }

  lemma {:induction false} RelabelledSound(st: State, st': State, excused: seq<JobId>)
    requires Sound(st, []) && Relabelled(st, st') && CallsSound(st')
    requires forall i | i in st.jobs && st'.jobs[i].waiters == 0 && st'.jobs[i].done :: (st.jobs[i].waiters == 0 && st.jobs[i].done) || i in excused
    ensures Sound(st', excused)
  {
    RelabelledWhere(st, st');
    assert DeliveredSound(st');
    hide TablesSound, BatchesSound, InTable, InBatch, CallsSound, PlacesSound, LeasesSound, HeldSound, Relabelled, DeliveredSound;
    RelabelledBatches(st, st');
    RelabelledPlaces(st, st');
    RelabelledLeases(st, st');
    RelabelledHeld(st, st', excused);
  }

  lemma {:induction false} UnfinishedIsFiled(st: State, j: JobId)
    requires BatchesSound(st) && PlacesSound(st) && j in st.jobs && !st.jobs[j].done
    ensures InTable(st, j) && !InBatch(st, j)
  {
  }

  lemma {:induction false} MarkedDoneSound(st: State, j: JobId)
    requires Sound(st, []) && j in st.jobs && !st.jobs[j].done
    ensures Sound(MarkedDone(st, j), [j]) && InTable(st, j)
  {
    hide InTable, InBatch, TablesSound, BatchesSound, PlacesSound, LeasesSound, HeldSound, Waiting, DeliveredSound;
    UnfinishedIsFiled(st, j);
    assert CallsSound(MarkedDone(st, j));
    hide CallsSound, Sound;
    RelabelledSound(st, MarkedDone(st, j), [j]);
  }

  lemma {:induction false} EnteredSound(st: State, call: Call)
    requires Sound(st, []) && call.waiting
    requires forall j | j in call.found :: j in st.jobs && st.jobs[j].commander == call.session && st.jobs[j].table == call.table
    ensures Sound(Entered(st, call), [])
  {
    var st' := Entered(st, call);
    hide TablesSound, BatchesSound, InTable, InBatch, PlacesSound, LeasesSound, HeldSound, DeliveredSound;
    forall j | j in st.jobs ensures st'.jobs[j].waiters == Waiting(st'.calls, j) {
      WaitingMore(st.calls, call, j);
    }
    hide Waiting;
    assert CallsSound(st');
    hide CallsSound;
    RelabelledSound(st, st', []);
  }

  lemma {:induction false} LeftSound(st: State, c: nat)
    requires Sound(st, []) && c < |st.calls| && st.calls[c].waiting
    ensures Sound(Left(st, c), st.calls[c].found)
  {
    hide TablesSound, BatchesSound, InTable, InBatch, PlacesSound, LeasesSound, HeldSound, DeliveredSound, Waiting, CallsSound;
    var st' := Left(st, c);
    LeftCalls(st, c);
    assert Relabelled(st, st');
    RelabelledSound(st, st', st.calls[c].found);
  }

  lemma {:induction false} LeftCalls(st: State, c: nat)
    requires CallsSound(st) && c < |st.calls| && st.calls[c].waiting
    ensures CallsSound(Left(st, c))
  {
    var st' := Left(st, c);
    forall j | j in st.jobs ensures st'.jobs[j].waiters == Waiting(st'.calls, j) {
      WaitingUpdate(st.calls, c, st.calls[c].(waiting := false), j);
      WaitingCovers(st.calls, c, j);
    }
    hide Waiting;
    forall x, j | x in st'.calls && j in x.found ensures j in st'.jobs && st'.jobs[j].commander == x.session && st'.jobs[j].table == x.table {
      assert x in st.calls || x == st.calls[c].(waiting := false);
      assert st.calls[c] in st.calls;
    }
  }

  // ----- A commander goes away

  /** The batch of a commander that is gone is not sent. */
  function BatchDropped(st: State, s: Session): State {
    if s !in st.batches then st
    else st.(batches := st.batches - {s}, dropped := st.dropped + (set j | j in st.batches[s]), settled := st.settled + multiset(st.batches[s]))
  }

  function Silenced(jobs: map<JobId, Job>, table: set<JobId>): map<JobId, Job> {
    map i | i in jobs :: if i in table then jobs[i].(notice := false) else jobs[i]
  }

  /** Its jobs are forgotten: the calls that wait for them may still hand them out, nobody else will. */
  function Forgotten(st: State, s: Session): State {
    if s !in st.background || st.background[s] >= |st.tables| then st
    else
      var table := st.tables[st.background[s]];
      st.(background := st.background - {s}, jobs := Silenced(st.jobs, table), settled := st.settled + multiset(NoticesOf(st, table)))
  }

  lemma {:induction false} BatchDroppedMoves(st: State, s: Session)
    requires TablesSound(st) && BatchesSound(st) && s in st.batches
    ensures var batch := st.batches[s];
            var d := Delta({}, {}, {}, set j | j in batch);
            && Moves(st, BatchDropped(st, s), d) && TablesSound(BatchDropped(st, s)) && BatchesSound(BatchDropped(st, s))
            && multiset(batch) == multiset(d.lost) && Movable(st, d)
  {
    hide TablesSound, BatchesSound, InTable, InBatch;
    WithoutBatch(st, BatchDropped(st, s), s);
    BatchMembers(st, s);
  }

  lemma {:induction false} BatchDroppedRecords(st: State, s: Session)
    requires s in st.batches && multiset(st.batches[s]) == multiset(set j | j in st.batches[s])
    ensures Recorded(st, BatchDropped(st, s), Delta({}, {}, {}, set j | j in st.batches[s]))
  {
    assert NoticesOf(st, {}) == {};
  }

  lemma {:induction false} BatchDroppedSound(st: State, s: Session)
    requires Sound(st, [])
    ensures Sound(BatchDropped(st, s), [])
  {
    if s in st.batches {
      BatchDroppedMoves(st, s);
      hide Sound, TablesSound, BatchesSound, PlacesSound, LeasesSound, HeldSound, CallsSound, DeliveredSound, Moves;
      BatchDroppedRecords(st, s);
      hide InTable, InBatch, Recorded, Movable, BatchDropped;
      var st', d := BatchDropped(st, s), Delta({}, {}, {}, set j | j in st.batches[s]);
      MovesSound(st, st', d, [], []);
    }
  }

  lemma {:induction false} ForgottenWhere(st: State, s: Session)
    requires TablesSound(st)
    ensures SameWhere(st, Forgotten(st, s)) && TablesSound(Forgotten(st, s))
  {
  }

  lemma {:induction false} ForgottenBatches(st: State, s: Session)
    requires TablesSound(st) && BatchesSound(st) && PlacesSound(st)
    ensures BatchesSound(Forgotten(st, s))
  {
    var st' := Forgotten(st, s);
    forall r, j | r in st'.batches && j in st'.batches[r]
      ensures j in st'.jobs && st'.jobs[j].commander == r && st'.jobs[j].done && st'.jobs[j].notice && multiset(st'.batches[r])[j] == 1
    {
      assert j in st.jobs && st.jobs[j].commander == r && InBatch(st, j) && !InTable(st, j);
    }
  }

  /** What forgetting changes about jobs. */
  ghost predicate Forgets(st: State, st': State, s: Session) {
    && s in st.background && st.background[s] < |st.tables| && st' == Forgotten(st, s)
    && st'.jobs.Keys == st.jobs.Keys
    && forall i | i in st.jobs ::
         var gone := InTable(st, i) && st.jobs[i].table == st.background[s];
         st'.jobs[i] == if gone then st.jobs[i].(notice := false) else st.jobs[i]
  }

  lemma {:induction false} ForgottenForgets(st: State, s: Session)
    requires TablesSound(st) && s in st.background
    ensures Forgets(st, Forgotten(st, s), s)
    ensures NoticesOf(st, st.tables[st.background[s]]) == set i | i in st.jobs && InTable(st, i) && st.jobs[i].table == st.background[s] && st.jobs[i].notice
  {
  }

  lemma {:induction false} ForgottenPlaces(st: State, st': State, s: Session)
    requires PlacesSound(st) && Forgets(st, st', s) && SameWhere(st, st')
    ensures PlacesSound(st')
  {
    hide InTable, InBatch;
  }

  lemma {:induction false} ForgottenLeases(st: State, st': State, s: Session)
    requires LeasesSound(st) && PlacesSound(st) && Forgets(st, st', s) && SameWhere(st, st')
    requires NoticesOf(st, st.tables[st.background[s]]) == set i | i in st.jobs && InTable(st, i) && st.jobs[i].table == st.background[s] && st.jobs[i].notice
    ensures LeasesSound(st')
  {
    hide InTable, InBatch, NoticesOf;
    var gone := NoticesOf(st, st.tables[st.background[s]]);
    assert st'.settled == st.settled + multiset(gone);
    hide Forgotten;
    assert forall i | i in gone :: i !in st.settled;
  }

  lemma {:induction false} ForgottenHeld(st: State, st': State, s: Session)
    requires HeldSound(st, []) && Forgets(st, st', s) && SameWhere(st, st')
    ensures HeldSound(st', [])
    ensures forall i | i in st.jobs && st.jobs[i].commander == s && InTable(st, i) :: !st'.jobs[i].notice
  {
    hide InTable, InBatch;
  }

  lemma {:induction false} ForgottenCalls(st: State, st': State, s: Session)
    requires CallsSound(st) && DeliveredSound(st) && Forgets(st, st', s) && SameWhere(st, st')
    ensures CallsSound(st') && DeliveredSound(st')
  {
    hide InTable, InBatch, Waiting;
  }

  lemma {:induction false} ForgottenSound(st: State, s: Session)
    requires Sound(st, [])
    ensures Sound(Forgotten(st, s), [])
    ensures s in st.background ==> forall i | i in st.jobs && st.jobs[i].commander == s && InTable(st, i) :: !Forgotten(st, s).jobs[i].notice
  {
    if s in st.background {
      var st' := Forgotten(st, s);
      ForgottenWhere(st, s);
      ForgottenBatches(st, s);
      ForgottenForgets(st, s);
      hide TablesSound, BatchesSound, InTable, InBatch, PlacesSound, LeasesSound, HeldSound, CallsSound, DeliveredSound, Forgotten, Forgets;
      ForgottenPlaces(st, st', s);
      ForgottenLeases(st, st', s);
      ForgottenHeld(st, st', s);
      ForgottenCalls(st, st', s);
      assert st'.jobs.Keys == st.jobs.Keys by {
        assert Forgets(st, st', s);
      }
    }
  }

  // ----- What this means

  /** No report is handed out twice, and one that was is nowhere else. */
  lemma {:induction false} HandedOutOnce(st: State, j: JobId)
    requires Sound(st, [])
    ensures st.handed[j] <= 1
    ensures j in st.handed ==> !InTable(st, j) && !InBatch(st, j) && j !in st.dropped
  {
    hide InTable, InBatch;
  }

  /** A finished job whose commander still holds its notice is held by a waiting call, in a batch or handed out. */
  lemma {:induction false} FinishedIsHeld(st: State, j: JobId)
    requires Sound(st, []) && j in st.jobs && st.jobs[j].done && st.jobs[j].notice && j !in st.dropped
    ensures InBatch(st, j) || j in st.handed || (InTable(st, j) && exists c | c in st.calls :: c.waiting && j in c.found)
  {
    if InTable(st, j) {
      assert st.jobs[j].waiters > 0 && st.jobs[j].waiters == Waiting(st.calls, j);
      SomeoneWaits(st.calls, j);
    }
  }

  lemma {:induction false} SomeoneWaits(calls: seq<Call>, j: JobId)
    requires Waiting(calls, j) > 0
    ensures exists c | c in calls :: c.waiting && j in c.found
  {
    if calls[0].waiting && j in calls[0].found {
      assert calls[0] in calls;
    } else {
      SomeoneWaits(calls[1..], j);
      var c :| c in calls[1..] && c.waiting && j in c.found;
      assert c in calls;
    }
  }

  /** When no call waits and no batch is pending, every notice of a finished job is settled and, unless its
      commander went away first, the report was handed out. */
  lemma {:induction false} NothingIsLost(st: State, j: JobId)
    requires Sound(st, []) && st.batches == map[] && (forall c | c in st.calls :: !c.waiting)
    requires j in st.leased && st.jobs[j].done
    ensures st.settled[j] == 1
    ensures j in st.handed || j in st.dropped || (InTable(st, j) && !st.jobs[j].notice)
  {
    if InTable(st, j) && st.jobs[j].notice {
      FinishedIsHeld(st, j);
    }
  }

  // ----- The extension

  /** What an `agent_result` call says about one id. */
  datatype Part = Report(id: JobId) | StillRunning(id: JobId) | OnItsWay(id: JobId) | AlreadySent(id: JobId) | Unknown(id: JobId)

  /** The reports among the parts of an answer. */
  function Reports(parts: seq<Part>): multiset<JobId> {
    if parts == [] then multiset{}
    else Reports(parts[..|parts| - 1]) + if parts[|parts| - 1].Report? then multiset{parts[|parts| - 1].id} else multiset{}
  }

  lemma {:induction false} ReportsMore(parts: seq<Part>, part: Part)
    ensures Reports(parts + [part]) == Reports(parts) + if part.Report? then multiset{part.id} else multiset{}
  {
    assert (parts + [part])[..|parts|] == parts;
  }

  predicate SentIn(messages: seq<seq<JobId>>, j: JobId) { exists m | m in messages :: j in m }

  predicate Batched(st: State, j: JobId) { exists s | s in st.batches.Keys :: j in st.batches[s] }

  /** Reports recorded as delivered are those in a batch, in a message, or dropped with the batch they were in. */
  ghost predicate SentSound(st: State, messages: seq<seq<JobId>>) {
    forall j :: j in st.delivered <==> InBatch(st, j) || SentIn(messages, j) || j in st.dropped
  }

  /** What a call says about a job that is not in its table tells where the report is. */
  ghost predicate Says(st: State, messages: seq<seq<JobId>>, part: Part, id: JobId) {
    && part.id == id && !part.Report? && !part.StillRunning?
    && (part.OnItsWay? <==> Batched(st, id))
    && (part.AlreadySent? <==> !Batched(st, id) && (SentIn(messages, id) || id in st.dropped))
  }

  lemma {:induction false} SentStays(st: State, st': State, messages: seq<seq<JobId>>)
    requires SentSound(st, messages) && st'.delivered == st.delivered && st'.batches == st.batches && st'.dropped == st.dropped
    requires st'.jobs.Keys == st.jobs.Keys && forall j | j in st.jobs :: st'.jobs[j].commander == st.jobs[j].commander
    ensures SentSound(st', messages)
  {
    hide SentIn;
  }

  lemma {:induction false} WhereItIs(st: State, messages: seq<seq<JobId>>, j: JobId, excused: seq<JobId>)
    requires Sound(st, excused) && SentSound(st, messages)
    ensures Batched(st, j) ==> Says(st, messages, OnItsWay(j), j)
    ensures !Batched(st, j) && j in st.delivered ==> Says(st, messages, AlreadySent(j), j)
    ensures !Batched(st, j) && j !in st.delivered ==> Says(st, messages, Unknown(j), j)
  {
    hide Sound, InBatch, SentIn, SentSound;
    BatchedAnywhere(st, j, excused);
    DeliveredWhere(st, messages, j);
  }

  lemma {:induction false} DeliveredWhere(st: State, messages: seq<seq<JobId>>, j: JobId)
    requires SentSound(st, messages)
    ensures j in st.delivered <==> InBatch(st, j) || SentIn(messages, j) || j in st.dropped
  {
    hide InBatch, SentIn;
  }

  lemma {:induction false} FinishSent(st: State, j: JobId, messages: seq<seq<JobId>>)
    requires SentSound(st, messages) && j in st.jobs
    ensures SentSound(Finish(st, j), messages)
  {
    hide SentIn;
  }

  lemma {:induction false} FlushSent(st: State, s: Session, messages: seq<seq<JobId>>)
    requires SentSound(st, messages) && BatchesSound(st) && s in st.batches
    ensures SentSound(Flushed(st, s), messages + [st.batches[s]])
  {
    var st', batch := Flushed(st, s), st.batches[s];
    forall j ensures j in st'.delivered <==> InBatch(st', j) || SentIn(messages + [batch], j) || j in st'.dropped {
      SentMore(messages, batch, j);
      assert j in batch ==> InBatch(st, j) && st.jobs[j].commander == s;
    }
  }

  lemma {:induction false} SentMore(messages: seq<seq<JobId>>, m: seq<JobId>, j: JobId)
    ensures SentIn(messages + [m], j) <==> SentIn(messages, j) || j in m
  {
    assert (messages + [m])[|messages|] == m;
    if n :| n in messages && j in n {
      assert n in messages + [m];
    }
  }

  lemma {:induction false} BatchDroppedSent(st: State, s: Session, messages: seq<seq<JobId>>)
    requires SentSound(st, messages) && BatchesSound(st)
    ensures SentSound(BatchDropped(st, s), messages)
  {
    hide SentIn;
    if s in st.batches {
      var st', batch := BatchDropped(st, s), st.batches[s];
      forall j ensures j in st'.delivered <==> InBatch(st', j) || SentIn(messages, j) || j in st'.dropped {
        assert j in batch ==> InBatch(st, j) && st.jobs[j].commander == s;
      }
    }
  }

  lemma {:induction false} FiledSent(st: State, commander: Session, j: JobId, notice: bool, done: bool, messages: seq<seq<JobId>>)
    requires SentSound(st, messages) && BatchesSound(st) && j !in st.jobs
    ensures SentSound(Filed(st, commander, j, notice, done), messages)
  {
    hide SentIn;
  }

  lemma {:induction false} ForgottenSent(st: State, s: Session, messages: seq<seq<JobId>>)
    requires SentSound(st, messages)
    ensures SentSound(Forgotten(st, s), messages)
  {
    SentStays(st, Forgotten(st, s), messages);
  }

  lemma {:induction false} EnteredSent(st: State, call: Call, messages: seq<seq<JobId>>)
    requires SentSound(st, messages)
    ensures SentSound(Entered(st, call), messages)
  {
    SentStays(st, Entered(st, call), messages);
  }

  lemma {:induction false} NothingSent(st: State)
    requires st.jobs == map[] && st.delivered == {} && st.dropped == {}
    ensures SentSound(st, [])
  {
  }

  lemma {:induction false} LeftSent(st: State, c: nat, messages: seq<seq<JobId>>)
    requires SentSound(st, messages) && c < |st.calls|
    ensures SentSound(Left(st, c), messages)
  {
    SentStays(st, Left(st, c), messages);
  }

  lemma {:induction false} BatchesOf(st: State, excused: seq<JobId>)
    requires Sound(st, excused)
    ensures BatchesSound(st)
  {
  }

  /** The ids among some that a session's table files, or those that it does not, in order. */
  function Among(st: State, s: Session, ids: seq<JobId>, filed: bool): (r: seq<JobId>)
    ensures forall j :: j in r <==> j in ids && IsFiled(st, s, j) == filed
  {
    if ids == [] then []
    else
      var n := |ids| - 1;
      assert ids == ids[..n] + [ids[n]];
      Among(st, s, ids[..n], filed) + if IsFiled(st, s, ids[n]) == filed then [ids[n]] else []
  }

  lemma {:induction false} AmongMore(st: State, s: Session, ids: seq<JobId>, id: JobId, filed: bool)
    ensures Among(st, s, ids + [id], filed) == Among(st, s, ids, filed) + if IsFiled(st, s, id) == filed then [id] else []
  {
    assert (ids + [id])[..|ids|] == ids;
  }

  /** Both together are the ids, each as often as it was asked for. */
  lemma {:induction false} AmongAreAll(st: State, s: Session, ids: seq<JobId>)
    ensures multiset(Among(st, s, ids, false) + Among(st, s, ids, true)) == multiset(ids)
  {
    if ids != [] {
      var n := |ids| - 1;
      assert ids == ids[..n] + [ids[n]];
      AmongAreAll(st, s, ids[..n]);
    }
  }

  function IdsOf(parts: seq<Part>): (r: seq<JobId>)
    ensures |r| == |parts| && forall k | 0 <= k < |parts| :: r[k] == parts[k].id
  {
    seq(|parts|, k requires 0 <= k < |parts| => parts[k].id)
  }

  ghost predicate AllSay(st: State, messages: seq<seq<JobId>>, parts: seq<Part>) {
    forall k | 0 <= k < |parts| :: Says(st, messages, parts[k], parts[k].id)
  }

  /** What a call says about the `k`th job it found: its report when it is there and not taken by an earlier mention, that it
      runs still, or where the report is. `st` is the state before the answer. */
  ghost predicate Tells(st: State, messages: seq<seq<JobId>>, table: nat, found: seq<JobId>, k: nat, part: Part)
    requires k < |found| && table < |st.tables|
  {
    var j := found[k];
    && part.id == j
    && if j in st.tables[table] && j in st.jobs && !st.jobs[j].done then part.StillRunning?
       else if j in st.tables[table] && j !in found[..k] then part.Report?
       else Says(st, messages, part, j)
  }

  ghost predicate AllTold(st: State, messages: seq<seq<JobId>>, table: nat, found: seq<JobId>, parts: seq<Part>, n: nat) {
    && n <= |found| && n <= |parts| && table < |st.tables|
    && forall k | 0 <= k < n :: Tells(st, messages, table, found, k, parts[k])
  }

  lemma {:induction false} AmongNone(st: State, s: Session)
    ensures Among(st, s, [], true) == [] && Among(st, s, [], false) == [] && IdsOf([]) == []
  {
  }

  lemma {:induction false} SaidMore(st: State, messages: seq<seq<JobId>>, parts: seq<Part>, part: Part, id: JobId)
    requires AllSay(st, messages, parts) && Says(st, messages, part, id)
    ensures AllSay(st, messages, parts + [part]) && part.id == id && !part.Report?
  {
    hide Batched, SentIn;
  }

  /** What is left in a table once the first jobs found were answered about. */
  ghost predicate Remains(st: State, st1: State, table: nat, found: seq<JobId>, k: nat) {
    && k <= |found| && table < |st.tables| && table < |st1.tables| && st1.jobs == st.jobs && st1.batches == st.batches && st1.dropped == st.dropped
    && forall j :: j in st1.tables[table] <==> j in st.tables[table] && !(j in found[..k] && j in st.jobs && st.jobs[j].done)
  }

  lemma {:induction false} ToldOneMore(st: State, st1: State, st2: State, messages: seq<seq<JobId>>, table: nat, found: seq<JobId>, k: nat,
                                       parts: seq<Part>, part: Part)
    requires k < |found| && |parts| == k && AllTold(st, messages, table, found, parts, k) && Remains(st, st1, table, found, k)
    requires table < |st2.tables| && st2.jobs == st.jobs && st2.batches == st.batches && st2.dropped == st.dropped && found[k] in st.jobs
    requires part.id == found[k] && (part.Report? <==> found[k] in st1.tables[table] && st.jobs[found[k]].done)
    requires part.StillRunning? <==> found[k] in st1.tables[table] && !st.jobs[found[k]].done
    requires found[k] !in st1.tables[table] ==> Says(st2, messages, part, found[k])
    requires st2.tables[table] == st1.tables[table] - if part.Report? then {found[k]} else {}
    ensures AllTold(st, messages, table, found, parts + [part], k + 1) && Remains(st, st2, table, found, k + 1)
  {
    hide SentIn;
    var j := found[k];
    assert found[..k + 1] == found[..k] + [j];
    assert Says(st2, messages, part, j) ==> Says(st, messages, part, j) by {
      assert Batched(st2, j) <==> Batched(st, j);
    }
    assert Tells(st, messages, table, found, k, part) by {
      hide Says;
    }
    hide Says, Tells;
    forall i | 0 <= i < k + 1 ensures Tells(st, messages, table, found, i, (parts + [part])[i]) {
      assert i < k ==> Tells(st, messages, table, found, i, parts[i]);
    }
  }

  /** The jobs of a commander that still run. */
  function Unfinished(st: State, s: Session): set<JobId> {
    if s in st.background && st.background[s] < |st.tables|
    then set j | j in st.tables[st.background[s]] && j in st.jobs && !st.jobs[j].done
    else {}
  }

  /** Answering a call leaves the jobs, the calls and the commanders as they are. */
  predicate SameBut(st: State, st': State) {
    st'.jobs == st.jobs && st'.calls == st.calls && st'.background == st.background && |st'.tables| == |st.tables|
  }

  /** A job that an `agent_result` call of a session finds. */
  predicate IsFiled(st: State, s: Session, j: JobId) {
    s in st.background && st.background[s] < |st.tables| && j in st.tables[st.background[s]] && j in st.jobs
  }

  /** No report of the job is left in the table. */
  predicate Taken(st: State, table: nat, j: JobId) {
    table < |st.tables| && (j in st.tables[table] ==> j in st.jobs && !st.jobs[j].done)
  }

  predicate Shrinks(st: State, st': State, table: nat) {
    st'.jobs == st.jobs && table < |st.tables| == |st'.tables| && st'.tables[table] <= st.tables[table]
  }

  ghost predicate AllTaken(st: State, table: nat, found: seq<JobId>, n: nat) {
    n <= |found| && forall i | 0 <= i < n :: Taken(st, table, found[i])
  }

  lemma {:induction false} TakenOneMore(st0: State, st: State, st': State, table: nat, found: seq<JobId>, k: nat)
    requires k < |found| && AllTaken(st, table, found, k) && Taken(st', table, found[k]) && Shrinks(st0, st, table) && Shrinks(st, st', table)
    ensures AllTaken(st', table, found, k + 1) && Shrinks(st0, st', table)
  {
  }

  /** A report that is there is no longer filed, unless it has no notice or another call waits for it. */
  predicate PassedOn(st: State, j: JobId) { InTable(st, j) && st.jobs[j].done ==> !st.jobs[j].notice || st.jobs[j].waiters > 0 }

  ghost predicate AllPassed(st: State, found: seq<JobId>, n: nat) { n <= |found| && forall i | 0 <= i < n :: PassedOn(st, found[i]) }

  /** `found` are the ids that a session's table files. */
  ghost predicate FoundAll(st: State, s: Session, ids: seq<JobId>, found: seq<JobId>) {
    found == Among(st, s, ids, true)
  }

  /** What a call answers at once: where the reports are that it does not find and, if it neither waits nor was
      interrupted, what there is of the jobs it finds. An interrupted call that found something to wait for answers later. */
  ghost predicate AnswersAtOnce(st: State, messages: seq<seq<JobId>>, s: Session, ids: seq<JobId>, aborted: bool, call: Option<nat>, parts: seq<Part>) {
    var gone, found := Among(st, s, ids, false), Among(st, s, ids, true);
    if call.None? && aborted then parts == []
    else
      && |gone| <= |parts| && AllSay(st, messages, parts[..|gone|])
      && IdsOf(parts) == gone + (if call.None? then found else [])
      && (call.None? && found != [] ==> s in st.background && AllTold(st, messages, st.background[s], found, parts[|gone|..], |found|))
  }

  /** What an `agent_result` call leaves: it waits for the jobs it finds, if any; else, their reports are no longer
      there to be had, or were passed on when the turn was interrupted. */
  ghost predicate Answered(st: State, st': State, s: Session, ids: seq<JobId>, wait: bool, aborted: bool, call: Option<nat>) {
    && (call.Some? <==> wait && exists j :: j in ids && IsFiled(st, s, j))
    && (call.Some? ==>
          && s in st.background && call.value == |st.calls| && |st'.calls| == |st.calls| + 1 && st'.calls[..|st.calls|] == st.calls
          && st'.calls[call.value] == Call(s, st.background[s], st'.calls[call.value].found, true)
          && FoundAll(st, s, ids, st'.calls[call.value].found))
    && (call.None? ==> st'.calls == st.calls && st'.jobs == st.jobs)
    && (!wait && aborted ==> forall j | j in ids && IsFiled(st, s, j) :: PassedOn(st', j))
    && (!wait && !aborted ==> forall j | j in ids && IsFiled(st', s, j) :: !st'.jobs[j].done)
  }

  lemma {:induction false} AnsweredGone(st: State, messages: seq<seq<JobId>>, s: Session, ids: seq<JobId>, call: Option<nat>, parts: seq<Part>)
    requires IdsOf(parts) == Among(st, s, ids, false) && AllSay(st, messages, parts) && (call.None? ==> FoundAll(st, s, ids, []))
    ensures AnswersAtOnce(st, messages, s, ids, false, call, parts) && (call.Some? ==> AnswersAtOnce(st, messages, s, ids, true, call, parts))
  {
    hide Among, Says;
    assert parts[..|Among(st, s, ids, false)|] == parts && IdsOf(parts) + [] == IdsOf(parts);
  }

  lemma {:induction false} AnsweredNothing(st: State, messages: seq<seq<JobId>>, s: Session, ids: seq<JobId>)
    ensures AnswersAtOnce(st, messages, s, ids, true, None, [])
  {
  }

  lemma {:induction false} AnsweredAll(st: State, messages: seq<seq<JobId>>, s: Session, ids: seq<JobId>, found: seq<JobId>,
                                       parts: seq<Part>, rest: seq<Part>)
    requires IdsOf(parts) == Among(st, s, ids, false) && AllSay(st, messages, parts) && FoundAll(st, s, ids, found) && s in st.background
    requires Answers(rest, found) && (found != [] ==> AllTold(st, messages, st.background[s], found, rest, |found|))
    ensures AnswersAtOnce(st, messages, s, ids, false, None, parts + rest)
  {
    hide Among, Says, AllTold;
    var all, gone := parts + rest, Among(st, s, ids, false);
    assert all[..|gone|] == parts && all[|gone|..] == rest;
    assert IdsOf(all) == gone + found;
  }

  lemma {:induction false} NothingAsked(st: State, s: Session, ids: seq<JobId>, wait: bool, aborted: bool)
    requires FoundAll(st, s, ids, [])
    ensures Answered(st, st, s, ids, wait, aborted, None)
  {
  }

  lemma {:induction false} AskedToWait(st: State, s: Session, ids: seq<JobId>, found: seq<JobId>, aborted: bool)
    requires s in st.background && found != [] && FoundAll(st, s, ids, found)
    ensures Answered(st, Entered(st, Call(s, st.background[s], found, true)), s, ids, true, aborted, Some(|st.calls|))
  {
    hide PassedOn, Bumped;
    assert found[0] in found;
  }

  lemma {:induction false} AskedInVain(st: State, st': State, s: Session, ids: seq<JobId>, found: seq<JobId>)
    requires FoundAll(st, s, ids, found) && SameBut(st, st') && AllPassed(st', found, |found|)
    ensures Answered(st, st', s, ids, false, true, None)
  {
    hide PassedOn;
  }

  lemma {:induction false} AskedAndTold(st: State, st': State, s: Session, ids: seq<JobId>, found: seq<JobId>)
    requires s in st.background && FoundAll(st, s, ids, found) && SameBut(st, st')
    requires AllTaken(st', st.background[s], found, |found|) && Shrinks(st, st', st.background[s])
    ensures Answered(st, st', s, ids, false, false, None)
  {
    hide PassedOn;
  }

  /** One part for each job, in order. */
  predicate Answers(parts: seq<Part>, found: seq<JobId>) { |parts| == |found| && forall k | 0 <= k < |found| :: parts[k].id == found[k] }

  lemma {:induction false} AnswersMore(parts: seq<Part>, found: seq<JobId>, k: nat, part: Part)
    requires k < |found| && Answers(parts, found[..k]) && part.id == found[k]
    ensures Answers(parts + [part], found[..k + 1])
  {
  }

  function HandedWith(handed: multiset<JobId>, parts: seq<Part>): multiset<JobId> { handed + Reports(parts) }

  lemma {:induction false} HandedMore(handed: multiset<JobId>, parts: seq<Part>, part: Part)
    ensures HandedWith(handed, parts + [part]) == HandedWith(handed, parts) + if part.Report? then multiset{part.id} else multiset{}
  {
    ReportsMore(parts, part);
  }

  lemma {:induction false} SameButTrans(st: State, st1: State, st2: State)
    ensures SameBut(st, st)
    ensures SameBut(st, st1) && SameBut(st1, st2) ==> SameBut(st, st2)
  {
  }

  lemma {:induction false} CallStays(st: State, st': State, found: seq<JobId>, k: nat, table: nat)
    requires SameBut(st, st') && k < |found| && forall j | j in found :: j in st.jobs && st.jobs[j].table == table < |st.tables|
    ensures found[k] in st'.jobs && st'.jobs[found[k]].table == table < |st'.tables|
  {
  }

  /** The maps of the extension and the calls in progress; each method is one step between awaits. */
  class Extension {
    var jobs: map<JobId, Job>
    var background: map<Session, nat>
    var tables: seq<set<JobId>>
    var batches: map<Session, seq<JobId>>
    var delivered: set<JobId>
    var calls: seq<Call>
    var messages: seq<seq<JobId>>
    ghost var handed: multiset<JobId>
    ghost var leased: set<JobId>
    ghost var settled: multiset<JobId>
    ghost var dropped: set<JobId>

    ghost function Now(): State
      reads this
    {
      State(jobs, background, tables, batches, delivered, calls, handed, leased, settled, dropped)
    }

    constructor ()
      ensures Sound(Now(), []) && SentSound(Now(), messages) && messages == [] && handed == multiset{}
    {
      jobs, background, tables, batches, delivered, calls, messages := map[], map[], [], map[], {}, [], [];
      handed, leased, settled, dropped := multiset{}, {}, multiset{}, {};
      new;
      hide Sound, SentSound;
      NothingYet(Now());
      NothingSent(Now());
    }

    /** `finished`. */
    method Finished(j: JobId, ghost excused: seq<JobId>, ghost rest: seq<JobId>)
      requires Sound(Now(), excused) && SentSound(Now(), messages) && InTable(Now(), j) && jobs[j].done && forall i | i in excused :: i == j || i in rest
      modifies this
      ensures Sound(Now(), rest) && SentSound(Now(), messages) && Now() == Finish(old(Now()), j) && messages == old(messages)
    {
      hide Sound, SentSound;
      FinishSound(Now(), j, excused, rest);
      FinishSent(Now(), j, messages);
      var commander := jobs[j].commander;
      if !jobs[j].notice || jobs[j].waiters > 0 {
        return;
      }
      if commander in background && background[commander] < |tables| {
        var t := background[commander];
        tables := tables[t := tables[t] - {j}];
      }
      delivered := delivered + {j};
      var batch := if commander in batches then batches[commander] else [];
      batches := batches[commander := batch + [j]];
    }

    /** `adopt`: files a job, and sends its report if that is already there. */
    method Adopt(commander: Session, j: JobId, notice: bool, done: bool)
      requires Sound(Now(), []) && SentSound(Now(), messages) && j !in jobs
      modifies this
      ensures Sound(Now(), []) && SentSound(Now(), messages) && messages == old(messages) && handed == old(handed)
      ensures Now() == var st := Filed(old(Now()), commander, j, notice, done); if notice && done then Finish(st, j) else st
    {
      hide Sound, SentSound, InTable;
      FiledSound(Now(), commander, j, notice, done);
      BatchesOf(Now(), []);
      FiledSent(Now(), commander, j, notice, done, messages);
      FiledHere(Now(), commander, j, notice, done);
      var t := |tables|;
      if commander in background {
        t := background[commander];
      } else {
        tables := tables + [{}];
      }
      background := background[commander := t];
      tables := tables[t := tables[t] + {j}];
      jobs := jobs[j := Job(commander, t, done, notice, 0)];
      leased := leased + if notice then {j} else {};
      assert Now() == Filed(old(Now()), commander, j, notice, done);
      hide Filed;
      if notice && done {
        Finished(j, [j], []);
      }
    }

    /** The end of a job: its report is there. */
    method JobDone(j: JobId)
      requires Sound(Now(), []) && SentSound(Now(), messages) && j in jobs && !jobs[j].done
      modifies this
      ensures Sound(Now(), []) && SentSound(Now(), messages) && messages == old(messages) && handed == old(handed)
      ensures Now() == Finish(MarkedDone(old(Now()), j), j)
    {
      hide Sound, SentSound;
      MarkedDoneSound(Now(), j);
      SentStays(Now(), MarkedDone(Now(), j), messages);
      jobs := jobs[j := jobs[j].(done := true)];
      assert Now() == MarkedDone(old(Now()), j);
      Finished(j, [j], []);
    }

    /** `flush`, when a batch's timer fires: all its reports go out as one message. */
    method Flush(s: Session)
      requires Sound(Now(), []) && SentSound(Now(), messages)
      modifies this
      ensures Sound(Now(), []) && SentSound(Now(), messages) && Now() == Flushed(old(Now()), s)
      ensures messages == if s in old(batches) then old(messages) + [old(batches)[s]] else old(messages)
      ensures handed == old(handed) + if s in old(batches) then multiset(old(batches)[s]) else multiset{}
    {
      hide Sound, SentSound;
      FlushSound(Now(), s);
      BatchesOf(Now(), []);
      if s in batches {
        FlushSent(Now(), s, messages);
        messages := messages + [batches[s]];
        handed, settled := handed + multiset(batches[s]), settled + multiset(batches[s]);
        batches := batches - {s};
      }
    }

    /** `dropBackground`: afterwards the commander's notices are all settled; its unfinished jobs are cancelled. */
    method DropBackground(s: Session) returns (cancelled: set<JobId>)
      requires Sound(Now(), []) && SentSound(Now(), messages)
      modifies this
      ensures Sound(Now(), []) && SentSound(Now(), messages) && Now() == Forgotten(BatchDropped(old(Now()), s), s)
      ensures messages == old(messages) && handed == old(handed)
      ensures cancelled == Unfinished(old(Now()), s)
    {
      hide Sound, SentSound, InTable, NoticesOf, Silenced;
      TablesAreThere(Now(), s);
      cancelled := {};
      if s in background {
        cancelled := set j | j in tables[background[s]] && j in jobs && !jobs[j].done;
      }
      DropBatch(s);
      ForgottenSound(Now(), s);
      ForgottenSent(Now(), s, messages);
      if s in background {
        var table := tables[background[s]];
        settled := settled + multiset(NoticesOf(Now(), table));
        background, jobs := background - {s}, Silenced(jobs, table);
      }
    }

    /** Another session took over (`keep`), or the last one ended: all other commanders are dropped. */
    method EndSessions(keep: Option<Session>)
      requires Sound(Now(), []) && SentSound(Now(), messages)
      modifies this
      ensures Sound(Now(), []) && SentSound(Now(), messages) && messages == old(messages) && handed == old(handed)
      ensures forall s | s in background || s in batches :: keep == Some(s)
    {
      hide Sound, SentSound;
      var commanders := background.Keys + batches.Keys;
      ghost var all := commanders;
      while commanders != {}
        invariant Sound(Now(), []) && SentSound(Now(), messages) && messages == old(messages) && handed == old(handed)
        invariant forall s | s in background || s in batches :: s in commanders || keep == Some(s)
        decreases commanders
      {
        var s :| s in commanders;
        commanders := commanders - {s};
        if keep != Some(s) {
          ghost var st := Now();
          TablesAreThere(st, s);
          var _ := DropBackground(s);
          DropLeaves(st, s);
        }
      }
    }

    method DropBatch(s: Session)
      requires Sound(Now(), []) && SentSound(Now(), messages)
      modifies this
      ensures Sound(Now(), []) && SentSound(Now(), messages) && Now() == BatchDropped(old(Now()), s)
      ensures messages == old(messages) && handed == old(handed)
    {
      hide Sound, SentSound;
      BatchDroppedSound(Now(), s);
      BatchesOf(Now(), []);
      BatchDroppedSent(Now(), s, messages);
      if s in batches {
        dropped, settled := dropped + (set j | j in batches[s]), settled + multiset(batches[s]);
        batches := batches - {s};
      }
    }

    /** `gone`: looks through all batches, then through what was sent. */
    method WhereGone(id: JobId, ghost excused: seq<JobId>) returns (part: Part)
      requires Sound(Now(), excused) && SentSound(Now(), messages)
      ensures Says(Now(), messages, part, id)
    {
      WhereItIs(Now(), messages, id, excused);
      hide Sound, SentSound, Says;
      if exists s | s in batches.Keys :: id in batches[s] {
        part := OnItsWay(id);
      } else if id in delivered {
        part := AlreadySent(id);
      } else {
        part := Unknown(id);
      }
    }

    /** The end of an interrupted `agent_result` call: reports that are there are passed on. */
    method PassOn(found: seq<JobId>, table: nat)
      requires Sound(Now(), found) && SentSound(Now(), messages) && forall j | j in found :: j in jobs && jobs[j].table == table < |tables|
      modifies this
      ensures Sound(Now(), []) && SentSound(Now(), messages) && SameBut(old(Now()), Now()) && messages == old(messages) && handed == old(handed)
      ensures AllPassed(Now(), found, |found|)
    {
      assert found[0..] == found && found[|found|..] == [] && AllPassed(Now(), found, 0);
      ghost var st := Now();
      SameButTrans(st, st, st);
      for k := 0 to |found|
        invariant Sound(Now(), found[k..]) && SentSound(Now(), messages) && SameBut(st, Now()) && messages == old(messages) && handed == old(handed)
        invariant AllPassed(Now(), found, k)
      {
        hide *;
        var j := found[k];
        ghost var st1 := Now();
        FirstOf(found, k);
        CallStays(st, st1, found, k, table);
        PassesOneMore(st1, found, k, found[k..]);
        if jobs[j].done && j in tables[table] {
          FiledAgain(st1, j, table);
          FinishKeeps(st1, j);
          SameButTrans(st, st1, Finish(st1, j));
          Finished(j, found[k..], found[k + 1..]);
        } else {
          SkipSound(st1, j, found[k..], found[k + 1..]);
        }
      }
    }

    /** The end of any other call: it hands out the reports of its jobs that nobody took meanwhile. */
    method HandOutAll(found: seq<JobId>, table: nat) returns (parts: seq<Part>)
      requires Sound(Now(), found) && SentSound(Now(), messages) && forall j | j in found :: j in jobs && jobs[j].table == table < |tables|
      modifies this
      ensures Sound(Now(), []) && SentSound(Now(), messages) && SameBut(old(Now()), Now()) && messages == old(messages) && handed == HandedWith(old(handed), parts)
      ensures Answers(parts, found) && batches == old(batches) && dropped == old(dropped) && delivered == old(delivered)
      ensures found != [] ==> AllTold(old(Now()), messages, table, found, parts, |found|)
      ensures table < |old(tables)| ==> AllTaken(Now(), table, found, |found|) && Shrinks(old(Now()), Now(), table)
    {
      hide Sound, SentSound, AllTaken, AllTold, Remains, Shrinks, Answers, HandedWith, SameBut;
      NothingHanded(Now(), messages, table, found);
      if found == [] {
        parts := [];
        return;
      }
      ghost var st := Now();
      assert forall j | j in found :: j in st.jobs && st.jobs[j].table == table < |st.tables|;
      SameButTrans(st, st, st);
      parts := [];
      for k := 0 to |found|
        invariant Sound(Now(), found[k..]) && SentSound(Now(), messages) && SameBut(st, Now()) && messages == old(messages)
        invariant handed == HandedWith(old(handed), parts) && Answers(parts, found[..k])
        invariant AllTaken(Now(), table, found, k) && Shrinks(st, Now(), table)
        invariant batches == old(batches) && dropped == old(dropped) && delivered == old(delivered)
        invariant |parts| == k && jobs == st.jobs && |tables| == |st.tables|
        invariant AllTold(st, messages, table, found, parts, k) && Remains(st, Now(), table, found, k)
      {
        hide Taken, Says, Reports, InTable, Tells;
        FirstOf(found, k);
        ghost var st1 := Now();
        CallStays(st, st1, found, k, table);
        var part := HandOutOne(found[k], table, found[k..], found[k + 1..]);
        SameButTrans(st, st1, Now());
        TakenOneMore(st, st1, Now(), table, found, k);
        HandedMore(old(handed), parts, part);
        AnswersMore(parts, found, k, part);
        ToldOneMore(st, st1, Now(), messages, table, found, k, parts, part);
        parts := parts + [part];
      }
      assert found[..|found|] == found;
    }

    method HandOutOne(j: JobId, table: nat, ghost excused: seq<JobId>, ghost rest: seq<JobId>) returns (part: Part)
      requires Sound(Now(), excused) && SentSound(Now(), messages) && j in jobs && jobs[j].table == table < |tables| && forall i | i in excused :: i == j || i in rest
      modifies this
      ensures Sound(Now(), rest) && SentSound(Now(), messages) && SameBut(old(Now()), Now()) && messages == old(messages)
      ensures part.id == j && (part.Report? <==> old(j in tables[table] && jobs[j].done))
      ensures (part.StillRunning? <==> old(j in tables[table] && !jobs[j].done)) && Shrinks(old(Now()), Now(), table)
      ensures Taken(Now(), table, j) && batches == old(batches) && dropped == old(dropped) && delivered == old(delivered)
      ensures tables[table] == old(tables[table]) - if part.Report? then {j} else {}
      ensures old(j !in tables[table]) ==> Says(Now(), messages, part, j)
      ensures handed == old(handed) + if part.Report? then multiset{j} else multiset{}
    {
      hide Sound, SentSound, Collect, InBatch;
      if j !in tables[table] {
        SkipSound(Now(), j, excused, rest);
        part := WhereGone(j, rest);
      } else if jobs[j].done {
        part := Report(j);
        HandOut(j, table, excused, rest);
      } else {
        SkipSound(Now(), j, excused, rest);
        part := StillRunning(j);
      }
    }

    method HandOut(j: JobId, table: nat, ghost excused: seq<JobId>, ghost rest: seq<JobId>)
      requires Sound(Now(), excused) && SentSound(Now(), messages) && InTable(Now(), j) && jobs[j].done && jobs[j].table == table
      requires forall i | i in excused :: i == j || i in rest
      modifies this
      ensures Sound(Now(), rest) && SentSound(Now(), messages) && SameBut(old(Now()), Now()) && messages == old(messages) && handed == old(handed) + multiset{j}
      ensures batches == old(batches) && dropped == old(dropped) && delivered == old(delivered)
      ensures tables == old(tables)[table := old(tables)[table] - {j}]
    {
      hide Sound, SentSound;
      CollectSound(Now(), j, excused, rest);
      SentStays(Now(), Collect(Now(), j), messages);
      tables := tables[table := tables[table] - {j}];
      handed := handed + multiset{j};
      settled := settled + if jobs[j].notice then multiset{j} else multiset{};
    }

    /** An `agent_result` call: looks up the jobs, then waits for them or answers at once. */
    method Ask(s: Session, ids: seq<JobId>, wait: bool, aborted: bool) returns (parts: seq<Part>, call: Option<nat>)
      requires Sound(Now(), []) && SentSound(Now(), messages)
      modifies this
      ensures Sound(Now(), []) && SentSound(Now(), messages) && messages == old(messages) && background == old(background)
      ensures handed == old(handed) + Reports(parts) && (wait || aborted ==> handed == old(handed))
      ensures Answered(old(Now()), Now(), s, ids, wait, aborted, call)
      ensures AnswersAtOnce(old(Now()), messages, s, ids, aborted, call, parts)
    {
      hide Sound, SentSound, InTable, Reports, Bumped, Answered, FoundAll, AllTaken, AllPassed, Shrinks, IsFiled, Answers, PassedOn, Taken,
        Says, AllSay, AllTold, AnswersAtOnce, Among;
      ReportsConcat([], []);
      var found;
      ghost var st := Now();
      parts, found := LookUp(s, ids);
      call := None;
      if found == [] {
        NothingAsked(st, s, ids, wait, aborted);
        AnsweredGone(st, messages, s, ids, None, parts);
        if aborted {
          AnsweredNothing(st, messages, s, ids);
          parts := [];
        }
        return;
      }
      FoundAreFiled(st, s, ids, found);
      var table := background[s];
      if wait {
        var entry := Call(s, table, found, true);
        EnteredSound(st, entry);
        AskedToWait(st, s, ids, found, aborted);
        EnteredSent(st, entry, messages);
        call := Some(|calls|);
        AnsweredGone(st, messages, s, ids, call, parts);
        jobs, calls := Bumped(jobs, found), calls + [entry];
        assert Now() == Entered(st, entry);
      } else {
        MoreExcused(st, found);
        if aborted {
          PassOn(found, table);
          AskedInVain(st, Now(), s, ids, found);
          AnsweredNothing(st, messages, s, ids);
          parts := [];
        } else {
          var rest := HandOutAll(found, table);
          AskedAndTold(st, Now(), s, ids, found);
          AnsweredAll(st, messages, s, ids, found, parts, rest);
          ReportsConcat(parts, rest);
          parts := parts + rest;
        }
      }
    }

    /** Splits the ids into jobs filed for a session and answers about the others. */
    method LookUp(s: Session, ids: seq<JobId>) returns (parts: seq<Part>, found: seq<JobId>)
      requires Sound(Now(), []) && SentSound(Now(), messages)
      ensures Reports(parts) == multiset{} && FoundAll(Now(), s, ids, found)
      ensures IdsOf(parts) == Among(Now(), s, ids, false) && AllSay(Now(), messages, parts)
    {
      hide Sound, SentSound, InBatch, Says, Reports, Among;
      TablesAreThere(Now(), s);
      forall j | s in background && j in tables[background[s]] ensures j in jobs {
        FiledIsSound(Now(), s, j);
      }
      ReportsConcat([], []);
      assert ids[..0] == [] && ids[..|ids|] == ids;
      AmongNone(Now(), s);
      parts, found := [], [];
      for k := 0 to |ids|
        invariant Reports(parts) == multiset{} && AllSay(Now(), messages, parts)
        invariant found == Among(Now(), s, ids[..k], true) && IdsOf(parts) == Among(Now(), s, ids[..k], false)
      {
        assert ids[..k + 1] == ids[..k] + [ids[k]];
        AmongMore(Now(), s, ids[..k], ids[k], true);
        AmongMore(Now(), s, ids[..k], ids[k], false);
        if s in background && ids[k] in tables[background[s]] {
          found := found + [ids[k]];
        } else {
          var part := WhereGone(ids[k], []);
          SaidMore(Now(), messages, parts, part, ids[k]);
          ReportsMore(parts, part);
          assert IdsOf(parts + [part]) == IdsOf(parts) + [part.id];
          parts := parts + [part];
        }
      }
    }

    /** A waiting call goes on: all its jobs are done, or the turn was interrupted. */
    method Resume(c: nat, aborted: bool) returns (parts: seq<Part>)
      requires Sound(Now(), []) && SentSound(Now(), messages) && c < |calls| && calls[c].waiting
      requires aborted || forall j | j in calls[c].found :: j in jobs && jobs[j].done
      modifies this
      ensures Sound(Now(), []) && SentSound(Now(), messages) && messages == old(messages) && background == old(background)
      ensures calls == old(calls)[c := old(calls)[c].(waiting := false)]
      ensures handed == old(handed) + Reports(parts) && (aborted ==> handed == old(handed))
      ensures var found := old(calls)[c].found;
              if aborted then AllPassed(Now(), found, |found|)
              else Answers(parts, found) && (found != [] ==> AllTold(Left(old(Now()), c), messages, old(calls)[c].table, found, parts, |found|) && AllTaken(Now(), old(calls)[c].table, found, |found|))
    {
      hide Sound, SentSound, Reports, Eased, AllPassed, AllTaken, Shrinks, Answers, InTable, PassedOn, Taken;
      ReportsConcat([], []);
      ghost var st := Now();
      var call := calls[c];
      LeftSound(st, c);
      LeftSent(st, c, messages);
      LeftIsThere(st, c);
      jobs, calls := Eased(jobs, call.found), calls[c := call.(waiting := false)];
      assert Now() == Left(st, c);
      parts := [];
      if aborted {
        PassOn(call.found, call.table);
      } else {
        parts := HandOutAll(call.found, call.table);
      }
    }
  }

  lemma {:induction false} LeftIsThere(st: State, c: nat)
    requires Sound(st, []) && c < |st.calls|
    ensures st.calls[c].found != [] ==> st.calls[c].table < |st.tables|
    ensures var call := st.calls[c];
            forall j | j in call.found :: j in Eased(st.jobs, call.found) && Eased(st.jobs, call.found)[j].table == call.table < |st.tables|
  {
    hide Sound;
    var call := st.calls[c];
    forall j | j in call.found ensures j in st.jobs && st.jobs[j].table == call.table < |st.tables| {
      CallIsSound(st, c, j);
    }
    if call.found != [] {
      CallIsSound(st, c, call.found[0]);
    }
  }

  lemma {:induction false} BatchedAnywhere(st: State, j: JobId, excused: seq<JobId>)
    requires Sound(st, excused)
    ensures InBatch(st, j) <==> exists s | s in st.batches.Keys :: j in st.batches[s]
  {
    hide TablesSound, PlacesSound, LeasesSound, CallsSound, HeldSound, DeliveredSound, InTable;
    if s :| s in st.batches.Keys && j in st.batches[s] {
      assert j in st.jobs && st.jobs[j].commander == s;
    }
  }

  lemma {:induction false} MoreExcused(st: State, excused: seq<JobId>)
    requires Sound(st, [])
    ensures Sound(st, excused)
  {
    hide TablesSound, PlacesSound, BatchesSound, LeasesSound, CallsSound, DeliveredSound, InTable;
  }

  /** One more report is passed on; those before stay so. */
  lemma {:induction false} PassesOneMore(st: State, found: seq<JobId>, k: nat, excused: seq<JobId>)
    requires Sound(st, excused) && k < |found| && found[k] in st.jobs && AllPassed(st, found, k)
    ensures AllPassed(if InTable(st, found[k]) && st.jobs[found[k]].done then Finish(st, found[k]) else st, found, k + 1)
  {
    hide PlacesSound, BatchesSound, LeasesSound, CallsSound, DeliveredSound;
  }

  lemma {:induction false} FiledAgain(st: State, j: JobId, table: nat)
    requires j in st.jobs && st.jobs[j].table == table < |st.tables|
    ensures InTable(st, j) <==> j in st.tables[table]
  {
  }

  lemma {:induction false} FinishKeeps(st: State, j: JobId)
    requires j in st.jobs
    ensures SameBut(st, Finish(st, j)) && Finish(st, j).handed == st.handed
  {
  }

  /** Before any job is answered about. */
  lemma {:induction false} NothingHanded(st: State, messages: seq<seq<JobId>>, table: nat, found: seq<JobId>)
    requires forall j | j in found :: j in st.jobs && st.jobs[j].table == table < |st.tables|
    ensures HandedWith(st.handed, []) == st.handed && found[0..] == found && found[|found|..] == [] && Answers([], found[..0])
    ensures found == [] ==> SameBut(st, st) && Answers([], found)
    ensures table < |st.tables| ==>
              && AllTaken(st, table, found, 0) && Shrinks(st, st, table)
              && AllTold(st, messages, table, found, [], 0) && Remains(st, st, table, found, 0)
    ensures found != [] ==> found[0] in st.jobs && table < |st.tables|
  {
  }

  lemma {:induction false} ReportsConcat(a: seq<Part>, b: seq<Part>)
    ensures Reports([]) == multiset{}
    ensures Reports(a + b) == Reports(a) + Reports(b)
  {
    if b == [] {
      assert a + b == a;
    } else {
      var n := |b| - 1;
      assert a + b == a + b[..n] + [b[n]] && b == b[..n] + [b[n]];
      ReportsConcat(a, b[..n]);
      ReportsMore(a + b[..n], b[n]);
      ReportsMore(b[..n], b[n]);
      SumsAgree(Reports(a), Reports(b[..n]), if b[n].Report? then multiset{b[n].id} else multiset{});
      hide Reports;
    }
  }

  lemma {:induction false} SumsAgree(x: multiset<JobId>, y: multiset<JobId>, z: multiset<JobId>)
    ensures x + y + z == x + (y + z)
  {
  }

  lemma {:induction false} SkipSound(st: State, j: JobId, excused: seq<JobId>, rest: seq<JobId>)
    requires Sound(st, excused) && (j in st.jobs ==> !(InTable(st, j) && st.jobs[j].done)) && forall i | i in excused :: i == j || i in rest
    ensures Sound(st, rest)
  {
    hide TablesSound, PlacesSound, BatchesSound, LeasesSound, CallsSound, DeliveredSound, InTable;
  }

  lemma {:induction false} FirstOf(found: seq<JobId>, k: nat)
    requires k < |found|
    ensures forall i | i in found[k..] :: i == found[k] || i in found[k + 1..]
  {
  }

  lemma {:induction false} CallIsSound(st: State, c: nat, j: JobId)
    requires Sound(st, []) && c < |st.calls| && j in st.calls[c].found
    ensures j in st.jobs && st.jobs[j].table == st.calls[c].table < |st.tables| && st.jobs[j].commander == st.calls[c].session
  {
    hide PlacesSound, BatchesSound, LeasesSound, HeldSound, DeliveredSound;
    assert st.calls[c] in st.calls;
  }

  lemma {:induction false} FoundAreFiled(st: State, s: Session, ids: seq<JobId>, found: seq<JobId>)
    requires Sound(st, []) && FoundAll(st, s, ids, found) && found != []
    ensures s in st.background && st.background[s] < |st.tables|
    ensures forall j | j in found :: j in st.jobs && st.jobs[j].table == st.background[s] && st.jobs[j].commander == s
  {
    hide Sound;
    assert IsFiled(st, s, found[0]);
    forall j | j in found ensures j in st.jobs && st.jobs[j].table == st.background[s] && st.jobs[j].commander == s {
      assert IsFiled(st, s, j);
      FiledIsSound(st, s, j);
    }
  }

  lemma {:induction false} FiledIsSound(st: State, s: Session, j: JobId)
    requires Sound(st, []) && s in st.background && j in st.tables[st.background[s]] && st.background[s] < |st.tables|
    ensures j in st.jobs && st.jobs[j].table == st.background[s] && st.jobs[j].commander == s
  {
    hide PlacesSound, BatchesSound, LeasesSound, HeldSound, DeliveredSound;
  }

  lemma {:induction false} DropLeaves(st: State, s: Session)
    requires s in st.background ==> st.background[s] < |st.tables|
    ensures var st' := Forgotten(BatchDropped(st, s), s);
            && s !in st'.background && s !in st'.batches
            && forall r | r in st'.background || r in st'.batches :: r in st.background || r in st.batches
  {
  }

  lemma {:induction false} TablesAreThere(st: State, s: Session)
    requires Sound(st, [])
    ensures s in st.background ==> st.background[s] < |st.tables|
  {
    hide PlacesSound, BatchesSound, LeasesSound, CallsSound, HeldSound, DeliveredSound;
  }

  lemma {:induction false} FiledHere(st: State, commander: Session, j: JobId, notice: bool, done: bool)
    requires Sound(st, []) && j !in st.jobs
    ensures InTable(Filed(st, commander, j, notice, done), j) && Filed(st, commander, j, notice, done).jobs[j].done == done
    ensures commander in st.background ==> st.background[commander] < |st.tables|
  {
  }

  /** A commander that is gone leaves no notice unsettled. */
  lemma {:induction false} DroppedIsSettled(st: State, s: Session, j: JobId)
    requires Sound(st, []) && j in st.leased && j in st.jobs && st.jobs[j].commander == s
    ensures Forgotten(BatchDropped(st, s), s).settled[j] == 1
  {
    hide Sound, InTable, InBatch;
    var st1 := BatchDropped(st, s);
    BatchDroppedSound(st, s);
    ForgottenSound(st1, s);
    TablesAreThere(st1, s);
    var st2 := Forgotten(st1, s);
    assert s !in st2.background && s !in st2.batches;
    assert st2.leased == st.leased && st2.jobs.Keys == st.jobs.Keys;
    CommanderStays(st1, s, j);
    hide Forgotten, BatchDropped;
    UnheldIsSettled(st2, j);
  }

  lemma {:induction false} CommanderStays(st: State, s: Session, j: JobId)
    requires j in st.jobs
    ensures j in Forgotten(st, s).jobs && Forgotten(st, s).jobs[j].commander == st.jobs[j].commander
  {
  }

  lemma {:induction false} UnheldIsSettled(st: State, j: JobId)
    requires Sound(st, []) && j in st.leased && j in st.jobs && st.jobs[j].commander !in st.background && st.jobs[j].commander !in st.batches
    ensures st.settled[j] == 1
  {
    hide TablesSound, PlacesSound, BatchesSound, CallsSound, DeliveredSound;
  }
}
