/** The class `CompletionBatches` of extensions/builtin-tools/src/completion-batches.ts: completions that come
    close together go out as one message on one lease. */
module CompletionBatches {
  import opened Outcomes

  type Owner = string
  type Item = nat
  type Lease = nat

  datatype Batch = Batch(items: seq<Item>, notices: seq<Lease>)

  /** A lease already held, or one to be made only if a batch is started (which may give none). */
  datatype Reservation = Held(lease: Lease) | Lazy(made: Option<Lease>)

  /** `accepted` and `taken` are what came in; items end up `sent` or `lost`, leases `settled`. */
  datatype State = State(batches: map<Owner, Batch>, accepted: set<Item>, sent: multiset<Item>, lost: set<Item>, taken: set<Lease>, settled: set<Lease>)

  predicate Waiting(batches: map<Owner, Batch>, x: Item) { exists o | o in batches :: x in batches[o].items }

  predicate Outstanding(batches: map<Owner, Batch>, l: Lease) { exists o | o in batches :: l in batches[o].notices }

  ghost predicate ListedOnce(batches: map<Owner, Batch>) {
    && (forall o | o in batches :: batches[o].items != [] && batches[o].notices != [])
    && (forall o, x | o in batches && x in batches[o].items :: multiset(batches[o].items)[x] == 1)
  }

  ghost predicate ItemsApart(batches: map<Owner, Batch>) {
    forall o, p, x | o in batches && p in batches && x in batches[o].items && x in batches[p].items :: o == p
  }

  ghost predicate NoticesApart(batches: map<Owner, Batch>) {
    forall o, p, l | o in batches && p in batches && l in batches[o].notices && l in batches[p].notices :: o == p
  }

  /** Batches are not empty, list nothing twice, and share nothing. */
  ghost predicate BatchesApart(batches: map<Owner, Batch>) { ListedOnce(batches) && ItemsApart(batches) && NoticesApart(batches) }

  /** Each item accepted is in exactly one place: a batch, one message, or lost. */
  ghost predicate ItemsSound(st: State) {
    && (forall x | x in st.accepted :: Waiting(st.batches, x) || x in st.sent || x in st.lost)
    && (forall o, x | o in st.batches && x in st.batches[o].items :: x in st.accepted && x !in st.sent && x !in st.lost)
    && (forall x | x in st.sent :: x in st.accepted && x !in st.lost && st.sent[x] == 1)
    && st.lost <= st.accepted
  }

  /** A lease is unsettled exactly while a batch lists it. */
  ghost predicate LeasesSound(st: State) {
    && st.settled <= st.taken
    && (forall l | l in st.taken :: l in st.settled <==> !Outstanding(st.batches, l))
    && (forall o, l | o in st.batches && l in st.batches[o].notices :: l in st.taken)
  }

  ghost predicate Sound(st: State) { BatchesApart(st.batches) && ItemsSound(st) && LeasesSound(st) }

  /** A batch with one more item, and perhaps one more lease. */
  function With(batch: Option<Batch>, x: Item, notice: Option<Lease>): Batch {
    var b := if batch.Some? then batch.value else Batch([], []);
    Batch(b.items + [x], if notice.Some? then b.notices + [notice.value] else b.notices)
  }

  function Lookup(batches: map<Owner, Batch>, o: Owner): Option<Batch> { if o in batches then Some(batches[o]) else None }

  function Added(st: State, o: Owner, x: Item, notice: Option<Lease>): State {
    st.(batches := st.batches[o := With(Lookup(st.batches, o), x, notice)], accepted := st.accepted + {x},
        taken := st.taken + if notice.Some? then {notice.value} else {})
  }

  /** Taking a batch away: its items were sent or are lost, its leases are settled. */
  function Removed(st: State, o: Owner, rendered: bool): State
    requires o in st.batches
  {
    var b := st.batches[o];
    st.(batches := st.batches - {o}, sent := if rendered then st.sent + multiset(b.items) else st.sent,
        lost := if rendered then st.lost else st.lost + (set x | x in b.items), settled := st.settled + set l | l in b.notices)
  }

  lemma {:induction false} AddedApart(st: State, o: Owner, x: Item, notice: Option<Lease>)
    requires BatchesApart(st.batches) && !Waiting(st.batches, x) && (o in st.batches || notice.Some?)
    requires notice.Some? ==> !Outstanding(st.batches, notice.value)
    ensures BatchesApart(Added(st, o, x, notice).batches)
  {
    hide ListedOnce, ItemsApart, NoticesApart, Added, Waiting, Outstanding;
    AddedOnce(st, o, x, notice);
    AddedItemsApart(st, o, x, notice);
    AddedNoticesApart(st, o, x, notice);
  }

  lemma {:induction false} AddedOnce(st: State, o: Owner, x: Item, notice: Option<Lease>)
    requires ListedOnce(st.batches) && !Waiting(st.batches, x) && (o in st.batches || notice.Some?)
    ensures ListedOnce(Added(st, o, x, notice).batches)
  {
    var b, next := Lookup(st.batches, o), Added(st, o, x, notice).batches;
    var before := if b.Some? then b.value.items else [];
    OneMoreItem(before, x);
    assert next[o].items == before + [x];
    hide Waiting;
  }

  lemma {:induction false} AddedItemsApart(st: State, o: Owner, x: Item, notice: Option<Lease>)
    requires ItemsApart(st.batches) && !Waiting(st.batches, x)
    ensures ItemsApart(Added(st, o, x, notice).batches)
  {
    var next := Added(st, o, x, notice).batches;
    forall p, q, y | p in next && q in next && y in next[p].items && y in next[q].items ensures p == q {
      ItemFrom(st, o, x, notice, p, y);
      ItemFrom(st, o, x, notice, q, y);
    }
  }

  lemma {:induction false} ItemFrom(st: State, o: Owner, x: Item, notice: Option<Lease>, p: Owner, y: Item)
    requires p in Added(st, o, x, notice).batches && y in Added(st, o, x, notice).batches[p].items
    ensures (p in st.batches && y in st.batches[p].items) || (p == o && y == x)
  {
  }

  lemma {:induction false} AddedNoticesApart(st: State, o: Owner, x: Item, notice: Option<Lease>)
    requires NoticesApart(st.batches) && (notice.Some? ==> !Outstanding(st.batches, notice.value))
    ensures NoticesApart(Added(st, o, x, notice).batches)
  {
    var next := Added(st, o, x, notice).batches;
    forall p, q, l | p in next && q in next && l in next[p].notices && l in next[q].notices ensures p == q {
      NoticeFrom(st, o, x, notice, p, l);
      NoticeFrom(st, o, x, notice, q, l);
    }
  }

  lemma {:induction false} NoticeFrom(st: State, o: Owner, x: Item, notice: Option<Lease>, p: Owner, l: Lease)
    requires p in Added(st, o, x, notice).batches && l in Added(st, o, x, notice).batches[p].notices
    ensures (p in st.batches && l in st.batches[p].notices) || (p == o && notice == Some(l))
  {
  }

  lemma {:induction false} OneMoreItem(before: seq<Item>, x: Item)
    requires x !in before && forall y | y in before :: multiset(before)[y] == 1
    ensures forall y | y in before + [x] :: multiset(before + [x])[y] == 1
  {
    assert multiset(before + [x]) == multiset(before) + multiset{x};
    assert forall y | y in before + [x] :: y in before || y == x;
  }

  lemma {:induction false} AddedWhere(st: State, o: Owner, x: Item, notice: Option<Lease>)
    ensures forall y: Item :: Waiting(Added(st, o, x, notice).batches, y) <==> Waiting(st.batches, y) || y == x
    ensures forall l: Lease :: Outstanding(Added(st, o, x, notice).batches, l) <==> Outstanding(st.batches, l) || notice == Some(l)
  {
    var b, next := Lookup(st.batches, o), Added(st, o, x, notice).batches;
    assert forall p | p in st.batches && p != o :: p in next && next[p] == st.batches[p];
    assert o in next && next[o] == With(b, x, notice);
    forall y: Item ensures Waiting(next, y) <==> Waiting(st.batches, y) || y == x {
      assert y in next[o].items <==> (b.Some? && y in b.value.items) || y == x;
    }
    forall l: Lease ensures Outstanding(next, l) <==> Outstanding(st.batches, l) || notice == Some(l) {
      assert l in next[o].notices <==> (b.Some? && l in b.value.notices) || notice == Some(l);
    }
  }

  lemma {:induction false} AddedSound(st: State, o: Owner, x: Item, notice: Option<Lease>)
    requires Sound(st) && x !in st.accepted && (notice.Some? ==> notice.value !in st.taken) && (o in st.batches || notice.Some?)
    ensures Sound(Added(st, o, x, notice))
  {
    NewcomersUnknown(st, x, notice);
    hide BatchesApart, ItemsSound, LeasesSound, Added, Waiting, Outstanding;
    AddedApart(st, o, x, notice);
    AddedWhere(st, o, x, notice);
    AddedItems(st, o, x, notice);
    AddedLeases(st, o, x, notice);
  }

  lemma {:induction false} NewcomersUnknown(st: State, x: Item, notice: Option<Lease>)
    requires ItemsSound(st) && LeasesSound(st) && x !in st.accepted && (notice.Some? ==> notice.value !in st.taken)
    ensures !Waiting(st.batches, x) && (notice.Some? ==> !Outstanding(st.batches, notice.value))
  {
  }

  lemma {:induction false} AddedItems(st: State, o: Owner, x: Item, notice: Option<Lease>)
    requires ItemsSound(st) && x !in st.accepted
    requires forall y: Item :: Waiting(Added(st, o, x, notice).batches, y) <==> Waiting(st.batches, y) || y == x
    ensures ItemsSound(Added(st, o, x, notice))
  {
    var st' := Added(st, o, x, notice);
    forall p, y | p in st'.batches && y in st'.batches[p].items ensures y in st'.accepted && y !in st'.sent && y !in st'.lost {
      assert Waiting(st'.batches, y);
    }
    hide Waiting, With;
  }

  lemma {:induction false} AddedLeases(st: State, o: Owner, x: Item, notice: Option<Lease>)
    requires LeasesSound(st) && (notice.Some? ==> notice.value !in st.taken)
    requires forall l: Lease :: Outstanding(Added(st, o, x, notice).batches, l) <==> Outstanding(st.batches, l) || notice == Some(l)
    ensures LeasesSound(Added(st, o, x, notice))
  {
    var st' := Added(st, o, x, notice);
    forall p, l | p in st'.batches && l in st'.batches[p].notices ensures l in st'.taken {
      assert Outstanding(st'.batches, l);
    }
    hide Outstanding, With;
  }

  lemma {:induction false} RemovedWhere(st: State, o: Owner, rendered: bool)
    requires BatchesApart(st.batches) && o in st.batches
    ensures BatchesApart(Removed(st, o, rendered).batches)
    ensures forall y: Item :: Waiting(Removed(st, o, rendered).batches, y) <==> Waiting(st.batches, y) && y !in st.batches[o].items
    ensures forall l: Lease :: Outstanding(Removed(st, o, rendered).batches, l) <==> Outstanding(st.batches, l) && l !in st.batches[o].notices
    ensures forall x | x in st.batches[o].items :: multiset(st.batches[o].items)[x] == 1
  {
    var next := st.batches - {o};
    forall y: Item ensures Waiting(next, y) <==> Waiting(st.batches, y) && y !in st.batches[o].items {
      assert forall p | p in next :: p in st.batches && next[p] == st.batches[p];
      if p :| p in st.batches && y in st.batches[p].items && y !in st.batches[o].items {
        assert p in next;
      }
    }
    forall l: Lease ensures Outstanding(next, l) <==> Outstanding(st.batches, l) && l !in st.batches[o].notices {
      assert forall p | p in next :: p in st.batches && next[p] == st.batches[p];
      if p :| p in st.batches && l in st.batches[p].notices && l !in st.batches[o].notices {
        assert p in next;
      }
    }
  }

  lemma {:induction false} RemovedSound(st: State, o: Owner, rendered: bool)
    requires Sound(st) && o in st.batches
    ensures Sound(Removed(st, o, rendered))
  {
    RemovedWhere(st, o, rendered);
    RemovedItems(st, o, rendered);
    var st' := Removed(st, o, rendered);
    forall p, l | p in st'.batches && l in st'.batches[p].notices ensures l in st'.taken {
      assert p in st.batches && l in st.batches[p].notices;
    }
    forall l | l in st.batches[o].notices ensures l in st.taken && Outstanding(st.batches, l) {
    }
    hide Waiting, Outstanding, BatchesApart, ItemsSound;
  }

  lemma {:induction false} RemovedItems(st: State, o: Owner, rendered: bool)
    requires Sound(st) && o in st.batches && BatchesApart(Removed(st, o, rendered).batches)
    requires forall y: Item :: Waiting(Removed(st, o, rendered).batches, y) <==> Waiting(st.batches, y) && y !in st.batches[o].items
    requires forall x | x in st.batches[o].items :: multiset(st.batches[o].items)[x] == 1
    ensures ItemsSound(Removed(st, o, rendered))
  {
    var st' := Removed(st, o, rendered);
    forall p, y | p in st'.batches && y in st'.batches[p].items ensures y in st'.accepted && y !in st'.sent && y !in st'.lost {
      assert p in st.batches && y in st.batches[p].items && Waiting(st'.batches, y);
    }
    hide Waiting, BatchesApart, LeasesSound;
  }

  /** What came in and what became of it. */
  datatype Ledger = Ledger(accepted: set<Item>, sent: multiset<Item>, lost: set<Item>, taken: set<Lease>, settled: set<Lease>)

  class Batches {
    var batches: map<Owner, Batch>
    var messages: seq<(Lease, seq<Item>)>
    ghost var ledger: Ledger

    ghost function Now(): State reads this { State(batches, ledger.accepted, ledger.sent, ledger.lost, ledger.taken, ledger.settled) }

    constructor ()
      ensures Sound(Now()) && messages == [] && ledger.taken == {}
    {
      batches, messages, ledger := map[], [], Ledger({}, multiset{}, {}, {}, {});
    }

    /** `add`: a lazy reservation is made only for a new batch, and an item nobody can be told about is refused. */
    method Add(o: Owner, x: Item, reservation: Reservation) returns (added: bool)
      requires Sound(Now()) && x !in ledger.accepted
      requires reservation.Held? ==> reservation.lease !in ledger.taken
      requires reservation.Lazy? && reservation.made.Some? ==> reservation.made.value !in ledger.taken
      modifies this
      ensures Sound(Now()) && messages == old(messages)
      ensures added == (o in old(batches) || reservation.Held? || reservation.made.Some?)
      ensures added ==> x in ledger.accepted && Now() == Added(old(Now()), o, x,
                          if reservation.Held? then Some(reservation.lease) else if o in old(batches) then None else reservation.made)
      ensures !added ==> Now() == old(Now())
    {
      hide Sound, With;
      var notice := if reservation.Held? then Some(reservation.lease) else if o in batches then None else reservation.made;
      added := o in batches || notice.Some?;
      if added {
        AddedSound(Now(), o, x, notice);
        batches := batches[o := With(Lookup(batches, o), x, notice)];
        ledger := ledger.(accepted := ledger.accepted + {x}, taken := ledger.taken + if notice.Some? then {notice.value} else {});
      }
    }

    /** `#flush`, when a batch's timer fires: one message on its first lease, all leases settled, also when the
        message cannot be rendered. */
    method Flush(o: Owner, rendered: bool)
      requires Sound(Now())
      modifies this
      ensures Sound(Now()) && Now() == if o in old(batches) then Removed(old(Now()), o, rendered) else old(Now())
      ensures o in old(batches) && rendered ==>
                old(batches)[o].notices != [] && messages == old(messages) + [(old(batches)[o].notices[0], old(batches)[o].items)]
      ensures !(o in old(batches) && rendered) ==> messages == old(messages)
    {
      hide Sound;
      if o in batches {
        RemovedSound(Now(), o, rendered);
        FirstLease(Now(), o);
        var batch := batches[o];
        batches := batches - {o};
        if rendered {
          messages := messages + [(batch.notices[0], batch.items)];
          ledger := ledger.(sent := ledger.sent + multiset(batch.items));
        } else {
          ledger := ledger.(lost := ledger.lost + set x | x in batch.items);
        }
        ledger := ledger.(settled := ledger.settled + set l | l in batch.notices);
      }
    }

    /** `dispose`: nothing waits and no lease is left. */
    method Dispose()
      requires Sound(Now())
      modifies this
      ensures Sound(Now()) && batches == map[] && ledger.settled == ledger.taken && messages == old(messages) && ledger.sent == old(ledger).sent
    {
      while batches != map[]
        invariant Sound(Now()) && messages == old(messages) && ledger.sent == old(ledger).sent
        decreases batches.Keys
      {
        hide Sound;
        assert batches.Keys != {};
        var o :| o in batches;
        Flush(o, false);
      }
      NothingOutstanding(Now());
    }
  }

  lemma {:induction false} FirstLease(st: State, o: Owner)
    requires Sound(st) && o in st.batches
    ensures st.batches[o].notices != []
  {
  }

  lemma {:induction false} NothingOutstanding(st: State)
    requires Sound(st) && st.batches == map[]
    ensures st.settled == st.taken
  {
    forall l | l in st.taken ensures l in st.settled {
      assert !Outstanding(st.batches, l);
    }
  }
}
