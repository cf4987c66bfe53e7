/** What the import worker's steps add up to: recovery, finality of outcomes and the run counters
    (src/google_drive.rs). */
module ImportBooks {
  import opened Common
  import opened ImportWorker

  lemma {:induction false} RunKeepsPayloads(ops: seq<Op>)
    ensures PayloadsOk(Execute(Initial, ops))
  {
    if ops == [] {
      InitialPayloadsOk();
    } else {
      RunKeepsPayloads(ops[..|ops| - 1]);
      StepKeepsPayloads(Execute(Initial, ops[..|ops| - 1]), ops[|ops| - 1]);
    }
  }

  /** Over every run with crashes anywhere: a committing item has its payload, and giving it up never applies. */
  lemma NeverAbandons(ops: seq<Op>, i: Id)
    requires i in Execute(Initial, ops).items && Execute(Initial, ops).items[i].state.Committing?
    ensures var s := Execute(Initial, ops); CommittingOk(s, i) && !MustAbandon(s, i)
    ensures var s := Execute(Initial, ops); Step(s, Recommitting(Abandon)) == s
  {
    var s := Execute(Initial, ops);
    RunKeepsPayloads(ops);
    assert ItemOk(s, i);
    NothingToAbandon(s);
  }

  lemma NothingToAbandon(s: State)
    requires PayloadsOk(s)
    ensures Step(s, Recommitting(Abandon)) == s
  {
    if s.at.Resuming? {
      assert ItemOk(s, s.at.item);
    }
  }

  lemma ReadyMeansPresent(ops: seq<Op>, o: Id)
    requires o in Execute(Initial, ops).objects && Execute(Initial, ops).objects[o].ready
    ensures var s := Execute(Initial, ops); o in s.files && s.objects[o].checksum == Some(s.files[o])
  {
    RunKeepsPayloads(ops);
    assert ObjectOk(Execute(Initial, ops), o);
  }

  predicate Final(st: ItemState) {
    st.Stored? || st.Skipped? || st.Failed?
  }

  ghost predicate KeepsFinal(s: State, t: State, i: Id) {
    i in s.items && Final(s.items[i].state) ==> i in t.items && t.items[i].state == s.items[i].state
  }

  lemma ListingKeepsFinal(s: State, op: ListOp, i: Id)
    requires PositionOk(s)
    ensures KeepsFinal(s, ListingStep(s, op), i)
  {
  }

  lemma RestoringKeepsFinal(s: State, op: RecoverOp, i: Id)
    requires PositionOk(s)
    ensures KeepsFinal(s, RestoringStep(s, op), i)
  {
  }

  lemma ClaimingKeepsFinal(s: State, op: ClaimOp, i: Id)
    requires PositionOk(s)
    ensures KeepsFinal(s, ClaimingStep(s, op), i)
  {
  }

  lemma FetchingKeepsFinal(s: State, op: DownloadOp, i: Id)
    requires PositionOk(s)
    ensures KeepsFinal(s, FetchingStep(s, op), i)
  {
  }

  lemma StoringKeepsFinal(s: State, op: CommitOp, i: Id)
    requires PositionOk(s)
    ensures KeepsFinal(s, StoringStep(s, op), i)
  {
  }

  lemma RecommittingKeepsFinal(s: State, op: ResumeOp, i: Id)
    requires PositionOk(s)
    ensures KeepsFinal(s, RecommittingStep(s, op), i)
  {
  }

  lemma GivingUpKeepsFinal(s: State, op: FailOp, i: Id)
    requires PositionOk(s)
    ensures KeepsFinal(s, GivingUpStep(s, op), i)
  {
  }

  lemma FinalStays(s: State, op: Op, i: Id)
    requires PayloadsOk(s)
    ensures KeepsFinal(s, Step(s, op), i)
  {
    match op {
      case Listing(o) => ListingKeepsFinal(s, o, i);
      case Restoring(o) => RestoringKeepsFinal(s, o, i);
      case Claiming(o) => ClaimingKeepsFinal(s, o, i);
      case Fetching(o) => FetchingKeepsFinal(s, o, i);
      case Storing(o) => StoringKeepsFinal(s, o, i);
      case Recommitting(o) => RecommittingKeepsFinal(s, o, i);
      case GivingUp(o) => GivingUpKeepsFinal(s, o, i);
      case Crash =>
    }
  }

  lemma ExecuteLast(ops: seq<Op>, more: seq<Op>)
    requires more != []
    ensures Execute(Initial, ops + more) == Step(Execute(Initial, ops + more[..|more| - 1]), more[|more| - 1])
  {
    assert (ops + more)[..|ops + more| - 1] == ops + more[..|more| - 1];
  }

  /** An outcome is never revised: no item is stored at one moment and failed at another. */
  lemma {:induction false} OutcomeIsFinal(ops: seq<Op>, more: seq<Op>, i: Id)
    requires i in Execute(Initial, ops).items && Final(Execute(Initial, ops).items[i].state)
    ensures i in Execute(Initial, ops + more).items
    ensures Execute(Initial, ops + more).items[i].state == Execute(Initial, ops).items[i].state
  {
    if more == [] {
      assert ops + more == ops;
    } else {
      var front := more[..|more| - 1];
      OutcomeIsFinal(ops, front, i);
      ExecuteLast(ops, more);
      RunKeepsPayloads(ops + front);
      FinalStays(Execute(Initial, ops + front), more[|more| - 1], i);
    }
  }

  /** Whatever crashed before, three steps of the next pass turn a committing item into a stored one. */
  lemma ResumeStores(s: State, i: Id) returns (o: Id, t: State)
    requires PayloadsOk(s) && s.at.Idle? && i in s.items && s.items[i].state.Committing?
    ensures s.items[i].stored == Some(o)
    ensures var a := Step(s, Recommitting(PickResume(i)));
            var b := if o in s.files then Step(a, Recommitting(ResumePresent(true)))
              else Step(a, Recommitting(ResumePromote));
            t == Step(b, Storing(FinishReady))
    ensures i in t.items && t.items[i].state.Stored?
    ensures o in t.objects && t.objects[o].ready && o in t.files && Some(t.files[o]) == s.items[i].checksum
  {
    assert ItemOk(s, i);
    o := s.items[i].stored.value;
    var a := Step(s, Recommitting(PickResume(i)));
    assert a == s.(at := Resuming(i)) && !MustAbandon(a, i);
    var b := if o in s.files then Step(a, Recommitting(ResumePresent(true))) else Step(a, Recommitting(ResumePromote));
    assert b.items == s.items && b.objects == s.objects && b.runs == s.runs;
    assert b.at == Promoted(i, o, s.items[i].checksum.value, s.items[i].size);
    t := Step(b, Storing(FinishReady));
  }

  // ----- counting items

  ghost function ItemsOf(items: map<Id, Item>, r: Id): set<Id> {
    set i | i in items && items[i].run == r
  }

  ghost function ItemsIn(items: map<Id, Item>, r: Id, st: ItemState): set<Id> {
    set i | i in items && items[i].run == r && items[i].state == st
  }

  ghost function Bytes(items: map<Id, Item>, s: set<Id>): nat
    requires s <= items.Keys
  {
    if s == {} then 0
    else
      var i :| i in s;
      items[i].size + Bytes(items, s - {i})
  }

  lemma {:induction false} BytesRemove(items: map<Id, Item>, s: set<Id>, x: Id)
    requires s <= items.Keys && x in s
    ensures Bytes(items, s) == items[x].size + Bytes(items, s - {x})
    decreases |s|
  {
    var i :| i in s && Bytes(items, s) == items[i].size + Bytes(items, s - {i});
    if i != x {
      BytesRemove(items, s - {i}, x);
      BytesRemove(items, s - {x}, i);
      assert s - {i} - {x} == s - {x} - {i};
    }
  }

  lemma {:induction false} BytesSame(items: map<Id, Item>, items': map<Id, Item>, s: set<Id>)
    requires s <= items.Keys && s <= items'.Keys && forall i :: i in s ==> items'[i].size == items[i].size
    ensures Bytes(items', s) == Bytes(items, s)
    decreases |s|
  {
    if s != {} {
      var i :| i in s && Bytes(items, s) == items[i].size + Bytes(items, s - {i});
      BytesRemove(items', s, i);
      BytesSame(items, items', s - {i});
    }
  }

  ghost function Tally(items: map<Id, Item>, r: Id, st: ItemState): nat {
    |ItemsIn(items, r, st)|
  }

  ghost function Total(items: map<Id, Item>, r: Id): nat {
    |ItemsOf(items, r)|
  }

  ghost function StoredBytes(items: map<Id, Item>, r: Id): nat {
    Bytes(items, ItemsIn(items, r, Stored))
  }

  function Unit(b: bool): nat {
    if b then 1 else 0
  }

  lemma SizeWithout(s: set<Id>, i: Id)
    ensures |s| == |s - {i}| + Unit(i in s)
  {
    if i in s {
      assert s == (s - {i}) + {i};
    } else {
      assert s == s - {i};
    }
  }

  /** Two sets that differ at most in one element. */
  lemma OneApart(was: set<Id>, now: set<Id>, i: Id)
    requires forall j :: j != i ==> (j in was <==> j in now)
    ensures |now| + Unit(i in was) == |was| + Unit(i in now)
  {
    SizeWithout(was, i);
    SizeWithout(now, i);
    assert was - {i} == now - {i};
  }

  lemma TallyUpdate(items: map<Id, Item>, i: Id, x: Item, r: Id, st: ItemState)
    ensures Tally(items[i := x], r, st) + Unit(i in items && items[i].run == r && items[i].state == st)
            == Tally(items, r, st) + Unit(x.run == r && x.state == st)
  {
    var was, now := ItemsIn(items, r, st), ItemsIn(items[i := x], r, st);
    OneApart(was, now, i);
  }

  lemma TotalUpdate(items: map<Id, Item>, i: Id, x: Item, r: Id)
    ensures Total(items[i := x], r) + Unit(i in items && items[i].run == r) == Total(items, r) + Unit(x.run == r)
  {
    var was, now := ItemsOf(items, r), ItemsOf(items[i := x], r);
    OneApart(was, now, i);
  }

  lemma BytesUpdate(items: map<Id, Item>, i: Id, x: Item, r: Id)
    requires !(i in items && items[i].run == r && items[i].state.Stored?)
    ensures StoredBytes(items[i := x], r) == StoredBytes(items, r) + if x.run == r && x.state.Stored? then x.size else 0
  {
    var items' := items[i := x];
    var was, now := ItemsIn(items, r, Stored), ItemsIn(items', r, Stored);
    BytesSame(items, items', was);
    if x.run == r && x.state.Stored? {
      assert now == was + {i};
      BytesRemove(items', now, i);
      assert now - {i} == was;
    } else {
      assert now == was;
    }
  }

  /** The tallies of a run's outcomes agree. */
  ghost predicate SameOutcomes(items: map<Id, Item>, items': map<Id, Item>, r: Id) {
    && Total(items', r) == Total(items, r) && StoredBytes(items', r) == StoredBytes(items, r)
    && Tally(items', r, Stored) == Tally(items, r, Stored) && Tally(items', r, Skipped) == Tally(items, r, Skipped)
    && Tally(items', r, Failed) == Tally(items, r, Failed)
  }

  lemma UpdateAll(items: map<Id, Item>, i: Id, x: Item, r: Id)
    requires i in items ==> Unfinished(items[i].state) && x.run == items[i].run
    ensures var y := items[i := x];
            && Total(y, r) == Total(items, r) + Unit(i !in items && x.run == r)
            && StoredBytes(y, r) == StoredBytes(items, r) + (if x.run == r && x.state.Stored? then x.size else 0)
            && Tally(y, r, Stored) == Tally(items, r, Stored) + Unit(x.run == r && x.state.Stored?)
            && Tally(y, r, Skipped) == Tally(items, r, Skipped) + Unit(x.run == r && x.state.Skipped?)
            && Tally(y, r, Failed) == Tally(items, r, Failed) + Unit(x.run == r && x.state.Failed?)
  {
    TotalUpdate(items, i, x, r);
    BytesUpdate(items, i, x, r);
    TallyUpdate(items, i, x, r, Stored);
    TallyUpdate(items, i, x, r, Skipped);
    TallyUpdate(items, i, x, r, Failed);
  }

  // ----- the books of one run

  ghost function Uncounted(s: State, r: Id): nat {
    if s.at.FailedUncounted? && s.at.item in s.items && s.items[s.at.item].run == r then 1 else 0
  }

  ghost predicate Counters(run: Run, items: map<Id, Item>, r: Id, uncounted: nat) {
    && run.downloadedFiles == Tally(items, r, Stored) && run.downloadedBytes == StoredBytes(items, r)
    && run.skipped == Tally(items, r, Skipped) && run.discovered == Total(items, r)
    && run.failed + uncounted <= Tally(items, r, Failed)
  }

  ghost predicate NothingLeft(items: map<Id, Item>, r: Id) {
    forall i :: i in items && items[i].run == r ==> Final(items[i].state)
  }

  ghost predicate BooksOk(s: State, r: Id) {
    r in s.runs ==>
      && Counters(s.runs[r], s.items, r, Uncounted(s, r))
      && (s.runs[r].state.CompletedRun? ==> NothingLeft(s.items, r) && r !in s.open)
  }

  lemma StartRunKeepsBooks(s: State, run: Id, r: Id)
    requires PayloadsOk(s) && BooksOk(s, r)
    ensures BooksOk(ListingStep(s, StartRun(run)), r)
  {
    if run !in s.runs && run == r {
      forall i | i in s.items ensures s.items[i].run != r {
        assert ItemOk(s, i);
      }
      assert ItemsOf(s.items, r) == {} && ItemsIn(s.items, r, Stored) == {} && ItemsIn(s.items, r, Skipped) == {};
    }
  }

  lemma DiscoverKeepsBooks(s: State, i: Id, skip: bool, r: Id)
    requires PayloadsOk(s) && BooksOk(s, r)
    ensures BooksOk(ListingStep(s, Discover(i, skip)), r)
  {
    if s.at.ReadingPage? && i !in s.items {
      UpdateAll(s.items, i, Item(s.at.run, if skip then Skipped else Pending, None, None, None, 0), r);
    }
  }

  lemma ListingKeepsBooks(s: State, op: ListOp, r: Id)
    requires PayloadsOk(s) && BooksOk(s, r)
    ensures BooksOk(ListingStep(s, op), r)
  {
    match op {
      case StartRun(run) => StartRunKeepsBooks(s, run, r);
      case Discover(i, skip) => DiscoverKeepsBooks(s, i, skip, r);
      case _ =>
    }
  }

  lemma RestoringKeepsBooks(s: State, op: RecoverOp, r: Id)
    requires PayloadsOk(s) && BooksOk(s, r)
    ensures BooksOk(RestoringStep(s, op), r)
  {
    if op.RecoverDownloads? {
      if s.at.Idle? {
        RecoveredBooks(s, Recovering(StuckKeys(s.items)), r);
      }
    } else {
      if s.at.Recovering? {
        QuietKeepsBooks(s, RestoringStep(s, op), 0, r);
      }
    }
  }

  lemma RecoveredBooks(s: State, at: Position, r: Id)
    requires BooksOk(s, r) && !at.FailedUncounted?
    ensures BooksOk(s.(items := RecoveredItems(s.items), at := at), r)
  {
    RecoveryKeepsOutcomes(s.items, r);
  }

  lemma RecoveryKeepsOutcomes(items: map<Id, Item>, r: Id)
    ensures SameOutcomes(items, RecoveredItems(items), r)
    ensures NothingLeft(items, r) ==> NothingLeft(RecoveredItems(items), r)
  {
    var items' := RecoveredItems(items);
    assert ItemsOf(items', r) == ItemsOf(items, r);
    assert ItemsIn(items', r, Stored) == ItemsIn(items, r, Stored);
    assert ItemsIn(items', r, Skipped) == ItemsIn(items, r, Skipped);
    assert ItemsIn(items', r, Failed) == ItemsIn(items, r, Failed);
    BytesSame(items, items', ItemsIn(items, r, Stored));
  }

  /** Steps that move an item between unfinished states, or touch no item at all. */
  lemma QuietKeepsBooks(s: State, t: State, i: Id, r: Id)
    requires BooksOk(s, r) && t.runs == s.runs && t.open == s.open && !t.at.FailedUncounted?
    requires t.items == s.items
      || (i in s.items && i in t.items && t.items == s.items[i := t.items[i]] && Unfinished(s.items[i].state)
               && Unfinished(t.items[i].state) && t.items[i].run == s.items[i].run)
    ensures BooksOk(t, r)
  {
    if t.items != s.items {
      UpdateAll(s.items, i, t.items[i], r);
    }
  }

  lemma FinishKeepsBooks(s: State, r: Id)
    requires PayloadsOk(s) && BooksOk(s, r)
    ensures BooksOk(StoringStep(s, FinishReady), r)
  {
    var t := StoringStep(s, FinishReady);
    if t != s {
      UpdateAll(s.items, s.at.item, t.items[s.at.item], r);
    }
  }

  lemma StoringKeepsBooks(s: State, op: CommitOp, r: Id)
    requires PayloadsOk(s) && BooksOk(s, r)
    ensures BooksOk(StoringStep(s, op), r)
  {
    var t := StoringStep(s, op);
    if op.FinishReady? {
      FinishKeepsBooks(s, r);
    } else if t != s {
      QuietKeepsBooks(s, t, s.at.item, r);
    }
  }

  lemma GivingUpKeepsBooks(s: State, op: FailOp, r: Id)
    requires PayloadsOk(s) && BooksOk(s, r)
    ensures BooksOk(GivingUpStep(s, op), r)
  {
    var t := GivingUpStep(s, op);
    if t != s && op.MarkFailed? {
      UpdateAll(s.items, s.at.item, t.items[s.at.item], r);
    }
  }

  lemma RecommittingKeepsBooks(s: State, op: ResumeOp, r: Id)
    requires PayloadsOk(s) && BooksOk(s, r)
    ensures BooksOk(RecommittingStep(s, op), r)
  {
    var t := RecommittingStep(s, op);
    if t != s {
      if op.Abandon? {
        UpdateAll(s.items, s.at.item, t.items[s.at.item], r);
      } else {
        QuietKeepsBooks(s, t, 0, r);
      }
    }
  }

  lemma StepKeepsBooks(s: State, op: Op, r: Id)
    requires PayloadsOk(s) && BooksOk(s, r)
    ensures BooksOk(Step(s, op), r)
  {
    match op {
      case Listing(o) => ListingKeepsBooks(s, o, r);
      case Restoring(o) => RestoringKeepsBooks(s, o, r);
      case Claiming(o) => ClaimingKeepsBooks(s, o, r);
      case Fetching(o) => FetchingKeepsBooks(s, o, r);
      case Storing(o) => StoringKeepsBooks(s, o, r);
      case Recommitting(o) => RecommittingKeepsBooks(s, o, r);
      case GivingUp(o) => GivingUpKeepsBooks(s, o, r);
      case Crash => QuietKeepsBooks(s, s.(at := Idle), 0, r);
    }
  }

  lemma ClaimingKeepsBooks(s: State, op: ClaimOp, r: Id)
    requires PayloadsOk(s) && BooksOk(s, r)
    ensures BooksOk(ClaimingStep(s, op), r)
  {
    var t := ClaimingStep(s, op);
    if t != s {
      QuietKeepsBooks(s, t, if op.Claim? then op.item else s.at.item, r);
    }
  }

  lemma FetchingKeepsBooks(s: State, op: DownloadOp, r: Id)
    requires PayloadsOk(s) && BooksOk(s, r)
    ensures BooksOk(FetchingStep(s, op), r)
  {
    var t := FetchingStep(s, op);
    if t != s {
      QuietKeepsBooks(s, t, s.at.item, r);
    }
  }

  /** Run accounting over every run: exact downloads and discoveries, no over-counted failure,
      and a completed run holds only final items. */
  lemma {:induction false} RunKeepsBooks(ops: seq<Op>, r: Id)
    ensures BooksOk(Execute(Initial, ops), r)
  {
    if ops != [] {
      var front := ops[..|ops| - 1];
      RunKeepsBooks(front, r);
      RunKeepsPayloads(front);
      StepKeepsBooks(Execute(Initial, front), ops[|ops| - 1], r);
    }
  }
}
