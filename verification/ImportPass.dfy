/** The import worker's functions as they run, updating rows and files in place (src/google_drive.rs). Each is proved to
    be a run of the steps in `ImportWorker`, so that everything shown of those runs holds of it, and a crash inside one
    of them is a run cut short. */
module ImportPass {
  import opened Common
  import opened ImportWorker
  import opened ImportBooks

  lemma Then(s: State, ops: seq<Op>, op: Op)
    ensures Execute(s, ops + [op]) == Step(Execute(s, ops), op)
  {
    assert (ops + [op])[..|ops|] == ops;
  }

  lemma {:induction false} ExecuteKeepsPayloads(s: State, ops: seq<Op>)
    requires PayloadsOk(s)
    ensures PayloadsOk(Execute(s, ops))
  {
    if ops != [] {
      ExecuteKeepsPayloads(s, ops[..|ops| - 1]);
      StepKeepsPayloads(Execute(s, ops[..|ops| - 1]), ops[|ops| - 1]);
    }
  }

  lemma LastApart(ops: seq<Op>, more: seq<Op>)
    requires more != []
    ensures var n := |more| - 1; more == more[..n] + [more[n]] && ops + more == (ops + more[..n]) + [more[n]]
  {
  }

  lemma {:induction false} ExecuteTwice(s: State, ops: seq<Op>, more: seq<Op>)
    ensures Execute(s, ops + more) == Execute(Execute(s, ops), more)
  {
    if more == [] {
      assert ops + more == ops;
    } else {
      var n := |more| - 1;
      LastApart(ops, more);
      ExecuteTwice(s, ops, more[..n]);
      Then(s, ops + more[..n], more[n]);
      Then(Execute(s, ops), more[..n], more[n]);
    }
  }

  const MAX_SIZE: nat := 0x7FFF_FFFF_FFFF_FFFF

  /** What the claim query orders and filters by besides the state. */
  datatype Columns = Columns(priority: nat, size: Option<nat>, created: int, open: bool)

  /** The resumed item is stored with its payload, and no other item changes. */
  ghost predicate StoredNow(s: State, t: State, i: Id) {
    && i in s.items && s.items[i].state.Committing? && s.items[i].stored.Some? && i in t.items
    && t.items == s.items[i := s.items[i].(state := Stored, staging := None)]
    && var o := s.items[i].stored.value;
       o in t.objects && t.objects[o].ready && o in t.files && s.items[i].checksum == Some(t.files[o])
  }

  lemma FinishStores(s: State)
    requires PayloadsOk(s) && s.at.Promoted?
    ensures StoredNow(s, Step(s, Storing(FinishReady)), s.at.item)
  {
    assert ItemOk(s, s.at.item);
  }

  lemma TwoSteps(s: State, a: Op, b: Op)
    ensures Execute(s, [a, b]) == Step(Step(s, a), b)
  {
    assert [a, b] == [a] + [b] && [a] == [] + [a];
    Then(s, [a], b);
    Then(s, [], a);
  }

  lemma ThreeSteps(s: State, a: Op, b: Op, c: Op)
    ensures Execute(s, [a, b, c]) == Step(Step(Step(s, a), b), c)
  {
    assert [a, b, c] == [a, b] + [c] && [a, b] == [a] + [b] && [a] == [] + [a];
    Then(s, [a, b], c);
    Then(s, [a], b);
    Then(s, [], a);
  }

  class Worker {
    var items: map<Id, Item>
    var runs: map<Id, Run>
    var open: set<Id>
    var objects: map<Id, Object>
    var staging: map<Id, Payload>
    var files: map<Id, Payload>
    ghost var keyFor: map<Id, Id>
    ghost var objectFor: map<Id, Id>
    var at: Position

    ghost function View(): State
      reads this
    {
      State(items, runs, open, objects, staging, files, keyFor, objectFor, at)
    }

    constructor ()
      ensures View() == Initial
    {
      items, runs, open, objects, staging, files, at := map[], map[], {}, map[], map[], map[], Idle;
      keyFor, objectFor := map[], map[];
    }

    /** One file of `recover_downloads`; that it may not be removable is ignored. */
    method RemoveStuck(key: Id) returns (ghost op: RecoverOp)
      requires at.Recovering? && key in at.keys
      modifies this
      ensures View() == Step(old(View()), Restoring(op)) && at == Recovering(old(at).keys - {key})
      ensures items == old(items) && files == old(files) && objects == old(objects)
    {
      var removed := *;
      if removed {
        staging := staging - {key};
      }
      at := Recovering(at.keys - {key});
      op := RemoveRecovered(key, removed);
    }

    method ResetStuck() returns (keys: set<Id>)
      requires at.Idle?
      modifies this
      ensures View() == Step(old(View()), Restoring(ImportWorker.RecoverDownloads)) && at == Recovering(keys)
      ensures items == RecoveredItems(old(items)) && files == old(files) && objects == old(objects)
    {
      keys := StuckKeys(items);
      items, at := RecoveredItems(items), Recovering(keys);
    }

    /** `recover_downloads`: stuck items become pending again, then their staging files are removed as far as
      * possible. */
    method RecoverDownloads() returns (ghost ops: seq<Op>)
      requires at.Idle?
      modifies this
      ensures View() == Execute(old(View()), ops) && at.Idle?
      ensures items == RecoveredItems(old(items)) && files == old(files) && objects == old(objects)
      ensures forall i :: i in items ==> !items[i].state.Downloading?
    {
      ghost var s := View();
      var keys := ResetStuck();
      Then(s, [], Restoring(ImportWorker.RecoverDownloads));
      ops := [] + [Restoring(ImportWorker.RecoverDownloads)];
      while keys != {}
        invariant View() == Execute(s, ops) && at == Recovering(keys)
        invariant items == RecoveredItems(s.items) && files == s.files && objects == s.objects
        decreases |keys|
      {
        var key :| key in keys;
        ghost var op := RemoveStuck(key);
        keys := keys - {key};
        Then(s, ops, Restoring(op));
        ops := ops + [Restoring(op)];
      }
      Then(s, ops, Restoring(RemoveRecovered(0, true)));
      ops := ops + [Restoring(RemoveRecovered(0, true))];
      at := Idle;
      NoneStuck(s.items);
    }

    static lemma NoneStuck(items: map<Id, Item>)
      ensures forall i :: i in RecoveredItems(items) ==> !RecoveredItems(items)[i].state.Downloading?
    {
    }

    /** The committing item that was updated longest ago, ties to the smaller id; `updated` is the column of that
      * name. */
    method NextCommitting(updated: Id -> int) returns (r: Option<Id>)
      ensures r.None? ==> forall i :: i in items ==> !items[i].state.Committing?
      ensures r.Some? ==> r.value in items && items[r.value].state.Committing?
      ensures r.Some? ==> forall i :: i in items && items[i].state.Committing? ==> Waited(updated, r.value, i)
    {
      var todo := items.Keys;
      r := None;
      while todo != {}
        invariant todo <= items.Keys && (r.Some? ==> r.value in items && items[r.value].state.Committing?)
        invariant forall i :: i in items && i !in todo && items[i].state.Committing? ==>
          r.Some? && Waited(updated, r.value, i)
        decreases |todo|
      {
        var i :| i in todo;
        todo := todo - {i};
        if items[i].state.Committing? && (r.None? || Waited(updated, i, r.value)) {
          r := Some(i);
        }
      }
    }

    static predicate Waited(updated: Id -> int, i: Id, j: Id) {
      updated(i) < updated(j) || (updated(i) == updated(j) && i <= j)
    }

    /** `finish_ready`. */
    method FinishReady(i: Id, o: Id, payload: Payload, size: nat)
      requires at == Promoted(i, o, payload, size) && i in items
      modifies this
      ensures View() == Step(old(View()), Storing(ImportWorker.FinishReady)) && at.Idle?
    {
      if o in objects {
        objects := objects[o := Object(true, Some(payload))];
      }
      if items[i].state.Committing? {
        var r := items[i].run;
        items := items[i := items[i].(state := Stored, staging := None)];
        if r in runs {
          runs := runs[r := runs[r].(downloadedFiles := runs[r].downloadedFiles + 1,
            downloadedBytes := runs[r].downloadedBytes + size)];
        }
      }
      at := Idle;
    }

    /** The first half of `resume_commit`: the payload is at its object path, or is renamed there. */
    method BringIntoPlace(i: Id) returns (ghost op: ResumeOp)
      requires at == Resuming(i) && PayloadsOk(View())
      modifies this
      ensures View() == Step(old(View()), Recommitting(op)) && at.Promoted? && at.item == i && items == old(items)
    {
      assert ItemOk(View(), i);
      var item := items[i];
      var o := item.stored.value;
      if o in files {
        var removed := *;
        if removed {
          staging := staging - {item.staging.value};
        }
        op := ResumePresent(removed);
      } else {
        files := files[o := staging[item.staging.value]];
        staging := staging - {item.staging.value};
        op := ResumePromote;
      }
      at := Promoted(i, o, item.checksum.value, item.size);
    }

    /** `resume_commit`: in every state a crash can leave, a committing item is not abandoned but stored. */
    method ResumeCommit(updated: Id -> int) returns (worked: bool, ghost ops: seq<Op>, ghost stored: Id)
      requires at.Idle? && PayloadsOk(View())
      modifies this
      ensures View() == Execute(old(View()), ops) && at.Idle? && PayloadsOk(View())
      ensures worked <==> exists i :: i in old(items) && old(items)[i].state.Committing?
      ensures !worked ==> View() == old(View())
      ensures worked ==> StoredNow(old(View()), View(), stored)
      ensures worked ==> forall i :: i in old(items) && old(items)[i].state.Committing? ==> Waited(updated, stored, i)
    {
      ghost var s := View();
      var next := NextCommitting(updated);
      if next.None? {
        return false, [], 0;
      }
      var i := next.value;
      at := Resuming(i);
      ghost var a := View();
      StepKeepsPayloads(s, Recommitting(PickResume(i)));
      ghost var op := BringIntoPlace(i);
      ghost var b := View();
      StepKeepsPayloads(a, Recommitting(op));
      FinishStores(b);
      StepKeepsPayloads(b, Storing(ImportWorker.FinishReady));
      FinishReady(i, at.stored, at.payload, at.size);
      worked, ops, stored := true, [Recommitting(PickResume(i)), Recommitting(op), Storing(ImportWorker.FinishReady)],
        i;
      ThreeSteps(s, ops[0], ops[1], ops[2]);
    }

    /** Repeated passes after a restart, whatever the update times become: they come to an end, and then every item that
      * was committing is stored. */
    method ResumeAll() returns (ghost ops: seq<Op>)
      requires at.Idle? && PayloadsOk(View())
      modifies this
      ensures View() == Execute(old(View()), ops) && at.Idle? && PayloadsOk(View())
      ensures items.Keys == old(items).Keys
      ensures forall i :: i in items ==>
        items[i].state == (if old(items)[i].state.Committing? then Stored else old(items)[i].state)
    {
      ghost var s := View();
      ops := [];
      var worked := true;
      while worked
        invariant at.Idle? && PayloadsOk(View()) && View() == Execute(s, ops) && items.Keys == s.items.Keys
        invariant forall i :: i in items ==>
          items[i].state == s.items[i].state || (s.items[i].state.Committing? && items[i].state.Stored?)
        invariant !worked ==> forall i :: i in items ==> !items[i].state.Committing?
        decreases worked, |Waiting(items)|
      {
        ghost var more, i;
        ghost var before := items;
        var updated: Id -> int := *;
        worked, more, i := ResumeCommit(updated);
        ExecuteTwice(s, ops, more);
        ops := ops + more;
        if worked {
          OneLess(before, i, items[i]);
        }
      }
    }

    static lemma OneLess(before: map<Id, Item>, i: Id, item: Item)
      requires i in before && before[i].state.Committing? && item.state.Stored?
      ensures |Waiting(before[i := item])| < |Waiting(before)|
    {
      assert Waiting(before[i := item]) == Waiting(before) - {i};
    }

    static function Waiting(items: map<Id, Item>): set<Id> {
      set i | i in items && items[i].state.Committing?
    }

    /** `claim_item`: the first claimable item by priority, size, age and id; `columns` gives those of an item and
      * whether its source is enabled, its connection usable and its account enabled. */
    method ClaimItem(columns: Id -> Columns) returns (r: Option<Id>)
      requires at.Idle?
      modifies this
      ensures r.None? <==> forall i :: i in old(items) ==> !Claimable(old(View()), columns, i)
      ensures r.None? ==> View() == old(View())
      ensures r.Some? ==> Claimable(old(View()), columns, r.value)
                          && forall i :: i in old(items) && Claimable(old(View()), columns, i) ==>
                            Precedes(columns, r.value, i)
      ensures r.Some? ==> View() == Step(old(View()), Claiming(Claim(r.value))) && at == Claimed(r.value)
    {
      ghost var s := View();
      var todo := items.Keys;
      r := None;
      while todo != {}
        invariant todo <= items.Keys && View() == s && (r.Some? ==> Claimable(s, columns, r.value))
        invariant forall i :: i in items && i !in todo && Claimable(s, columns, i) ==>
          r.Some? && Precedes(columns, r.value, i)
        decreases |todo|
      {
        var i :| i in todo;
        todo := todo - {i};
        var run := items[i].run;
        if items[i].state.Pending? && run in runs
          && (runs[run].state.ListingRun? || runs[run].state.DownloadingRun?) && columns(i).open
           && (r.None? || Precedes(columns, i, r.value)) {
          r := Some(i);
        }
      }
      if r.Some? {
        items := items[r.value := items[r.value].(state := Downloading)];
        at := Claimed(r.value);
      }
    }

    static predicate Claimable(s: State, columns: Id -> Columns, i: Id) {
      i in s.items && s.items[i].state.Pending? && RunActive(s, s.items[i].run) && columns(i).open
    }

    static predicate Precedes(columns: Id -> Columns, i: Id, j: Id) {
      var a, b := columns(i), columns(j);
      var x, y := a.size.GetOr(MAX_SIZE), b.size.GetOr(MAX_SIZE);
      a.priority < b.priority
      || (a.priority == b.priority
        && (x < y || (x == y && (a.created < b.created || (a.created == b.created && i <= j)))))
    }

    /** `release_item`: a rate limit hands the item back. */
    method ReleaseItem()
      requires at.Claimed? && PayloadsOk(View())
      modifies this
      ensures View() == Step(old(View()), Claiming(Release)) && at.Idle?
        && old(at).item in items && items[old(at).item].state.Pending?
    {
      var i := at.item;
      items := items[i := items[i].(state := Pending, staging := None, size := 0)];
      at := Idle;
    }

    method CreateStagingFile(key: Id)
      requires at.Claimed? && key !in keyFor
      modifies this
      ensures View() == Step(old(View()), Fetching(CreateStaging(key))) && objectFor == old(objectFor)
      ensures at == Created(old(at).item, key) && key in staging && staging[key] == 0
    {
      keyFor := keyFor[key := at.item];
      staging, at := staging[key := 0], Created(at.item, key);
    }

    /** The key is noted on the row; if that fails the item is given up and the file stays behind, unnamed. */
    method NoteKey(noted: bool) returns (ghost op: DownloadOp)
      requires at.Created? && at.item in items
      modifies this
      ensures View() == Step(old(View()), Fetching(op)) && objectFor == old(objectFor) && staging == old(staging)
      ensures at == if noted then Writing(old(at).item, old(at).key) else Failing(old(at).item)
    {
      if noted {
        items, at := items[at.item := items[at.item].(staging := Some(at.key))], Writing(at.item, at.key);
        op := NoteStaging;
      } else {
        at := Failing(at.item);
        op := NoteFails;
      }
    }

    method OpenStaging(key: Id, noted: bool) returns (ghost ops: seq<Op>)
      requires at.Claimed? && PayloadsOk(View()) && key !in keyFor
      modifies this
      ensures View() == Execute(old(View()), ops) && objectFor == old(objectFor)
      ensures at == if noted then Writing(old(at).item, key) else Failing(old(at).item)
      ensures key in staging && staging[key] == 0
    {
      ghost var s := View();
      CreateStagingFile(key);
      ghost var op := NoteKey(noted);
      ops := [Fetching(CreateStaging(key)), Fetching(op)];
      TwoSteps(s, ops[0], ops[1]);
    }

    method WriteChunks(key: Id, writes: seq<Payload>) returns (ghost ops: seq<Op>)
      requires at.Writing? && at.key == key && key in staging && staging[key] == 0
      modifies this
      ensures View() == Execute(old(View()), ops) && objectFor == old(objectFor) && at == old(at)
      ensures key in staging && staging[key] == Last(writes)
    {
      ghost var s := View();
      ops := [];
      for k := 0 to |writes|
        invariant View() == Execute(s, ops) && at == s.at && key in staging && staging[key] == Last(writes[..k])
        invariant objectFor == s.objectFor
      {
        staging := staging[key := writes[k]];
        Then(s, ops, Fetching(Write(writes[k])));
        ops := ops + [Fetching(Write(writes[k]))];
        assert writes[..k + 1][k] == writes[k];
      }
      assert writes[..|writes|] == writes;
    }

    /** The end of the download: everything arrived, or the item is given up. */
    method CloseStaging(size: nat, whole: bool) returns (ghost op: DownloadOp)
      requires at.Writing? && at.key in staging
      modifies this
      ensures View() == Step(old(View()), Fetching(op)) && objectFor == old(objectFor)
      ensures at == if whole then Staged(old(at).item, old(at).key, old(staging)[old(at).key], size)
        else Failing(old(at).item)
    {
      if whole {
        at := Staged(at.item, at.key, staging[at.key], size);
        op := FinishDownload(size);
      } else {
        var removed := *;
        if removed {
          staging := staging - {at.key};
        }
        at := Failing(at.item);
        op := AbortDownload(removed);
      }
    }

    /** `stage_download` for a fresh staging key: the file is created, noted on the row, and written chunk by chunk. */
    method StageDownload(key: Id, writes: seq<Payload>, size: nat, noted: bool, whole: bool)
        returns (ghost ops: seq<Op>)
      requires at.Claimed? && PayloadsOk(View()) && key !in keyFor
      modifies this
      ensures View() == Execute(old(View()), ops) && objectFor == old(objectFor)
      ensures at == if noted && whole then Staged(old(at).item, key, Last(writes), size) else Failing(old(at).item)
    {
      ghost var s := View();
      ops := OpenStaging(key, noted);
      if !noted {
        return;
      }
      ghost var more := WriteChunks(key, writes);
      ExecuteTwice(s, ops, more);
      ops := ops + more;
      ghost var op := CloseStaging(size, whole);
      Then(s, ops, Fetching(op));
      ops := ops + [Fetching(op)];
    }

    /** What the file holds after the writes; each stands for the whole prefix written so far. */
    static function Last(writes: seq<Payload>): Payload {
      if writes == [] then 0 else writes[|writes| - 1]
    }

    /** `commit_staged` for a fresh object id; `accepted` is false when quota or parent folder no longer allow it. */
    method CommitStaged(o: Id, accepted: bool) returns (ghost op: CommitOp)
      requires at.Staged? && PayloadsOk(View()) && o !in objectFor
      modifies this
      ensures View() == Step(old(View()), Storing(op))
      ensures at == if accepted then Committed(old(at).item, old(at).key, o, old(at).payload, old(at).size)
        else Failing(old(at).item)
    {
      var i := at.item;
      if accepted {
        items := items[i := items[i].(state := Committing, stored := Some(o), checksum := Some(at.payload),
          size := at.size)];
        objects := objects[o := Object(false, None)];
        objectFor := objectFor[o := i];
        at := Committed(i, at.key, o, at.payload, at.size);
        op := Commit(o);
      } else {
        var removed := *;
        if removed {
          staging := staging - {at.key};
        }
        at := Failing(i);
        op := CommitFails(removed);
      }
    }

    /** The rename in `promote_and_finish`. */
    method PromoteStaged()
      requires at.Committed? && PayloadsOk(View())
      modifies this
      ensures View() == Step(old(View()), Storing(Promote))
      ensures at == Promoted(old(at).item, old(at).stored, old(at).payload, old(at).size)
    {
      assert ItemOk(View(), at.item);
      files := files[at.stored := staging[at.key]];
      staging := staging - {at.key};
      at := Promoted(at.item, at.stored, at.payload, at.size);
    }

    /** The staging file of the item goes, as far as it can be removed. */
    method DropStaging() returns (ghost op: FailOp)
      requires at.Failing? && PayloadsOk(View())
      modifies this
      ensures View() == Step(old(View()), GivingUp(op)) && at == old(at)
    {
      var removed := *;
      if items[at.item].staging.Some? && removed {
        staging := staging - {items[at.item].staging.value};
      }
      op := ImportWorker.FailItem(removed);
    }

    /** The item is marked and its run's counter follows in a statement of its own. */
    method MarkAndCount() returns (ghost middle: State)
      requires at.Failing? && PayloadsOk(View())
      modifies this
      ensures middle == Step(old(View()), GivingUp(MarkFailed))
        && View() == Step(middle, GivingUp(CountFailed)) && at.Idle?
      ensures old(at).item in items && items[old(at).item].state.Failed?
    {
      var i := at.item;
      assert ItemOk(View(), i);
      items, at := items[i := items[i].(state := Failed, staging := None)], FailedUncounted(i);
      middle := View();
      var r := items[i].run;
      runs := runs[r := runs[r].(failed := runs[r].failed + 1)];
      at := Idle;
    }

    /** `fail_item`, once the worker has given the item up. */
    method FailItem() returns (ghost ops: seq<Op>)
      requires at.Failing? && PayloadsOk(View())
      modifies this
      ensures View() == Execute(old(View()), ops) && at.Idle?
      ensures old(at).item in items && items[old(at).item].state.Failed?
    {
      ghost var s := View();
      ghost var op := DropStaging();
      StepKeepsPayloads(s, GivingUp(op));
      ghost var middle := MarkAndCount();
      ops := [GivingUp(op), GivingUp(MarkFailed), GivingUp(CountFailed)];
      ThreeSteps(s, ops[0], ops[1], ops[2]);
    }

    /** `download_claimed` once the download has started, left to itself: the item ends stored, with the bytes that
        were written, or failed. */
    method DownloadClaimed(key: Id, o: Id, writes: seq<Payload>, size: nat, noted: bool, whole: bool, accepted: bool)
      returns (ghost ops: seq<Op>)
      requires at.Claimed? && PayloadsOk(View()) && key !in keyFor && o !in objectFor
      modifies this
      ensures View() == Execute(old(View()), ops) && at.Idle? && PayloadsOk(View()) && old(at).item in items
      ensures if noted && whole && accepted
              then items[old(at).item].state.Stored? && o in objects && objects[o] == Object(true, Some(Last(writes)))
                   && o in files && files[o] == Last(writes)
              else items[old(at).item].state.Failed?
    {
      ghost var s := View();
      ops := StageDownload(key, writes, size, noted, whole);
      ExecuteKeepsPayloads(s, ops);
      if noted && whole {
        ghost var a := View();
        ghost var op := CommitStaged(o, accepted);
        StepKeepsPayloads(a, Storing(op));
        Then(s, ops, Storing(op));
        ops := ops + [Storing(op)];
      }
      if noted && whole && accepted {
        ghost var more := PromoteAndFinish();
        ExecuteTwice(s, ops, more);
        ops := ops + more;
      } else {
        ghost var b := View();
        ghost var more := FailItem();
        ExecuteKeepsPayloads(b, more);
        ExecuteTwice(s, ops, more);
        ops := ops + more;
      }
    }

    /** `promote_and_finish`. */
    method PromoteAndFinish() returns (ghost ops: seq<Op>)
      requires at.Committed? && PayloadsOk(View())
      modifies this
      ensures View() == Execute(old(View()), ops) && at.Idle? && PayloadsOk(View())
      ensures var was := old(at);
              && was.item in items && items[was.item].state.Stored? && was.stored in objects
                && objects[was.stored] == Object(true, Some(was.payload))
              && was.stored in files && files[was.stored] == was.payload
    {
      ghost var s := View();
      PromoteStaged();
      ghost var a := View();
      StepKeepsPayloads(s, Storing(Promote));
      FinishStores(a);
      FinishReady(at.item, at.stored, at.payload, at.size);
      StepKeepsPayloads(a, Storing(ImportWorker.FinishReady));
      ops := [Storing(Promote), Storing(ImportWorker.FinishReady)];
      TwoSteps(s, ops[0], ops[1]);
    }
  }
}
