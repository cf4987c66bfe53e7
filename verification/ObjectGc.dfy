/** Shared stored objects: everything that makes references to them, against the two collectors that mark, unlink and
  * drop them (src/maintenance.rs, src/devices.rs, src/drive.rs, src/google_drive.rs, src/transfers.rs). Collectors run
  * concurrently with everything else and may stop between any two steps. */
module ObjectGc {
  import opened Common

  datatype ObjectState = Pending | Ready | Deleting
  datatype Upload = Finalizing(stored: Id) | Settled

  /** `payloads` are the files on disk; `used` is every object id ever drawn; `promoted` the ids whose
      rename into place has returned; `toUnlink` and `toDrop` are the collectors' pending work. */
  datatype State = State(objects: map<Id, ObjectState>, versions: map<Id, Id>, uploads: map<Id, Upload>,
    payloads: set<Id>, used: set<Id>, promoted: set<Id>, toUnlink: set<(Id, Id)>, toDrop: set<(Id, Id)>)

  const Initial := State(map[], map[], map[], {}, {}, {}, {}, {})

  datatype Op =
    | LinkContent(version: Id, stored: Id)
    | CopyVersion(version: Id, from: Id)
    | ImportCommit(version: Id, stored: Id)
    | BeginFinalize(upload: Id, version: Id, stored: Id)
    | Promote(stored: Id)
    | FinishReady(stored: Id)
    | CompleteFinalize(upload: Id)
    | RejectFinalize(upload: Id, gone: set<Id>)
    | PurgeVersions(gone: set<Id>)
    | Mark(collector: Id, ids: set<Id>)
    | Unlink(collector: Id, stored: Id, ok: bool)
    | DropRow(collector: Id, stored: Id)
    | CollectorStops(collector: Id)

  predicate Referenced(s: State, o: Id) {
    exists v :: v in s.versions && s.versions[v] == o
  }

  predicate InFinalizing(s: State, o: Id) {
    exists u :: u in s.uploads && s.uploads[u] == Finalizing(o)
  }

  predicate Collectable(s: State, o: Id) {
    o in s.objects && !Referenced(s, o) && !InFinalizing(s, o)
  }

  function MarkedObjects(s: State, ids: set<Id>): map<Id, ObjectState> {
    map o | o in s.objects :: if o in ids && Collectable(s, o) then Deleting else s.objects[o]
  }

  function MadeReady(objects: map<Id, ObjectState>, o: Id): map<Id, ObjectState> {
    if o in objects && !objects[o].Deleting? then objects[o := Ready] else objects
  }

  function Step(s: State, op: Op): State {
    match op
    case LinkContent(v, o) =>
      if v !in s.versions && o in s.objects && s.objects[o].Ready? then s.(versions := s.versions[v := o]) else s
    case CopyVersion(v, from) =>
      if v !in s.versions && from in s.versions then s.(versions := s.versions[v := s.versions[from]]) else s
    case ImportCommit(v, o) =>
      if v !in s.versions && o !in s.used
      then s.(objects := s.objects[o := Pending], versions := s.versions[v := o], used := s.used + {o}) else s
    case BeginFinalize(u, v, o) =>
      if u !in s.uploads && v !in s.versions && o !in s.used
      then s.(objects := s.objects[o := Pending], versions := s.versions[v := o],
        uploads := s.uploads[u := Finalizing(o)], used := s.used + {o})
      else s
    case Promote(o) =>
      if o in s.used && o !in s.promoted then s.(payloads := s.payloads + {o}, promoted := s.promoted + {o}) else s
    case FinishReady(o) =>
      if o in s.promoted then s.(objects := MadeReady(s.objects, o)) else s
    case CompleteFinalize(u) =>
      if u in s.uploads && s.uploads[u].Finalizing? && s.uploads[u].stored in s.promoted
      then s.(objects := MadeReady(s.objects, s.uploads[u].stored), uploads := s.uploads[u := Settled]) else s
    case RejectFinalize(u, gone) =>
      // the row delete is refused, and with it the whole transaction, while a remaining version refers to the object
      if u in s.uploads && s.uploads[u].Finalizing?
        && (forall v :: v in s.versions && v !in gone ==> s.versions[v] != s.uploads[u].stored)
      then s.(objects := s.objects - {s.uploads[u].stored}, versions := s.versions - gone,
        uploads := s.uploads[u := Settled], toUnlink := s.toUnlink + {(u, s.uploads[u].stored)})
      else s
    case PurgeVersions(gone) => s.(versions := s.versions - gone)
    case Mark(c, ids) =>
      s.(objects := MarkedObjects(s, ids), toUnlink := s.toUnlink + (set o | o in ids && Collectable(s, o) :: (c, o)))
    case Unlink(c, o, ok) =>
      if (c, o) !in s.toUnlink then s
      else if ok then s.(payloads := s.payloads - {o}, toUnlink := s.toUnlink - {(c, o)}, toDrop := s.toDrop + {(c, o)})
      else s.(toUnlink := s.toUnlink - {(c, o)})
    case DropRow(c, o) =>
      if (c, o) !in s.toDrop then s
      else
        var objects := if o in s.objects && s.objects[o].Deleting? && !Referenced(s, o)
          then s.objects - {o} else s.objects;
        s.(objects := objects, toDrop := s.toDrop - {(c, o)})
    case CollectorStops(c) =>
      s.(toUnlink := (set w | w in s.toUnlink && w.0 != c), toDrop := (set w | w in s.toDrop && w.0 != c))
  }

  function Execute(s: State, ops: seq<Op>): State {
    if ops == [] then s else Step(Execute(s, ops[..|ops| - 1]), ops[|ops| - 1])
  }

  // ----- the invariant

  /** A deleting object has no version and no finalizing upload; a ready one has its payload. */
  ghost predicate ObjectOk(s: State, o: Id)
    requires o in s.objects
  {
    && o in s.used
    && (s.objects[o].Deleting? ==> !Referenced(s, o) && !InFinalizing(s, o))
    && (s.objects[o].Ready? || (s.objects[o].Pending? && o in s.promoted) ==> o in s.payloads)
  }

  /** Collectors only hold objects that are deleting or already gone. */
  ghost predicate WorkOk(s: State, o: Id) {
    o in s.used && (o in s.objects ==> s.objects[o].Deleting?)
  }

  ghost predicate Inv(s: State) {
    && (forall o {:trigger ObjectOk(s, o)} :: o in s.objects ==> ObjectOk(s, o))
    && (forall v :: v in s.versions ==> s.versions[v] in s.objects)
    && (forall u :: u in s.uploads && s.uploads[u].Finalizing? ==> s.uploads[u].stored in s.used)
    && (forall u, w :: u in s.uploads && w in s.uploads && u != w && s.uploads[u].Finalizing? ==>
      s.uploads[u] != s.uploads[w])
    && (forall w :: w in s.toUnlink + s.toDrop ==> WorkOk(s, w.1))
    && s.promoted <= s.used
  }

  lemma StepKeepsObject(s: State, op: Op, o: Id)
    requires Inv(s) && o in Step(s, op).objects
    ensures ObjectOk(Step(s, op), o)
  {
    assert o in s.objects ==> ObjectOk(s, o);
    match op {
      case LinkContent(v, p) => NewReference(s, Step(s, op), v, o);
      case CopyVersion(v, from) => NewReference(s, Step(s, op), v, o);
      case _ =>
    }
  }

  /** A version is only ever added to an object that is not deleting. */
  lemma NewReference(s: State, t: State, v: Id, o: Id)
    requires Inv(s) && t.uploads == s.uploads
    requires t == s || (v !in s.versions && v in t.versions && t.versions == s.versions[v := t.versions[v]])
    requires t != s ==> t.versions[v] in s.objects && (s.objects[t.versions[v]].Ready? || Referenced(s, t.versions[v]))
    ensures o in s.objects && s.objects[o].Deleting? ==> !Referenced(t, o)
  {
    if o in s.objects && s.objects[o].Deleting? {
      assert ObjectOk(s, o);
    }
  }

  lemma StepKeepsRows(s: State, op: Op)
    requires Inv(s)
    ensures var t := Step(s, op);
            && (forall v :: v in t.versions ==> t.versions[v] in t.objects)
            && (forall u :: u in t.uploads && t.uploads[u].Finalizing? ==> t.uploads[u].stored in t.used)
            && (forall u, w :: u in t.uploads && w in t.uploads && u != w && t.uploads[u].Finalizing? ==>
              t.uploads[u] != t.uploads[w])
            && t.promoted <= t.used
  {
  }

  lemma StepKeepsWork(s: State, op: Op, w: (Id, Id))
    requires Inv(s) && w in Step(s, op).toUnlink + Step(s, op).toDrop
    ensures WorkOk(Step(s, op), w.1)
  {
    if w in s.toUnlink + s.toDrop {
      assert WorkOk(s, w.1);
    }
    if op.Mark? && w.1 in s.objects {
      assert ObjectOk(s, w.1);
    }
  }

  lemma StepKeepsInv(s: State, op: Op)
    requires Inv(s)
    ensures Inv(Step(s, op))
  {
    var t := Step(s, op);
    forall o | o in t.objects ensures ObjectOk(t, o) {
      StepKeepsObject(s, op, o);
    }
    forall w | w in t.toUnlink + t.toDrop ensures WorkOk(t, w.1) {
      StepKeepsWork(s, op, w);
    }
    StepKeepsRows(s, op);
  }

  lemma {:induction false} RunKeepsInv(ops: seq<Op>)
    ensures Inv(Execute(Initial, ops))
  {
    if ops != [] {
      RunKeepsInv(ops[..|ops| - 1]);
      StepKeepsInv(Execute(Initial, ops[..|ops| - 1]), ops[|ops| - 1]);
    }
  }

  // ----- what it means

  /** Over every run: an object being deleted has no reference of either kind. */
  lemma DeletingIsUnreferenced(ops: seq<Op>, o: Id)
    requires o in Execute(Initial, ops).objects && Execute(Initial, ops).objects[o].Deleting?
    ensures !Referenced(Execute(Initial, ops), o) && !InFinalizing(Execute(Initial, ops), o)
  {
    RunKeepsInv(ops);
    assert ObjectOk(Execute(Initial, ops), o);
  }

  /** No step of any run removes the payload of an object some version refers to. */
  lemma ReferencedPayloadStays(ops: seq<Op>, op: Op, v: Id)
    requires v in Execute(Initial, ops).versions
    ensures var s := Execute(Initial, ops); s.versions[v] in s.payloads ==> s.versions[v] in Step(s, op).payloads
  {
    var s := Execute(Initial, ops);
    RunKeepsInv(ops);
    var o := s.versions[v];
    assert ObjectOk(s, o);
    if op.Unlink? && (op.collector, op.stored) in s.toUnlink {
      assert WorkOk(s, (op.collector, op.stored).1);
    }
  }

  /** Hence every version of a ready object can be read at every moment of every run. */
  lemma ReadyVersionsAreReadable(ops: seq<Op>, v: Id)
    requires v in Execute(Initial, ops).versions
    ensures var s := Execute(Initial, ops);
            && s.versions[v] in s.objects
            && (s.objects[s.versions[v]].Ready? ==> s.versions[v] in s.payloads)
  {
    RunKeepsInv(ops);
    var s := Execute(Initial, ops);
    assert ObjectOk(s, s.versions[v]);
  }

  /** A collectable object, in particular one left `deleting` by a collector that stopped half-way,
      is fully removed by one undisturbed pass, and the pass removes nothing else. */
  lemma CollectionFinishes(s: State, c: Id, o: Id)
    requires Inv(s) && Collectable(s, o)
    ensures var t := Step(Step(Step(s, Mark(c, {o})), Unlink(c, o, true)), DropRow(c, o));
            && t.objects == s.objects - {o} && t.payloads == s.payloads - {o}
              && t.versions == s.versions && t.uploads == s.uploads
  {
    var a := Step(s, Mark(c, {o}));
    assert (c, o) in a.toUnlink && a.objects == s.objects[o := Deleting];
    var b := Step(a, Unlink(c, o, true));
    assert (c, o) in b.toDrop && b.objects == a.objects && b.payloads == s.payloads - {o} && b.versions == s.versions;
    assert !Referenced(b, o);
    var t := Step(b, DropRow(c, o));
    assert t.objects == s.objects - {o};
  }

  lemma DeletingIsCollectable(s: State, o: Id)
    requires Inv(s) && o in s.objects && s.objects[o].Deleting?
    ensures Collectable(s, o)
  {
    assert ObjectOk(s, o);
  }

  // ----- the collector's pass

  lemma Then(s: State, ops: seq<Op>, op: Op)
    ensures Execute(s, ops + [op]) == Step(Execute(s, ops), op)
  {
    assert (ops + [op])[..|ops|] == ops;
  }

  lemma LastApart(ops: seq<Op>, more: seq<Op>)
    requires more != []
    ensures var n := |more| - 1; more == more[..n] + [more[n]] && ops + more == (ops + more[..n]) + [more[n]]
  {
  }

  lemma {:induction false} ExecuteTwice(s: State, ops: seq<Op>, more: seq<Op>)
    ensures Execute(s, ops + more) == Execute(Execute(s, ops), more)
  {
    if more == [] {
      assert ops + more == ops;
    } else {
      var n := |more| - 1;
      LastApart(ops, more);
      ExecuteTwice(s, ops, more[..n]);
      Then(s, ops + more[..n], more[n]);
      Then(Execute(s, ops), more[..n], more[n]);
    }
  }

  function CollectableIn(s: State, ids: set<Id>): set<Id> {
    set o | o in ids && Collectable(s, o)
  }

  /** How far an undisturbed pass has come: `todo` is still to do, `gone` has been removed. */
  ghost predicate PassAt(s: State, t: State, c: Id, batch: set<Id>, todo: set<Id>, gone: set<Id>) {
    && t.versions == s.versions && t.uploads == s.uploads && t.used == s.used && t.promoted == s.promoted
    && gone <= batch && todo <= batch && todo !! gone
    && t.payloads == s.payloads - gone && t.objects.Keys == s.objects.Keys - gone
    && (forall o :: o in t.objects ==> t.objects[o] == if o in batch then Deleting else s.objects[o])
    && (forall o :: o in todo ==> (c, o) in t.toUnlink && o in t.objects)
  }

  lemma MarkStarts(s: State, c: Id, ids: set<Id>)
    ensures PassAt(s, Step(s, Mark(c, ids)), c, CollectableIn(s, ids), CollectableIn(s, ids), {})
  {
  }

  /** Unlinking and dropping the row take one object out of the world, and no other. */
  lemma RemoveKeepsPass(s: State, t: State, c: Id, batch: set<Id>, todo: set<Id>, gone: set<Id>, o: Id)
    requires Inv(t) && PassAt(s, t, c, batch, todo, gone) && o in todo
    ensures PassAt(s, Step(Step(t, Unlink(c, o, true)), DropRow(c, o)), c, batch, todo - {o}, gone + {o})
    ensures o !in Step(Step(t, Unlink(c, o, true)), DropRow(c, o)).objects
  {
    assert ObjectOk(t, o);
    var u := Step(t, Unlink(c, o, true));
    assert u.objects == t.objects && u.versions == t.versions;
    assert !Referenced(u, o);
  }

  lemma FailureKeepsPass(s: State, t: State, c: Id, batch: set<Id>, todo: set<Id>, gone: set<Id>, o: Id)
    requires PassAt(s, t, c, batch, todo, gone) && o in todo
    ensures PassAt(s, Step(t, Unlink(c, o, false)), c, batch, todo - {o}, gone)
  {
  }

  class Store {
    var objects: map<Id, ObjectState>
    var versions: map<Id, Id>
    var uploads: map<Id, Upload>
    var payloads: set<Id>
    ghost var used: set<Id>
    ghost var promoted: set<Id>
    ghost var toUnlink: set<(Id, Id)>
    ghost var toDrop: set<(Id, Id)>

    ghost function View(): State
      reads this
    {
      State(objects, versions, uploads, payloads, used, promoted, toUnlink, toDrop)
    }

    constructor ()
      ensures View() == Initial
    {
      objects, versions, uploads, payloads := map[], map[], map[], {};
      used, promoted, toUnlink, toDrop := {}, {}, {}, {};
    }

    /** The marking statement; it returns what it marked. */
    method MarkUnreferenced(ghost c: Id, ids: set<Id>) returns (marked: set<Id>)
      modifies this
      ensures View() == Step(old(View()), Mark(c, ids)) && marked == CollectableIn(old(View()), ids)
    {
      ghost var s := View();
      marked := set o | o in ids && o in objects && (forall v :: v in versions ==> versions[v] != o)
        && (forall u :: u in uploads ==> uploads[u] != Finalizing(o));
      assert marked == CollectableIn(s, ids);
      objects := map o | o in objects :: if o in marked then Deleting else objects[o];
      toUnlink := toUnlink + (set o | o in marked :: (c, o));
      assert (set o | o in marked :: (c, o)) == (set o | o in ids && Collectable(s, o) :: (c, o));
    }

    method RemovePayload(ghost c: Id, o: Id, ok: bool)
      requires (c, o) in toUnlink
      modifies this
      ensures View() == Step(old(View()), Unlink(c, o, ok))
    {
      if ok {
        payloads := payloads - {o};
        toDrop := toDrop + {(c, o)};
      }
      toUnlink := toUnlink - {(c, o)};
    }

    method DeleteRow(ghost c: Id, o: Id) returns (deleted: bool)
      requires (c, o) in toDrop
      modifies this
      ensures View() == Step(old(View()), DropRow(c, o)) && deleted == (o in old(objects) && o !in objects)
    {
      deleted := o in objects && objects[o].Deleting? && forall v :: v in versions ==> versions[v] != o;
      if deleted {
        objects := objects - {o};
      }
      toDrop := toDrop - {(c, o)};
    }

    /** One marked object: unlink its payload and, if that worked, drop its row. */
    method RemoveOne(ghost c: Id, o: Id, ghost s: State, ghost batch: set<Id>, ghost todo: set<Id>, ghost gone: set<Id>)
      returns (removed: bool, ghost ops: seq<Op>)
      requires Inv(View()) && PassAt(s, View(), c, batch, todo, gone) && o in todo
      modifies this
      ensures View() == Execute(old(View()), ops) && Inv(View())
      ensures PassAt(s, View(), c, batch, todo - {o}, if removed then gone + {o} else gone)
    {
      ghost var t := View();
      var ok := *;
      RemovePayload(c, o, ok);
      StepKeepsInv(t, Unlink(c, o, ok));
      Then(t, [], Unlink(c, o, ok));
      ops := [] + [Unlink(c, o, ok)];
      removed := false;
      if ok {
        ghost var u := View();
        RemoveKeepsPass(s, t, c, batch, todo, gone, o);
        removed := DeleteRow(c, o);
        StepKeepsInv(u, DropRow(c, o));
        Then(t, ops, DropRow(c, o));
        ops := ops + [DropRow(c, o)];
      } else {
        FailureKeepsPass(s, t, c, batch, todo, gone, o);
      }
    }

    /** `remove_unreferenced_objects`, undisturbed: every marked object is either gone, row and payload, or left
        `deleting` for the next pass because its payload could not be removed; nothing else changes. */
    method RemoveUnreferencedObjects(ghost c: Id, ids: set<Id>)
        returns (removed: nat, failures: nat, ghost ops: seq<Op>, ghost gone: set<Id>)
      requires Inv(View())
      modifies this
      ensures View() == Execute(old(View()), ops) && Inv(View())
      ensures removed == |gone| && removed + failures == |CollectableIn(old(View()), ids)|
      ensures PassAt(old(View()), View(), c, CollectableIn(old(View()), ids), {}, gone)
    {
      ghost var s := View();
      var todo := MarkUnreferenced(c, ids);
      ghost var batch := todo;
      MarkStarts(s, c, ids);
      Then(s, [], Mark(c, ids));
      StepKeepsInv(s, Mark(c, ids));
      removed, failures, ops, gone := 0, 0, [] + [Mark(c, ids)], {};
      while todo != {}
        invariant View() == Execute(s, ops) && Inv(View()) && PassAt(s, View(), c, batch, todo, gone)
        invariant removed == |gone| && removed + failures + |todo| == |batch|
        decreases |todo|
      {
        var o :| o in todo;
        ghost var more;
        var done;
        done, more := RemoveOne(c, o, s, batch, todo, gone);
        ExecuteTwice(s, ops, more);
        ops := ops + more;
        if done {
          removed, gone := removed + 1, gone + {o};
        } else {
          failures := failures + 1;
        }
        todo := todo - {o};
      }
    }
  }
}
