/** Share links and their password grants against the drive tree (src/shares.rs, src/drive.rs, src/developer.rs). */
module Shares {
  import opened Common
  import opened DriveForest

  const ACCESS_GRANT_TTL: int := 1800
  const PASSWORD_FAILURE_LIMIT: nat := 5
  const PASSWORD_LOCKOUT: int := 900

  datatype Resource = EntryOf(id: Id, kind: Kind) | AlbumOf(album: Id)
  datatype Share = Share(owner: Id, resource: Resource, password: bool, expires: Option<int>, revoked: bool,
    allowDownload: bool, maxDownloads: Option<nat>, downloads: nat, key: Option<Id>, failures: nat,
    lockedUntil: Option<int>)
  datatype Grant = Grant(share: Id, expires: int)

  /** A transaction's view of the tables. */
  datatype Tables = Tables(entries: Entries, shares: map<Id, Share>, grants: map<Id, Grant>)

  /** A link names an entry of its owner and of its own kind; counters respect their limits. */
  ghost predicate ShareOk(es: Entries, s: Share) {
    && (s.resource.EntryOf? ==>
          s.resource.id in es && es[s.resource.id].owner == s.owner && es[s.resource.id].kind == s.resource.kind)
    && (s.maxDownloads.Some? ==> s.downloads <= s.maxDownloads.value)
    && s.failures <= PASSWORD_FAILURE_LIMIT && (s.lockedUntil.None? ==> s.failures < PASSWORD_FAILURE_LIMIT)
  }

  /** A grant belongs to an unrevoked share and never outlives it. */
  ghost predicate GrantOk(shares: map<Id, Share>, g: Grant) {
    && g.share in shares && !shares[g.share].revoked && shares[g.share].password
    && (shares[g.share].expires.Some? ==> g.expires <= shares[g.share].expires.value)
  }

  /** What holds whatever requests do to each other. */
  ghost predicate Consistent(t: Tables) {
    && Forest(t.entries) && UniqueNames(t.entries)
    && (forall s :: s in t.shares ==> ShareOk(t.entries, t.shares[s]))
    && (forall g :: g in t.grants ==> GrantOk(t.shares, t.grants[g]))
  }

  /** An unrevoked file or folder link with a trashed entry at or above its target. */
  ghost predicate LeftBehind(es: Entries, s: Share)
    requires Forest(es)
  {
    s.resource.EntryOf? && !s.revoked && s.resource.id in es && !Clean(es, s.resource.id)
  }

  ghost predicate LinksClean(t: Tables)
    requires Forest(t.entries)
  {
    forall s :: s in t.shares ==> !LeftBehind(t.entries, t.shares[s])
  }

  ghost predicate Sound(t: Tables) {
    Consistent(t) && LinksClean(t)
  }

  // ----- changes of the tree

  lemma TreeKeepsConsistent(t: Tables, es: Entries)
    requires Consistent(t) && Forest(es) && UniqueNames(es)
    requires forall e :: e in t.entries ==>
      e in es && es[e].owner == t.entries[e].owner && es[e].kind == t.entries[e].kind
    ensures Consistent(t.(entries := es))
  {
    forall s | s in t.shares ensures ShareOk(es, t.shares[s]) {
      assert ShareOk(t.entries, t.shares[s]);
    }
  }

  /** Links stay clean when entries that were clean stay clean. */
  lemma TreeKeepsLinks(t: Tables, es: Entries)
    requires Consistent(t) && Forest(es) && LinksClean(t)
    requires forall e :: e in t.entries && Clean(t.entries, e) ==> e in es && Clean(es, e)
    ensures LinksClean(t.(entries := es))
  {
    forall s | s in t.shares ensures !LeftBehind(es, t.shares[s]) {
      assert ShareOk(t.entries, t.shares[s]) && !LeftBehind(t.entries, t.shares[s]);
    }
  }

  /** Below a moved entry, cleanness now depends on the destination too; elsewhere nothing changes. */
  lemma CleanAfterMove(es: Entries, owner: Id, ids: set<Id>, dest: Option<Id>, e: Id)
    requires Forest(es) && e in es && MovesApart(es, owner, ids, dest)
    ensures Forest(MoveAll(es, ids, dest))
    ensures forall x :: x in ids && x in ChainOf(es, e) && dest.Some? && !Clean(es, dest.value) ==>
      !Clean(MoveAll(es, ids, dest), e)
    ensures Clean(es, e) && ((dest.Some? ==> Clean(es, dest.value)) || forall x :: x in ids ==> x !in ChainOf(es, e))
            ==> Clean(MoveAll(es, ids, dest), e)
  {
    ChainAfterMove(es, owner, ids, dest, e);
    var c, m := ChainOf(es, e), MovedChain(es, ids, dest, e);
    var k := FirstIn(c, ids);
    assert k < |c| ==> m == c[..k + 1] + ChainFrom(es, dest);
    assert forall x :: x in m ==> x in c || (k < |c| && x in ChainFrom(es, dest));
    assert k < |c| ==> forall x :: x in ChainFrom(es, dest) ==> x in m;
  }

  /** Some unrevoked link leads to one of the entries or below it. */
  ghost predicate LinkedBelow(t: Tables, ids: set<Id>) {
    exists s, id :: s in t.shares && id in ids && LinksTo(t, t.shares[s], id)
  }

  ghost predicate LinksTo(t: Tables, s: Share, id: Id) {
    s.resource.EntryOf? && !s.revoked && Below(t.entries, id, s.resource.id, false)
  }

  /** A move leaves every link clean exactly when the destination's whole chain is untrashed at the write, or no link
      moves along. */
  lemma MoveCleanIff(t: Tables, owner: Id, ids: set<Id>, dest: Option<Id>)
    requires Sound(t) && MovesApart(t.entries, owner, ids, dest)
    ensures Forest(MoveAll(t.entries, ids, dest))
    ensures LinksClean(t.(entries := MoveAll(t.entries, ids, dest)))
            <==> (dest.Some? ==> Clean(t.entries, dest.value)) || !LinkedBelow(t, ids)
  {
    var es, u := MoveAll(t.entries, ids, dest), t.(entries := MoveAll(t.entries, ids, dest));
    MoveKeepsForest(t.entries, owner, ids, dest);
    if (dest.Some? ==> Clean(t.entries, dest.value)) || !LinkedBelow(t, ids) {
      forall s | s in t.shares ensures !LeftBehind(es, t.shares[s]) {
        LinkSurvivesMove(t, owner, ids, dest, s);
      }
    } else {
      var s, id :| s in t.shares && id in ids && LinksTo(t, t.shares[s], id);
      assert ShareOk(t.entries, t.shares[s]);
      BelowOnChain(t.entries, id, t.shares[s].resource.id);
      CleanAfterMove(t.entries, owner, ids, dest, t.shares[s].resource.id);
      assert LeftBehind(es, u.shares[s]);
    }
  }

  lemma LinkSurvivesMove(t: Tables, owner: Id, ids: set<Id>, dest: Option<Id>, s: Id)
    requires Sound(t) && MovesApart(t.entries, owner, ids, dest) && s in t.shares
    requires (dest.Some? ==> Clean(t.entries, dest.value)) || !LinkedBelow(t, ids)
    ensures Forest(MoveAll(t.entries, ids, dest)) && !LeftBehind(MoveAll(t.entries, ids, dest), t.shares[s])
  {
    MoveKeepsForest(t.entries, owner, ids, dest);
    var share := t.shares[s];
    assert ShareOk(t.entries, share) && !LeftBehind(t.entries, share);
    if share.resource.EntryOf? && !share.revoked {
      forall x | x in ids && x in ChainOf(t.entries, share.resource.id) ensures LinkedBelow(t, ids) {
        BelowOnChain(t.entries, x, share.resource.id);
        assert LinksTo(t, share, x);
      }
      CleanAfterMove(t.entries, owner, ids, dest, share.resource.id);
    }
  }

  function Trashed(es: Entries, id: Id, on: bool): Entries
    requires id in es
  {
    es[id := es[id].(trashed := on)]
  }

  lemma TrashedChain(es: Entries, id: Id, on: bool, e: Id)
    requires Forest(es) && id in es && e in es
    ensures Forest(Trashed(es, id, on)) && ChainOf(Trashed(es, id, on), e) == ChainOf(es, e)
  {
    SameChain(es, Trashed(es, id, on), e);
  }

  predicate Revokes(s: Share, owner: Id, rows: set<Id>) {
    s.owner == owner && s.resource.EntryOf? && s.resource.id in rows
  }

  /** Trashing revokes every link into the subtree and drops its grants. */
  function RevokeUnder(t: Tables, owner: Id, rows: set<Id>): Tables {
    var shares := map s | s in t.shares ::
      if Revokes(t.shares[s], owner, rows) then t.shares[s].(revoked := true) else t.shares[s];
    t.(shares := shares,
       grants := map g | g in t.grants && t.grants[g].share in t.shares
                         && !Revokes(t.shares[t.grants[g].share], owner, rows) :: t.grants[g])
  }

  lemma RevokeUnderKeepsConsistent(t: Tables, owner: Id, rows: set<Id>)
    requires Consistent(t)
    ensures Consistent(RevokeUnder(t, owner, rows))
  {
    var u := RevokeUnder(t, owner, rows);
    forall s | s in u.shares ensures ShareOk(u.entries, u.shares[s]) {
      assert ShareOk(t.entries, t.shares[s]);
    }
    forall g | g in u.grants ensures GrantOk(u.shares, u.grants[g]) {
      assert GrantOk(t.shares, t.grants[g]);
    }
  }

  lemma TrashKeepsConsistent(t: Tables, id: Id, owner: Id, rows: set<Id>)
    requires Consistent(t) && id in t.entries
    ensures Consistent(RevokeUnder(t.(entries := Trashed(t.entries, id, true)), owner, rows))
  {
    TrashedChain(t.entries, id, true, id);
    RowKeepsNames(t.entries, id, t.entries[id].(trashed := true));
    TreeKeepsConsistent(t, Trashed(t.entries, id, true));
    RevokeUnderKeepsConsistent(t.(entries := Trashed(t.entries, id, true)), owner, rows);
  }

  /** Trashing a subtree together with its links leaves no link behind that was not left behind before. */
  lemma TrashKeepsLinks(t: Tables, id: Id, rows: set<Id>)
    requires Sound(t) && id in t.entries && forall x :: x in rows <==> Below(t.entries, id, x, false)
    ensures Sound(RevokeUnder(t.(entries := Trashed(t.entries, id, true)), t.entries[id].owner, rows))
  {
    var owner := t.entries[id].owner;
    var u := RevokeUnder(t.(entries := Trashed(t.entries, id, true)), owner, rows);
    TrashKeepsConsistent(t, id, owner, rows);
    forall s | s in u.shares ensures !LeftBehind(u.entries, u.shares[s]) {
      assert ShareOk(t.entries, t.shares[s]) && !LeftBehind(t.entries, t.shares[s]);
      if t.shares[s].resource.EntryOf? && !u.shares[s].revoked {
        TrashMissesOthers(t.entries, id, t.shares[s].resource.id);
      }
    }
  }

  lemma TrashMissesOthers(es: Entries, id: Id, e: Id)
    requires Forest(es) && id in es && e in es && Clean(es, e)
    ensures Forest(Trashed(es, id, true))
    ensures Clean(Trashed(es, id, true), e) || (es[e].owner == es[id].owner && Below(es, id, e, false))
  {
    TrashedChain(es, id, true, e);
    BelowOnChain(es, id, e);
    var c := ChainOf(es, e);
    if id in c {
      var k :| 0 <= k < |c| && c[k] == id;
      ChainOwner(es, c, k);
    }
  }

  lemma RestoreKeepsConsistent(t: Tables, id: Id)
    requires Consistent(t) && id in t.entries
    requires !Taken(t.entries, t.entries[id].owner, t.entries[id].parent, t.entries[id].name, Some(id))
    ensures Consistent(t.(entries := Trashed(t.entries, id, false)))
  {
    TrashedChain(t.entries, id, false, id);
    RowKeepsNames(t.entries, id, t.entries[id].(trashed := false));
    TreeKeepsConsistent(t, Trashed(t.entries, id, false));
  }

  lemma RestoreKeepsLinks(t: Tables, id: Id)
    requires Consistent(t) && LinksClean(t) && id in t.entries
    ensures Forest(Trashed(t.entries, id, false)) && LinksClean(t.(entries := Trashed(t.entries, id, false)))
  {
    TrashedChain(t.entries, id, false, id);
    forall e | e in t.entries && Clean(t.entries, e) ensures Clean(Trashed(t.entries, id, false), e) {
      TrashedChain(t.entries, id, false, e);
    }
    TreeKeepsLinks(t, Trashed(t.entries, id, false));
  }

  /** New rows change no old chain. */
  lemma ExtensionKeepsChain(es: Entries, es': Entries, e: Id)
    requires Forest(es) && Forest(es') && e in es && forall x :: x in es ==> x in es' && es'[x].parent == es[x].parent
    ensures e in es' && ChainOf(es', e) == ChainOf(es, e)
  {
    SameClimb(es, es', ChainOf(es, e));
    ChainUnique(es', ChainOf(es', e), ChainOf(es, e));
  }

  lemma ExtensionKeepsLinks(t: Tables, es: Entries)
    requires Consistent(t) && LinksClean(t) && Forest(es)
    requires forall e :: e in t.entries ==>
      e in es && es[e].parent == t.entries[e].parent && es[e].trashed == t.entries[e].trashed
    ensures LinksClean(t.(entries := es))
  {
    forall e | e in t.entries && Clean(t.entries, e) ensures e in es && Clean(es, e) {
      ExtensionKeepsChain(t.entries, es, e);
    }
    TreeKeepsLinks(t, es);
  }

  lemma ExtensionKeepsConsistent(t: Tables, es: Entries)
    requires Consistent(t) && Forest(es) && UniqueNames(es) && forall e :: e in t.entries ==>
      e in es && es[e] == t.entries[e]
    ensures Consistent(t.(entries := es)) && (LinksClean(t) ==> LinksClean(t.(entries := es)))
  {
    TreeKeepsConsistent(t, es);
    if LinksClean(t) {
      ExtensionKeepsLinks(t, es);
    }
  }

  /** Deleting entries cascades to their shares and on to the grants. */
  function Cascade(t: Tables, es: Entries): Tables {
    var shares := map s | s in t.shares
      && (t.shares[s].resource.EntryOf? ==> t.shares[s].resource.id in es) :: t.shares[s];
    Tables(es, shares, map g | g in t.grants && t.grants[g].share in shares :: t.grants[g])
  }

  lemma CascadeKeepsConsistent(t: Tables, es: Entries)
    requires Consistent(t) && Forest(es) && forall e :: e in es ==> e in t.entries && es[e] == t.entries[e]
    ensures Consistent(Cascade(t, es))
  {
    var u := Cascade(t, es);
    FewerKeepNames(t.entries, es);
    forall s | s in u.shares ensures ShareOk(es, u.shares[s]) {
      assert ShareOk(t.entries, t.shares[s]);
    }
    forall g | g in u.grants ensures GrantOk(u.shares, u.grants[g]) {
      assert GrantOk(t.shares, t.grants[g]);
    }
  }

  lemma CascadeKeepsLinks(t: Tables, es: Entries)
    requires Consistent(t) && LinksClean(t) && Forest(es)
    requires forall e :: e in es ==> e in t.entries && es[e] == t.entries[e] && ChainOf(es, e) == ChainOf(t.entries, e)
    ensures LinksClean(Cascade(t, es))
  {
    var u := Cascade(t, es);
    forall s | s in u.shares ensures !LeftBehind(es, u.shares[s]) {
      assert !LeftBehind(t.entries, t.shares[s]);
    }
  }

  /** `revoke_share` and the key-wide revocation: revoke what `which` selects and drop its grants. */
  function RevokeWhere(t: Tables, which: set<Id>): Tables {
    t.(shares := map s | s in t.shares :: if s in which then t.shares[s].(revoked := true) else t.shares[s],
       grants := map g | g in t.grants && t.grants[g].share !in which :: t.grants[g])
  }

  lemma RevokeKeepsConsistent(t: Tables, which: set<Id>)
    requires Consistent(t)
    ensures Consistent(RevokeWhere(t, which)) && (LinksClean(t) ==> LinksClean(RevokeWhere(t, which)))
  {
    var u := RevokeWhere(t, which);
    forall s | s in u.shares ensures ShareOk(u.entries, u.shares[s]) {
      assert ShareOk(t.entries, t.shares[s]);
    }
    forall g | g in u.grants ensures GrantOk(u.shares, u.grants[g]) {
      assert GrantOk(t.shares, t.grants[g]);
    }
    forall s | s in u.shares && LinksClean(t) ensures !LeftBehind(u.entries, u.shares[s]) {
      assert !LeftBehind(t.entries, t.shares[s]);
    }
  }

  predicate Live(s: Share, now: int) {
    !s.revoked && (s.expires.Some? ==> s.expires.value > now)
  }

  /** A revoked link holds no grant. */
  lemma RevokedHasNoGrant(t: Tables, s: Id)
    requires Consistent(t) && s in t.shares && t.shares[s].revoked
    ensures forall g :: g in t.grants ==> t.grants[g].share != s
  {
    forall g | g in t.grants ensures t.grants[g].share != s {
      assert GrantOk(t.shares, t.grants[g]);
    }
  }

  /** Replacing a share's counters keeps the tables as they are otherwise. */
  lemma UpdateKeepsConsistent(t: Tables, id: Id, s: Share)
    requires Consistent(t) && id in t.shares && ShareOk(t.entries, s)
    requires s.revoked == t.shares[id].revoked && s.expires == t.shares[id].expires
      && s.password == t.shares[id].password
    ensures Consistent(t.(shares := t.shares[id := s]))
    ensures LinksClean(t) && s.resource == t.shares[id].resource ==> LinksClean(t.(shares := t.shares[id := s]))
  {
    var u := t.(shares := t.shares[id := s]);
    forall x | x in u.shares ensures ShareOk(u.entries, u.shares[x]) {
      if x != id {
        assert ShareOk(t.entries, t.shares[x]);
      }
    }
    forall g | g in u.grants ensures GrantOk(u.shares, u.grants[g]) {
      assert GrantOk(t.shares, t.grants[g]);
    }
    forall x | x in u.shares && LinksClean(t) && s.resource == t.shares[id].resource
      ensures !LeftBehind(u.entries, u.shares[x]) {
      assert !LeftBehind(t.entries, t.shares[x]);
    }
  }

  /** A new link keeps the tables consistent, and clean exactly when its entry's whole chain is untrashed by then. */
  lemma NewLinkIff(t: Tables, id: Id, s: Share)
    requires Consistent(t) && id !in t.shares && ShareOk(t.entries, s)
    ensures Consistent(t.(shares := t.shares[id := s]))
    ensures LinksClean(t) ==> (LinksClean(t.(shares := t.shares[id := s])) <==> !LeftBehind(t.entries, s))
  {
    var u := t.(shares := t.shares[id := s]);
    forall x | x in u.shares ensures ShareOk(u.entries, u.shares[x]) {
      assert x != id ==> ShareOk(t.entries, t.shares[x]);
    }
    forall g | g in u.grants ensures GrantOk(u.shares, u.grants[g]) {
      assert GrantOk(t.shares, t.grants[g]);
    }
    forall x | x in u.shares && x != id && LinksClean(t) ensures !LeftBehind(u.entries, u.shares[x]) {
      assert !LeftBehind(t.entries, t.shares[x]);
    }
    assert u.shares[id] == s;
  }
}
