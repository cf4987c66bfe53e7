/** Device authorization (RFC 8628) and refresh rotation (section 10.4 of RFC 6749) as implemented in src/devices.rs.
    Tokens are distinct, so the credential log doubles as the name space of tokens: credential `k` is what access
    token `k` and refresh token `k` select. */
module Devices {
  import opened Common

  const CODE_TTL: int := 600
  const ACCESS_TTL: int := 3600
  const REFRESH_TTL: int := 90 * 24 * 3600
  const DEFAULT_POLL: int := 5
  const MAX_POLL: int := 30
  const RECENT_LIMIT: int := 30
  const CODE_TRIES: nat := 5

  datatype Status = Pending | Approved | Denied | Consumed | Expired
  datatype Grant = Grant(status: Status, created: int, expires: int, interval: int, pollAfter: int, device: Option<Id>)
  datatype Device = Device(owner: Id, revoked: bool)
  datatype Credential = Credential(device: Id, accessExpires: int, refreshExpires: int, revoked: bool)

  /** `requests` is keyed by device code; `userCodes` is the unique index that leads from a user code to its request. */
  datatype State = State(
    requests: map<Id, Grant>,
    userCodes: map<Id, Id>,
    devices: map<Id, Device>,
    credentials: seq<Credential>,
    disabled: set<Id>,
    now: int)

  datatype Reply =
    | Done
    | Created(userCode: Id)
    | ApprovedDevice(device: Id)
    | Tokens(credential: nat)
    | SlowDown(interval: int)
    | AuthorizationPending(interval: int)
    | AccessDenied
    | ExpiredToken
    | InvalidGrant
    | NotFound
    | Conflict
    | TooManyAttempts
    | ServiceUnavailable

  datatype Op =
    | Advance(seconds: nat)
    | SetAccount(user: Id, enabled: bool)
    | CreateCode(code: Id, candidates: seq<Id>)
    | Exchange(code: Id)
    | Refresh(token: nat)
    | Approve(userCode: Id, owner: Id, device: Id)
    | Deny(userCode: Id)
    | RevokeDevice(owner: Id, device: Id)

  const Initial := State(map[], map[], map[], [], {}, 0)

  // ----- the requests

  function FirstFree(candidates: seq<Id>, used: set<Id>, tries: nat): Option<Id> {
    if candidates == [] || tries == 0 then None
    else if candidates[0] !in used then Some(candidates[0])
    else FirstFree(candidates[1..], used, tries - 1)
  }

  function RecentCodes(s: State): set<Id> {
    set c | c in s.requests && s.requests[c].created > s.now - 60
  }

  function Sweep(requests: map<Id, Grant>, now: int): map<Id, Grant> {
    map c | c in requests :: if requests[c].status.Pending? && requests[c].expires <= now
      then requests[c].(status := Expired) else requests[c]
  }

  function CreateCodeStep(s: State, code: Id, candidates: seq<Id>): (State, Reply) {
    if |RecentCodes(s)| >= RECENT_LIMIT then (s, TooManyAttempts)
    else
      var swept := s.(requests := Sweep(s.requests, s.now));
      var user := FirstFree(candidates, s.userCodes.Keys, CODE_TRIES);
      if user.None? || code in s.requests then (swept, ServiceUnavailable)
      else
        (swept.(requests := swept.requests[code := Grant(Pending, s.now, s.now + CODE_TTL, DEFAULT_POLL, s.now, None)],
                userCodes := s.userCodes[user.value := code]),
         Created(user.value))
  }

  predicate Lapsed(g: Grant, now: int) {
    g.expires <= now || g.status.Expired?
  }

  function ExpiredRow(g: Grant): Grant {
    if g.status.Pending? then g.(status := Expired) else g
  }

  function Issue(s: State, device: Id): State {
    s.(credentials := s.credentials + [Credential(device, s.now + ACCESS_TTL, s.now + REFRESH_TTL, false)])
  }

  function SetGrant(s: State, code: Id, g: Grant): State {
    s.(requests := s.requests[code := g])
  }

  function ExchangeStep(s: State, code: Id): (State, Reply) {
    if code !in s.requests then (s, InvalidGrant)
    else
      var g := s.requests[code];
      if Lapsed(g, s.now) then (SetGrant(s, code, ExpiredRow(g)), ExpiredToken)
      else if s.now < g.pollAfter then
        var interval := if g.interval + 5 <= MAX_POLL then g.interval + 5 else MAX_POLL;
        (SetGrant(s, code, g.(interval := interval, pollAfter := s.now + interval)), SlowDown(interval))
      else
        var polled := g.(pollAfter := s.now + g.interval);
        match g.status
        case Pending => (SetGrant(s, code, polled), AuthorizationPending(g.interval))
        case Denied => (SetGrant(s, code, polled), AccessDenied)
        case Approved =>
          if g.device.None? then (s, ServiceUnavailable)
          else (SetGrant(Issue(s, g.device.value), code, polled.(status := Consumed)), Tokens(|s.credentials|))
        case _ => (SetGrant(s, code, polled), InvalidGrant)
  }

  function RevokeCredentials(credentials: seq<Credential>, device: Id): seq<Credential> {
    seq(|credentials|, i requires 0 <= i < |credentials| =>
      if credentials[i].device == device then credentials[i].(revoked := true) else credentials[i])
  }

  /** Revoking a device takes all its credentials with it. */
  function Revoke(s: State, device: Id): State
    requires device in s.devices
  {
    s.(devices := s.devices[device := s.devices[device].(revoked := true)],
      credentials := RevokeCredentials(s.credentials, device))
  }

  /** The refresh query joins credential, device and account, so a credential without a device is not found. */
  function RefreshStep(s: State, token: nat): (State, Reply) {
    if token >= |s.credentials| || s.credentials[token].device !in s.devices then (s, InvalidGrant)
    else
      var c := s.credentials[token];
      var d := s.devices[c.device];
      if c.revoked then (Revoke(s, c.device), InvalidGrant)
      else if d.revoked || d.owner in s.disabled || c.refreshExpires <= s.now then (s, InvalidGrant)
      else (Issue(s.(credentials := s.credentials[token := c.(revoked := true)]), c.device), Tokens(|s.credentials|))
  }

  function ApproveStep(s: State, userCode: Id, owner: Id, device: Id): (State, Reply) {
    if userCode !in s.userCodes || s.userCodes[userCode] !in s.requests then (s, NotFound)
    else
      var code := s.userCodes[userCode];
      var g := s.requests[code];
      if Lapsed(g, s.now) then (SetGrant(s, code, ExpiredRow(g)), ExpiredToken)
      else if !g.status.Pending? then (s, Conflict)
      else if device in s.devices then (s, ServiceUnavailable)
      else
        var t := SetGrant(s, code, g.(status := Approved, device := Some(device)));
        (t.(devices := s.devices[device := Device(owner, false)]), ApprovedDevice(device))
  }

  function DenyStep(s: State, userCode: Id): (State, Reply) {
    if userCode !in s.userCodes || s.userCodes[userCode] !in s.requests then (s, NotFound)
    else
      var code := s.userCodes[userCode];
      var g := s.requests[code];
      if g.status.Pending? && g.expires > s.now then (SetGrant(s, code, g.(status := Denied)), Done) else (s, NotFound)
  }

  function RevokeDeviceStep(s: State, owner: Id, device: Id): (State, Reply) {
    if device in s.devices && s.devices[device].owner == owner then (Revoke(s, device), Done) else (s, NotFound)
  }

  function Step(s: State, op: Op): (State, Reply) {
    match op
    case Advance(d) => (s.(now := s.now + d), Done)
    case SetAccount(u, enabled) => (s.(disabled := if enabled then s.disabled - {u} else s.disabled + {u}), Done)
    case CreateCode(c, us) => CreateCodeStep(s, c, us)
    case Exchange(c) => ExchangeStep(s, c)
    case Refresh(t) => RefreshStep(s, t)
    case Approve(u, o, d) => ApproveStep(s, u, o, d)
    case Deny(u) => DenyStep(s, u)
    case RevokeDevice(o, d) => RevokeDeviceStep(s, o, d)
  }

  /** `authenticate_access_token`. */
  predicate Accepts(s: State, token: nat) {
    && token < |s.credentials| && !s.credentials[token].revoked && s.credentials[token].accessExpires > s.now
    && s.credentials[token].device in s.devices && !s.devices[s.credentials[token].device].revoked
    && s.devices[s.credentials[token].device].owner !in s.disabled
  }

  /** The state before the `k`-th request of a run. */
  function At(ops: seq<Op>, k: nat): State
    requires k <= |ops|
  {
    if k == 0 then Initial else Step(At(ops, k - 1), ops[k - 1]).0
  }

  function ReplyTo(ops: seq<Op>, k: nat): Reply
    requires k < |ops|
  {
    Step(At(ops, k), ops[k]).1
  }

  // ----- the invariant

  ghost predicate GrantOk(s: State, c: Id)
    requires c in s.requests
  {
    var g := s.requests[c];
    && DEFAULT_POLL <= g.interval <= MAX_POLL
    && (g.device.Some? <==> g.status.Approved? || g.status.Consumed?)
    && (g.device.Some? ==> g.device.value in s.devices)
  }

  /** Two requests never share a device. */
  ghost predicate Apart(s: State, c: Id, e: Id)
    requires c in s.requests && e in s.requests
  {
    c != e && s.requests[c].device.Some? ==> s.requests[c].device != s.requests[e].device
  }

  /** A credential's device exists, its request is no longer waiting for tokens, and it is revoked once a newer one
      of the same device exists. */
  ghost predicate CredentialOk(s: State, i: nat)
    requires i < |s.credentials|
  {
    var c := s.credentials[i];
    && c.device in s.devices
    && (forall r :: r in s.requests && s.requests[r].device == Some(c.device) ==> s.requests[r].status.Consumed?)
    && (forall j :: i < j < |s.credentials| && s.credentials[j].device == c.device ==> c.revoked)
  }

  ghost predicate Inv(s: State) {
    && (forall u :: u in s.userCodes ==> s.userCodes[u] in s.requests)
    && (forall c {:trigger GrantOk(s, c)} :: c in s.requests ==> GrantOk(s, c))
    && (forall c, e {:trigger Apart(s, c, e)} :: c in s.requests && e in s.requests ==> Apart(s, c, e))
    && (forall i: nat {:trigger CredentialOk(s, i)} :: i < |s.credentials| ==> CredentialOk(s, i))
  }

  lemma StepKeepsUserCodes(s: State, op: Op, u: Id)
    requires Inv(s) && u in Step(s, op).0.userCodes
    ensures Step(s, op).0.userCodes[u] in Step(s, op).0.requests
  {
  }

  lemma StepKeepsGrant(s: State, op: Op, c: Id)
    requires Inv(s) && c in Step(s, op).0.requests
    ensures GrantOk(Step(s, op).0, c)
  {
    assert c in s.requests ==> GrantOk(s, c);
  }

  lemma StepKeepsApart(s: State, op: Op, c: Id, e: Id)
    requires Inv(s) && c in Step(s, op).0.requests && e in Step(s, op).0.requests
    ensures Apart(Step(s, op).0, c, e)
  {
    assert c in s.requests ==> GrantOk(s, c);
    assert e in s.requests ==> GrantOk(s, e);
    assert c in s.requests && e in s.requests ==> Apart(s, c, e);
  }

  lemma StepKeepsCredential(s: State, op: Op, i: nat)
    requires Inv(s) && i < |Step(s, op).0.credentials|
    ensures CredentialOk(Step(s, op).0, i)
  {
    var t := Step(s, op).0;
    assert i < |s.credentials| ==> CredentialOk(s, i);
    forall r | r in t.requests && t.requests[r].device == Some(t.credentials[i].device)
      ensures t.requests[r].status.Consumed?
    {
      CredentialIsConsumed(s, op, i, r);
    }
    if op.Refresh? && op.token < |s.credentials| {
      assert CredentialOk(s, op.token);
    }
    if op.Exchange? && op.code in s.requests {
      assert GrantOk(s, op.code);
    }
  }

  lemma CredentialIsConsumed(s: State, op: Op, i: nat, r: Id)
    requires Inv(s) && i < |Step(s, op).0.credentials| && r in Step(s, op).0.requests
    requires Step(s, op).0.requests[r].device == Some(Step(s, op).0.credentials[i].device)
    ensures Step(s, op).0.requests[r].status.Consumed?
  {
    assert i < |s.credentials| ==> CredentialOk(s, i);
    assert r in s.requests ==> GrantOk(s, r);
    if op.Refresh? && op.token < |s.credentials| {
      assert CredentialOk(s, op.token);
    }
    if op.Exchange? && op.code in s.requests {
      assert GrantOk(s, op.code);
      assert Apart(s, op.code, r);
    }
  }

  lemma StepKeepsInv(s: State, op: Op)
    requires Inv(s)
    ensures Inv(Step(s, op).0)
  {
    var t := Step(s, op).0;
    forall u | u in t.userCodes ensures t.userCodes[u] in t.requests {
      StepKeepsUserCodes(s, op, u);
    }
    forall c | c in t.requests ensures GrantOk(t, c) {
      StepKeepsGrant(s, op, c);
    }
    forall c, e | c in t.requests && e in t.requests ensures Apart(t, c, e) {
      StepKeepsApart(s, op, c, e);
    }
    forall i: nat | i < |t.credentials| ensures CredentialOk(t, i) {
      StepKeepsCredential(s, op, i);
    }
  }

  lemma {:induction false} RunKeepsInv(ops: seq<Op>, k: nat)
    requires k <= |ops|
    ensures Inv(At(ops, k))
  {
    if k > 0 {
      RunKeepsInv(ops, k - 1);
      StepKeepsInv(At(ops, k - 1), ops[k - 1]);
    }
  }

  // ----- what happened in a run

  /** Request `k` makes the device unusable: the owner revokes it, or one of its rotated tokens is replayed. */
  predicate Kills(s: State, op: Op, d: Id) {
    || (op.RevokeDevice? && op.device == d && d in s.devices && s.devices[d].owner == op.owner)
    || (op.Refresh? && d in s.devices && op.token < |s.credentials|
      && s.credentials[op.token].device == d && s.credentials[op.token].revoked)
  }

  predicate Rotates(s: State, op: Op, c: nat) {
    op == Refresh(c) && Step(s, op).1.Tokens?
  }

  predicate KillsAt(ops: seq<Op>, i: nat, d: Id)
    requires i < |ops|
  {
    Kills(At(ops, i), ops[i], d)
  }

  predicate RotatesAt(ops: seq<Op>, i: nat, c: nat)
    requires i < |ops|
  {
    Rotates(At(ops, i), ops[i], c)
  }

  predicate KilledBefore(ops: seq<Op>, k: nat, d: Id)
    requires k <= |ops|
  {
    exists i: nat :: i < k && KillsAt(ops, i, d)
  }

  predicate RotatedBefore(ops: seq<Op>, k: nat, c: nat)
    requires k <= |ops|
  {
    exists i: nat :: i < k && RotatesAt(ops, i, c)
  }

  lemma KilledBeforeStep(ops: seq<Op>, k: nat, d: Id)
    requires k < |ops|
    ensures KilledBefore(ops, k + 1, d) <==> KilledBefore(ops, k, d) || KillsAt(ops, k, d)
  {
    if KilledBefore(ops, k + 1, d) {
      var i: nat :| i < k + 1 && KillsAt(ops, i, d);
      assert i < k || i == k;
    }
  }

  lemma RotatedBeforeStep(ops: seq<Op>, k: nat, c: nat)
    requires k < |ops|
    ensures RotatedBefore(ops, k + 1, c) <==> RotatedBefore(ops, k, c) || RotatesAt(ops, k, c)
  {
    if RotatedBefore(ops, k + 1, c) {
      var i: nat :| i < k + 1 && RotatesAt(ops, i, c);
      assert i < k || i == k;
    }
  }

  lemma StepOnDevice(s: State, op: Op, d: Id)
    ensures d in s.devices ==> d in Step(s, op).0.devices && Step(s, op).0.devices[d].owner == s.devices[d].owner
    ensures d in s.devices ==> (Step(s, op).0.devices[d].revoked <==> s.devices[d].revoked || Kills(s, op, d))
    ensures d !in s.devices && d in Step(s, op).0.devices ==> !Step(s, op).0.devices[d].revoked
    ensures Kills(s, op, d) ==> d in s.devices
  {
  }

  /** A device is revoked exactly when something killed it earlier in the run. */
  lemma {:induction false} RevokedIffKilled(ops: seq<Op>, k: nat, d: Id)
    requires k <= |ops|
    ensures KilledBefore(ops, k, d) ==> d in At(ops, k).devices
    ensures d in At(ops, k).devices ==> (At(ops, k).devices[d].revoked <==> KilledBefore(ops, k, d))
  {
    if k > 0 {
      var s, op := At(ops, k - 1), ops[k - 1];
      RevokedIffKilled(ops, k - 1, d);
      StepOnDevice(s, op, d);
      KilledBeforeStep(ops, k - 1, d);
    }
  }

  /** Device, expiry times and existence of a credential never change; it is revoked by rotation or with its device. */
  lemma StepOnCredential(s: State, op: Op, c: nat)
    requires Inv(s) && c < |s.credentials|
    ensures var t := Step(s, op).0;
            && c < |t.credentials| && t.credentials[c].(revoked := s.credentials[c].revoked) == s.credentials[c]
            && (t.credentials[c].revoked <==>
              s.credentials[c].revoked || Rotates(s, op, c) || Kills(s, op, s.credentials[c].device))
  {
    assert CredentialOk(s, c);
  }

  /** A step issues at most one credential, to an existing device. */
  lemma StepIssues(s: State, op: Op)
    requires Inv(s)
    ensures var t := Step(s, op).0;
            && |t.credentials| == (if Step(s, op).1.Tokens? then |s.credentials| + 1 else |s.credentials|)
            && (Step(s, op).1.Tokens? ==> Step(s, op).1 == Tokens(|s.credentials|) && (op.Exchange? || op.Refresh?)
                                          && t.credentials[|s.credentials|].device in s.devices
                                          && t.credentials[|s.credentials|] ==
                                            Credential(t.credentials[|s.credentials|].device, s.now + ACCESS_TTL,
                                            s.now + REFRESH_TTL, false))
  {
    if op.Exchange? && op.code in s.requests {
      assert GrantOk(s, op.code);
    }
    if op.Refresh? && op.token < |s.credentials| {
      assert CredentialOk(s, op.token);
    }
  }

  /** Where a credential came from: the request that issued it, either the device's one exchange or the rotation of
      the newest credential the device had. */
  ghost predicate IssuedAt(ops: seq<Op>, i: nat, c: nat)
    requires i < |ops|
  {
    var s, t := At(ops, i), Step(At(ops, i), ops[i]).0;
    && |s.credentials| == c && ReplyTo(ops, i) == Tokens(c) && |t.credentials| == c + 1
    && t.credentials[c].accessExpires == s.now + ACCESS_TTL && t.credentials[c].refreshExpires == s.now + REFRESH_TTL
    && (ops[i].Exchange? || ops[i].Refresh?)
    && (ops[i].Exchange? ==> forall b :: 0 <= b < c ==> s.credentials[b].device != t.credentials[c].device)
    && (ops[i].Refresh? ==>
          && ops[i].token < c && s.credentials[ops[i].token].device == t.credentials[c].device
          && (forall b :: ops[i].token < b < c ==> s.credentials[b].device != t.credentials[c].device))
  }

  lemma TokensAreIssued(ops: seq<Op>, i: nat)
    requires i < |ops| && ReplyTo(ops, i).Tokens?
    ensures IssuedAt(ops, i, |At(ops, i).credentials|)
  {
    var s, op := At(ops, i), ops[i];
    var c := |s.credentials|;
    RunKeepsInv(ops, i);
    StepIssues(s, op);
    var t := Step(s, op).0;
    forall b | 0 <= b < c && op.Exchange? ensures s.credentials[b].device != t.credentials[c].device {
      assert CredentialOk(s, b) && GrantOk(s, op.code);
    }
    if op.Refresh? {
      assert CredentialOk(s, op.token);
    }
  }

  /** Every credential was issued by exactly such a request, and keeps what it was issued with. */
  lemma {:induction false} RotationChain(ops: seq<Op>, k: nat, c: nat) returns (i: nat)
    requires k <= |ops| && c < |At(ops, k).credentials|
    ensures i < k && IssuedAt(ops, i, c)
    ensures At(ops, k).credentials[c].(revoked := false) == At(ops, i + 1).credentials[c].(revoked := false)
  {
    var s, op := At(ops, k - 1), ops[k - 1];
    RunKeepsInv(ops, k - 1);
    StepIssues(s, op);
    if c < |s.credentials| {
      StepOnCredential(s, op, c);
      i := RotationChain(ops, k - 1, c);
    } else {
      TokensAreIssued(ops, k - 1);
      i := k - 1;
    }
  }

  /** At most one credential of a device is unrevoked, and it is the newest. */
  lemma OnlyNewestIsLive(ops: seq<Op>, k: nat, b: nat, c: nat)
    requires k <= |ops| && b < c < |At(ops, k).credentials|
      && At(ops, k).credentials[b].device == At(ops, k).credentials[c].device
    ensures At(ops, k).credentials[b].revoked && !Accepts(At(ops, k), b)
  {
    RunKeepsInv(ops, k);
    assert CredentialOk(At(ops, k), b);
  }

  lemma CredentialsAt(ops: seq<Op>, k: nat, c: nat)
    requires k < |ops|
    ensures var s, t := At(ops, k), At(ops, k + 1);
            && |s.credentials| <= |t.credentials| <= |s.credentials| + 1
            && (c < |s.credentials| ==>
                  && t.credentials[c].device == s.credentials[c].device
                  && (t.credentials[c].revoked <==>
                    s.credentials[c].revoked || RotatesAt(ops, k, c) || KillsAt(ops, k, s.credentials[c].device)))
            && (|s.credentials| <= c < |t.credentials| ==> !t.credentials[c].revoked)
            && (|s.credentials| <= c ==> !RotatesAt(ops, k, c))
  {
    RunKeepsInv(ops, k);
    StepIssues(At(ops, k), ops[k]);
    if c < |At(ops, k).credentials| {
      StepOnCredential(At(ops, k), ops[k], c);
    }
  }

  predicate RevokedAt(ops: seq<Op>, k: nat, c: nat)
    requires k <= |ops|
  {
    c < |At(ops, k).credentials| && At(ops, k).credentials[c].revoked
  }

  lemma {:induction false} RotatedStaysRevoked(ops: seq<Op>, i: nat, k: nat, c: nat)
    requires i < k <= |ops| && RotatesAt(ops, i, c)
    ensures RevokedAt(ops, k, c)
  {
    CredentialsAt(ops, k - 1, c);
    if i < k - 1 {
      RotatedStaysRevoked(ops, i, k - 1, c);
    }
  }

  /** A credential is revoked only by its own rotation or with its device. */
  lemma {:induction false} RevokedHasCause(ops: seq<Op>, k: nat, c: nat)
    requires k <= |ops| && RevokedAt(ops, k, c)
    ensures RotatedBefore(ops, k, c) || KilledBefore(ops, k, At(ops, k).credentials[c].device)
  {
    if k > 0 {
      CredentialsAt(ops, k - 1, c);
      RotatedBeforeStep(ops, k - 1, c);
      KilledBeforeStep(ops, k - 1, At(ops, k).credentials[c].device);
      if RevokedAt(ops, k - 1, c) {
        RevokedHasCause(ops, k - 1, c);
      }
    }
  }

  /** When an access token is accepted, over every run: it was issued less than an hour ago, its account is enabled,
      it has not been rotated, and nothing killed its device before or after it was issued. */
  lemma AcceptedIff(ops: seq<Op>, k: nat, c: nat) returns (i: nat)
    requires k <= |ops| && c < |At(ops, k).credentials|
    ensures i < k && IssuedAt(ops, i, c)
    ensures var s := At(ops, k); var d := s.credentials[c].device;
            && d in s.devices
            && (Accepts(s, c) <==> s.now < At(ops, i).now + ACCESS_TTL && s.devices[d].owner !in s.disabled
                                   && !RotatedBefore(ops, k, c) && !KilledBefore(ops, k, d))
  {
    var s := At(ops, k);
    i := RotationChain(ops, k, c);
    RunKeepsInv(ops, k);
    assert CredentialOk(s, c);
    RevokedIffKilled(ops, k, s.credentials[c].device);
    if RotatedBefore(ops, k, c) {
      var j: nat :| j < k && RotatesAt(ops, j, c);
      RotatedStaysRevoked(ops, j, k, c);
    }
    if RevokedAt(ops, k, c) {
      RevokedHasCause(ops, k, c);
    }
  }

  /** After a device is killed none of its tokens is ever accepted and none of its refresh tokens works: not those it
      had, and not one that an exchange still hands out for it later. */
  lemma KilledForGood(ops: seq<Op>, i: nat, k: nat, d: Id, c: nat)
    requires i < k <= |ops| && KillsAt(ops, i, d)
    requires c < |At(ops, k).credentials| && At(ops, k).credentials[c].device == d
    ensures !Accepts(At(ops, k), c) && !Step(At(ops, k), Refresh(c)).1.Tokens?
  {
    assert KilledBefore(ops, k, d);
    RevokedIffKilled(ops, k, d);
  }

  /** Replaying a refresh token that was rotated earlier kills its device. */
  lemma ReplayKills(ops: seq<Op>, i: nat, j: nat, c: nat)
    requires i < j < |ops| && RotatesAt(ops, i, c) && ops[j] == Refresh(c)
    ensures c < |At(ops, j).credentials| && KillsAt(ops, j, At(ops, j).credentials[c].device)
    ensures ReplyTo(ops, j) == InvalidGrant
  {
    RotatedStaysRevoked(ops, i, j, c);
    RunKeepsInv(ops, j);
    assert CredentialOk(At(ops, j), c);
  }

  // ----- device codes

  lemma StepOnGrant(s: State, op: Op, c: Id)
    requires Inv(s) && c in s.requests
    ensures var t := Step(s, op).0;
            && c in t.requests
            && (s.requests[c].status.Consumed? ==> t.requests[c].status.Consumed?)
            && (t.requests[c].device.Some? && t.requests[c].device != s.requests[c].device ==>
                  op.Approve? && op.userCode in s.userCodes && s.userCodes[op.userCode] == c
                    && Step(s, op).1 == ApprovedDevice(op.device)
                  && t.requests[c].device == Some(op.device) && op.device !in s.devices)
            && (op == Exchange(c) && Step(s, op).1.Tokens? ==>
              s.requests[c].status.Approved? && t.requests[c].status.Consumed?)
  {
    assert GrantOk(s, c);
  }

  lemma NewGrant(s: State, op: Op, c: Id)
    requires c !in s.requests && c in Step(s, op).0.requests
    ensures Step(s, op).0.requests[c].device.None?
  {
  }

  lemma {:induction false} ConsumedStays(ops: seq<Op>, i: nat, k: nat, c: Id)
    requires i <= k <= |ops| && c in At(ops, i).requests && At(ops, i).requests[c].status.Consumed?
    ensures c in At(ops, k).requests && At(ops, k).requests[c].status.Consumed?
  {
    if i < k {
      ConsumedStays(ops, i, k - 1, c);
      RunKeepsInv(ops, k - 1);
      StepOnGrant(At(ops, k - 1), ops[k - 1], c);
    }
  }

  /** A device code yields tokens at most once. */
  lemma TokensOnce(ops: seq<Op>, i: nat, k: nat, c: Id)
    requires i < k < |ops| && ops[i] == Exchange(c) && ops[k] == Exchange(c) && ReplyTo(ops, i).Tokens?
    ensures !ReplyTo(ops, k).Tokens?
  {
    RunKeepsInv(ops, i);
    StepOnGrant(At(ops, i), ops[i], c);
    ConsumedStays(ops, i + 1, k, c);
  }

  /** Request `i` is the approval of code `c`, for device `d`. */
  ghost predicate ApprovesAt(ops: seq<Op>, i: nat, c: Id, d: Id)
    requires i < |ops|
  {
    && ops[i].Approve? && ops[i].device == d && ReplyTo(ops, i) == ApprovedDevice(d) && d !in At(ops, i).devices
    && ops[i].userCode in At(ops, i).userCodes && At(ops, i).userCodes[ops[i].userCode] == c
  }

  lemma {:induction false} DeviceWasApproved(ops: seq<Op>, k: nat, c: Id) returns (i: nat)
    requires k <= |ops| && c in At(ops, k).requests && At(ops, k).requests[c].device.Some?
    ensures i < k && ApprovesAt(ops, i, c, At(ops, k).requests[c].device.value)
  {
    var s, op := At(ops, k - 1), ops[k - 1];
    RunKeepsInv(ops, k - 1);
    if c in s.requests {
      StepOnGrant(s, op, c);
    } else {
      NewGrant(s, op, c);
    }
    if c in s.requests && s.requests[c].device == At(ops, k).requests[c].device {
      i := DeviceWasApproved(ops, k - 1, c);
    } else {
      i := k - 1;
    }
  }

  /** It yields them only after its request was approved, and they belong to the device of that approval. */
  lemma TokensNeedApproval(ops: seq<Op>, k: nat, c: Id) returns (i: nat)
    requires k < |ops| && ops[k] == Exchange(c) && ReplyTo(ops, k).Tokens?
    ensures i < k && |At(ops, k + 1).credentials| > 0
    ensures ApprovesAt(ops, i, c, At(ops, k + 1).credentials[|At(ops, k).credentials|].device)
  {
    RunKeepsInv(ops, k);
    assert GrantOk(At(ops, k), c);
    i := DeviceWasApproved(ops, k, c);
  }

  /** Revoking the device between approval and exchange does not stop the exchange; its tokens are dead on arrival. */
  lemma DeadOnArrival(ops: seq<Op>, k: nat, c: Id)
    requires k < |ops| && ops[k] == Exchange(c) && c in At(ops, k).requests
    requires var g := At(ops, k).requests[c];
             g.status.Approved? && g.pollAfter <= At(ops, k).now < g.expires
               && g.device.Some? && KilledBefore(ops, k, g.device.value)
    ensures ReplyTo(ops, k).Tokens?
    ensures forall m: nat :: k < m <= |ops| ==> !Accepts(At(ops, m), ReplyTo(ops, k).credential)
  {
    var n := |At(ops, k).credentials|;
    var d := At(ops, k).requests[c].device.value;
    var i: nat :| i < k && KillsAt(ops, i, d);
    forall m: nat | k < m <= |ops| ensures !Accepts(At(ops, m), n) {
      assert At(ops, k + 1).credentials[n].device == d;
      IssuedStays(ops, k + 1, m, n);
      KilledForGood(ops, i, m, d, n);
    }
  }

  lemma CodeApproved() returns (ops: seq<Op>)
    ensures |ops| == 2
    ensures At(ops, 2) == State(map[1 := Grant(Approved, 0, CODE_TTL, DEFAULT_POLL, 0, Some(9))], map[2 := 1],
                                map[9 := Device(7, false)], [], {}, 0)
  {
    ops := [CreateCode(1, [2]), Approve(2, 7, 9)];
    var s := At(ops, 1);
    assert RecentCodes(Initial) == {};
    assert s.requests == map[1 := Grant(Pending, 0, CODE_TTL, DEFAULT_POLL, 0, None)];
    assert s == State(map[1 := Grant(Pending, 0, CODE_TTL, DEFAULT_POLL, 0, None)], map[2 := 1], map[], [], {}, 0);
    assert At(ops, 2).requests == map[1 := Grant(Approved, 0, CODE_TTL, DEFAULT_POLL, 0, Some(9))];
  }

  /** Such runs exist: create, approve, revoke, exchange. */
  lemma DeadTokensHappen() returns (ops: seq<Op>)
    ensures |ops| == 4 && ops[3] == Exchange(1) && ReplyTo(ops, 3).Tokens?
    ensures KillsAt(ops, 2, 9) && !Accepts(At(ops, 4), ReplyTo(ops, 3).credential)
  {
    var start := CodeApproved();
    ops := start + [RevokeDevice(7, 9), Exchange(1)];
    SameStart(ops, start, 2);
    var s := At(ops, 2);
    assert At(ops, 3) == Revoke(s, 9);
    assert KillsAt(ops, 2, 9);
    DeadOnArrival(ops, 3, 1);
  }

  lemma {:induction false} SameStart(ops: seq<Op>, start: seq<Op>, k: nat)
    requires start <= ops && k <= |start|
    ensures At(ops, k) == At(start, k)
  {
    if k > 0 {
      SameStart(ops, start, k - 1);
    }
  }

  lemma {:induction false} IssuedStays(ops: seq<Op>, k: nat, m: nat, c: nat)
    requires k <= m <= |ops| && c < |At(ops, k).credentials|
    ensures c < |At(ops, m).credentials| && At(ops, m).credentials[c].device == At(ops, k).credentials[c].device
  {
    if k < m {
      IssuedStays(ops, k, m - 1, c);
      RunKeepsInv(ops, m - 1);
      StepOnCredential(At(ops, m - 1), ops[m - 1], c);
    }
  }

  // ----- polling

  /** The request passed the poll gate, whatever it then found. */
  predicate Polled(s: State, op: Op, c: Id) {
    op == Exchange(c) && c in s.requests && !Lapsed(s.requests[c], s.now) && s.now >= s.requests[c].pollAfter
  }

  lemma StepOnPoll(s: State, op: Op, c: Id)
    requires Inv(s) && c in s.requests
    ensures var t := Step(s, op).0;
            && c in t.requests && t.now >= s.now && t.requests[c].interval >= s.requests[c].interval
            && (t.requests[c].pollAfter == s.requests[c].pollAfter
              || t.requests[c].pollAfter == s.now + t.requests[c].interval)
            && (Polled(s, op, c) ==> t.requests[c].pollAfter == s.now + s.requests[c].interval)
  {
    assert GrantOk(s, c);
  }

  lemma {:induction false} PollGateStays(ops: seq<Op>, i: nat, k: nat, c: Id)
    requires i < k <= |ops| && Polled(At(ops, i), ops[i], c)
    ensures c in At(ops, k).requests
      && At(ops, k).requests[c].pollAfter >= At(ops, i).now + At(ops, i).requests[c].interval
    ensures At(ops, k).requests[c].interval >= At(ops, i).requests[c].interval && At(ops, k).now >= At(ops, i).now
  {
    RunKeepsInv(ops, k - 1);
    if k > i + 1 {
      PollGateStays(ops, i, k - 1, c);
    }
    StepOnPoll(At(ops, k - 1), ops[k - 1], c);
  }

  /** Two polls that both get past the gate are at least the interval (never under five seconds) apart, however often
      the client polls in between and is told to slow down. */
  lemma PollsAreSpaced(ops: seq<Op>, i: nat, k: nat, c: Id)
    requires i < k < |ops| && Polled(At(ops, i), ops[i], c) && Polled(At(ops, k), ops[k], c)
    ensures At(ops, k).now >= At(ops, i).now + At(ops, i).requests[c].interval
    ensures At(ops, i).requests[c].interval >= DEFAULT_POLL
  {
    RunKeepsInv(ops, i);
    assert GrantOk(At(ops, i), c);
    PollGateStays(ops, i, k, c);
  }

  // ----- the tables

  /** The rows the handlers update in place; `View` is the state of a run they stand for at a given time. */
  class Registry {
    var requests: map<Id, Grant>
    var userCodes: map<Id, Id>
    var devices: map<Id, Device>
    var credentials: seq<Credential>
    var disabled: set<Id>

    ghost function View(now: int): State
      reads this
    {
      State(requests, userCodes, devices, credentials, disabled, now)
    }

    constructor ()
      ensures View(0) == Initial
    {
      requests, userCodes, devices, credentials, disabled := map[], map[], map[], [], {};
    }

    method CreateCode(code: Id, candidates: seq<Id>, now: int) returns (r: Reply)
      modifies this
      ensures (View(now), r) == CreateCodeStep(old(View(now)), code, candidates)
    {
      var recent := set c | c in requests && requests[c].created > now - 60;
      assert recent == RecentCodes(View(now));
      if |recent| >= RECENT_LIMIT {
        return TooManyAttempts;
      }
      var taken := requests.Keys;
      requests := Sweep(requests, now);
      var left := candidates;
      var tries: nat := CODE_TRIES;
      while left != [] && tries > 0
        invariant View(now) == old(View(now)).(requests := Sweep(old(requests), now)) && tries <= CODE_TRIES
        invariant code !in taken ==>
          FirstFree(candidates, userCodes.Keys, CODE_TRIES) == FirstFree(left, userCodes.Keys, tries)
        decreases tries
      {
        if left[0] !in userCodes && code !in taken {
          requests := requests[code := Grant(Pending, now, now + CODE_TTL, DEFAULT_POLL, now, None)];
          userCodes := userCodes[left[0] := code];
          return Created(left[0]);
        }
        left, tries := left[1..], tries - 1;
      }
      r := ServiceUnavailable;
    }

    method IssueCredentials(device: Id, now: int) returns (credential: nat)
      modifies this
      ensures View(now) == Issue(old(View(now)), device) && credential == |old(credentials)|
    {
      credential := |credentials|;
      credentials := credentials + [Credential(device, now + ACCESS_TTL, now + REFRESH_TTL, false)];
    }

    method RevokeAll(device: Id, ghost now: int)
      requires device in devices
      modifies this
      ensures View(now) == Revoke(old(View(now)), device)
    {
      devices := devices[device := devices[device].(revoked := true)];
      var i := 0;
      while i < |credentials|
        invariant i <= |credentials| == |old(credentials)|
        invariant View(now) ==
          old(View(now)).(devices := old(devices)[device := old(devices)[device].(revoked := true)],
          credentials := credentials)
        invariant credentials == RevokeCredentials(old(credentials), device)[..i] + old(credentials)[i..]
      {
        if credentials[i].device == device {
          credentials := credentials[i := credentials[i].(revoked := true)];
        }
        i := i + 1;
      }
    }

    method ExchangeToken(code: Id, now: int) returns (r: Reply)
      modifies this
      ensures (View(now), r) == ExchangeStep(old(View(now)), code)
    {
      if code !in requests {
        return InvalidGrant;
      }
      var grant := requests[code];
      if grant.expires <= now || grant.status.Expired? {
        requests := requests[code := ExpiredRow(grant)];
        return ExpiredToken;
      }
      if now < grant.pollAfter {
        var interval := if grant.interval + 5 <= MAX_POLL then grant.interval + 5 else MAX_POLL;
        requests := requests[code := grant.(interval := interval, pollAfter := now + interval)];
        return SlowDown(interval);
      }
      if grant.status.Approved? && grant.device.None? {
        return ServiceUnavailable;
      }
      requests := requests[code := grant.(pollAfter := now + grant.interval)];
      match grant.status
      case Pending => r := AuthorizationPending(grant.interval);
      case Denied => r := AccessDenied;
      case Approved =>
        var credential := IssueCredentials(grant.device.value, now);
        requests := requests[code := requests[code].(status := Consumed)];
        assert requests == old(requests)[code := grant.(pollAfter := now + grant.interval, status := Consumed)];
        r := Tokens(credential);
      case _ => r := InvalidGrant;
    }

    method RefreshToken(token: nat, now: int) returns (r: Reply)
      modifies this
      ensures (View(now), r) == RefreshStep(old(View(now)), token)
    {
      if token >= |credentials| || credentials[token].device !in devices {
        return InvalidGrant;
      }
      var credential := credentials[token];
      if credential.revoked {
        RevokeAll(credential.device, now);
        return InvalidGrant;
      }
      var device := devices[credential.device];
      if device.revoked || device.owner in disabled || credential.refreshExpires <= now {
        return InvalidGrant;
      }
      credentials := credentials[token := credential.(revoked := true)];
      var issued := IssueCredentials(credential.device, now);
      r := Tokens(issued);
    }

    method ApproveRequest(userCode: Id, owner: Id, device: Id, now: int) returns (r: Reply)
      modifies this
      ensures (View(now), r) == ApproveStep(old(View(now)), userCode, owner, device)
    {
      if userCode !in userCodes || userCodes[userCode] !in requests {
        return NotFound;
      }
      var code := userCodes[userCode];
      var pending := requests[code];
      if pending.expires <= now || pending.status.Expired? {
        requests := requests[code := ExpiredRow(pending)];
        return ExpiredToken;
      }
      if !pending.status.Pending? {
        return Conflict;
      }
      if device in devices {
        return ServiceUnavailable;
      }
      devices := devices[device := Device(owner, false)];
      requests := requests[code := pending.(status := Approved, device := Some(device))];
      r := ApprovedDevice(device);
    }

    method DenyRequest(userCode: Id, now: int) returns (r: Reply)
      modifies this
      ensures (View(now), r) == DenyStep(old(View(now)), userCode)
    {
      r := NotFound;
      if userCode in userCodes && userCodes[userCode] in requests {
        var code := userCodes[userCode];
        if requests[code].status.Pending? && requests[code].expires > now {
          requests := requests[code := requests[code].(status := Denied)];
          r := Done;
        }
      }
    }

    method RevokeOwnedDevice(owner: Id, device: Id, ghost now: int) returns (r: Reply)
      modifies this
      ensures (View(now), r) == RevokeDeviceStep(old(View(now)), owner, device)
    {
      if device !in devices || devices[device].owner != owner {
        return NotFound;
      }
      RevokeAll(device, now);
      r := Done;
    }

    method AuthenticateAccessToken(token: nat, now: int) returns (device: Option<Id>)
      ensures device.Some? <==> Accepts(View(now), token)
      ensures device.Some? ==> device.value == credentials[token].device
    {
      device := None;
      if token < |credentials| && !credentials[token].revoked && credentials[token].accessExpires > now {
        var id := credentials[token].device;
        if id in devices && !devices[id].revoked && devices[id].owner !in disabled {
          device := Some(id);
        }
      }
    }
  }
}
