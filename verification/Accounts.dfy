/**
 The life of user accounts: what registration, login, users, administrators and cron jobs do to an account's status,
 deletion requests, restrictions, invite codes, master key and session key. Rows of the relational tables are grouped
 by the account they belong to; each service method is one step.
 */
module Accounts {
  import opened Basics

  type UserId = nat
  type RowId = nat
  type SessionKey = nat
  /** A password or recovery phrase; hashing is modelled as knowing it. */
  type Secret = nat
  type MasterKey = nat

  datatype Status = Active | Banned | Locked | Pending | Deleted
  datatype RestrictionKind = Lock | Ban

  datatype DeletionRequest = DeletionRequest(deleteAfter: int, cancelled: bool, processed: bool)
  datatype Restriction = Restriction(kind: RestrictionKind, permanent: bool, expiresAt: Option<int>, resolved: bool)
  datatype InviteCode = InviteCode(usage: int, isValid: bool)

  /** A master key encrypted under a secret: it opens under that secret only. */
  datatype Wrap = Wrap(secret: Secret, key: MasterKey)

  function Unwrap(w: Wrap, secret: Secret): Option<MasterKey> {
    if secret == w.secret then Some(w.key) else None
  }

  datatype Account = Account(
    status: Status,
    issuedCodes: int,
    sessionKey: SessionKey,
    password: Secret,
    phrase: Secret,
    passwordWrap: Wrap,
    recoveryWrap: Wrap,
    requests: map<RowId, DeletionRequest>,
    restrictions: map<RowId, Restriction>,
    codes: map<RowId, InviteCode>,
    /** The master key cached in Redis. */
    cached: Option<MasterKey>
  )

  const MAX_INVITE_CODES: int := 2
  const DELETION_DELAY: int := 7 * 24 * 60 * 60 * 1000
  const MS_PER_DAY: int := 24 * 60 * 60 * 1000

  // ------------------------------------------------------------- statements

  function ActiveRequests(a: Account): set<RowId> {
    set r | r in a.requests && !a.requests[r].cancelled && !a.requests[r].processed
  }

  function OpenRestrictions(a: Account): set<RowId> {
    set r | r in a.restrictions && !a.restrictions[r].resolved
  }

  function OpenOfKind(a: Account, kind: RestrictionKind): set<RowId> {
    set r | r in a.restrictions && !a.restrictions[r].resolved && a.restrictions[r].kind == kind
  }

  /** findFirst: one of the rows, if there is any. */
  ghost function First(rows: set<RowId>): Option<RowId> {
    if rows == {} then None else var r :| r in rows; Some(r)
  }

  function ResolveRestrictions(restrictions: map<RowId, Restriction>): map<RowId, Restriction> {
    map r | r in restrictions :: restrictions[r].(resolved := true)
  }

  function CancelRequests(requests: map<RowId, DeletionRequest>): map<RowId, DeletionRequest> {
    map r | r in requests ::
      if requests[r].processed then requests[r] else requests[r].(cancelled := true)
  }

  function SetValidity(codes: map<RowId, InviteCode>, isValid: bool): map<RowId, InviteCode> {
    map c | c in codes :: if codes[c].usage > 0 then codes[c].(isValid := isValid) else codes[c]
  }

  // ----------------------------------------------------- shared transactions

  /** reactivateUser, for an account that is not deleted. */
  function Reactivated(a: Account, key: SessionKey): Account {
    a.(status := Active, sessionKey := key, restrictions := ResolveRestrictions(a.restrictions),
       requests := CancelRequests(a.requests), codes := SetValidity(a.codes, true), cached := None)
  }

  /** deleteUserDataAndMarkDeleted, for a deletion request that ran out or by an administrator. */
  function MarkedDeleted(a: Account, key: SessionKey, request: Option<RowId>): Account {
    a.(status := Deleted, issuedCodes := 0, sessionKey := key, codes := map[],
       restrictions := ResolveRestrictions(a.restrictions),
       requests := if request.Some? && request.value in a.requests
                   then a.requests[request.value := a.requests[request.value].(processed := true)]
                   else CancelRequests(a.requests),
       cached := None)
  }

  /** The locking and banning transactions, which open one restriction. */
  function Restricted(a: Account, key: SessionKey, row: RowId, restriction: Restriction): Account {
    a.(status := if restriction.kind.Ban? then Banned else Locked, sessionKey := key,
       restrictions := ResolveRestrictions(a.restrictions)[row := restriction],
       requests := CancelRequests(a.requests), codes := SetValidity(a.codes, false), cached := None)
  }

  function RotatedSession(a: Account, key: SessionKey): Account {
    a.(sessionKey := key, cached := None)
  }

  // -------------------------------------------------------------- the user

  /** The access-token guard: the current session of an active account. */
  predicate Authenticated(a: Account, token: SessionKey) {
    a.sessionKey == token && a.status.Active?
  }

  datatype Result = Done | Refused

  function GenerateInvite(a: Account, row: RowId): (Account, Result) {
    if !a.status.Active? || a.issuedCodes >= MAX_INVITE_CODES then (a, Refused)
    else (a.(codes := a.codes[row := InviteCode(1, true)], issuedCodes := a.issuedCodes + 1), Done)
  }

  function RequestDeletion(a: Account, password: Secret, now: int, key: SessionKey, row: RowId): (Account, Result) {
    if password != a.password || a.status.Deleted? || ActiveRequests(a) != {} then (a, Refused)
    else
      (a.(status := Pending, sessionKey := key,
          requests := a.requests[row := DeletionRequest(now + DELETION_DELAY, false, false)], cached := None), Done)
  }

  /** The register transaction on the new account; `key` is the master key drawn for it. */
  function Registered(password: Secret, phrase: Secret, master: MasterKey, key: SessionKey): Account {
    Account(Active, 0, key, password, phrase, Wrap(password, master), Wrap(phrase, master), map[], map[], map[], Some(master))
  }

  predicate Usable(code: InviteCode) {
    code.isValid && code.usage > 0
  }

  function Used(code: InviteCode): InviteCode {
    code.(usage := code.usage - 1)
  }

  datatype PendingCheck = NotPending | StillPending(request: RowId) | DeletedNow

  /** finalizePendingDeletion */
  function FinalizeDeletion(a: Account, key: SessionKey, request: RowId): Account {
    if a.status.Deleted? then a else MarkedDeleted(a, key, Some(request))
  }

  /** preparePendingDeletionLogin */
  ghost function PreparePending(a: Account, now: int, key: SessionKey): (Account, PendingCheck) {
    if !a.status.Pending? then (a, NotPending)
    else
      match First(ActiveRequests(a))
      case Some(r) =>
        if r in a.requests && a.requests[r].deleteAfter <= now then (FinalizeDeletion(a, key, r), DeletedNow)
        else (a, StillPending(r))
      case None => (Reactivated(a, key), NotPending)
  }

  predicate BanRanOut(restriction: Restriction, now: int) {
    !restriction.permanent && restriction.expiresAt.Some? && restriction.expiresAt.value <= now
  }

  /** assertUserCanLogin: the account after it, and whether it returned. */
  ghost function AssertCanLogin(a: Account, now: int, key: SessionKey): (Account, bool) {
    match a.status
    case Active => (a, true)
    case Deleted => (a, false)
    case Pending =>
      var (b, check) := PreparePending(a, now, key);
      (b, check.NotPending?)
    case Locked => (a, false)
    case Banned =>
      match First(OpenOfKind(a, Ban))
      case Some(r) =>
        if r in a.restrictions && BanRanOut(a.restrictions[r], now) then (Reactivated(a, key), true) else (a, false)
      case None => (a, false)
  }

  datatype LoginResult = LoginRefused | PendingDeletion(request: RowId) | Tokens(session: SessionKey)

  /** login; the two keys are drawn in case the account is put back to active on the way. */
  ghost function Login(a: Account, password: Secret, now: int, key1: SessionKey, key2: SessionKey): (Account, LoginResult) {
    if password != a.password then (a, LoginRefused)
    else
      var (b, check) := PreparePending(a, now, key1);
      match check
      case StillPending(r) => (b, PendingDeletion(r))
      case DeletedNow => (b, LoginRefused)
      case NotPending => LoginChecked(b, password, now, key2)
  }

  /** The second half of login, for an account that is not pending. */
  ghost function LoginChecked(a: Account, password: Secret, now: int, key: SessionKey): (Account, LoginResult) {
    var (b, ok) := AssertCanLogin(a, now, key);
    if !ok then (b, LoginRefused)
    else
      match Unwrap(b.passwordWrap, password)
      case None => (b, LoginRefused)
      case Some(master) => (b.(cached := Some(master)), Tokens(b.sessionKey))
  }

  /** refreshToken; the refresh-token guard only checks the signature. */
  ghost function Refresh(a: Account, token: SessionKey, now: int, key1: SessionKey, key2: SessionKey): (Account, LoginResult) {
    var (b, ok) := AssertCanLogin(a, now, key1);
    if !ok || b.sessionKey != token then (b, LoginRefused) else (b.(sessionKey := key2), Tokens(key2))
  }

  function ChangePassword(a: Account, oldPassword: Secret, newPassword: Secret, key: SessionKey): (Account, Result) {
    if oldPassword != a.password then (a, Refused)
    else
      match Unwrap(a.passwordWrap, oldPassword)
      case None => (a, Refused)
      case Some(master) =>
        (a.(password := newPassword, sessionKey := key, passwordWrap := Wrap(newPassword, master), cached := None), Done)
  }

  /** recoverPassword leaves a cached master key where it is. */
  function RecoverPassword(a: Account, phrase: Secret, newPassword: Secret, key: SessionKey): (Account, Result) {
    if phrase != a.phrase then (a, Refused)
    else
      match Unwrap(a.recoveryWrap, phrase)
      case None => (a, Refused)
      case Some(master) => (a.(password := newPassword, sessionKey := key, passwordWrap := Wrap(newPassword, master)), Done)
  }

  /** reactivateAccount with a token for a session key and a deletion request, then reactivatePendingAccount. */
  ghost function ReactivateAccount(a: Account, token: SessionKey, request: RowId, now: int, key: SessionKey): (Account, Result) {
    if a.sessionKey != token || a.status.Deleted? then (a, Refused)
    else if a.status.Active? then (a, Done)
    else if !a.status.Pending? || First(ActiveRequests(a)) != Some(request) then (a, Refused)
    else if request in a.requests && a.requests[request].deleteAfter <= now then (FinalizeDeletion(a, key, request), Refused)
    else (Reactivated(a, key), Done)
  }

  // ------------------------------------------------------- administrators

  datatype StatusChange = StatusChange(status: Status, hasReason: bool, permanent: bool, durationDays: nat)

  /** updateUserStatus; a change to 'pending' changes nothing. */
  function UpdateStatus(a: Account, change: StatusChange, now: int, key: SessionKey, row: RowId): (Account, Result) {
    if a.status.Deleted? && !change.status.Deleted? then (a, Refused)
    else
      match change.status
      case Active => (Reactivated(a, key), Done)
      case Locked =>
        if !change.hasReason then (a, Refused) else (Restricted(a, key, row, Restriction(Lock, false, None, false)), Done)
      case Banned =>
        if !change.hasReason || (!change.permanent && change.durationDays == 0) then (a, Refused)
        else
          var expiresAt := if change.permanent || change.durationDays == 0 then None else Some(now + change.durationDays * MS_PER_DAY);
          (Restricted(a, key, row, Restriction(Ban, change.permanent, expiresAt, false)), Done)
      case Deleted => if !change.hasReason then (a, Refused) else (MarkedDeleted(a, key, None), Done)
      case Pending => (a, Done)
  }

  // ------------------------------------------------------------------ cron

  predicate BanIsOver(a: Account, now: int) {
    exists r :: r in a.restrictions && !a.restrictions[r].resolved && a.restrictions[r].kind.Ban? && BanRanOut(a.restrictions[r], now)
  }

  predicate DeletionIsDue(a: Account, r: RowId, now: int) {
    r in ActiveRequests(a) && a.requests[r].deleteAfter <= now
  }

  // ------------------------------------------------------- the whole system

  /** An invite code of a user, or one that an administrator made. */
  datatype CodeRef = UserCode(owner: UserId, row: RowId) | AdminCode(row: RowId)

  datatype State = State(
    accounts: map<UserId, Account>,
    adminCodes: map<RowId, InviteCode>,
    /** Every session key drawn so far. */
    usedKeys: set<SessionKey>
  )

  const INITIAL: State := State(map[], map[], {})

  /** What happens to one account. */
  datatype AccountEvent =
    | LoginEvent(password: Secret, now: int, key1: SessionKey, key2: SessionKey)
    | RefreshEvent(token: SessionKey, now: int, key1: SessionKey, key2: SessionKey)
    | LogoutEvent(token: SessionKey, key: SessionKey)
    | GenerateInviteEvent(token: SessionKey, row: RowId)
    | RequestDeletionEvent(token: SessionKey, password: Secret, now: int, key: SessionKey, row: RowId)
    | ChangePasswordEvent(token: SessionKey, oldPassword: Secret, newPassword: Secret, key: SessionKey)
    | RecoverEvent(phrase: Secret, newPassword: Secret, key: SessionKey)
    | ReactivateEvent(token: SessionKey, request: RowId, now: int, key: SessionKey)
    | UpdateStatusEvent(change: StatusChange, now: int, key: SessionKey, row: RowId)
    /** forceLogoutUser and changeUsername */
    | RotateSessionEvent(key: SessionKey)
    /** clearUserData, and the expiry of the cached master key */
    | DropCachedKeyEvent

  ghost function AccountStep(a: Account, e: AccountEvent): Account {
    match e
    case LoginEvent(password, now, key1, key2) => Login(a, password, now, key1, key2).0
    case RefreshEvent(token, now, key1, key2) => Refresh(a, token, now, key1, key2).0
    case LogoutEvent(token, key) => if Authenticated(a, token) then RotatedSession(a, key) else a
    case GenerateInviteEvent(token, row) => if Authenticated(a, token) then GenerateInvite(a, row).0 else a
    case RequestDeletionEvent(token, password, now, key, row) =>
      if Authenticated(a, token) then RequestDeletion(a, password, now, key, row).0 else a
    case ChangePasswordEvent(token, oldPassword, newPassword, key) =>
      if Authenticated(a, token) then ChangePassword(a, oldPassword, newPassword, key).0 else a
    case RecoverEvent(phrase, newPassword, key) => RecoverPassword(a, phrase, newPassword, key).0
    case ReactivateEvent(token, request, now, key) => ReactivateAccount(a, token, request, now, key).0
    case UpdateStatusEvent(change, now, key, row) => UpdateStatus(a, change, now, key, row).0
    case RotateSessionEvent(key) => RotatedSession(a, key)
    case DropCachedKeyEvent => a.(cached := None)
  }

  /** The session keys an event draws. */
  function KeysOf(e: AccountEvent): set<SessionKey> {
    match e
    case LoginEvent(_, _, key1, key2) => {key1, key2}
    case RefreshEvent(_, _, key1, key2) => {key1, key2}
    case LogoutEvent(_, key) => {key}
    case GenerateInviteEvent(_, _) => {}
    case RequestDeletionEvent(_, _, _, key, _) => {key}
    case ChangePasswordEvent(_, _, _, key) => {key}
    case RecoverEvent(_, _, key) => {key}
    case ReactivateEvent(_, _, _, key) => {key}
    case UpdateStatusEvent(_, _, key, _) => {key}
    case RotateSessionEvent(key) => {key}
    case DropCachedKeyEvent => {}
  }

  predicate TwoKeys(e: AccountEvent) {
    match e
    case LoginEvent(_, _, key1, key2) => key1 != key2
    case RefreshEvent(_, _, key1, key2) => key1 != key2
    case _ => true
  }

  /** Rows that an event inserts have new ids. */
  predicate NewRow(a: Account, e: AccountEvent) {
    match e
    case GenerateInviteEvent(_, row) => row !in a.codes
    case RequestDeletionEvent(_, _, _, _, row) => row !in a.requests
    case UpdateStatusEvent(_, _, _, row) => row !in a.restrictions
    case _ => true
  }

  datatype Event =
    | OnAccount(user: UserId, e: AccountEvent)
    | Register(user: UserId, password: Secret, phrase: Secret, master: MasterKey, key: SessionKey, code: CodeRef)
    | ExpiredRestrictionsJob(now: int, keys: map<UserId, SessionKey>)
    | DueDeletionsJob(now: int, keys: map<UserId, SessionKey>)
    | CreateAdminCode(row: RowId, usage: nat, isValid: bool)
    | SetAdminCode(row: RowId, isValid: bool)
    | DeleteAdminCode(row: RowId)

  predicate CodeUsable(s: State, code: CodeRef) {
    match code
    case UserCode(owner, row) => owner in s.accounts && row in s.accounts[owner].codes && Usable(s.accounts[owner].codes[row])
    case AdminCode(row) => row in s.adminCodes && Usable(s.adminCodes[row])
  }

  function UseCode(s: State, code: CodeRef): State
    requires CodeUsable(s, code)
  {
    match code
    case UserCode(owner, row) =>
      var a := s.accounts[owner];
      s.(accounts := s.accounts[owner := a.(codes := a.codes[row := Used(a.codes[row])])])
    case AdminCode(row) => s.(adminCodes := s.adminCodes[row := Used(s.adminCodes[row])])
  }

  /** What processExpiredRestrictions does to one account. */
  function AfterBanJob(a: Account, now: int, key: SessionKey): Account {
    if BanIsOver(a, now) then Reactivated(a, key) else a
  }

  /** What processPendingDeletionRequests does to one account. */
  ghost function AfterDeletionJob(a: Account, now: int, key: SessionKey): Account {
    match First(set r | r in ActiveRequests(a) && DeletionIsDue(a, r, now))
    case Some(r) => FinalizeDeletion(a, key, r)
    case None => a
  }

  ghost function Step(s: State, e: Event): State
    requires e.ExpiredRestrictionsJob? || e.DueDeletionsJob? ==> s.accounts.Keys <= e.keys.Keys
  {
    match e
    case OnAccount(u, ae) =>
      if u in s.accounts then s.(accounts := s.accounts[u := AccountStep(s.accounts[u], ae)], usedKeys := s.usedKeys + KeysOf(ae)) else s
    case Register(u, password, phrase, master, key, code) =>
      if !CodeUsable(s, code) then s
      else
        var t := UseCode(s, code);
        t.(accounts := t.accounts[u := Registered(password, phrase, master, key)], usedKeys := s.usedKeys + {key})
    case ExpiredRestrictionsJob(now, keys) =>
      s.(accounts := map u | u in s.accounts :: AfterBanJob(s.accounts[u], now, keys[u]), usedKeys := s.usedKeys + keys.Values)
    case DueDeletionsJob(now, keys) =>
      s.(accounts := map u | u in s.accounts :: AfterDeletionJob(s.accounts[u], now, keys[u]), usedKeys := s.usedKeys + keys.Values)
    case CreateAdminCode(row, usage, isValid) => s.(adminCodes := s.adminCodes[row := InviteCode(usage, isValid)])
    case SetAdminCode(row, isValid) =>
      if row in s.adminCodes then s.(adminCodes := s.adminCodes[row := s.adminCodes[row].(isValid := isValid)]) else s
    case DeleteAdminCode(row) => s.(adminCodes := s.adminCodes - {row})
  }

  /** Drawn session keys, inserted rows and registered users are new. */
  ghost predicate Possible(s: State, e: Event) {
    match e
    case OnAccount(u, ae) => KeysOf(ae) !! s.usedKeys && TwoKeys(ae) && (u in s.accounts ==> NewRow(s.accounts[u], ae))
    case Register(u, _, _, _, key, _) => u !in s.accounts && key !in s.usedKeys
    case ExpiredRestrictionsJob(_, keys) => s.accounts.Keys <= keys.Keys && keys.Values !! s.usedKeys
    case DueDeletionsJob(_, keys) => s.accounts.Keys <= keys.Keys && keys.Values !! s.usedKeys
    case CreateAdminCode(row, usage, _) => row !in s.adminCodes && usage >= 1
    case _ => true
  }

  ghost predicate Follows(s: State, e: Event, t: State) {
    Possible(s, e) && t == Step(s, e)
  }

  ghost predicate IsRun(events: seq<Event>, states: seq<State>) {
    && |states| == |events| + 1
    && states[0] == INITIAL
    && forall i :: 0 <= i < |events| ==> Follows(states[i], events[i], states[i + 1])
  }
}
