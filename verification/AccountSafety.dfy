/** What every reachable account satisfies, over all interleavings of users, administrators, logins and cron jobs. */
module AccountSafety {
  import opened Basics
  import opened Accounts

  /** A pending account has exactly one active deletion request, any other account has none. */
  ghost predicate RequestsOk(a: Account) {
    if a.status.Pending? then exists r :: IsOnly(r, ActiveRequests(a)) else ActiveRequests(a) == {}
  }

  ghost predicate IsOnly(r: RowId, rows: set<RowId>) {
    rows == {r}
  }

  /** A banned or locked account has exactly one open restriction, of that kind; any other account has none. */
  ghost predicate RestrictionsOk(a: Account) {
    match a.status
    case Banned => exists r :: IsOnly(r, OpenRestrictions(a)) && a.restrictions[r].kind.Ban? && WellFormedBan(a.restrictions[r])
    case Locked => exists r :: IsOnly(r, OpenRestrictions(a)) && a.restrictions[r].kind.Lock?
    case _ => OpenRestrictions(a) == {}
  }

  /** A ban is permanent or has an end, and not both. */
  predicate WellFormedBan(restriction: Restriction) {
    restriction.permanent <==> restriction.expiresAt.None?
  }

  ghost predicate CodeOk(a: Account, c: RowId)
    requires c in a.codes
  {
    && 0 <= a.codes[c].usage <= 1
    && (a.codes[c].usage > 0 ==> (a.codes[c].isValid <==> a.status.Active? || a.status.Pending?))
  }

  ghost predicate CodesOk(a: Account) {
    && a.issuedCodes == |a.codes| <= MAX_INVITE_CODES
    && (a.status.Deleted? ==> a.codes == map[])
    && forall c :: c in a.codes ==> CodeOk(a, c)
  }

  /** Both secrets of the account open the same master key, and a cached one is that key of an active account. */
  ghost predicate MasterKeyOk(a: Account) {
    && Unwrap(a.passwordWrap, a.password).Some? && Unwrap(a.passwordWrap, a.password) == Unwrap(a.recoveryWrap, a.phrase)
    && (a.cached.Some? ==> a.status.Active? && a.cached == Unwrap(a.passwordWrap, a.password))
  }

  ghost predicate AccountOk(a: Account) {
    RequestsOk(a) && RestrictionsOk(a) && CodesOk(a) && MasterKeyOk(a)
  }

  // ------------------------------------------------------- shared transactions

  lemma NothingLeftActive(a: Account)
    ensures forall b: Account :: b.requests == CancelRequests(a.requests) ==> ActiveRequests(b) == {}
  {
  }

  lemma NothingLeftOpen(a: Account)
    ensures forall b: Account :: b.restrictions == ResolveRestrictions(a.restrictions) ==> OpenRestrictions(b) == {}
  {
  }

  lemma ValidityKeepsCodes(codes: map<RowId, InviteCode>, isValid: bool)
    ensures SetValidity(codes, isValid).Keys == codes.Keys && |SetValidity(codes, isValid)| == |codes|
  {
  }

  lemma ReactivatedOk(a: Account, key: SessionKey)
    requires AccountOk(a) && !a.status.Deleted?
    ensures AccountOk(Reactivated(a, key))
  {
    var b := Reactivated(a, key);
    NothingLeftActive(a);
    NothingLeftOpen(a);
    ValidityKeepsCodes(a.codes, true);
    forall c | c in b.codes
      ensures CodeOk(b, c)
    {
      assert CodeOk(a, c);
    }
  }

  lemma ProcessingOne(a: Account, b: Account, r: RowId)
    requires r in a.requests && b.requests == a.requests[r := a.requests[r].(processed := true)]
    ensures ActiveRequests(b) == ActiveRequests(a) - {r}
  {
  }

  /** Without a given request all active ones are cancelled; with one, it has to be the active one. */
  lemma MarkedDeletedOk(a: Account, key: SessionKey, request: Option<RowId>)
    requires AccountOk(a) && (request.Some? ==> IsOnly(request.value, ActiveRequests(a)))
    ensures AccountOk(MarkedDeleted(a, key, request))
  {
    var b := MarkedDeleted(a, key, request);
    NothingLeftOpen(a);
    if request.Some? {
      assert request.value in ActiveRequests(a);
      ProcessingOne(a, b, request.value);
    } else {
      NothingLeftActive(a);
    }
  }

  lemma RestrictedOk(a: Account, key: SessionKey, row: RowId, restriction: Restriction)
    requires AccountOk(a) && !a.status.Deleted? && row !in a.restrictions && !restriction.resolved
    requires restriction.kind.Ban? ==> WellFormedBan(restriction)
    ensures AccountOk(Restricted(a, key, row, restriction))
  {
    var b := Restricted(a, key, row, restriction);
    NothingLeftActive(a);
    ValidityKeepsCodes(a.codes, false);
    assert IsOnly(row, OpenRestrictions(b));
    forall c | c in b.codes
      ensures CodeOk(b, c)
    {
      assert CodeOk(a, c);
    }
  }

  // -------------------------------------------------------- login and refresh

  lemma FirstOfOnly(rows: set<RowId>)
    ensures First(rows).None? <==> rows == {}
    ensures First(rows).Some? ==> First(rows).value in rows
    ensures forall r: RowId :: IsOnly(r, rows) ==> First(rows) == Some(r)
  {
  }

  lemma BansAreOpen(a: Account)
    requires AccountOk(a)
    ensures OpenOfKind(a, Ban) <= OpenRestrictions(a)
    ensures a.status.Banned? ==> OpenOfKind(a, Ban) == OpenRestrictions(a)
  {
  }

  /** The check of a pending account deletes it when its request has run out, and otherwise leaves it pending. */
  lemma PreparePendingOk(a: Account, now: int, key: SessionKey)
    requires AccountOk(a)
    ensures var (b, check) := PreparePending(a, now, key);
            && AccountOk(b)
            && (check.NotPending? ==> b == a && !a.status.Pending?)
            && (check.StillPending? ==> b == a && a.status.Pending? && IsOnly(check.request, ActiveRequests(a))
                                        && !DeletionIsDue(a, check.request, now))
            && (check.DeletedNow? ==> b.status.Deleted? && a.status.Pending?)
  {
    if a.status.Pending? {
      var r :| IsOnly(r, ActiveRequests(a));
      FirstOfOnly(ActiveRequests(a));
      assert r in ActiveRequests(a);
      if a.requests[r].deleteAfter <= now {
        MarkedDeletedOk(a, key, Some(r));
      }
    }
  }

  lemma AssertCanLoginOk(a: Account, now: int, key: SessionKey)
    requires AccountOk(a)
    ensures var (b, ok) := AssertCanLogin(a, now, key);
            AccountOk(b) && (ok ==> b.status.Active?) && (ok <==> a.status.Active? || (a.status.Banned? && BanIsOver(a, now)))
  {
    match a.status
    case Pending => PreparePendingOk(a, now, key);
    case Banned =>
      var r :| IsOnly(r, OpenRestrictions(a)) && a.restrictions[r].kind.Ban? && WellFormedBan(a.restrictions[r]);
      BansAreOpen(a);
      FirstOfOnly(OpenOfKind(a, Ban));
      assert r in OpenRestrictions(a);
      BanIsOverThen(a, r, now);
      ReactivatedOk(a, key);
    case _ =>
  }

  lemma BanIsOverThen(a: Account, r: RowId, now: int)
    requires IsOnly(r, OpenRestrictions(a)) && a.restrictions[r].kind.Ban?
    ensures BanIsOver(a, now) <==> BanRanOut(a.restrictions[r], now)
  {
    assert r in OpenRestrictions(a);
    if BanIsOver(a, now) {
      var x :| x in a.restrictions && !a.restrictions[x].resolved && a.restrictions[x].kind.Ban? && BanRanOut(a.restrictions[x], now);
      assert x in OpenRestrictions(a);
    }
  }

  // --------------------------------------------------------------- the steps

  lemma LoginOk(a: Account, password: Secret, now: int, key1: SessionKey, key2: SessionKey)
    requires AccountOk(a)
    ensures AccountOk(Login(a, password, now, key1, key2).0)
  {
    PreparePendingOk(a, now, key1);
    var (b, check) := PreparePending(a, now, key1);
    if password == a.password && check.NotPending? {
      LoginCheckedOk(b, password, now, key2);
    }
  }

  lemma LoginCheckedOk(a: Account, password: Secret, now: int, key: SessionKey)
    requires AccountOk(a) && password == a.password
    ensures AccountOk(LoginChecked(a, password, now, key).0)
  {
    AssertCanLoginOk(a, now, key);
    AssertKeepsSecrets(a, now, key);
    var (b, ok) := AssertCanLogin(a, now, key);
    if ok {
      CachingOk(b);
    }
  }

  lemma AssertKeepsSecrets(a: Account, now: int, key: SessionKey)
    ensures SameSecrets(a, AssertCanLogin(a, now, key).0)
  {
  }

  /** The stored secrets and wrapped keys are untouched. */
  predicate SameSecrets(a: Account, b: Account) {
    b.password == a.password && b.phrase == a.phrase && b.passwordWrap == a.passwordWrap && b.recoveryWrap == a.recoveryWrap
  }

  lemma CachingOk(a: Account)
    requires AccountOk(a) && a.status.Active?
    ensures AccountOk(a.(cached := Unwrap(a.passwordWrap, a.password)))
  {
    SameRowsOk(a, a.(cached := Unwrap(a.passwordWrap, a.password)));
  }

  /** Requests, restrictions and codes do not look at keys and secrets. */
  lemma SameRowsOk(a: Account, b: Account)
    requires RequestsOk(a) && RestrictionsOk(a) && CodesOk(a)
    requires b.status == a.status && b.requests == a.requests && b.restrictions == a.restrictions && b.codes == a.codes
    requires b.issuedCodes == a.issuedCodes
    ensures RequestsOk(b) && RestrictionsOk(b) && CodesOk(b)
  {
    assert ActiveRequests(b) == ActiveRequests(a);
    assert OpenRestrictions(b) == OpenRestrictions(a);
    forall c | c in b.codes
      ensures CodeOk(b, c)
    {
      assert CodeOk(a, c);
    }
  }

  lemma RefreshOk(a: Account, token: SessionKey, now: int, key1: SessionKey, key2: SessionKey)
    requires AccountOk(a)
    ensures AccountOk(Refresh(a, token, now, key1, key2).0)
  {
    AssertCanLoginOk(a, now, key1);
    var b := AssertCanLogin(a, now, key1).0;
    SameRowsOk(b, b.(sessionKey := key2));
  }

  lemma SameHistoryOk(a: Account, b: Account)
    requires RequestsOk(a) && RestrictionsOk(a)
    requires b.status == a.status && b.requests == a.requests && b.restrictions == a.restrictions
    ensures RequestsOk(b) && RestrictionsOk(b)
  {
    assert ActiveRequests(b) == ActiveRequests(a);
    assert OpenRestrictions(b) == OpenRestrictions(a);
  }

  lemma MoreCodesOk(a: Account, b: Account, row: RowId)
    requires CodesOk(a) && a.status.Active? && a.issuedCodes < MAX_INVITE_CODES && row !in a.codes
    requires b.status == a.status && b.issuedCodes == a.issuedCodes + 1 && b.codes == a.codes[row := InviteCode(1, true)]
    ensures CodesOk(b)
  {
    assert b.codes.Keys == a.codes.Keys + {row};
    forall c | c in b.codes
      ensures CodeOk(b, c)
    {
      assert c in a.codes ==> CodeOk(a, c);
    }
  }

  lemma GenerateInviteOk(a: Account, row: RowId)
    requires AccountOk(a) && row !in a.codes
    ensures AccountOk(GenerateInvite(a, row).0)
  {
    var b := GenerateInvite(a, row).0;
    SameHistoryOk(a, b);
    if a.status.Active? && a.issuedCodes < MAX_INVITE_CODES {
      MoreCodesOk(a, b, row);
    }
  }

  lemma RequestDeletionOk(a: Account, password: Secret, now: int, key: SessionKey, row: RowId)
    requires AccountOk(a) && a.status.Active? && row !in a.requests
    ensures AccountOk(RequestDeletion(a, password, now, key, row).0)
  {
    var b := RequestDeletion(a, password, now, key, row).0;
    if password == a.password {
      assert ActiveRequests(b) == {row};
      assert IsOnly(row, ActiveRequests(b));
      assert OpenRestrictions(b) == OpenRestrictions(a);
      forall c | c in b.codes
        ensures CodeOk(b, c)
      {
        assert CodeOk(a, c);
      }
    }
  }

  lemma ReactivateAccountOk(a: Account, token: SessionKey, request: RowId, now: int, key: SessionKey)
    requires AccountOk(a)
    ensures AccountOk(ReactivateAccount(a, token, request, now, key).0)
  {
    if a.status.Pending? {
      var r :| IsOnly(r, ActiveRequests(a));
      FirstOfOnly(ActiveRequests(a));
      MarkedDeletedOk(a, key, Some(r));
      ReactivatedOk(a, key);
    }
  }

  lemma UpdateStatusOk(a: Account, change: StatusChange, now: int, key: SessionKey, row: RowId)
    requires AccountOk(a) && row !in a.restrictions
    ensures AccountOk(UpdateStatus(a, change, now, key, row).0)
  {
    if !a.status.Deleted? {
      match change.status
      case Active => ReactivatedOk(a, key);
      case Locked => RestrictedOk(a, key, row, Restriction(Lock, false, None, false));
      case Banned => UpdateToBannedOk(a, change, now, key, row);
      case Deleted => MarkedDeletedOk(a, key, None);
      case Pending =>
    } else if change.status.Deleted? {
      MarkedDeletedOk(a, key, None);
    }
  }

  /** The restriction that a ban opens: permanent, or with an end. */
  function BanFor(change: StatusChange, now: int): Restriction {
    Restriction(Ban, change.permanent, if change.permanent then None else Some(now + change.durationDays * MS_PER_DAY), false)
  }

  lemma UpdateToBannedIs(a: Account, change: StatusChange, now: int, key: SessionKey, row: RowId)
    requires change.status.Banned? && !a.status.Deleted?
    ensures UpdateStatus(a, change, now, key, row).0 ==
              if change.hasReason && (change.permanent || change.durationDays > 0) then Restricted(a, key, row, BanFor(change, now)) else a
  {
  }

  lemma UpdateToBannedOk(a: Account, change: StatusChange, now: int, key: SessionKey, row: RowId)
    requires AccountOk(a) && row !in a.restrictions && change.status.Banned? && !a.status.Deleted?
    ensures AccountOk(UpdateStatus(a, change, now, key, row).0)
  {
    UpdateToBannedIs(a, change, now, key, row);
    if change.hasReason && (change.permanent || change.durationDays > 0) {
      RestrictedOk(a, key, row, BanFor(change, now));
    }
  }

  lemma SecretsOk(a: Account, e: AccountEvent)
    requires AccountOk(a) && (e.LogoutEvent? || e.ChangePasswordEvent? || e.RecoverEvent? || e.RotateSessionEvent? || e.DropCachedKeyEvent?)
    ensures AccountOk(AccountStep(a, e))
  {
    SameRowsOk(a, AccountStep(a, e));
  }

  lemma AccountStepOk(a: Account, e: AccountEvent)
    requires AccountOk(a) && NewRow(a, e)
    ensures AccountOk(AccountStep(a, e))
  {
    match e
    case LoginEvent(password, now, key1, key2) => LoginOk(a, password, now, key1, key2);
    case RefreshEvent(token, now, key1, key2) => RefreshOk(a, token, now, key1, key2);
    case GenerateInviteEvent(_, row) => GenerateInviteOk(a, row);
    case RequestDeletionEvent(token, password, now, key, row) =>
      if Authenticated(a, token) {
        RequestDeletionOk(a, password, now, key, row);
      }
    case ReactivateEvent(token, request, now, key) => ReactivateAccountOk(a, token, request, now, key);
    case UpdateStatusEvent(change, now, key, row) => UpdateStatusOk(a, change, now, key, row);
    case _ => SecretsOk(a, e);
  }

  lemma BanJobOk(a: Account, now: int, key: SessionKey)
    requires AccountOk(a)
    ensures AccountOk(AfterBanJob(a, now, key)) && (BanIsOver(a, now) ==> a.status.Banned?)
  {
    if BanIsOver(a, now) {
      var r :| r in a.restrictions && !a.restrictions[r].resolved && a.restrictions[r].kind.Ban? && BanRanOut(a.restrictions[r], now);
      assert r in OpenRestrictions(a);
      ReactivatedOk(a, key);
    }
  }

  /** A due request is the one active request of a pending account. */
  lemma DueIsOnly(a: Account, r: RowId, now: int)
    requires AccountOk(a) && DeletionIsDue(a, r, now)
    ensures a.status.Pending? && IsOnly(r, ActiveRequests(a))
  {
  }

  lemma DeletionJobOk(a: Account, now: int, key: SessionKey)
    requires AccountOk(a)
    ensures AccountOk(AfterDeletionJob(a, now, key))
  {
    var due := set r | r in ActiveRequests(a) && DeletionIsDue(a, r, now);
    if due != {} {
      var r :| r in due && First(due) == Some(r);
      DueIsOnly(a, r, now);
      MarkedDeletedOk(a, key, Some(r));
    }
  }

  lemma RegisteredOk(password: Secret, phrase: Secret, master: MasterKey, key: SessionKey)
    ensures AccountOk(Registered(password, phrase, master, key))
  {
    var a := Registered(password, phrase, master, key);
    assert ActiveRequests(a) == {} && OpenRestrictions(a) == {};
  }

  lemma UsedOk(a: Account, row: RowId)
    requires AccountOk(a) && row in a.codes && Usable(a.codes[row])
    ensures AccountOk(a.(codes := a.codes[row := Used(a.codes[row])]))
  {
    var b := a.(codes := a.codes[row := Used(a.codes[row])]);
    assert ActiveRequests(b) == ActiveRequests(a);
    assert OpenRestrictions(b) == OpenRestrictions(a);
    assert b.codes.Keys == a.codes.Keys;
    forall c | c in b.codes
      ensures CodeOk(b, c)
    {
      assert CodeOk(a, c);
    }
  }

  // -------------------------------------------------------------- whole runs

  ghost predicate AllOk(s: State) {
    forall u :: u in s.accounts ==> AccountOk(s.accounts[u])
  }

  lemma RegisterKeeps(s: State, u: UserId, password: Secret, phrase: Secret, master: MasterKey, key: SessionKey, code: CodeRef)
    requires AllOk(s) && u !in s.accounts
    ensures AllOk(Step(s, Register(u, password, phrase, master, key, code)))
  {
    if CodeUsable(s, code) {
      if code.UserCode? {
        UsedOk(s.accounts[code.owner], code.row);
      }
      RegisteredOk(password, phrase, master, key);
      assert AllOk(UseCode(s, code));
    }
  }

  lemma StepKeeps(s: State, e: Event)
    requires AllOk(s) && Possible(s, e)
    ensures AllOk(Step(s, e))
  {
    match e
    case OnAccount(u, ae) =>
      if u in s.accounts {
        AccountStepOk(s.accounts[u], ae);
      }
    case Register(u, password, phrase, master, key, code) => RegisterKeeps(s, u, password, phrase, master, key, code);
    case ExpiredRestrictionsJob(now, keys) =>
      forall u | u in s.accounts
        ensures AccountOk(AfterBanJob(s.accounts[u], now, keys[u]))
      {
        BanJobOk(s.accounts[u], now, keys[u]);
      }
    case DueDeletionsJob(now, keys) =>
      forall u | u in s.accounts
        ensures AccountOk(AfterDeletionJob(s.accounts[u], now, keys[u]))
      {
        DeletionJobOk(s.accounts[u], now, keys[u]);
      }
    case _ =>
  }

  lemma {:induction false} RunKeeps(events: seq<Event>, states: seq<State>, n: nat)
    requires IsRun(events, states) && n < |states|
    ensures AllOk(states[n])
  {
    if n > 0 {
      RunKeeps(events, states, n - 1);
      NextKeeps(events, states, n - 1);
    }
  }

  lemma NextKeeps(events: seq<Event>, states: seq<State>, n: nat)
    requires IsRun(events, states) && n < |events| && AllOk(states[n])
    ensures AllOk(states[n + 1])
  {
    assert Follows(states[n], events[n], states[n + 1]);
    StepKeeps(states[n], events[n]);
  }
}
