/** The account services as they run: transactions statement by statement, and cron jobs as loops over listed rows. */
module UsersService {
  import opened Basics
  import opened Accounts
  import opened AccountSafety

  class Users {
    var accounts: map<UserId, Account>

    ghost predicate Valid()
      reads this
    {
      forall u :: u in accounts ==> AccountOk(accounts[u])
    }

    constructor ()
      ensures Valid() && accounts == map[]
    {
      accounts := map[];
    }

    // ---------------------------------------------------------- transactions

    /** reactivateUser; false when it throws. What succeeds leaves no request and no restriction, and unused codes valid. */
    method ReactivateUser(u: UserId, key: SessionKey) returns (ok: bool)
      modifies this
      ensures ok <==> u in old(accounts) && !old(accounts)[u].status.Deleted?
      ensures accounts == if ok then old(accounts)[u := Reactivated(old(accounts)[u], key)] else old(accounts)
      ensures ok ==> ActiveRequests(accounts[u]) == {} && OpenRestrictions(accounts[u]) == {}
      ensures ok ==> forall c :: c in accounts[u].codes && accounts[u].codes[c].usage > 0 ==> accounts[u].codes[c].isValid
      ensures old(Valid()) ==> Valid()
    {
      if u in accounts {
        ReactivationOutcome(accounts[u], key);
      }
      if u !in accounts || accounts[u].status.Deleted? {
        return false;
      }
      var a := accounts[u];
      a := a.(restrictions := ResolveRestrictions(a.restrictions));
      a := a.(requests := CancelRequests(a.requests));
      a := a.(status := Active, sessionKey := key);
      a := a.(codes := SetValidity(a.codes, true));
      a := a.(cached := None);
      accounts := accounts[u := a];
      return true;
    }

    /** deleteUserDataAndMarkDeleted for a deletion request, which has to be the one that is active. */
    method DeleteUser(u: UserId, key: SessionKey, request: RowId)
      requires u in accounts && request in accounts[u].requests
      modifies this
      ensures accounts == old(accounts)[u := MarkedDeleted(old(accounts)[u], key, Some(request))]
      ensures OpenRestrictions(accounts[u]) == {} && ActiveRequests(accounts[u]) == ActiveRequests(old(accounts)[u]) - {request}
      ensures old(Valid()) && IsOnly(request, ActiveRequests(old(accounts)[u])) ==> Valid()
    {
      DeletionOutcome(accounts[u], key, request);
      var a := accounts[u];
      a := a.(codes := map[]);
      a := a.(restrictions := ResolveRestrictions(a.restrictions));
      a := a.(requests := a.requests[request := a.requests[request].(processed := true)]);
      a := a.(status := Deleted, issuedCodes := 0, sessionKey := key);
      a := a.(cached := None);
      accounts := accounts[u := a];
    }

    method FinalizePendingDeletion(u: UserId, key: SessionKey, request: RowId)
      requires u in accounts && request in accounts[u].requests
      modifies this
      ensures accounts == old(accounts)[u := FinalizeDeletion(old(accounts)[u], key, request)]
    {
      if accounts[u].status.Deleted? {
        return;
      }
      DeleteUser(u, key, request);
    }

    // ------------------------------------------------------------------ users

    method GenerateInviteCode(u: UserId, row: RowId) returns (result: Result)
      requires Valid() && u in accounts && row !in accounts[u].codes
      modifies this
      ensures Valid()
      ensures accounts == old(accounts)[u := GenerateInvite(old(accounts)[u], row).0]
      ensures result == GenerateInvite(old(accounts)[u], row).1
    {
      GenerateInviteOk(accounts[u], row);
      if !accounts[u].status.Active? {
        return Refused;
      }
      if accounts[u].issuedCodes >= MAX_INVITE_CODES {
        return Refused;
      }
      var a := accounts[u];
      a := a.(codes := a.codes[row := InviteCode(1, true)]);
      a := a.(issuedCodes := a.issuedCodes + 1);
      accounts := accounts[u := a];
      return Done;
    }

    method RequestAccountDeletion(u: UserId, password: Secret, now: int, key: SessionKey, row: RowId) returns (result: Result)
      requires Valid() && u in accounts && accounts[u].status.Active? && row !in accounts[u].requests
      modifies this
      ensures Valid()
      ensures accounts == old(accounts)[u := RequestDeletion(old(accounts)[u], password, now, key, row).0]
      ensures result == RequestDeletion(old(accounts)[u], password, now, key, row).1
    {
      RequestDeletionOk(accounts[u], password, now, key, row);
      var a := accounts[u];
      if password != a.password || a.status.Deleted? || ActiveRequests(a) != {} {
        return Refused;
      }
      a := a.(status := Pending, sessionKey := key);
      a := a.(requests := a.requests[row := DeletionRequest(now + DELETION_DELAY, false, false)]);
      a := a.(cached := None);
      accounts := accounts[u := a];
      return Done;
    }

    method RecoverThePassword(u: UserId, phrase: Secret, newPassword: Secret, key: SessionKey) returns (result: Result)
      requires Valid() && u in accounts
      modifies this
      ensures Valid()
      ensures accounts == old(accounts)[u := RecoverPassword(old(accounts)[u], phrase, newPassword, key).0]
      ensures result == RecoverPassword(old(accounts)[u], phrase, newPassword, key).1
    {
      SecretsOk(accounts[u], RecoverEvent(phrase, newPassword, key));
      var a := accounts[u];
      if phrase != a.phrase {
        return Refused;
      }
      var master := Unwrap(a.recoveryWrap, phrase);
      if master.None? {
        return Refused;
      }
      a := a.(password := newPassword, sessionKey := key, passwordWrap := Wrap(newPassword, master.value));
      accounts := accounts[u := a];
      return Done;
    }

    /** The locking and banning transactions of updateUserStatus: one restriction is open, no request is, and unused codes are void. */
    method Restrict(u: UserId, key: SessionKey, row: RowId, restriction: Restriction)
      requires Valid() && u in accounts && !accounts[u].status.Deleted? && row !in accounts[u].restrictions
      requires !restriction.resolved && (restriction.kind.Ban? ==> WellFormedBan(restriction))
      modifies this
      ensures accounts == old(accounts)[u := Restricted(old(accounts)[u], key, row, restriction)]
      ensures OpenRestrictions(accounts[u]) == {row} && ActiveRequests(accounts[u]) == {}
      ensures forall c :: c in accounts[u].codes && accounts[u].codes[c].usage > 0 ==> !accounts[u].codes[c].isValid
      ensures Valid()
    {
      RestrictionOutcome(accounts[u], key, row, restriction);
      var a := accounts[u];
      a := a.(requests := CancelRequests(a.requests));
      a := a.(restrictions := ResolveRestrictions(a.restrictions));
      a := a.(status := if restriction.kind.Ban? then Banned else Locked, sessionKey := key);
      a := a.(restrictions := a.restrictions[row := restriction]);
      a := a.(codes := SetValidity(a.codes, false));
      a := a.(cached := None);
      accounts := accounts[u := a];
    }

    method PreparePendingDeletionLogin(u: UserId, now: int, key: SessionKey) returns (check: PendingCheck)
      requires Valid() && u in accounts
      modifies this
      ensures Valid()
      ensures accounts == old(accounts)[u := PreparePending(old(accounts)[u], now, key).0]
      ensures check == PreparePending(old(accounts)[u], now, key).1
    {
      ghost var a := accounts[u];
      PreparePendingOk(a, now, key);
      if !accounts[u].status.Pending? {
        return NotPending;
      }
      var active := ActiveRequests(accounts[u]);
      FirstOfOnly(active);
      if active == {} {
        assert false;  // 'Pending deletion request missing during login check' does not occur
      }
      var r: RowId :| r in active;
      assert First(active) == Some(r) by {
        var x: RowId :| IsOnly(x, active);
      }
      if accounts[u].requests[r].deleteAfter <= now {
        FinalizePendingDeletion(u, key, r);
        return DeletedNow;
      }
      return StillPending(r);
    }

    /** False when it throws. */
    method AssertUserCanLogin(u: UserId, now: int, key: SessionKey) returns (ok: bool)
      requires Valid() && u in accounts
      modifies this
      ensures Valid()
      ensures accounts == old(accounts)[u := AssertCanLogin(old(accounts)[u], now, key).0]
      ensures ok == AssertCanLogin(old(accounts)[u], now, key).1
    {
      ghost var a := accounts[u];
      AssertCanLoginOk(a, now, key);
      if accounts[u].status.Active? {
        return true;
      }
      if accounts[u].status.Deleted? || accounts[u].status.Locked? {
        return false;
      }
      if accounts[u].status.Pending? {
        var check := PreparePendingDeletionLogin(u, now, key);
        return check.NotPending?;
      }
      var bans := OpenOfKind(accounts[u], Ban);
      BansAreOpen(a);
      FirstOfOnly(bans);
      if bans == {} {
        return false;
      }
      var r: RowId :| r in bans;
      assert First(bans) == Some(r) by {
        var x: RowId :| IsOnly(x, OpenRestrictions(a));
      }
      if BanRanOut(accounts[u].restrictions[r], now) {
        ok := ReactivateUser(u, key);
      } else {
        ok := false;
      }
    }

    method LogIn(u: UserId, password: Secret, now: int, key1: SessionKey, key2: SessionKey) returns (result: LoginResult)
      requires Valid() && u in accounts
      modifies this
      ensures Valid()
      ensures accounts == old(accounts)[u := Login(old(accounts)[u], password, now, key1, key2).0]
      ensures result == Login(old(accounts)[u], password, now, key1, key2).1
    {
      LoginOk(accounts[u], password, now, key1, key2);
      if password != accounts[u].password {
        return LoginRefused;
      }
      var check := PreparePendingDeletionLogin(u, now, key1);
      if check.StillPending? {
        return PendingDeletion(check.request);
      }
      if check.DeletedNow? {
        return LoginRefused;
      }
      result := FinishLogin(u, password, now, key2);
    }

    method FinishLogin(u: UserId, password: Secret, now: int, key: SessionKey) returns (result: LoginResult)
      requires Valid() && u in accounts && password == accounts[u].password
      modifies this
      ensures Valid()
      ensures accounts == old(accounts)[u := LoginChecked(old(accounts)[u], password, now, key).0]
      ensures result == LoginChecked(old(accounts)[u], password, now, key).1
    {
      LoginCheckedOk(accounts[u], password, now, key);
      var ok := AssertUserCanLogin(u, now, key);
      if !ok {
        return LoginRefused;
      }
      result := CacheMasterKey(u, password);
    }

    /** The master key is unwrapped with the password, cached for the session, and tokens are handed out. */
    method CacheMasterKey(u: UserId, password: Secret) returns (result: LoginResult)
      requires Valid() && u in accounts
      requires var master := Unwrap(accounts[u].passwordWrap, password);
               master.Some? ==> AccountOk(accounts[u].(cached := master))
      modifies this
      ensures Valid()
      ensures var a := old(accounts)[u];
              var master := Unwrap(a.passwordWrap, password);
              && accounts == (if master.Some? then old(accounts)[u := a.(cached := master)] else old(accounts))
              && result == if master.Some? then Tokens(a.sessionKey) else LoginRefused
    {
      var master := Unwrap(accounts[u].passwordWrap, password);
      if master.None? {
        return LoginRefused;
      }
      accounts := accounts[u := accounts[u].(cached := master)];
      return Tokens(accounts[u].sessionKey);
    }

    /** The conditional update decides whether the token was still the current one. */
    method RefreshToken(u: UserId, token: SessionKey, now: int, key1: SessionKey, key2: SessionKey) returns (result: LoginResult)
      requires Valid() && u in accounts
      modifies this
      ensures Valid()
      ensures accounts == old(accounts)[u := Refresh(old(accounts)[u], token, now, key1, key2).0]
      ensures result == Refresh(old(accounts)[u], token, now, key1, key2).1
    {
      var ok := AssertUserCanLogin(u, now, key1);
      if !ok {
        return LoginRefused;
      }
      result := RotateSessionKey(u, token, key2);
    }

    /** The update where the session key is still that of the token, and the tokens for the new key. */
    method RotateSessionKey(u: UserId, token: SessionKey, key: SessionKey) returns (result: LoginResult)
      requires Valid() && u in accounts
      modifies this
      ensures Valid()
      ensures var a := old(accounts)[u];
              && accounts == old(accounts)[u := if a.sessionKey == token then a.(sessionKey := key) else a]
              && result == if a.sessionKey == token then Tokens(key) else LoginRefused
    {
      var a := accounts[u];
      if a.sessionKey != token {
        return LoginRefused;
      }
      SameRowsOk(a, a.(sessionKey := key));
      accounts := accounts[u := a.(sessionKey := key)];
      return Tokens(accounts[u].sessionKey);
    }

    // ------------------------------------------------------------------- jobs

    /** The hourly job over all due deletion requests: each account ends as if it had been looked at alone. */
    method ProcessPendingDeletionRequests(now: int, keys: map<UserId, SessionKey>)
      requires Valid() && accounts.Keys <= keys.Keys
      modifies this
      ensures Valid()
      ensures accounts == map u | u in old(accounts) :: AfterDeletionJob(old(accounts)[u], now, keys[u])
    {
      ghost var before := accounts;
      var rows := ListedDeletions(accounts, now);
      ghost var todo := set u | u in accounts && HasDue(accounts[u], now);
      DueListIsExact(before, now);
      DeletionsStart(before, now, keys);
      while rows != {}
        invariant accounts == DeletionsSoFar(before, now, keys, todo)
        invariant OneRowEach(rows, todo) && RowsAreDue(before, now, rows)
        decreases |rows|
      {
        var row :| row in rows;
        assert (row.0, row.1) in rows;
        FinalizePendingDeletion(row.0, keys[row.0], row.1);
        DeletionsAdvance(before, now, keys, todo, row.0, row.1);
        OneRowLess(rows, todo, row.0, row.1);
        rows := rows - {row};
        todo := todo - {row.0};
      }
      NobodyLeft(rows, todo);
      DeletionsEnd(before, now, keys);
    }

    /** The hourly job over all expired bans: each account ends as if it had been looked at alone, and nothing throws. */
    method ProcessExpiredRestrictions(now: int, keys: map<UserId, SessionKey>)
      requires Valid() && accounts.Keys <= keys.Keys
      modifies this
      ensures Valid()
      ensures accounts == map u | u in old(accounts) :: AfterBanJob(old(accounts)[u], now, keys[u])
    {
      ghost var before := accounts;
      var rows := ListedBans(accounts, now);
      ghost var todo := set u | u in accounts && BanIsOver(accounts[u], now);
      ListIsExact(before, now);
      JobStarts(before, now, keys);
      while rows != {}
        invariant accounts == JobSoFar(before, now, keys, todo)
        invariant AllOver(before, now, todo)
        invariant OneRowEach(rows, todo)
        decreases |rows|
      {
        var row :| row in rows;
        ListedIsOver(before, now, rows, todo, row.0, row.1);
        var ok := ReactivateUser(row.0, keys[row.0]);
        if !ok {
          assert false;  // neither 'User not found' nor 'Deleted users cannot be reactivated' is raised
        }
        OneRowLess(rows, todo, row.0, row.1);
        JobAdvances(before, now, keys, todo, row.0);
        rows := rows - {row};
        todo := todo - {row.0};
      }
      NobodyLeft(rows, todo);
      JobEnds(before, now, keys);
    }
  }

  // ---------------------------------------------------------- transactions

  lemma ReactivationOutcome(a: Account, key: SessionKey)
    ensures var b := Reactivated(a, key);
            && ActiveRequests(b) == {} && OpenRestrictions(b) == {}
            && (forall c :: c in b.codes && b.codes[c].usage > 0 ==> b.codes[c].isValid)
            && (AccountOk(a) && !a.status.Deleted? ==> AccountOk(b))
  {
    NothingLeftActive(a);
    NothingLeftOpen(a);
    if AccountOk(a) && !a.status.Deleted? {
      ReactivatedOk(a, key);
    }
  }

  lemma DeletionOutcome(a: Account, key: SessionKey, request: RowId)
    requires request in a.requests
    ensures var b := MarkedDeleted(a, key, Some(request));
            && OpenRestrictions(b) == {} && ActiveRequests(b) == ActiveRequests(a) - {request}
            && (AccountOk(a) && IsOnly(request, ActiveRequests(a)) ==> AccountOk(b))
  {
    NothingLeftOpen(a);
    ProcessingOne(a, MarkedDeleted(a, key, Some(request)), request);
    if AccountOk(a) && IsOnly(request, ActiveRequests(a)) {
      MarkedDeletedOk(a, key, Some(request));
    }
  }

  lemma RestrictionOutcome(a: Account, key: SessionKey, row: RowId, restriction: Restriction)
    requires AccountOk(a) && !a.status.Deleted? && row !in a.restrictions
    requires !restriction.resolved && (restriction.kind.Ban? ==> WellFormedBan(restriction))
    ensures var b := Restricted(a, key, row, restriction);
            && OpenRestrictions(b) == {row} && ActiveRequests(b) == {}
            && (forall c :: c in b.codes && b.codes[c].usage > 0 ==> !b.codes[c].isValid)
            && AccountOk(b)
  {
    NothingLeftActive(a);
    RestrictedOk(a, key, row, restriction);
  }

  // ------------------------------------------------------ due deletions job

  /** The rows that processPendingDeletionRequests lists. */
  function ListedDeletions(accounts: map<UserId, Account>, now: int): set<(UserId, RowId)> {
    set u, r | u in accounts && r in ActiveRequests(accounts[u]) && accounts[u].requests[r].deleteAfter <= now :: (u, r)
  }

  ghost predicate HasDue(a: Account, now: int) {
    exists r: RowId :: DeletionIsDue(a, r, now)
  }

  ghost function DeletionsSoFar(before: map<UserId, Account>, now: int, keys: map<UserId, SessionKey>, todo: set<UserId>): map<UserId, Account>
    requires before.Keys <= keys.Keys
  {
    map u | u in before :: if u in todo then before[u] else AfterDeletionJob(before[u], now, keys[u])
  }

  ghost predicate RowsAreDue(before: map<UserId, Account>, now: int, rows: set<(UserId, RowId)>) {
    forall u, r :: (u, r) in rows ==> u in before && DeletionIsDue(before[u], r, now)
  }

  lemma DueListIsExact(accounts: map<UserId, Account>, now: int)
    requires forall u :: u in accounts ==> AccountOk(accounts[u])
    ensures OneRowEach(ListedDeletions(accounts, now), set u | u in accounts && HasDue(accounts[u], now))
    ensures RowsAreDue(accounts, now, ListedDeletions(accounts, now))
  {
    var rows := ListedDeletions(accounts, now);
    forall u | u in accounts && HasDue(accounts[u], now)
      ensures exists r :: (u, r) in rows
    {
      var r: RowId :| DeletionIsDue(accounts[u], r, now);
      assert (u, r) in rows;
    }
    forall u, r | (u, r) in rows
      ensures DeletionIsDue(accounts[u], r, now)
    {
    }
    forall u, r, x | (u, r) in rows && (u, x) in rows
      ensures x == r
    {
      DueIsOnly(accounts[u], r, now);
      assert x in ActiveRequests(accounts[u]);
    }
  }

  lemma AfterDueDeletion(a: Account, r: RowId, now: int, key: SessionKey)
    requires AccountOk(a) && DeletionIsDue(a, r, now)
    ensures AfterDeletionJob(a, now, key) == FinalizeDeletion(a, key, r)
  {
    DueIsOnly(a, r, now);
    var due := set x | x in ActiveRequests(a) && DeletionIsDue(a, x, now);
    assert due == {r};
  }

  lemma DeletionsStart(before: map<UserId, Account>, now: int, keys: map<UserId, SessionKey>)
    requires before.Keys <= keys.Keys
    ensures DeletionsSoFar(before, now, keys, set u | u in before && HasDue(before[u], now)) == before
  {
    forall u | u in before && !HasDue(before[u], now)
      ensures AfterDeletionJob(before[u], now, keys[u]) == before[u]
    {
      var due := set r | r in ActiveRequests(before[u]) && DeletionIsDue(before[u], r, now);
      assert due == {};
    }
  }

  lemma DeletionsAdvance(before: map<UserId, Account>, now: int, keys: map<UserId, SessionKey>, todo: set<UserId>, u: UserId, r: RowId)
    requires before.Keys <= keys.Keys && u in todo && u in before && AccountOk(before[u]) && DeletionIsDue(before[u], r, now)
    ensures DeletionsSoFar(before, now, keys, todo)[u := FinalizeDeletion(before[u], keys[u], r)] == DeletionsSoFar(before, now, keys, todo - {u})
  {
    AfterDueDeletion(before[u], r, now, keys[u]);
  }

  lemma DeletionsEnd(before: map<UserId, Account>, now: int, keys: map<UserId, SessionKey>)
    requires before.Keys <= keys.Keys && forall u :: u in before ==> AccountOk(before[u])
    ensures var after := DeletionsSoFar(before, now, keys, {});
            && after == (map u | u in before :: AfterDeletionJob(before[u], now, keys[u]))
            && forall u :: u in after ==> AccountOk(after[u])
  {
    forall u | u in before
      ensures AccountOk(AfterDeletionJob(before[u], now, keys[u]))
    {
      DeletionJobOk(before[u], now, keys[u]);
    }
  }

  // ------------------------------------------------------- expired bans job

  /** The rows that processExpiredRestrictions lists. */
  function ListedBans(accounts: map<UserId, Account>, now: int): set<(UserId, RowId)> {
    set u, r | u in accounts && r in OpenOfKind(accounts[u], Ban) && BanRanOut(accounts[u].restrictions[r], now) :: (u, r)
  }

  /** The accounts while the job has still to do those of `todo`. */
  ghost function JobSoFar(before: map<UserId, Account>, now: int, keys: map<UserId, SessionKey>, todo: set<UserId>): map<UserId, Account>
    requires before.Keys <= keys.Keys
  {
    map u | u in before :: if u in todo then before[u] else AfterBanJob(before[u], now, keys[u])
  }

  ghost predicate OneRowEach(rows: set<(UserId, RowId)>, users: set<UserId>) {
    && (forall u :: u in users ==> exists r :: (u, r) in rows)
    && (forall u, r :: (u, r) in rows ==> u in users)
    && (forall u, r, x :: (u, r) in rows && (u, x) in rows ==> x == r)
  }

  /** The list names each account with an expired ban once, and no other; none of them is deleted. */
  lemma ListIsExact(accounts: map<UserId, Account>, now: int)
    requires forall u :: u in accounts ==> AccountOk(accounts[u])
    ensures OneRowEach(ListedBans(accounts, now), set u | u in accounts && BanIsOver(accounts[u], now))
    ensures forall u :: u in accounts && BanIsOver(accounts[u], now) ==> !accounts[u].status.Deleted?
  {
    var rows := ListedBans(accounts, now);
    forall u | u in accounts && BanIsOver(accounts[u], now)
      ensures !accounts[u].status.Deleted? && exists r :: (u, r) in rows
    {
      var r := OverMeansOpen(accounts[u], now);
      assert (u, r) in rows;
      OpenMeansOver(accounts[u], r, now);
    }
    forall u, r | (u, r) in rows
      ensures BanIsOver(accounts[u], now) && OpenRestrictions(accounts[u]) == {r}
    {
      OpenMeansOver(accounts[u], r, now);
    }
    forall u, r, x | (u, r) in rows && (u, x) in rows
      ensures x == r
    {
      assert OpenRestrictions(accounts[u]) == {r} && OpenRestrictions(accounts[u]) == {x};
    }
  }

  lemma OpenMeansOver(a: Account, r: RowId, now: int)
    requires AccountOk(a) && r in OpenOfKind(a, Ban) && BanRanOut(a.restrictions[r], now)
    ensures BanIsOver(a, now) && a.status.Banned? && OpenRestrictions(a) == {r}
  {
    assert r in OpenRestrictions(a);
  }

  lemma OverMeansOpen(a: Account, now: int) returns (r: RowId)
    requires BanIsOver(a, now)
    ensures r in OpenOfKind(a, Ban) && BanRanOut(a.restrictions[r], now)
  {
    r :| r in a.restrictions && !a.restrictions[r].resolved && a.restrictions[r].kind.Ban? && BanRanOut(a.restrictions[r], now);
  }

  lemma OneRowLess(rows: set<(UserId, RowId)>, users: set<UserId>, u: UserId, r: RowId)
    requires OneRowEach(rows, users) && (u, r) in rows
    ensures OneRowEach(rows - {(u, r)}, users - {u})
  {
    forall v | v in users - {u}
      ensures exists x :: (v, x) in rows - {(u, r)}
    {
      var x :| (v, x) in rows;
      assert (v, x) in rows - {(u, r)};
    }
  }

  lemma NobodyLeft(rows: set<(UserId, RowId)>, users: set<UserId>)
    requires OneRowEach(rows, users)
    ensures rows == {} ==> users == {}
  {
    if users != {} {
      var u :| u in users;
      var r: RowId :| (u, r) in rows;
    }
  }

  ghost predicate AllOver(before: map<UserId, Account>, now: int, todo: set<UserId>) {
    todo <= before.Keys && forall u :: u in todo ==> BanIsOver(before[u], now) && !before[u].status.Deleted?
  }

  lemma ListedIsOver(before: map<UserId, Account>, now: int, rows: set<(UserId, RowId)>, todo: set<UserId>, u: UserId, r: RowId)
    requires AllOver(before, now, todo) && OneRowEach(rows, todo) && (u, r) in rows
    ensures u in todo && u in before && BanIsOver(before[u], now) && !before[u].status.Deleted?
  {
  }

  lemma JobEnds(before: map<UserId, Account>, now: int, keys: map<UserId, SessionKey>)
    requires before.Keys <= keys.Keys && forall u :: u in before ==> AccountOk(before[u])
    ensures var after := JobSoFar(before, now, keys, {});
            && after == (map u | u in before :: AfterBanJob(before[u], now, keys[u]))
            && forall u :: u in after ==> AccountOk(after[u])
  {
    forall u | u in before
      ensures AccountOk(AfterBanJob(before[u], now, keys[u]))
    {
      BanJobOk(before[u], now, keys[u]);
    }
  }

  lemma JobStarts(before: map<UserId, Account>, now: int, keys: map<UserId, SessionKey>)
    requires before.Keys <= keys.Keys
    ensures JobSoFar(before, now, keys, set u | u in before && BanIsOver(before[u], now)) == before
  {
  }

  lemma JobAdvances(before: map<UserId, Account>, now: int, keys: map<UserId, SessionKey>, todo: set<UserId>, u: UserId)
    requires before.Keys <= keys.Keys && u in todo && u in before && BanIsOver(before[u], now)
    ensures JobSoFar(before, now, keys, todo)[u := Reactivated(before[u], keys[u])] == JobSoFar(before, now, keys, todo - {u})
  {
  }
}
