/** What the account rules promise over whole runs. */
module AccountGuarantees {
  import opened Basics
  import opened Accounts
  import opened AccountSafety

  // ------------------------------------------------- status and its history

  /** Pending means exactly one active deletion request; no other status has one. */
  lemma PendingHasOneRequest(events: seq<Event>, states: seq<State>, n: nat, u: UserId)
    requires IsRun(events, states) && n < |states| && u in states[n].accounts
    ensures var a := states[n].accounts[u];
            && (a.status.Pending? <==> |ActiveRequests(a)| == 1)
            && (!a.status.Pending? <==> |ActiveRequests(a)| == 0)
  {
    RunKeeps(events, states, n);
    RequestCount(states[n].accounts[u]);
  }

  lemma RequestCount(a: Account)
    requires RequestsOk(a)
    ensures a.status.Pending? <==> |ActiveRequests(a)| == 1
    ensures !a.status.Pending? <==> |ActiveRequests(a)| == 0
  {
    if a.status.Pending? {
      var r: RowId :| IsOnly(r, ActiveRequests(a));
    }
  }

  /** Banned, or locked, means exactly one open restriction of that kind, and then there is no other. */
  lemma RestrictedHasOneRestriction(events: seq<Event>, states: seq<State>, n: nat, u: UserId)
    requires IsRun(events, states) && n < |states| && u in states[n].accounts
    ensures var a := states[n].accounts[u];
            && (a.status.Banned? <==> |OpenOfKind(a, Ban)| == 1) && (!a.status.Banned? <==> |OpenOfKind(a, Ban)| == 0)
            && (a.status.Locked? <==> |OpenOfKind(a, Lock)| == 1) && (!a.status.Locked? <==> |OpenOfKind(a, Lock)| == 0)
  {
    RunKeeps(events, states, n);
    RestrictionCount(states[n].accounts[u]);
  }

  lemma RestrictionCount(a: Account)
    requires RestrictionsOk(a)
    ensures a.status.Banned? <==> |OpenOfKind(a, Ban)| == 1
    ensures !a.status.Banned? <==> |OpenOfKind(a, Ban)| == 0
    ensures a.status.Locked? <==> |OpenOfKind(a, Lock)| == 1
    ensures !a.status.Locked? <==> |OpenOfKind(a, Lock)| == 0
  {
    assert OpenOfKind(a, Ban) + OpenOfKind(a, Lock) == OpenRestrictions(a);
    if a.status.Banned? {
      var r: RowId :| IsOnly(r, OpenRestrictions(a)) && a.restrictions[r].kind.Ban?;
      assert r in OpenRestrictions(a);
      assert OpenOfKind(a, Ban) == {r} && OpenOfKind(a, Lock) == {};
    } else if a.status.Locked? {
      var r: RowId :| IsOnly(r, OpenRestrictions(a)) && a.restrictions[r].kind.Lock?;
      assert r in OpenRestrictions(a);
      assert OpenOfKind(a, Lock) == {r} && OpenOfKind(a, Ban) == {};
    }
  }

  // ------------------------------------------------------ what never changes

  /** An account stays, keeps its master key, and once deleted stays deleted. */
  ghost predicate Endures(a: Account, b: Account) {
    && (a.status.Deleted? ==> b.status.Deleted?)
    && b.passwordWrap.key == a.passwordWrap.key
    && b.recoveryWrap == a.recoveryWrap && b.phrase == a.phrase
  }

  lemma AccountStepEndures(a: Account, e: AccountEvent)
    requires AccountOk(a)
    ensures Endures(a, AccountStep(a, e))
  {
    match e
    case LoginEvent(password, now, key1, key2) => LoginEndures(a, password, now, key1, key2);
    case _ =>
  }

  lemma LoginEndures(a: Account, password: Secret, now: int, key1: SessionKey, key2: SessionKey)
    requires AccountOk(a)
    ensures Endures(a, Login(a, password, now, key1, key2).0)
  {
    PreparePendingOk(a, now, key1);
    var b := PreparePending(a, now, key1).0;
    AssertKeepsSecrets(b, now, key2);
  }

  ghost predicate AllEndure(s: State, t: State) {
    forall u :: u in s.accounts ==> u in t.accounts && Endures(s.accounts[u], t.accounts[u])
  }

  lemma RegisterEndures(s: State, u: UserId, password: Secret, phrase: Secret, master: MasterKey, key: SessionKey, code: CodeRef)
    requires u !in s.accounts
    ensures AllEndure(s, Step(s, Register(u, password, phrase, master, key, code)))
  {
  }

  lemma JobsEndure(a: Account, now: int, key: SessionKey)
    requires AccountOk(a)
    ensures Endures(a, AfterBanJob(a, now, key)) && Endures(a, AfterDeletionJob(a, now, key))
  {
    BanJobOk(a, now, key);
  }

  lemma StepEndures(s: State, e: Event)
    requires AllOk(s) && Possible(s, e)
    ensures AllEndure(s, Step(s, e))
  {
    match e
    case OnAccount(u, ae) =>
      if u in s.accounts {
        AccountStepEndures(s.accounts[u], ae);
      }
    case Register(u, password, phrase, master, key, code) => RegisterEndures(s, u, password, phrase, master, key, code);
    case ExpiredRestrictionsJob(now, keys) =>
      forall u | u in s.accounts
        ensures Endures(s.accounts[u], AfterBanJob(s.accounts[u], now, keys[u]))
      {
        JobsEndure(s.accounts[u], now, keys[u]);
      }
    case DueDeletionsJob(now, keys) =>
      forall u | u in s.accounts
        ensures Endures(s.accounts[u], AfterDeletionJob(s.accounts[u], now, keys[u]))
      {
        JobsEndure(s.accounts[u], now, keys[u]);
      }
    case _ =>
  }

  lemma EndureTwice(s: State, t: State, v: State)
    requires AllEndure(s, t) && AllEndure(t, v)
    ensures AllEndure(s, v)
  {
    forall u | u in s.accounts
      ensures u in v.accounts && Endures(s.accounts[u], v.accounts[u])
    {
      assert Endures(s.accounts[u], t.accounts[u]);
    }
  }

  lemma NextEndures(events: seq<Event>, states: seq<State>, n: nat)
    requires IsRun(events, states) && n < |events|
    ensures AllEndure(states[n], states[n + 1])
  {
    RunKeeps(events, states, n);
    assert Follows(states[n], events[n], states[n + 1]);
    StepEndures(states[n], events[n]);
  }

  lemma {:induction false} EnduranceChain(states: seq<State>, i: nat, j: nat)
    requires i <= j < |states| && forall k :: i <= k < j ==> AllEndure(states[k], states[k + 1])
    ensures AllEndure(states[i], states[j])
  {
    if i < j {
      EnduranceChain(states, i, j - 1);
      assert AllEndure(states[j - 1], states[j - 1 + 1]);
      EndureTwice(states[i], states[j - 1], states[j]);
    }
  }

  lemma RunEndures(events: seq<Event>, states: seq<State>, i: nat, j: nat)
    requires IsRun(events, states) && i <= j < |states|
    ensures AllEndure(states[i], states[j])
  {
    forall k | i <= k < j
      ensures AllEndure(states[k], states[k + 1])
    {
      NextEndures(events, states, k);
    }
    EnduranceChain(states, i, j);
  }

  /** Nothing brings a deleted account back, and nothing of it is left to use. */
  lemma DeletedForEver(events: seq<Event>, states: seq<State>, i: nat, j: nat, u: UserId)
    requires IsRun(events, states) && i <= j < |states| && u in states[i].accounts && states[i].accounts[u].status.Deleted?
    ensures u in states[j].accounts
    ensures var a := states[j].accounts[u];
            && a.status.Deleted? && a.codes == map[] && a.issuedCodes == 0 && a.cached.None?
            && ActiveRequests(a) == {} && OpenRestrictions(a) == {}
            && forall token :: !Authenticated(a, token)
  {
    RunKeeps(events, states, j);
    RunEndures(events, states, i, j);
  }

  /**
   The one master key of an account survives every password change and recovery: it is what the current password
   and the current recovery phrase both open, and what is cached if anything is.
   */
  lemma MasterKeySurvives(events: seq<Event>, states: seq<State>, i: nat, j: nat, u: UserId)
    requires IsRun(events, states) && i <= j < |states| && u in states[i].accounts
    ensures u in states[j].accounts
    ensures var a, b := states[i].accounts[u], states[j].accounts[u];
            && Unwrap(b.passwordWrap, b.password) == Unwrap(a.passwordWrap, a.password)
            && Unwrap(b.recoveryWrap, b.phrase) == Unwrap(a.passwordWrap, a.password)
            && Unwrap(a.passwordWrap, a.password).Some?
            && (b.cached.Some? ==> b.status.Active? && b.cached == Unwrap(a.passwordWrap, a.password))
  {
    RunKeeps(events, states, i);
    RunKeeps(events, states, j);
    RunEndures(events, states, i, j);
    assert MasterKeyOk(states[i].accounts[u]) && MasterKeyOk(states[j].accounts[u]);
  }

  // ---------------------------------------------------------------- the jobs

  /** A row that processExpiredRestrictions lists. */
  predicate ListedBan(s: State, u: UserId, r: RowId, now: int) {
    && u in s.accounts && r in s.accounts[u].restrictions
    && var x := s.accounts[u].restrictions[r];
       !x.resolved && x.kind.Ban? && BanRanOut(x, now)
  }

  /** Every listed row belongs to a banned account, once: reactivateUser never throws in the job. */
  lemma BanJobNeverThrows(events: seq<Event>, states: seq<State>, n: nat, u: UserId, r: RowId, now: int)
    requires IsRun(events, states) && n < |states| && ListedBan(states[n], u, r, now)
    ensures states[n].accounts[u].status.Banned?
    ensures forall x :: ListedBan(states[n], u, x, now) ==> x == r
  {
    RunKeeps(events, states, n);
    OneListedBan(states[n].accounts[u], r);
    forall x | ListedBan(states[n], u, x, now)
      ensures x == r
    {
      OneListedBan(states[n].accounts[u], x);
    }
  }

  lemma OneListedBan(a: Account, r: RowId)
    requires RestrictionsOk(a) && r in OpenOfKind(a, Ban)
    ensures a.status.Banned? && OpenRestrictions(a) == {r}
  {
    assert r in OpenRestrictions(a);
  }

  /** After the job no ban that has run out is left; exactly the accounts that had one are active again. */
  lemma BanJobEffect(events: seq<Event>, states: seq<State>, n: nat, now: int, keys: map<UserId, SessionKey>)
    requires IsRun(events, states) && n < |states| && Possible(states[n], ExpiredRestrictionsJob(now, keys))
    ensures var t := Step(states[n], ExpiredRestrictionsJob(now, keys));
            && (forall u, r :: !ListedBan(t, u, r, now))
            && forall u :: u in states[n].accounts ==>
                 if exists r :: ListedBan(states[n], u, r, now)
                 then t.accounts[u].status.Active? && OpenRestrictions(t.accounts[u]) == {}
                 else t.accounts[u] == states[n].accounts[u]
  {
    var s := states[n];
    var t := Step(s, ExpiredRestrictionsJob(now, keys));
    RunKeeps(events, states, n);
    StepKeeps(s, ExpiredRestrictionsJob(now, keys));
    forall u | u in s.accounts
      ensures BanIsOver(s.accounts[u], now) <==> exists r :: ListedBan(s, u, r, now)
    {
      if BanIsOver(s.accounts[u], now) {
        var r: RowId :| r in s.accounts[u].restrictions && !s.accounts[u].restrictions[r].resolved
                 && s.accounts[u].restrictions[r].kind.Ban? && BanRanOut(s.accounts[u].restrictions[r], now);
        assert ListedBan(s, u, r, now);
      }
    }
    forall u, r
      ensures !ListedBan(t, u, r, now)
    {
      if ListedBan(t, u, r, now) {
        OneListedBan(t.accounts[u], r);
      }
    }
  }

  /** After the deletion job no request is due; exactly the accounts that had a due request are deleted. */
  lemma DeletionJobEffect(events: seq<Event>, states: seq<State>, n: nat, now: int, keys: map<UserId, SessionKey>)
    requires IsRun(events, states) && n < |states| && Possible(states[n], DueDeletionsJob(now, keys))
    ensures var t := Step(states[n], DueDeletionsJob(now, keys));
            forall u :: u in states[n].accounts ==>
              && (forall r :: !DeletionIsDue(t.accounts[u], r, now))
              && if exists r :: DeletionIsDue(states[n].accounts[u], r, now)
                 then states[n].accounts[u].status.Pending? && t.accounts[u].status.Deleted?
                 else t.accounts[u] == states[n].accounts[u]
  {
    RunKeeps(events, states, n);
    forall u | u in states[n].accounts
      ensures JobDeletes(states[n].accounts[u], AfterDeletionJob(states[n].accounts[u], now, keys[u]), now)
    {
      DeletionJobOnAccount(states[n].accounts[u], now, keys[u]);
    }
  }

  ghost predicate JobDeletes(a: Account, b: Account, now: int) {
    && (forall r :: !DeletionIsDue(b, r, now))
    && if exists r :: DeletionIsDue(a, r, now) then a.status.Pending? && b.status.Deleted? else b == a
  }

  lemma DeletionJobOnAccount(a: Account, now: int, key: SessionKey)
    requires AccountOk(a)
    ensures JobDeletes(a, AfterDeletionJob(a, now, key), now)
  {
    DeletionJobOk(a, now, key);
    var due := set r | r in ActiveRequests(a) && DeletionIsDue(a, r, now);
    if due != {} {
      var r :| r in due && First(due) == Some(r);
      DueIsOnly(a, r, now);
    } else {
      forall r
        ensures !DeletionIsDue(a, r, now)
      {
        assert DeletionIsDue(a, r, now) ==> r in due;
      }
    }
  }

  // ------------------------------------------------------------------ login

  /** What a check of the status leaves of an account that it refuses, or lets in. */
  ghost predicate Checked(a: Account, b: Account, now: int, key: SessionKey) {
    match a.status
    case Pending => if exists r :: DeletionIsDue(a, r, now) then b.status.Deleted? else b == a
    case Banned =>
      if BanIsOver(a, now)
      then b.status.Active? && OpenRestrictions(b) == {} && b.sessionKey == key && b.cached.None?
      else b == a
    case _ => b == a
  }

  lemma CheckLeaves(a: Account, now: int, key: SessionKey)
    requires AccountOk(a)
    ensures Checked(a, AssertCanLogin(a, now, key).0, now, key)
  {
    AssertCanLoginOk(a, now, key);
    match a.status
    case Pending => PendingCheckLeaves(a, now, key);
    case Banned => BannedCheckLeaves(a, now, key);
    case _ =>
  }

  lemma PendingCheckLeaves(a: Account, now: int, key: SessionKey)
    requires AccountOk(a) && a.status.Pending?
    ensures Checked(a, AssertCanLogin(a, now, key).0, now, key)
  {
    PreparePendingOk(a, now, key);
    var r: RowId :| IsOnly(r, ActiveRequests(a));
    FirstOfOnly(ActiveRequests(a));
    assert r in ActiveRequests(a);
    assert forall x :: DeletionIsDue(a, x, now) ==> x == r;
    if a.requests[r].deleteAfter <= now {
      assert DeletionIsDue(a, r, now);
    }
  }

  lemma BannedCheckLeaves(a: Account, now: int, key: SessionKey)
    requires AccountOk(a) && a.status.Banned?
    ensures Checked(a, AssertCanLogin(a, now, key).0, now, key)
  {
    var r: RowId :| IsOnly(r, OpenRestrictions(a)) && a.restrictions[r].kind.Ban?;
    BansAreOpen(a);
    FirstOfOnly(OpenOfKind(a, Ban));
    assert r in OpenRestrictions(a);
    BanIsOverThen(a, r, now);
    NothingLeftOpen(a);
  }

  /**
   With the right password, an active account and one whose ban has run out get tokens, a pending one is told of its
   deletion or deleted if that is due, and everybody else is refused.
   */
  lemma LoginOutcome(events: seq<Event>, states: seq<State>, n: nat, u: UserId, password: Secret, now: int,
                     key1: SessionKey, key2: SessionKey)
    requires IsRun(events, states) && n < |states| && u in states[n].accounts
    ensures var a := states[n].accounts[u];
            var (b, result) := Login(a, password, now, key1, key2);
            && (result.Tokens? <==> password == a.password && (a.status.Active? || (a.status.Banned? && BanIsOver(a, now))))
            && (result.Tokens? ==> b.status.Active? && result.session == b.sessionKey && b.cached == Unwrap(a.recoveryWrap, a.phrase))
            && (result.PendingDeletion? <==>
                  password == a.password && a.status.Pending? && forall r :: !DeletionIsDue(a, r, now))
            && (!result.Tokens? ==> b.cached == a.cached || b.cached.None?)
            && (password != a.password ==> b == a)
            && (password == a.password && !result.Tokens? ==> Checked(a, b, now, key1))
            && (result.Tokens? && a.status.Active? ==> b == a.(cached := b.cached))
            && (result.Tokens? && a.status.Banned? ==> OpenRestrictions(b) == {} && b.sessionKey == key2)
  {
    RunKeeps(events, states, n);
    LoginOutcomeOf(states[n].accounts[u], password, now, key1, key2);
  }

  lemma LoginOutcomeOf(a: Account, password: Secret, now: int, key1: SessionKey, key2: SessionKey)
    requires AccountOk(a)
    ensures var (b, result) := Login(a, password, now, key1, key2);
            && (result.Tokens? <==> password == a.password && (a.status.Active? || (a.status.Banned? && BanIsOver(a, now))))
            && (result.Tokens? ==> b.status.Active? && result.session == b.sessionKey && b.cached == Unwrap(a.recoveryWrap, a.phrase))
            && (result.PendingDeletion? <==>
                  password == a.password && a.status.Pending? && forall r :: !DeletionIsDue(a, r, now))
            && (!result.Tokens? ==> b.cached == a.cached || b.cached.None?)
            && (password != a.password ==> b == a)
            && (password == a.password && !result.Tokens? ==> Checked(a, b, now, key1))
            && (result.Tokens? && a.status.Active? ==> b == a.(cached := b.cached))
            && (result.Tokens? && a.status.Banned? ==> OpenRestrictions(b) == {} && b.sessionKey == key2)
  {
    PreparePendingOk(a, now, key1);
    var (b, check) := PreparePending(a, now, key1);
    if check.NotPending? {
      AssertCanLoginOk(b, now, key2);
      AssertKeepsSecrets(b, now, key2);
      CheckLeaves(b, now, key2);
    }
    if a.status.Pending? {
      PendingCheckLeaves(a, now, key1);
      var r: RowId :| IsOnly(r, ActiveRequests(a));
      FirstOfOnly(ActiveRequests(a));
      assert r in ActiveRequests(a);
      assert forall x :: DeletionIsDue(a, x, now) ==> x == r;
      assert check.DeletedNow? ==> DeletionIsDue(a, r, now);
    }
  }

  // ---------------------------------------------------------------- refresh

  /**
   A refresh succeeds for the current session of an active account, and for no other token that was ever handed out. The
   answered tokens then carry the account's new session, which authenticates, and the presented one no longer does. A
   refusal changes nothing, except that it deletes an account whose deletion is due and lifts a ban that has run out.
   */
  lemma RefreshOutcome(events: seq<Event>, states: seq<State>, n: nat, u: UserId, token: SessionKey, now: int,
                       key1: SessionKey, key2: SessionKey)
    requires IsRun(events, states) && n < |states| && u in states[n].accounts
    requires Possible(states[n], OnAccount(u, RefreshEvent(token, now, key1, key2)))
    ensures var a := states[n].accounts[u];
            var (b, result) := Refresh(a, token, now, key1, key2);
            && (token != key1 ==> (result.Tokens? <==> a.status.Active? && token == a.sessionKey))
            && (result.Tokens? ==> result.session == key2 && Authenticated(b, result.session) && !Authenticated(b, token))
            && (result.Tokens? && a.status.Active? ==> b == a.(sessionKey := key2))
            && (!result.Tokens? ==> result.LoginRefused? && Checked(a, b, now, key1))
  {
    var a := states[n].accounts[u];
    RunKeeps(events, states, n);
    RunKeepsKeysUsed(events, states, n);
    CheckLeaves(a, now, key1);
    AssertCanLoginOk(a, now, key1);
  }

  /** Logging out retires the session that it is made with and forgets the cached master key; any other token does nothing. */
  lemma LogoutOutcome(events: seq<Event>, states: seq<State>, n: nat)
    requires IsRun(events, states) && n < |events|
    requires events[n].OnAccount? && events[n].e.LogoutEvent? && events[n].user in states[n].accounts
    ensures var u, token := events[n].user, events[n].e.token;
            var a := states[n].accounts[u];
            u in states[n + 1].accounts
            && var b := states[n + 1].accounts[u];
               if a.status.Active? && token == a.sessionKey
               then Retired(states[n + 1], u, token) && b == a.(sessionKey := events[n].e.key, cached := None)
               else b == a
  {
    RunKeepsKeysUsed(events, states, n);
    assert Follows(states[n], events[n], states[n + 1]);
  }

  // --------------------------------------------------- deletion and invites

  /**
   A deletion is requested with the current password of an active account. Then the account is pending with this one
   request, which is due after seven days and no earlier, its sessions are retired, and the rest is as it was.
   */
  lemma DeletionRequestOutcome(events: seq<Event>, states: seq<State>, n: nat, u: UserId, password: Secret, now: int,
                               key: SessionKey, row: RowId)
    requires IsRun(events, states) && n < |states| && u in states[n].accounts
    requires states[n].accounts[u].status.Active? && row !in states[n].accounts[u].requests
    ensures var a := states[n].accounts[u];
            var (b, result) := RequestDeletion(a, password, now, key, row);
            && (result.Done? <==> password == a.password)
            && (result.Refused? ==> b == a)
            && (result.Done? ==>
                  && b.status.Pending? && ActiveRequests(b) == {row} && b.sessionKey == key && b.cached.None?
                  && (forall t :: DeletionIsDue(b, row, t) <==> now + 7 * 24 * 60 * 60 * 1000 <= t)
                  && b.(status := a.status, sessionKey := a.sessionKey, requests := a.requests, cached := a.cached) == a)
  {
    RunKeeps(events, states, n);
    var a := states[n].accounts[u];
    var b := RequestDeletion(a, password, now, key, row).0;
    if password == a.password {
      assert ActiveRequests(b) == {row};
    }
  }

  /** An active account that has issued fewer than two codes gets one more, for one use; nothing else changes. */
  lemma InviteOutcome(events: seq<Event>, states: seq<State>, n: nat, u: UserId, row: RowId)
    requires IsRun(events, states) && n < |states| && u in states[n].accounts && row !in states[n].accounts[u].codes
    ensures var a := states[n].accounts[u];
            var (b, result) := GenerateInvite(a, row);
            && (result.Done? <==> a.status.Active? && |a.codes| < 2)
            && (result.Refused? ==> b == a)
            && (result.Done? ==>
                  && row in b.codes && b.codes[row].isValid && b.codes[row].usage == 1 && b.codes - {row} == a.codes
                  && b.(codes := a.codes, issuedCodes := a.issuedCodes) == a)
  {
    RunKeeps(events, states, n);
    var a := states[n].accounts[u];
    var b := GenerateInvite(a, row).0;
    if a.status.Active? && |a.codes| < 2 {
      assert b.codes - {row} == a.codes;
    }
  }

  /** Nothing but a change of the password, or a recovery, touches the secrets of an account and the wrapped keys. */
  lemma SecretsStay(events: seq<Event>, states: seq<State>, n: nat, u: UserId)
    requires IsRun(events, states) && n < |events| && u in states[n].accounts
    requires events[n].OnAccount? && events[n].user == u ==> !events[n].e.ChangePasswordEvent? && !events[n].e.RecoverEvent?
    ensures u in states[n + 1].accounts && SameSecrets(states[n].accounts[u], states[n + 1].accounts[u])
  {
    assert Follows(states[n], events[n], states[n + 1]);
    var e := events[n];
    if e.OnAccount? && e.user == u {
      SecretsKept(states[n].accounts[u], e.e);
    }
  }

  lemma SecretsKept(a: Account, e: AccountEvent)
    requires !e.ChangePasswordEvent? && !e.RecoverEvent?
    ensures SameSecrets(a, AccountStep(a, e))
  {
    match e
    case LoginEvent(password, now, key1, key2) =>
      assert SameSecrets(a, PreparePending(a, now, key1).0);
      AssertKeepsSecrets(PreparePending(a, now, key1).0, now, key2);
    case RefreshEvent(_, now, key1, _) => AssertKeepsSecrets(a, now, key1);
    case _ =>
  }

  /** The token that an event on an account is made with, where the access-token guard asks for one. */
  function TokenOf(e: AccountEvent): Option<SessionKey> {
    match e
    case LogoutEvent(token, _) => Some(token)
    case GenerateInviteEvent(token, _) => Some(token)
    case RequestDeletionEvent(token, _, _, _, _) => Some(token)
    case ChangePasswordEvent(token, _, _, _) => Some(token)
    case _ => None
  }

  /** The operation that an event on an account asks for, of those whose outcome is stated here. */
  ghost function Operation(a: Account, e: AccountEvent): Account {
    match e
    case LoginEvent(password, now, key1, key2) => Login(a, password, now, key1, key2).0
    case RefreshEvent(token, now, key1, key2) => Refresh(a, token, now, key1, key2).0
    case LogoutEvent(_, key) => a.(sessionKey := key, cached := None)
    case GenerateInviteEvent(_, row) => GenerateInvite(a, row).0
    case RequestDeletionEvent(_, password, now, key, row) => RequestDeletion(a, password, now, key, row).0
    case ChangePasswordEvent(_, oldPassword, newPassword, key) => ChangePassword(a, oldPassword, newPassword, key).0
    case RecoverEvent(phrase, newPassword, key) => RecoverPassword(a, phrase, newPassword, key).0
    case ReactivateEvent(token, request, now, key) => ReactivateAccount(a, token, request, now, key).0
    case UpdateStatusEvent(change, now, key, row) => UpdateStatus(a, change, now, key, row).0
    case RotateSessionEvent(key) => a.(sessionKey := key, cached := None)
    case DropCachedKeyEvent => a.(cached := None)
  }

  /** An event does what its operation does, unless it asks for the session of an active account and comes without it. */
  lemma NeedsSession(events: seq<Event>, states: seq<State>, n: nat)
    requires IsRun(events, states) && n < |events| && events[n].OnAccount? && events[n].user in states[n].accounts
    ensures var a, u, e := states[n].accounts[events[n].user], events[n].user, events[n].e;
            if TokenOf(e).Some? && (!a.status.Active? || TokenOf(e).value != a.sessionKey)
            then states[n + 1].accounts == states[n].accounts
            else states[n + 1].accounts == states[n].accounts[u := Operation(a, e)]
  {
    assert Follows(states[n], events[n], states[n + 1]);
  }

  /** An event of one account leaves all other accounts and all administrator codes alone. */
  lemma OnlyItsAccount(events: seq<Event>, states: seq<State>, n: nat, v: UserId)
    requires IsRun(events, states) && n < |events| && events[n].OnAccount? && events[n].user != v
    ensures states[n + 1].adminCodes == states[n].adminCodes && states[n + 1].accounts.Keys == states[n].accounts.Keys
    ensures v in states[n].accounts ==> states[n + 1].accounts[v] == states[n].accounts[v]
  {
    assert Follows(states[n], events[n], states[n + 1]);
  }

  // ------------------------------------------------------- other outcomes

  /**
   A reactivation token works exactly for its own session key and, unless the account is active already, for the one
   deletion request that keeps the account pending and is not due; a due one deletes the account instead.
   */
  lemma ReactivationOutcome(events: seq<Event>, states: seq<State>, n: nat, u: UserId, token: SessionKey, request: RowId,
                            now: int, key: SessionKey)
    requires IsRun(events, states) && n < |states| && u in states[n].accounts
    ensures var a := states[n].accounts[u];
            var (b, result) := ReactivateAccount(a, token, request, now, key);
            && (result.Done? <==>
                  token == a.sessionKey
                  && (a.status.Active? || (a.status.Pending? && request in ActiveRequests(a) && !DeletionIsDue(a, request, now))))
            && (result.Done? ==> b.status.Active? && ActiveRequests(b) == {})
            && (result.Done? && a.status.Active? ==> b == a)
            && (result.Done? && a.status.Pending? ==> b.sessionKey == key && b.cached.None? && OpenRestrictions(b) == {})
            && (result.Refused? ==> b == a || (b.status.Deleted? && DeletionIsDue(a, request, now)))
  {
    RunKeeps(events, states, n);
    var a := states[n].accounts[u];
    FirstOfOnly(ActiveRequests(a));
    NothingLeftActive(a);
    NothingLeftOpen(a);
    if a.status.Pending? {
      var r: RowId :| IsOnly(r, ActiveRequests(a));
    }
  }

  /** Knowing the old secret is what it takes; then the new password, and no other, opens the same master key. */
  lemma NewPasswordOutcome(events: seq<Event>, states: seq<State>, n: nat, u: UserId, secret: Secret, newPassword: Secret, key: SessionKey)
    requires IsRun(events, states) && n < |states| && u in states[n].accounts
    ensures var a := states[n].accounts[u];
            var (b, changed) := ChangePassword(a, secret, newPassword, key);
            var (c, recovered) := RecoverPassword(a, secret, newPassword, key);
            && (changed.Done? <==> secret == a.password) && (recovered.Done? <==> secret == a.phrase)
            && (changed.Done? ==> Rewrapped(a, b, newPassword, key) && b.cached.None?)
            && (recovered.Done? ==> Rewrapped(a, c, newPassword, key) && c.cached == a.cached)
            && (changed.Refused? ==> b == a) && (recovered.Refused? ==> c == a)
  {
    RunKeeps(events, states, n);
    assert MasterKeyOk(states[n].accounts[u]);
  }

  ghost predicate Rewrapped(a: Account, b: Account, newPassword: Secret, key: SessionKey) {
    && b.password == newPassword && b.sessionKey == key && b.status == a.status && b.recoveryWrap == a.recoveryWrap
    && forall secret :: Unwrap(b.passwordWrap, secret) == if secret == newPassword then Unwrap(a.passwordWrap, a.password) else None
  }

  /**
   An administrator's change is refused for a deleted account, without a reason, or for a ban without an end;
   otherwise the account gets that status with its one restriction, except that 'pending' changes nothing.
   */
  lemma UpdateStatusOutcome(events: seq<Event>, states: seq<State>, n: nat, u: UserId, change: StatusChange, now: int,
                            key: SessionKey, row: RowId)
    requires IsRun(events, states) && n < |states| && u in states[n].accounts && row !in states[n].accounts[u].restrictions
    ensures var a := states[n].accounts[u];
            var (b, result) := UpdateStatus(a, change, now, key, row);
            && (result.Refused? <==>
                  || (a.status.Deleted? && !change.status.Deleted?)
                  || (!change.hasReason && !change.status.Active? && !change.status.Pending?)
                  || (change.status.Banned? && !change.permanent && change.durationDays == 0))
            && (result.Refused? || change.status.Pending? ==> b == a)
            && (result.Done? && !change.status.Pending? ==> b.status == change.status && b.sessionKey == key && b.cached.None?)
            && (result.Done? && change.status.Banned? ==>
                  OpenRestrictions(b) == {row}
                  && forall t :: BanIsOver(b, t) <==> !change.permanent && now + change.durationDays * MS_PER_DAY <= t)
  {
    RunKeeps(events, states, n);
    var a := states[n].accounts[u];
    if change.status.Banned? && !a.status.Deleted? {
      BanOutcome(a, change, now, key, row);
    }
  }

  lemma BanOutcome(a: Account, change: StatusChange, now: int, key: SessionKey, row: RowId)
    requires AccountOk(a) && row !in a.restrictions && change.status.Banned? && !a.status.Deleted?
    ensures var (b, result) := UpdateStatus(a, change, now, key, row);
            result.Done? ==>
              OpenRestrictions(b) == {row}
              && forall t :: BanIsOver(b, t) <==> !change.permanent && now + change.durationDays * MS_PER_DAY <= t
  {
    UpdateToBannedIs(a, change, now, key, row);
    if change.hasReason && (change.permanent || change.durationDays > 0) {
      var b := Restricted(a, key, row, BanFor(change, now));
      assert OpenRestrictions(b) == {row};
      forall t
        ensures BanIsOver(b, t) <==> !change.permanent && now + change.durationDays * MS_PER_DAY <= t
      {
        BanIsOverThen(b, row, t);
      }
    }
  }

  // ---------------------------------------------------------- session keys

  /** A key of the account that is no longer its current one. */
  ghost predicate Retired(s: State, u: UserId, k: SessionKey) {
    u in s.accounts && k in s.usedKeys && s.accounts[u].sessionKey != k
  }

  lemma SessionKeyOrigin(a: Account, e: AccountEvent)
    ensures AccountStep(a, e).sessionKey == a.sessionKey || AccountStep(a, e).sessionKey in KeysOf(e)
  {
  }

  lemma StepKeepsRetired(s: State, e: Event, u: UserId, k: SessionKey)
    requires Possible(s, e) && Retired(s, u, k)
    ensures Retired(Step(s, e), u, k)
  {
    match e
    case OnAccount(v, ae) =>
      if v in s.accounts {
        SessionKeyOrigin(s.accounts[v], ae);
      }
    case ExpiredRestrictionsJob(now, keys) => assert keys[u] in keys.Values;
    case DueDeletionsJob(now, keys) => assert keys[u] in keys.Values;
    case _ =>
  }

  lemma {:induction false} RetiredForEver(events: seq<Event>, states: seq<State>, i: nat, j: nat, u: UserId, k: SessionKey)
    requires IsRun(events, states) && i <= j < |states| && Retired(states[i], u, k)
    ensures Retired(states[j], u, k) && !Authenticated(states[j].accounts[u], k)
  {
    if i < j {
      RetiredForEver(events, states, i, j - 1, u, k);
      NextKeepsRetired(events, states, j - 1, u, k);
    }
  }

  lemma NextKeepsRetired(events: seq<Event>, states: seq<State>, n: nat, u: UserId, k: SessionKey)
    requires IsRun(events, states) && n < |events| && Retired(states[n], u, k)
    ensures Retired(states[n + 1], u, k)
  {
    assert Follows(states[n], events[n], states[n + 1]);
    StepKeepsRetired(states[n], events[n], u, k);
  }

  /** Event i refreshes the session of account u with the key k and gets new tokens. */
  ghost predicate Refreshes(events: seq<Event>, states: seq<State>, i: nat, u: UserId, k: SessionKey)
    requires i < |events| && i < |states|
  {
    && events[i].OnAccount? && events[i].user == u && u in states[i].accounts
    && events[i].e.RefreshEvent? && events[i].e.token == k
    && Refresh(states[i].accounts[u], k, events[i].e.now, events[i].e.key1, events[i].e.key2).1.Tokens?
  }

  ghost predicate KeysUsed(s: State) {
    forall u :: u in s.accounts ==> s.accounts[u].sessionKey in s.usedKeys
  }

  lemma StepKeepsKeysUsed(s: State, e: Event)
    requires KeysUsed(s) && Possible(s, e)
    ensures KeysUsed(Step(s, e))
  {
    match e
    case OnAccount(v, ae) =>
      if v in s.accounts {
        SessionKeyOrigin(s.accounts[v], ae);
      }
    case _ =>
  }

  lemma {:induction false} RunKeepsKeysUsed(events: seq<Event>, states: seq<State>, n: nat)
    requires IsRun(events, states) && n < |states|
    ensures KeysUsed(states[n])
  {
    if n > 0 {
      RunKeepsKeysUsed(events, states, n - 1);
      assert Follows(states[n - 1], events[n - 1], states[n - 1 + 1]);
      StepKeepsKeysUsed(states[n - 1], events[n - 1]);
    }
  }

  /** A successful refresh retires the key it was made with. */
  lemma RefreshRetires(events: seq<Event>, states: seq<State>, i: nat, u: UserId, k: SessionKey)
    requires IsRun(events, states) && i < |events| && Refreshes(events, states, i, u, k)
    ensures Retired(states[i + 1], u, k)
  {
    RunKeepsKeysUsed(events, states, i);
    assert Follows(states[i], events[i], states[i + 1]);
    RefreshChangesKey(states[i], u, events[i].e);
  }

  lemma RefreshChangesKey(s: State, u: UserId, e: AccountEvent)
    requires KeysUsed(s) && u in s.accounts && e.RefreshEvent? && Possible(s, OnAccount(u, e))
    requires Refresh(s.accounts[u], e.token, e.now, e.key1, e.key2).1.Tokens?
    ensures Retired(Step(s, OnAccount(u, e)), u, e.token)
  {
    SessionKeyOrigin(s.accounts[u], RefreshEvent(e.token, e.now, e.key1, e.key2));
    var b := AssertCanLogin(s.accounts[u], e.now, e.key1).0;
    assert b.sessionKey == s.accounts[u].sessionKey || b.sessionKey == e.key1;
  }

  /** Each session key is consumed by at most one successful refresh, and then never authenticates again. */
  lemma KeyConsumedOnce(events: seq<Event>, states: seq<State>, i: nat, j: nat, u: UserId, k: SessionKey)
    requires IsRun(events, states) && i < |events| && j < |events|
    requires Refreshes(events, states, i, u, k) && Refreshes(events, states, j, u, k)
    ensures i == j
  {
    if i < j {
      RefreshedNoMore(events, states, i, j, u, k);
    } else if j < i {
      RefreshedNoMore(events, states, j, i, u, k);
    }
  }

  lemma RefreshedNoMore(events: seq<Event>, states: seq<State>, i: nat, j: nat, u: UserId, k: SessionKey)
    requires IsRun(events, states) && i < j < |events| && Refreshes(events, states, i, u, k)
    ensures !Refreshes(events, states, j, u, k)
  {
    RefreshRetires(events, states, i, u, k);
    RetiredForEver(events, states, i + 1, j, u, k);
    if Refreshes(events, states, j, u, k) {
      assert Follows(states[j], events[j], states[j + 1]);
      RetiredIsRefused(states[j], u, events[j].e);
    }
  }

  lemma RetiredIsRefused(s: State, u: UserId, e: AccountEvent)
    requires e.RefreshEvent? && Possible(s, OnAccount(u, e)) && Retired(s, u, e.token)
    ensures Refresh(s.accounts[u], e.token, e.now, e.key1, e.key2).1.LoginRefused?
  {
    var b := AssertCanLogin(s.accounts[u], e.now, e.key1).0;
    assert b.sessionKey == s.accounts[u].sessionKey || b.sessionKey == e.key1;
  }
}
