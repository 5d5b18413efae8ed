/** Registration and the codes it needs: who gets an account, what that costs, and how often one code can be used. */
module InviteCodes {
  import opened Basics
  import opened Accounts
  import opened AccountSafety
  import opened AccountGuarantees

  /** The code that a text names, if there is one. */
  function CodeAt(s: State, code: CodeRef): Option<InviteCode> {
    match code
    case UserCode(owner, row) =>
      if owner in s.accounts && row in s.accounts[owner].codes then Some(s.accounts[owner].codes[row]) else None
    case AdminCode(row) => if row in s.adminCodes then Some(s.adminCodes[row]) else None
  }

  /** Account b is account a up to its codes. */
  predicate SameButCodes(a: Account, b: Account) {
    b.(codes := a.codes) == a
  }

  lemma FollowsAt(events: seq<Event>, states: seq<State>, n: nat)
    requires IsRun(events, states) && n < |events|
    ensures Follows(states[n], events[n], states[n + 1])
  {
  }

  /** What a registration with a code that works leaves: one use less of that code, a new account, and nothing else. */
  ghost predicate RegistersWith(s: State, t: State, e: Event, code: InviteCode)
    requires e.Register?
  {
    && CodeAt(t, e.code) == Some(InviteCode(code.usage - 1, code.isValid))
    && (forall other :: other != e.code ==> CodeAt(t, other) == CodeAt(s, other))
    && t.accounts.Keys == s.accounts.Keys + {e.user}
    && (forall v :: v in s.accounts ==> SameButCodes(s.accounts[v], t.accounts[v]))
    && var a := t.accounts[e.user];
       && a.status.Active? && a.sessionKey == e.key && a.issuedCodes == 0
       && a.codes == map[] && a.requests == map[] && a.restrictions == map[]
       && a.password == e.password && a.phrase == e.phrase
       && Unwrap(a.passwordWrap, e.password) == Some(e.master) && Unwrap(a.recoveryWrap, e.phrase) == Some(e.master)
       && a.cached == Some(e.master)
  }

  /**
   A registration makes an account if and only if its code exists, is valid and has a use left. Then that code has one
   use less, and every other code and account is as before; otherwise nothing happens.
   */
  lemma RegisterOutcome(events: seq<Event>, states: seq<State>, n: nat)
    requires IsRun(events, states) && n < |events| && events[n].Register?
    ensures var s, t, e := states[n], states[n + 1], events[n];
            var code := CodeAt(s, e.code);
            && (e.user in t.accounts <==> code.Some? && code.value.isValid && code.value.usage > 0)
            && if e.user in t.accounts then code.Some? && RegistersWith(s, t, e, code.value) else t == s
  {
    FollowsAt(events, states, n);
    RegisterStep(states[n], events[n]);
  }

  lemma RegisterStep(s: State, e: Event)
    requires e.Register? && e.user !in s.accounts
    ensures var t := Step(s, e);
            var code := CodeAt(s, e.code);
            && (e.user in t.accounts <==> code.Some? && code.value.isValid && code.value.usage > 0)
            && if e.user in t.accounts then code.Some? && RegistersWith(s, t, e, code.value) else t == s
  {
    var t := Step(s, e);
    if CodeUsable(s, e.code) {
      forall other | other != e.code
        ensures CodeAt(t, other) == CodeAt(s, other)
      {
      }
    }
  }

  /** Administrators make codes, switch them and delete them; the uses of a code and all other codes and accounts stay. */
  lemma AdminCodeOutcome(events: seq<Event>, states: seq<State>, n: nat)
    requires IsRun(events, states) && n < |events|
    ensures var s, t, e := states[n], states[n + 1], events[n];
            && (e.CreateAdminCode? || e.SetAdminCode? || e.DeleteAdminCode? ==>
                  t.accounts == s.accounts && t.adminCodes - {e.row} == s.adminCodes - {e.row})
            && (e.CreateAdminCode? ==> CodeAt(t, AdminCode(e.row)) == Some(InviteCode(e.usage, e.isValid)))
            && (e.SetAdminCode? ==>
                  CodeAt(t, AdminCode(e.row)) == if e.row in s.adminCodes then Some(InviteCode(s.adminCodes[e.row].usage, e.isValid)) else None)
            && (e.DeleteAdminCode? ==> CodeAt(t, AdminCode(e.row)).None?)
            && (e.OnAccount? || e.ExpiredRestrictionsJob? || e.DueDeletionsJob? ==> t.adminCodes == s.adminCodes)
  {
    FollowsAt(events, states, n);
  }

  // ------------------------------------------------------- the life of codes

  /**
   What one step of an account does to a code: the uses it has left stay, it goes only with the account, and a new one
   comes with one use, to an account that is not deleted.
   */
  ghost predicate CodeLife(a: Account, b: Account, row: RowId) {
    && (row in a.codes && row in b.codes ==> b.codes[row].usage == a.codes[row].usage)
    && (row in a.codes && row !in b.codes ==> b.status.Deleted?)
    && (row !in a.codes && row in b.codes ==> !a.status.Deleted? && b.codes[row].usage == 1)
    && (a.status.Deleted? ==> b.status.Deleted?)
  }

  /** No code came, and none changed its uses. */
  predicate NoNewCode(a: Account, b: Account, row: RowId) {
    row in b.codes ==> row in a.codes && b.codes[row].usage == a.codes[row].usage
  }

  lemma CheckLife(a: Account, now: int, key: SessionKey, row: RowId)
    requires AccountOk(a)
    ensures NoNewCode(a, AssertCanLogin(a, now, key).0, row) && NoNewCode(a, PreparePending(a, now, key).0, row)
    ensures CodeLife(a, AssertCanLogin(a, now, key).0, row) && CodeLife(a, PreparePending(a, now, key).0, row)
  {
  }

  lemma LoginLife(a: Account, password: Secret, now: int, key1: SessionKey, key2: SessionKey, row: RowId)
    requires AccountOk(a)
    ensures CodeLife(a, Login(a, password, now, key1, key2).0, row)
  {
    PreparePendingOk(a, now, key1);
    CheckLife(a, now, key1, row);
    CheckLife(PreparePending(a, now, key1).0, now, key2, row);
  }

  lemma AccountStepLife(a: Account, e: AccountEvent, row: RowId)
    requires AccountOk(a) && NewRow(a, e)
    ensures CodeLife(a, AccountStep(a, e), row)
  {
    match e
    case LoginEvent(password, now, key1, key2) => LoginLife(a, password, now, key1, key2, row);
    case RefreshEvent(_, now, key1, _) => CheckLife(a, now, key1, row);
    case _ =>
  }

  lemma JobsLife(a: Account, now: int, key: SessionKey, row: RowId)
    requires AccountOk(a)
    ensures CodeLife(a, AfterBanJob(a, now, key), row) && CodeLife(a, AfterDeletionJob(a, now, key), row)
  {
    BanJobOk(a, now, key);
  }

  predicate IsDeleted(s: State, u: UserId) {
    u in s.accounts && s.accounts[u].status.Deleted?
  }

  /** The event makes an account with the code. */
  ghost predicate Consumes(s: State, e: Event, t: State, code: CodeRef) {
    e.Register? && e.code == code && e.user !in s.accounts && e.user in t.accounts
  }

  /** One step of the whole system: a code loses a use exactly by a registration with it. */
  ghost predicate CodeCourse(s: State, e: Event, t: State, code: CodeRef) {
    var before, after := CodeAt(s, code), CodeAt(t, code);
    var uses := if Consumes(s, e, t, code) then 1 else 0;
    && (before.Some? && after.Some? ==> after.value.usage == before.value.usage - uses)
    && (before.Some? && before.value.usage >= 0 && after.Some? ==> after.value.usage >= 0)
    && (before.None? || after.None? ==> uses == 0)
    && (before.None? && after.Some? ==> after.value.usage >= 1)
    && (code.UserCode? ==>
          && (before.None? && after.Some? ==> after.value.usage == 1 && !IsDeleted(s, code.owner))
          && (before.Some? && after.None? ==> IsDeleted(t, code.owner))
          && (IsDeleted(s, code.owner) ==> IsDeleted(t, code.owner)))
  }

  lemma RegisterCourse(s: State, e: Event, code: CodeRef)
    requires e.Register? && Possible(s, e)
    ensures CodeCourse(s, e, Step(s, e), code)
  {
    RegisterStep(s, e);
  }

  lemma AccountCourse(s: State, e: Event, code: CodeRef)
    requires AllOk(s) && Possible(s, e) && (e.OnAccount? || e.ExpiredRestrictionsJob? || e.DueDeletionsJob?)
    ensures CodeCourse(s, e, Step(s, e), code)
  {
    if code.UserCode? && code.owner in s.accounts {
      var a := s.accounts[code.owner];
      match e
      case OnAccount(u, ae) =>
        if u == code.owner {
          AccountStepLife(a, ae, code.row);
        }
      case ExpiredRestrictionsJob(now, keys) => JobsLife(a, now, keys[code.owner], code.row);
      case DueDeletionsJob(now, keys) => JobsLife(a, now, keys[code.owner], code.row);
    }
  }

  lemma StepCourse(s: State, e: Event, code: CodeRef)
    requires AllOk(s) && Possible(s, e)
    ensures CodeCourse(s, e, Step(s, e), code)
  {
    match e
    case OnAccount(_, _) => AccountCourse(s, e, code);
    case Register(_, _, _, _, _, _) => RegisterCourse(s, e, code);
    case ExpiredRestrictionsJob(_, _) => AccountCourse(s, e, code);
    case DueDeletionsJob(_, _) => AccountCourse(s, e, code);
    case _ =>
  }

  lemma NextCourse(events: seq<Event>, states: seq<State>, n: nat, code: CodeRef)
    requires IsRun(events, states) && n < |events|
    ensures CodeCourse(states[n], events[n], states[n + 1], code)
  {
    RunKeeps(events, states, n);
    FollowsAt(events, states, n);
    StepCourse(states[n], events[n], code);
  }

  // --------------------------------------------------------- uses over a run

  /** How many accounts the events from i on and before j make with the code. */
  ghost function Made(events: seq<Event>, states: seq<State>, i: nat, j: nat, code: CodeRef): nat
    requires |states| == |events| + 1 && i <= j <= |events|
  {
    if i == j then 0
    else Made(events, states, i, j - 1, code) + if Consumes(states[j - 1], events[j - 1], states[j], code) then 1 else 0
  }

  /** No use of a code is ever without effect, and none comes back: the accounts made with it are the uses it has lost. */
  lemma {:induction false} UsesAreAccounts(events: seq<Event>, states: seq<State>, i: nat, j: nat, code: CodeRef)
    requires IsRun(events, states) && i <= j < |states| && forall k :: i <= k <= j ==> CodeAt(states[k], code).Some?
    ensures Made(events, states, i, j, code) == CodeAt(states[i], code).value.usage - CodeAt(states[j], code).value.usage
  {
    if i < j {
      UsesAreAccounts(events, states, i, j - 1, code);
      NextCourse(events, states, j - 1, code);
    }
  }

  lemma {:induction false} UsageNotNegative(events: seq<Event>, states: seq<State>, n: nat, code: CodeRef)
    requires IsRun(events, states) && n < |states| && CodeAt(states[n], code).Some?
    ensures CodeAt(states[n], code).value.usage >= 0
  {
    if n > 0 {
      NextCourse(events, states, n - 1, code);
      if CodeAt(states[n - 1], code).Some? {
        UsageNotNegative(events, states, n - 1, code);
      }
    }
  }

  /**
   A code that an administrator made is never overused, however often it is switched off and on, until it is deleted: it
   makes at most as many accounts as it has uses, and has that many fewer uses left.
   */
  lemma AdminCodesAreConserved(events: seq<Event>, states: seq<State>, i: nat, j: nat, row: RowId)
    requires IsRun(events, states) && i <= j < |states| && forall k :: i <= k <= j ==> row in states[k].adminCodes
    ensures Made(events, states, i, j, AdminCode(row)) == states[i].adminCodes[row].usage - states[j].adminCodes[row].usage
    ensures Made(events, states, i, j, AdminCode(row)) <= states[i].adminCodes[row].usage
  {
    forall k | i <= k <= j
      ensures CodeAt(states[k], AdminCode(row)) == Some(states[k].adminCodes[row])
    {
      assert row in states[k].adminCodes;
    }
    UsesAreAccounts(events, states, i, j, AdminCode(row));
    UsageNotNegative(events, states, j, AdminCode(row));
  }

  /** What is left of a user's code and what was made with it: one in all, nothing before it exists. */
  ghost predicate Spent(events: seq<Event>, states: seq<State>, n: nat, code: CodeRef)
    requires |states| == |events| + 1 && n < |states| && code.UserCode?
  {
    var made := Made(events, states, 0, n, code);
    match CodeAt(states[n], code)
    case Some(c) => made + c.usage == 1 && c.usage >= 0
    case None => if IsDeleted(states[n], code.owner) then made <= 1 else made == 0
  }

  lemma {:induction false} RunSpends(events: seq<Event>, states: seq<State>, n: nat, code: CodeRef)
    requires IsRun(events, states) && n < |states| && code.UserCode?
    ensures Spent(events, states, n, code)
  {
    if n > 0 {
      RunSpends(events, states, n - 1, code);
      NextCourse(events, states, n - 1, code);
    }
  }

  /** One account at most is ever made with a user's code, also after its owner has been deleted. */
  lemma OneAccountPerUserCode(events: seq<Event>, states: seq<State>, n: nat, owner: UserId, row: RowId)
    requires IsRun(events, states) && n < |states|
    ensures Made(events, states, 0, n, UserCode(owner, row)) <= 1
  {
    RunSpends(events, states, n, UserCode(owner, row));
  }

  /** At most two codes per user, each for one account, and working exactly while that is not made and its owner may invite. */
  lemma InviteCodesAreHonest(events: seq<Event>, states: seq<State>, n: nat, u: UserId)
    requires IsRun(events, states) && n < |states| && u in states[n].accounts
    ensures var a := states[n].accounts[u];
            && a.issuedCodes == |a.codes| <= 2
            && forall c :: c in a.codes ==>
                 && a.codes[c].usage == 1 - Made(events, states, 0, n, UserCode(u, c))
                 && (a.codes[c].isValid && a.codes[c].usage > 0 <==>
                       Made(events, states, 0, n, UserCode(u, c)) == 0 && (a.status.Active? || a.status.Pending?))
  {
    RunKeeps(events, states, n);
    var a := states[n].accounts[u];
    forall c | c in a.codes
      ensures CodeOk(a, c) && a.codes[c].usage == 1 - Made(events, states, 0, n, UserCode(u, c))
    {
      assert CodesOk(a);
      RunSpends(events, states, n, UserCode(u, c));
    }
  }
}
