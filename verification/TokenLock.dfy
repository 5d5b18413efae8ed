/**
 The token locks in Redis (one per upload for chunk requests, one per user for initialisations): SET NX with a time to
 live, and release by compare-and-delete. A lock is followed through every timed trace of acquires and releases.
 */
module TokenLock {

  const UPLOAD_REQUEST_LOCK_SECONDS: nat := 60 * 60

  type Token = nat

  /** The value of the key; it is visible while `time < expiresAt`. */
  datatype Lock = Free | Held(token: Token, expiresAt: int)

  datatype Op = Acquire(token: Token) | Release(token: Token)

  datatype Event = Event(time: int, op: Op)

  predicate HeldAt(l: Lock, time: int) {
    l.Held? && time < l.expiresAt
  }

  /** Whether SET NX answers OK. */
  predicate Granted(l: Lock, e: Event) {
    e.op.Acquire? && !HeldAt(l, e.time)
  }

  function Step(l: Lock, e: Event, ttl: nat): Lock {
    match e.op
    case Acquire(token) => if HeldAt(l, e.time) then l else Held(token, e.time + ttl)
    case Release(token) => if HeldAt(l, e.time) && l.token == token then Free else l
  }

  /** Time does not run backwards, and every acquire draws its own token. */
  ghost predicate IsTrace(events: seq<Event>) {
    && (forall i, j :: 0 <= i < j < |events| ==> events[i].time <= events[j].time)
    && (forall i, j :: 0 <= i < j < |events| && events[i].op.Acquire? && events[j].op.Acquire? ==>
          events[i].op.token != events[j].op.token)
  }

  /** The lock after the first n events. */
  function After(events: seq<Event>, n: nat, ttl: nat): Lock
    requires n <= |events|
  {
    if n == 0 then Free else Step(After(events, n - 1, ttl), events[n - 1], ttl)
  }

  /** Event i acquires the lock. */
  predicate Acquires(events: seq<Event>, i: nat, ttl: nat)
    requires i < |events|
  {
    Granted(After(events, i, ttl), events[i])
  }

  ghost predicate ReleasedBetween(events: seq<Event>, i: nat, j: nat, token: Token)
    requires j <= |events|
  {
    exists k :: i < k < j && events[k].op == Release(token)
  }

  /**
   Whoever acquired the lock keeps it until it releases it or its time is up: acquires of others are refused, and
   releases of others, however late, do not free it.
   */
  lemma {:induction false} HeldUntilReleased(events: seq<Event>, i: nat, n: nat, ttl: nat)
    requires IsTrace(events) && i < n <= |events| && Acquires(events, i, ttl)
    requires events[n - 1].time < events[i].time + ttl
    requires !ReleasedBetween(events, i, n, events[i].op.token)
    ensures After(events, n, ttl) == Held(events[i].op.token, events[i].time + ttl)
  {
    if n == i + 1 {
      assert After(events, n, ttl) == Step(After(events, i, ttl), events[i], ttl);
    } else {
      assert events[n - 2].time <= events[n - 1].time;
      assert !ReleasedBetween(events, i, n - 1, events[i].op.token) by {
        assert forall k :: i < k < n - 1 ==> events[k].op != Release(events[i].op.token);
      }
      HeldUntilReleased(events, i, n - 1, ttl);
      assert events[n - 1].op != Release(events[i].op.token);
    }
  }

  /** Mutual exclusion: a second holder comes only after the first one released the lock, or its time to live is over. */
  lemma MutualExclusion(events: seq<Event>, i: nat, j: nat, ttl: nat)
    requires IsTrace(events) && i < j < |events| && Acquires(events, i, ttl) && Acquires(events, j, ttl)
    ensures ReleasedBetween(events, i, j, events[i].op.token) || events[j].time >= events[i].time + ttl
  {
    if !ReleasedBetween(events, i, j, events[i].op.token) && events[j].time < events[i].time + ttl {
      assert events[j - 1].time <= events[j].time;
      HeldUntilReleased(events, i, j, ttl);
      assert false;
    }
  }

  /** And a free lock is not refused: an acquire is granted exactly when no earlier holder is left. */
  lemma {:induction false} RefusedOnlyForAHolder(events: seq<Event>, j: nat, ttl: nat)
    requires IsTrace(events) && j < |events| && events[j].op.Acquire? && !Acquires(events, j, ttl)
    ensures exists i :: 0 <= i < j && Acquires(events, i, ttl) && events[j].time < events[i].time + ttl
                        && !ReleasedBetween(events, i, j, events[i].op.token)
  {
    var i := HolderOf(events, j, ttl);
  }

  lemma {:induction false} HolderOf(events: seq<Event>, n: nat, ttl: nat) returns (i: nat)
    requires IsTrace(events) && n <= |events| && After(events, n, ttl).Held?
    ensures i < n && Acquires(events, i, ttl) && After(events, n, ttl) == Held(events[i].op.token, events[i].time + ttl)
    ensures n < |events| && HeldAt(After(events, n, ttl), events[n].time) ==> !ReleasedBetween(events, i, n, events[i].op.token)
  {
    if Acquires(events, n - 1, ttl) {
      i := n - 1;
    } else {
      i := HolderOf(events, n - 1, ttl);
      if n < |events| && HeldAt(After(events, n, ttl), events[n].time) {
        assert events[n - 1].time <= events[n].time;
        assert forall k :: i < k < n - 1 ==> events[k].op != Release(events[i].op.token);
        assert events[n - 1].op != Release(events[i].op.token);
      }
    }
  }

  // ------------------------------------------------------------- the guard

  /** The key in Redis at a moment of time. */
  class LockStore {
    var lock: Lock

    constructor ()
      ensures lock.Free?
    {
      lock := Free;
    }

    /** SET key token EX ttl NX */
    method SetIfAbsent(token: Token, now: int, ttl: nat) returns (ok: bool)
      modifies this
      ensures lock == Step(old(lock), Event(now, Acquire(token)), ttl)
      ensures ok <==> Granted(old(lock), Event(now, Acquire(token)))
    {
      if lock.Held? && now < lock.expiresAt {
        return false;
      }
      lock := Held(token, now + ttl);
      return true;
    }

    /** The compare-and-delete script. */
    method DeleteIfEqual(token: Token, now: int, ghost ttl: nat)
      modifies this
      ensures lock == Step(old(lock), Event(now, Release(token)), ttl)
    {
      if lock.Held? && now < lock.expiresAt && lock.token == token {
        lock := Free;
      }
    }
  }

  /** One guarded request: its release runs on 'finish' and on 'close', and does something only once. */
  class GuardedRequest {
    const store: LockStore
    const token: Token
    var released: bool

    constructor (store: LockStore, token: Token)
      ensures this.store == store && this.token == token && !released
    {
      this.store, this.token, released := store, token, false;
    }

    method CanActivate(now: int) returns (ok: bool)
      modifies store
      ensures store.lock == Step(old(store.lock), Event(now, Acquire(token)), UPLOAD_REQUEST_LOCK_SECONDS)
      ensures ok <==> Granted(old(store.lock), Event(now, Acquire(token)))
    {
      ok := store.SetIfAbsent(token, now, UPLOAD_REQUEST_LOCK_SECONDS);
    }

    method ReleaseOnce(now: int)
      modifies this, store
      ensures released
      ensures store.lock == if old(released) then old(store.lock)
                            else Step(old(store.lock), Event(now, Release(token)), UPLOAD_REQUEST_LOCK_SECONDS)
    {
      if released {
        return;
      }
      released := true;
      store.DeleteIfEqual(token, now, UPLOAD_REQUEST_LOCK_SECONDS);
    }
  }
}
