/**
 The slots that open event streams take in per-user and per-address counters: acquired together or not at all, given
 back on teardown, and forgotten when their key expires. Acquiring and releasing are one step each.
 */
module StreamSlots {
  import opened Sequences

  type Subject = nat
  datatype Key = UserKey(user: Subject) | IpKey(ip: Subject)
  datatype Entry = Entry(key: Key, limit: nat)

  /** A counter in Redis; its time to live is set by the increment that creates it, and by no other. */
  datatype Slot = Absent | Slot(count: int, expiresAt: int)

  function At(counters: map<Key, Slot>, key: Key): Slot {
    if key in counters then counters[key] else Absent
  }

  /** A missing counter counts as 0. */
  function Get(counters: map<Key, Slot>, key: Key): int {
    match At(counters, key)
    case Absent => 0
    case Slot(count, _) => count
  }

  /** INCR, and EXPIRE if the counter is new. */
  function PlusSlot(slot: Slot, now: int, ttl: nat): Slot {
    match slot
    case Absent => Slot(1, now + ttl)
    case Slot(count, expiresAt) => Slot(count + 1, expiresAt)
  }

  /** DECR, and DEL if nothing is left. */
  function MinusSlot(slot: Slot): Slot {
    match slot
    case Absent => Absent
    case Slot(count, expiresAt) => if count <= 1 then Absent else Slot(count - 1, expiresAt)
  }

  function Put(counters: map<Key, Slot>, key: Key, slot: Slot): map<Key, Slot> {
    if slot.Absent? then counters - {key} else counters[key := slot]
  }

  ghost predicate Distinct(entries: seq<Entry>) {
    forall i, j :: 0 <= i < j < |entries| ==> entries[i].key != entries[j].key
  }

  predicate HasRoom(counters: map<Key, Slot>, entries: seq<Entry>) {
    forall i :: 0 <= i < |entries| ==> Get(counters, entries[i].key) < entries[i].limit
  }

  predicate Among(entries: seq<Entry>, key: Key) {
    exists i :: 0 <= i < |entries| && entries[i].key == key
  }

  /** Each key of the entries has one more than before; no other counter and no expiry of an old one is changed. */
  ghost predicate Taken(before: map<Key, Slot>, after: map<Key, Slot>, entries: seq<Entry>, now: int, ttl: nat) {
    forall key :: At(after, key) == if Among(entries, key) then PlusSlot(At(before, key), now, ttl) else At(before, key)
  }

  ghost predicate Given(before: map<Key, Slot>, after: map<Key, Slot>, entries: seq<Entry>) {
    forall key :: At(after, key) == if Among(entries, key) then MinusSlot(At(before, key)) else At(before, key)
  }

  /** Only positive counters are kept. */
  ghost predicate Tidy(counters: map<Key, Slot>) {
    forall key :: key in counters ==> counters[key].Slot? && counters[key].count >= 1
  }

  /** The counters in Redis. */
  class Store {
    var counters: map<Key, Slot>

    constructor ()
      ensures counters == map[]
    {
      counters := map[];
    }

    /** INCR with EXPIRE on the first one. */
    method Incr(key: Key, now: int, ttl: nat) returns (count: int)
      requires Tidy(counters)
      modifies this
      ensures Tidy(counters) && counters == old(counters)[key := PlusSlot(At(old(counters), key), now, ttl)]
      ensures count == Get(old(counters), key) + 1
    {
      count := Get(counters, key) + 1;
      var expiresAt := if count == 1 then now + ttl else At(counters, key).expiresAt;
      counters := counters[key := Slot(count, expiresAt)];
    }

    /** releaseConcurrentKeys gives back one slot of each of the first n entries; of a key that is gone, nothing. */
    method Release(entries: seq<Entry>, n: nat)
      requires n <= |entries| && Distinct(entries) && Tidy(counters)
      modifies this
      ensures Tidy(counters) && Given(old(counters), counters, entries[..n])
    {
      var i := 0;
      while i < n
        invariant i <= n && Tidy(counters) && Given(old(counters), counters, entries[..i])
      {
        ghost var before := counters;
        var key := entries[i].key;
        var count := Get(counters, key) - 1;
        if count <= 0 {
          counters := counters - {key};
        } else {
          counters := counters[key := Slot(count, At(counters, key).expiresAt)];
        }
        GivenOneMore(old(counters), before, counters, entries, i);
        i := i + 1;
      }
    }

    /** acquireConcurrentKeys: one slot of every key, or, if one of them is full, the counters and expiries it found. */
    method Acquire(entries: seq<Entry>, now: int, ttl: nat) returns (ok: bool)
      requires Distinct(entries) && Tidy(counters) && forall i :: 0 <= i < |entries| ==> entries[i].limit >= 1
      modifies this
      ensures Tidy(counters)
      ensures ok <==> HasRoom(old(counters), entries)
      ensures ok ==> Taken(old(counters), counters, entries, now, ttl)
      ensures !ok ==> counters == old(counters)
    {
      var i := 0;
      while i < |entries|
        invariant i <= |entries| && Tidy(counters) && Taken(old(counters), counters, entries[..i], now, ttl)
        invariant forall k :: 0 <= k < i ==> Get(old(counters), entries[k].key) < entries[k].limit
      {
        NotYetTaken(old(counters), counters, entries, i, now, ttl);
        ghost var before := counters;
        var count := Incr(entries[i].key, now, ttl);
        if count > entries[i].limit {
          counters := counters[entries[i].key := Slot(count - 1, counters[entries[i].key].expiresAt)];
          assert counters == before;
          Release(entries, i);
          GivenBack(old(counters), before, counters, entries[..i], now, ttl);
          return false;
        }
        TakenOneMore(old(counters), before, counters, entries, i, now, ttl);
        i := i + 1;
      }
      assert entries[..|entries|] == entries;
      ok := true;
    }
  }

  lemma AmongMore(entries: seq<Entry>, i: nat, key: Key)
    requires i < |entries| && Distinct(entries)
    ensures Among(entries[..i + 1], key) <==> Among(entries[..i], key) || entries[i].key == key
    ensures entries[i].key == key ==> !Among(entries[..i], key)
  {
    if entries[i].key == key {
      assert entries[..i + 1][i].key == key;
    }
    if Among(entries[..i], key) {
      var k :| 0 <= k < i && entries[..i][k].key == key;
      assert entries[..i + 1][k].key == key;
      assert entries[k].key == key;
    }
    if Among(entries[..i + 1], key) {
      var k :| 0 <= k < i + 1 && entries[..i + 1][k].key == key;
      assert k < i ==> entries[..i][k].key == key;
    }
  }

  lemma TakenOneMore(start: map<Key, Slot>, before: map<Key, Slot>, after: map<Key, Slot>, entries: seq<Entry>, i: nat, now: int, ttl: nat)
    requires i < |entries| && Distinct(entries) && Taken(start, before, entries[..i], now, ttl)
    requires after == before[entries[i].key := PlusSlot(At(before, entries[i].key), now, ttl)]
    ensures Taken(start, after, entries[..i + 1], now, ttl)
  {
    forall key
      ensures At(after, key) == if Among(entries[..i + 1], key) then PlusSlot(At(start, key), now, ttl) else At(start, key)
    {
      AmongMore(entries, i, key);
      assert At(before, key) == if Among(entries[..i], key) then PlusSlot(At(start, key), now, ttl) else At(start, key);
    }
  }

  lemma GivenOneMore(start: map<Key, Slot>, before: map<Key, Slot>, after: map<Key, Slot>, entries: seq<Entry>, i: nat)
    requires i < |entries| && Distinct(entries) && Given(start, before, entries[..i]) && Tidy(before)
    requires after == Put(before, entries[i].key, MinusSlot(At(before, entries[i].key)))
    ensures Given(start, after, entries[..i + 1])
  {
    forall key
      ensures At(after, key) == if Among(entries[..i + 1], key) then MinusSlot(At(start, key)) else At(start, key)
    {
      AmongMore(entries, i, key);
      assert At(before, key) == if Among(entries[..i], key) then MinusSlot(At(start, key)) else At(start, key);
    }
  }

  lemma NotYetTaken(start: map<Key, Slot>, later: map<Key, Slot>, entries: seq<Entry>, i: nat, now: int, ttl: nat)
    requires i < |entries| && Distinct(entries) && Taken(start, later, entries[..i], now, ttl)
    ensures Get(later, entries[i].key) == Get(start, entries[i].key)
  {
    AmongMore(entries, i, entries[i].key);
    assert At(later, entries[i].key) == At(start, entries[i].key);
  }

  lemma SameCounters(a: map<Key, Slot>, b: map<Key, Slot>)
    requires Tidy(a) && Tidy(b) && forall key :: At(a, key) == At(b, key)
    ensures a == b
  {
    forall key
      ensures key in a <==> key in b
    {
      assert At(a, key) == At(b, key);
    }
    forall key | key in a
      ensures a[key] == b[key]
    {
      assert At(a, key) == At(b, key);
    }
  }

  /** Giving back what was taken restores the counters and their expiries. */
  lemma GivenBack(start: map<Key, Slot>, taken: map<Key, Slot>, after: map<Key, Slot>, entries: seq<Entry>, now: int, ttl: nat)
    requires Tidy(start) && Tidy(after) && Taken(start, taken, entries, now, ttl) && Given(taken, after, entries)
    ensures after == start
  {
    forall key
      ensures At(after, key) == At(start, key)
    {
      assert At(taken, key) == if Among(entries, key) then PlusSlot(At(start, key), now, ttl) else At(start, key);
      assert key in start ==> start[key].count >= 1;
    }
    SameCounters(after, start);
  }

  // ------------------------------------------------------- streams over time

  type StreamId = nat

  /** Leaked: torn down before its slots were known to be acquired, so that no teardown gives them back. */
  datatype Phase = Acquiring | Open | Leaked

  /** A stream and, as history, which life of each of its two keys it was counted in. */
  datatype Stream = Stream(user: Subject, ip: Subject, phase: Phase, userLife: nat, ipLife: nat)

  /** A counter lives from the increment that creates it until it is deleted or expires. */
  datatype State = State(
    now: int,
    counters: map<Key, Slot>,
    streams: map<StreamId, Stream>,
    // history: how often each counter was created, and how many streams of earlier lives gave back a slot in this one
    lives: map<Key, nat>,
    strays: map<Key, nat>
  )

  const INITIAL: State := State(0, map[], map[], map[], map[])

  function Count(numbers: map<Key, nat>, key: Key): nat {
    if key in numbers then numbers[key] else 0
  }

  datatype Event =
    | Subscribe(x: StreamId, user: Subject, userLimit: nat, ip: Subject, ipLimit: nat, ttl: nat)
    | Acquired(x: StreamId)
    | Teardown(x: StreamId)
    /** Time passes, and Redis drops the counters that are due. */
    | Tick(dt: nat)

  function LifeOf(st: Stream, key: Key): nat {
    if key == UserKey(st.user) then st.userLife else st.ipLife
  }

  predicate Uses(st: Stream, key: Key) {
    key == UserKey(st.user) || key == IpKey(st.ip)
  }

  /** One key is incremented; if that creates the counter, a new life begins. */
  function Take(s: State, key: Key, ttl: nat): State {
    var t := s.(counters := s.counters[key := PlusSlot(At(s.counters, key), s.now, ttl)]);
    if At(s.counters, key).Absent? then t.(lives := s.lives[key := Count(s.lives, key) + 1], strays := s.strays[key := 0]) else t
  }

  /** One key is decremented for a stream that was counted in the given life. */
  function Give(s: State, key: Key, life: nat): State {
    var t := s.(counters := Put(s.counters, key, MinusSlot(At(s.counters, key))));
    if life != Count(s.lives, key) then t.(strays := s.strays[key := Count(s.strays, key) + 1]) else t
  }

  function Live(counters: map<Key, Slot>, now: int): map<Key, Slot> {
    map key | key in counters && counters[key].Slot? && now < counters[key].expiresAt :: counters[key]
  }

  function Subscribed(s: State, x: StreamId, user: Subject, ip: Subject, ttl: nat): State {
    var t := Take(Take(s, UserKey(user), ttl), IpKey(ip), ttl);
    t.(streams := s.streams[x := Stream(user, ip, Acquiring, Count(t.lives, UserKey(user)), Count(t.lives, IpKey(ip)))])
  }

  function TornDown(s: State, x: StreamId): State
    requires x in s.streams
  {
    var st := s.streams[x];
    Give(Give(s.(streams := s.streams - {x}), UserKey(st.user), st.userLife), IpKey(st.ip), st.ipLife)
  }

  /** trackConcurrentSse: subscription, the fulfilment of the acquisition, and teardown. */
  function Step(s: State, e: Event): State {
    match e
    case Subscribe(x, user, userLimit, ip, ipLimit, ttl) =>
      if HasRoom(s.counters, [Entry(UserKey(user), userLimit), Entry(IpKey(ip), ipLimit)]) then Subscribed(s, x, user, ip, ttl) else s
    case Acquired(x) =>
      if x in s.streams && s.streams[x].phase.Acquiring? then s.(streams := s.streams[x := s.streams[x].(phase := Open)]) else s
    case Teardown(x) =>
      if x !in s.streams then s
      else
        (match s.streams[x].phase
         case Open => TornDown(s, x)
         case Acquiring => s.(streams := s.streams[x := s.streams[x].(phase := Leaked)])
         case Leaked => s)
    case Tick(dt) => s.(now := s.now + dt, counters := Live(s.counters, s.now + dt))
  }

  ghost predicate Follows(s: State, e: Event, t: State) {
    (e.Subscribe? ==> e.x !in s.streams && e.ttl > 0) && t == Step(s, e)
  }

  ghost predicate IsRun(events: seq<Event>, states: seq<State>) {
    && |states| == |events| + 1
    && states[0] == INITIAL
    && forall i :: 0 <= i < |events| ==> Follows(states[i], events[i], states[i + 1])
  }

  // ------------------------------------------------------------ the accounts

  /** The streams that were counted in the current life of a key and have not given back their slot. */
  ghost function Holders(s: State, key: Key): set<StreamId> {
    set x | x in s.streams && Uses(s.streams[x], key) && LifeOf(s.streams[x], key) == Count(s.lives, key)
  }

  ghost function LeakedHolders(s: State, key: Key): set<StreamId> {
    set x | x in Holders(s, key) && s.streams[x].phase.Leaked?
  }

  predicate Present(s: State, key: Key) {
    At(s.counters, key).Slot?
  }

  /** A counter that is there is what its life took and did not give back, less what strays gave back. */
  ghost predicate Balanced(s: State, key: Key) {
    && (Present(s, key) ==>
          && At(s.counters, key).count >= 1 && s.now < At(s.counters, key).expiresAt
          && At(s.counters, key).count == |Holders(s, key)| - Count(s.strays, key))
    && (forall x :: x in s.streams && Uses(s.streams[x], key) ==> LifeOf(s.streams[x], key) <= Count(s.lives, key))
  }

  /** What one key sees of a state. */
  ghost predicate SameKey(s: State, t: State, key: Key) {
    At(t.counters, key) == At(s.counters, key) && Count(t.lives, key) == Count(s.lives, key) && Count(t.strays, key) == Count(s.strays, key)
  }

  lemma TakeOthers(s: State, other: Key, ttl: nat, key: Key)
    requires key != other
    ensures SameKey(s, Take(s, other, ttl), key)
  {
  }

  lemma GiveOthers(s: State, other: Key, life: nat, key: Key)
    requires key != other
    ensures SameKey(s, Give(s, other, life), key)
  {
  }

  lemma SubscribedKey(s: State, x: StreamId, user: Subject, ip: Subject, ttl: nat, key: Key)
    ensures var t := Subscribed(s, x, user, ip, ttl);
            if key == UserKey(user) || key == IpKey(ip)
            then && At(t.counters, key) == PlusSlot(At(s.counters, key), s.now, ttl)
                 && Count(t.lives, key) == Count(s.lives, key) + (if Present(s, key) then 0 else 1)
                 && Count(t.strays, key) == (if Present(s, key) then Count(s.strays, key) else 0)
                 && LifeOf(t.streams[x], key) == Count(t.lives, key)
            else SameKey(s, t, key)
  {
    TakeOthers(Take(s, UserKey(user), ttl), IpKey(ip), ttl, UserKey(user));
    TakeOthers(s, UserKey(user), ttl, IpKey(ip));
    if key != UserKey(user) && key != IpKey(ip) {
      TakeOthers(s, UserKey(user), ttl, key);
      TakeOthers(Take(s, UserKey(user), ttl), IpKey(ip), ttl, key);
    }
  }

  lemma HoldersMore(s: State, t: State, x: StreamId, key: Key)
    requires x !in s.streams && x in t.streams && t.streams == s.streams[x := t.streams[x]] && Uses(t.streams[x], key)
    requires LifeOf(t.streams[x], key) == Count(t.lives, key)
    requires forall y :: y in s.streams && Uses(s.streams[y], key) ==> LifeOf(s.streams[y], key) <= Count(s.lives, key)
    ensures Count(t.lives, key) == Count(s.lives, key) ==> |Holders(t, key)| == |Holders(s, key)| + 1
    ensures Count(t.lives, key) > Count(s.lives, key) ==> |Holders(t, key)| == 1
  {
    if Count(t.lives, key) == Count(s.lives, key) {
      OneHolderMore(s, t, x, key);
    } else if Count(t.lives, key) > Count(s.lives, key) {
      FirstHolder(s, t, x, key);
    }
  }

  lemma OneHolderMore(s: State, t: State, x: StreamId, key: Key)
    requires x !in s.streams && x in t.streams && t.streams == s.streams[x := t.streams[x]] && Uses(t.streams[x], key)
    requires LifeOf(t.streams[x], key) == Count(t.lives, key) == Count(s.lives, key)
    ensures |Holders(t, key)| == |Holders(s, key)| + 1
  {
    assert Holders(t, key) == Holders(s, key) + {x};
  }

  lemma FirstHolder(s: State, t: State, x: StreamId, key: Key)
    requires x !in s.streams && x in t.streams && t.streams == s.streams[x := t.streams[x]] && Uses(t.streams[x], key)
    requires LifeOf(t.streams[x], key) == Count(t.lives, key) > Count(s.lives, key)
    requires forall y :: y in s.streams && Uses(s.streams[y], key) ==> LifeOf(s.streams[y], key) <= Count(s.lives, key)
    ensures |Holders(t, key)| == 1
  {
    assert Holders(t, key) == {x};
  }

  lemma SubscribeBalances(s: State, x: StreamId, user: Subject, ip: Subject, ttl: nat, key: Key)
    requires Balanced(s, key) && x !in s.streams && ttl > 0
    ensures Balanced(Subscribed(s, x, user, ip, ttl), key)
  {
    var t := Subscribed(s, x, user, ip, ttl);
    SubscribedKey(s, x, user, ip, ttl, key);
    if Uses(t.streams[x], key) {
      HoldersMore(s, t, x, key);
    } else {
      assert Holders(t, key) == Holders(s, key);
    }
  }

  lemma GiveKey(s: State, key: Key, life: nat)
    ensures var t := Give(s, key, life);
            && At(t.counters, key) == MinusSlot(At(s.counters, key)) && t.lives == s.lives && t.streams == s.streams && t.now == s.now
            && Count(t.strays, key) == Count(s.strays, key) + (if life == Count(s.lives, key) then 0 else 1)
  {
  }

  lemma TornDownKey(s: State, x: StreamId, key: Key)
    requires x in s.streams
    ensures var t := TornDown(s, x);
            var st := s.streams[x];
            && t.streams == s.streams - {x} && t.now == s.now && t.lives == s.lives
            && if Uses(st, key)
               then && At(t.counters, key) == MinusSlot(At(s.counters, key))
                    && Count(t.strays, key) == Count(s.strays, key) + (if LifeOf(st, key) == Count(s.lives, key) then 0 else 1)
               else SameKey(s, t, key)
  {
    var st := s.streams[x];
    var first := s.(streams := s.streams - {x});
    GiveKey(first, UserKey(st.user), st.userLife);
    var second := Give(first, UserKey(st.user), st.userLife);
    GiveKey(second, IpKey(st.ip), st.ipLife);
    if key != UserKey(st.user) {
      GiveOthers(first, UserKey(st.user), st.userLife, key);
    }
    if key != IpKey(st.ip) {
      GiveOthers(second, IpKey(st.ip), st.ipLife, key);
    }
  }

  lemma HoldersLess(s: State, t: State, x: StreamId, key: Key)
    requires x in s.streams && t.streams == s.streams - {x} && t.lives == s.lives
    ensures Holders(t, key) == Holders(s, key) - {x}
    ensures |Holders(t, key)| == |Holders(s, key)| - if Uses(s.streams[x], key) && LifeOf(s.streams[x], key) == Count(s.lives, key) then 1 else 0
  {
    assert x in Holders(s, key) <==> Uses(s.streams[x], key) && LifeOf(s.streams[x], key) == Count(s.lives, key);
    assert Holders(t, key) == Holders(s, key) - {x};
  }

  lemma TeardownBalances(s: State, x: StreamId, key: Key)
    requires Balanced(s, key) && x in s.streams
    ensures Balanced(TornDown(s, x), key)
  {
    TornDownKey(s, x, key);
    HoldersLess(s, TornDown(s, x), x, key);
  }

  lemma PhaseBalances(s: State, x: StreamId, phase: Phase, key: Key)
    requires Balanced(s, key) && x in s.streams
    ensures Balanced(s.(streams := s.streams[x := s.streams[x].(phase := phase)]), key)
  {
    assert Holders(s.(streams := s.streams[x := s.streams[x].(phase := phase)]), key) == Holders(s, key);
  }

  lemma TickBalances(s: State, dt: nat, key: Key)
    requires Balanced(s, key)
    ensures Balanced(Step(s, Tick(dt)), key)
  {
    assert Holders(Step(s, Tick(dt)), key) == Holders(s, key);
  }

  lemma StepBalances(s: State, e: Event, key: Key)
    requires Balanced(s, key) && Follows(s, e, Step(s, e))
    ensures Balanced(Step(s, e), key)
  {
    match e
    case Subscribe(x, user, _, ip, _, ttl) => SubscribeBalances(s, x, user, ip, ttl, key);
    case Acquired(x) =>
      if x in s.streams {
        PhaseBalances(s, x, Open, key);
      }
    case Teardown(x) =>
      if x in s.streams {
        TeardownBalances(s, x, key);
        PhaseBalances(s, x, Leaked, key);
      }
    case Tick(dt) => TickBalances(s, dt, key);
  }

  lemma {:induction false} RunBalances(events: seq<Event>, states: seq<State>, n: nat, key: Key)
    requires IsRun(events, states) && n < |states|
    ensures Balanced(states[n], key)
  {
    if n > 0 {
      RunBalances(events, states, n - 1, key);
      FollowsAt(events, states, n - 1);
      StepBalances(states[n - 1], events[n - 1], key);
    }
  }

  lemma FollowsAt(events: seq<Event>, states: seq<State>, n: nat)
    requires IsRun(events, states) && n < |events|
    ensures Follows(states[n], events[n], states[n + 1])
  {
  }

  // -------------------------------------------------------- what a counter is

  ghost function LiveUsers(s: State, key: Key): set<StreamId> {
    set x | x in s.streams && Uses(s.streams[x], key) && !s.streams[x].phase.Leaked?
  }

  /**
   A counter is, exactly: the live streams of its current life, plus those leaked in it, less the slots that streams of
   earlier lives have given back in it. There is no counter at all from its expiry on.
   */
  lemma CounterIsExact(events: seq<Event>, states: seq<State>, n: nat, key: Key)
    requires IsRun(events, states) && n < |states|
    ensures var s := states[n];
            Present(s, key) ==>
              && Get(s.counters, key) == |Holders(s, key) - LeakedHolders(s, key)| + |LeakedHolders(s, key)| - Count(s.strays, key)
              && 1 <= Get(s.counters, key) && s.now < At(s.counters, key).expiresAt
    ensures !Present(states[n], key) ==> Get(states[n].counters, key) == 0
  {
    var s := states[n];
    RunBalances(events, states, n, key);
    var leaked := LeakedHolders(s, key);
    assert Holders(s, key) == (Holders(s, key) - leaked) + leaked;
  }

  // ------------------------------------------- expiry while a stream is live

  /** The key expires while one of its streams is live: its counter, which is there, is due, and somebody still uses it. */
  ghost predicate Drops(s: State, e: Event, key: Key) {
    e.Tick? && Present(s, key) && At(s.counters, key).expiresAt <= s.now + e.dt && LiveUsers(s, key) != {}
  }

  ghost predicate NoDrops(events: seq<Event>, states: seq<State>, n: nat, key: Key)
    requires |states| == |events| + 1 && n < |states|
  {
    forall i :: 0 <= i < n ==> !Drops(states[i], events[i], key)
  }

  /** No stream has outlived its counter: each live one is counted in the current life, and none strayed into it. */
  ghost predicate InTime(s: State, key: Key) {
    && (Present(s, key) ==> Count(s.strays, key) == 0)
    && forall x :: x in LiveUsers(s, key) ==> Present(s, key) && x in Holders(s, key)
  }

  lemma TwoHolders(holders: set<StreamId>, x: StreamId, y: StreamId)
    requires x in holders && y in holders && x != y
    ensures |holders| >= 2
  {
    assert holders == {x, y} + (holders - {x, y});
  }

  lemma SubscribeInTime(s: State, x: StreamId, user: Subject, ip: Subject, ttl: nat, key: Key)
    requires Balanced(s, key) && InTime(s, key) && x !in s.streams
    ensures InTime(Subscribed(s, x, user, ip, ttl), key)
  {
    var t := Subscribed(s, x, user, ip, ttl);
    SubscribedKey(s, x, user, ip, ttl, key);
    forall y | y in LiveUsers(t, key)
      ensures Present(t, key) && y in Holders(t, key)
    {
      if y != x {
        assert y in LiveUsers(s, key);
      }
    }
  }

  lemma TeardownInTime(s: State, x: StreamId, key: Key)
    requires Balanced(s, key) && InTime(s, key) && x in s.streams && s.streams[x].phase.Open?
    ensures InTime(TornDown(s, x), key)
  {
    var t := TornDown(s, x);
    TornDownKey(s, x, key);
    assert Uses(s.streams[x], key) ==> x in LiveUsers(s, key);
    forall y | y in LiveUsers(t, key)
      ensures Present(t, key) && y in Holders(t, key)
    {
      assert y in LiveUsers(s, key);
      if Uses(s.streams[x], key) {
        TwoHolders(Holders(s, key), x, y);
      }
    }
  }

  lemma PhaseInTime(s: State, x: StreamId, phase: Phase, key: Key)
    requires InTime(s, key) && x in s.streams && s.streams[x].phase.Acquiring?
    ensures InTime(s.(streams := s.streams[x := s.streams[x].(phase := phase)]), key)
  {
    var t := s.(streams := s.streams[x := s.streams[x].(phase := phase)]);
    assert Holders(t, key) == Holders(s, key);
    forall y | y in LiveUsers(t, key)
      ensures y in LiveUsers(s, key)
    {
    }
  }

  lemma TickInTime(s: State, dt: nat, key: Key)
    requires InTime(s, key) && !Drops(s, Tick(dt), key)
    ensures InTime(Step(s, Tick(dt)), key)
  {
    var t := Step(s, Tick(dt));
    assert LiveUsers(t, key) == LiveUsers(s, key) && Holders(t, key) == Holders(s, key);
  }

  lemma StepInTime(s: State, e: Event, key: Key)
    requires Balanced(s, key) && Follows(s, e, Step(s, e)) && InTime(s, key) && !Drops(s, e, key)
    ensures InTime(Step(s, e), key)
  {
    match e
    case Subscribe(x, user, _, ip, _, ttl) => SubscribeInTime(s, x, user, ip, ttl, key);
    case Acquired(x) =>
      if x in s.streams && s.streams[x].phase.Acquiring? {
        PhaseInTime(s, x, Open, key);
      }
    case Teardown(x) =>
      if x in s.streams {
        if s.streams[x].phase.Open? {
          TeardownInTime(s, x, key);
        } else if s.streams[x].phase.Acquiring? {
          PhaseInTime(s, x, Leaked, key);
        }
      }
    case Tick(dt) => TickInTime(s, dt, key);
  }

  lemma DroppedIsLate(s: State, e: Event, key: Key)
    requires Drops(s, e, key)
    ensures !InTime(Step(s, e), key) && !Present(Step(s, e), key) && LiveUsers(Step(s, e), key) == LiveUsers(s, key)
  {
    assert LiveUsers(Step(s, e), key) == LiveUsers(s, key);
  }

  lemma {:induction false} StaysInTime(events: seq<Event>, states: seq<State>, i: nat, j: nat, key: Key)
    requires IsRun(events, states) && i <= j < |states| && InTime(states[i], key)
    requires forall k :: i <= k < j ==> !Drops(states[k], events[k], key)
    ensures InTime(states[j], key)
  {
    if i < j {
      StaysInTime(events, states, i, j - 1, key);
      RunBalances(events, states, j - 1, key);
      FollowsAt(events, states, j - 1);
      StepInTime(states[j - 1], events[j - 1], key);
    }
  }

  /** Streams stay within the lives of their counter exactly as long as the key never expires while one of them is live. */
  lemma InTimeExactlyWithoutDrops(events: seq<Event>, states: seq<State>, n: nat, key: Key)
    requires IsRun(events, states) && n < |states|
    ensures (forall m :: 0 <= m <= n ==> InTime(states[m], key)) <==> NoDrops(events, states, n, key)
  {
    if NoDrops(events, states, n, key) {
      forall m | 0 <= m <= n
        ensures InTime(states[m], key)
      {
        StaysInTime(events, states, 0, m, key);
      }
    } else {
      var i :| 0 <= i < n && Drops(states[i], events[i], key);
      FollowsAt(events, states, i);
      DroppedIsLate(states[i], events[i], key);
      assert !InTime(states[i + 1], key);
    }
  }

  lemma CountsInTime(s: State, key: Key)
    requires Balanced(s, key) && InTime(s, key)
    ensures Present(s, key) ==> Get(s.counters, key) == |LiveUsers(s, key)| + |LeakedHolders(s, key)|
    ensures !Present(s, key) ==> Get(s.counters, key) == 0 && LiveUsers(s, key) == {}
  {
    if Present(s, key) {
      assert LiveUsers(s, key) == Holders(s, key) - LeakedHolders(s, key);
      assert Holders(s, key) == LiveUsers(s, key) + LeakedHolders(s, key);
    } else {
      assert LiveUsers(s, key) == {};
    }
  }

  /**
   If the key has never expired while one of its streams was live, its counter is the number of live streams if and only
   if no stream of the current life was leaked.
   */
  lemma CounterIsLiveExactlyWhen(events: seq<Event>, states: seq<State>, n: nat, key: Key)
    requires IsRun(events, states) && n < |states| && NoDrops(events, states, n, key)
    ensures var s := states[n];
            Get(s.counters, key) == |LiveUsers(s, key)| <==> !Present(s, key) || LeakedHolders(s, key) == {}
  {
    StaysInTime(events, states, 0, n, key);
    RunBalances(events, states, n, key);
    CountsInTime(states[n], key);
  }

  /** A stream that is torn down before its acquisition is known: nobody is live, and both counters stand at one. */
  lemma TeardownBeforeAcquired(user: Subject, ip: Subject, ttl: nat) returns (events: seq<Event>, states: seq<State>)
    requires ttl > 0
    ensures IsRun(events, states) && |events| == 2 && events[0].Subscribe? && events[1] == Teardown(0)
    ensures forall key :: NoDrops(events, states, 2, key)
    ensures LiveUsers(states[2], UserKey(user)) == {} && Get(states[2].counters, UserKey(user)) == 1
    ensures LiveUsers(states[2], IpKey(ip)) == {} && Get(states[2].counters, IpKey(ip)) == 1
  {
    var e0, e1 := Subscribe(0, user, 1, ip, 1, ttl), Teardown(0);
    var s1 := Subscribed(INITIAL, 0, user, ip, ttl);
    SubscribedKey(INITIAL, 0, user, ip, ttl, UserKey(user));
    SubscribedKey(INITIAL, 0, user, ip, ttl, IpKey(ip));
    var s2 := s1.(streams := s1.streams[0 := s1.streams[0].(phase := Leaked)]);
    events, states := [e0, e1], [INITIAL, s1, s2];
    assert Follows(INITIAL, e0, s1) && Follows(s1, e1, s2);
  }

  // --------------------------------------------------- how long a leak lasts

  predicate StraysAt(s: State, e: Event, key: Key) {
    && e.Teardown? && e.x in s.streams && s.streams[e.x].phase.Open?
    && Uses(s.streams[e.x], key) && LifeOf(s.streams[e.x], key) != Count(s.lives, key)
  }

  /** Stream x leaked its slot of the key in the life that is current in state s. */
  ghost predicate LeakedNow(s: State, x: StreamId, key: Key) {
    x in LeakedHolders(s, key)
  }

  /** The life of a counter never changes its expiry, and a life that is over does not come back. */
  lemma StepOfLife(s: State, e: Event, key: Key)
    requires Balanced(s, key) && Follows(s, e, Step(s, e))
    ensures var t := Step(s, e);
            && Count(s.lives, key) <= Count(t.lives, key) && s.now <= t.now
            && (Present(t, key) && Count(t.lives, key) == Count(s.lives, key) ==>
                  Present(s, key) && At(t.counters, key).expiresAt == At(s.counters, key).expiresAt)
  {
    match e
    case Subscribe(x, user, _, ip, _, ttl) => SubscribedKey(s, x, user, ip, ttl, key);
    case Teardown(x) =>
      if x in s.streams {
        TornDownKey(s, x, key);
      }
    case _ =>
  }

  /** The counter of a leaked slot after a step: there until its expiry, with that expiry, and gone from then on. */
  ghost predicate HeldAfter(s: State, t: State, x: StreamId, key: Key)
    requires Present(s, key)
  {
    if t.now < At(s.counters, key).expiresAt
    then Present(t, key) && LeakedNow(t, x, key) && Count(t.strays, key) == 0
         && At(t.counters, key).expiresAt == At(s.counters, key).expiresAt
    else !Present(t, key)
  }

  lemma SubscribeHolds(s: State, y: StreamId, user: Subject, ip: Subject, ttl: nat, x: StreamId, key: Key)
    requires Balanced(s, key) && LeakedNow(s, x, key) && Present(s, key) && Count(s.strays, key) == 0 && y !in s.streams
    ensures HeldAfter(s, Subscribed(s, y, user, ip, ttl), x, key)
  {
    SubscribedKey(s, y, user, ip, ttl, key);
  }

  lemma TeardownHolds(s: State, y: StreamId, x: StreamId, key: Key)
    requires Balanced(s, key) && LeakedNow(s, x, key) && Present(s, key) && Count(s.strays, key) == 0
    requires y in s.streams && s.streams[y].phase.Open? && !StraysAt(s, Teardown(y), key)
    ensures HeldAfter(s, TornDown(s, y), x, key)
  {
    TornDownKey(s, y, key);
    if Uses(s.streams[y], key) {
      TwoHolders(Holders(s, key), x, y);
    }
  }

  lemma PhaseHolds(s: State, y: StreamId, phase: Phase, x: StreamId, key: Key)
    requires Balanced(s, key) && LeakedNow(s, x, key) && Present(s, key) && Count(s.strays, key) == 0
    requires y in s.streams && y != x
    ensures HeldAfter(s, s.(streams := s.streams[y := s.streams[y].(phase := phase)]), x, key)
  {
  }

  /** In a life without strays, a leaked slot keeps its counter there until the expiry, and no longer. */
  lemma LeakKeepsCounter(s: State, e: Event, x: StreamId, key: Key)
    requires Balanced(s, key) && Follows(s, e, Step(s, e)) && LeakedNow(s, x, key) && Present(s, key)
    requires Count(s.strays, key) == 0 && !StraysAt(s, e, key)
    ensures HeldAfter(s, Step(s, e), x, key)
  {
    match e
    case Subscribe(y, user, _, ip, _, ttl) => SubscribeHolds(s, y, user, ip, ttl, x, key);
    case Acquired(y) =>
      if y in s.streams && y != x {
        PhaseHolds(s, y, Open, x, key);
      }
    case Teardown(y) =>
      if y in s.streams {
        if s.streams[y].phase.Open? {
          TeardownHolds(s, y, x, key);
        } else if y != x {
          PhaseHolds(s, y, Leaked, x, key);
        }
      }
    case Tick(_) =>
  }

  /** A stream that is in time gives its slot back in the life it was counted in. */
  lemma InTimeNoStray(s: State, e: Event, key: Key)
    requires InTime(s, key)
    ensures !StraysAt(s, e, key)
  {
    if e.Teardown? && e.x in s.streams && s.streams[e.x].phase.Open? && Uses(s.streams[e.x], key) {
      assert e.x in LiveUsers(s, key);
    }
  }

  /** Before its expiry, a counter that holds a leaked slot cannot be dropped, so what is in time stays so. */
  lemma HoldsOn(start: State, s: State, e: Event, x: StreamId, key: Key)
    requires Present(start, key) && s.now < At(start.counters, key).expiresAt && HeldAfter(start, s, x, key) && InTime(s, key)
    requires Balanced(s, key) && Follows(s, e, Step(s, e)) && Step(s, e).now < At(start.counters, key).expiresAt
    ensures HeldAfter(start, Step(s, e), x, key) && InTime(Step(s, e), key)
  {
    InTimeNoStray(s, e, key);
    LeakKeepsCounter(s, e, x, key);
    StepInTime(s, e, key);
  }

  lemma {:induction false} LifeOnly(events: seq<Event>, states: seq<State>, i: nat, j: nat, key: Key)
    requires IsRun(events, states) && i <= j < |states|
    ensures Count(states[i].lives, key) <= Count(states[j].lives, key) && states[i].now <= states[j].now
    ensures Present(states[j], key) && Count(states[j].lives, key) == Count(states[i].lives, key) ==>
              Present(states[i], key) && At(states[j].counters, key).expiresAt == At(states[i].counters, key).expiresAt
  {
    if i < j {
      LifeOnly(events, states, i, j - 1, key);
      RunBalances(events, states, j - 1, key);
      FollowsAt(events, states, j - 1);
      StepOfLife(states[j - 1], events[j - 1], key);
    }
  }

  /** From its expiry on, strays or not, a leaked slot counts in no counter of the key, old or new. */
  lemma LeakEndsAtExpiry(events: seq<Event>, states: seq<State>, i: nat, j: nat, x: StreamId, key: Key)
    requires IsRun(events, states) && i <= j < |states| && Present(states[i], key) && LeakedNow(states[i], x, key)
    requires states[j].now >= At(states[i].counters, key).expiresAt
    ensures Present(states[j], key) ==> x !in Holders(states[j], key)
  {
    LifeOnly(events, states, i, j, key);
    RunBalances(events, states, j, key);
    LeakedUnchanged(events, states, i, j, x);
  }

  /** The leaked slot holds its counter in the life of `start`, and no stream has outlived that. */
  ghost predicate StillHeld(start: State, s: State, x: StreamId, key: Key)
    requires Present(start, key)
  {
    HeldAfter(start, s, x, key) && InTime(s, key)
  }

  ghost predicate KeepsHolding(start: State, t: State, r: State, x: StreamId, key: Key)
    requires Present(start, key)
  {
    t.now <= r.now && (StillHeld(start, t, x, key) && r.now < At(start.counters, key).expiresAt ==> StillHeld(start, r, x, key))
  }

  lemma {:induction false} HeldAlong(states: seq<State>, i: nat, j: nat, x: StreamId, key: Key)
    requires i <= j < |states| && Present(states[i], key) && StillHeld(states[i], states[i], x, key)
    requires forall k :: i <= k < j ==> KeepsHolding(states[i], states[k], states[k + 1], x, key)
    requires states[j].now < At(states[i].counters, key).expiresAt
    ensures StillHeld(states[i], states[j], x, key)
  {
    if i < j {
      assert KeepsHolding(states[i], states[j - 1], states[j - 1 + 1], x, key);
      HeldAlong(states, i, j - 1, x, key);
    }
  }

  lemma LeakHeldUntilExpiry(events: seq<Event>, states: seq<State>, i: nat, j: nat, x: StreamId, key: Key)
    requires IsRun(events, states) && i <= j < |states| && Present(states[i], key) && LeakedNow(states[i], x, key)
    requires InTime(states[i], key) && states[j].now < At(states[i].counters, key).expiresAt
    ensures StillHeld(states[i], states[j], x, key)
  {
    RunBalances(events, states, i, key);
    forall k | i <= k < j
      ensures KeepsHolding(states[i], states[k], states[k + 1], x, key)
    {
      NextKeepsHolding(events, states, states[i], k, x, key);
    }
    HeldAlong(states, i, j, x, key);
  }

  lemma NextKeepsHolding(events: seq<Event>, states: seq<State>, start: State, n: nat, x: StreamId, key: Key)
    requires IsRun(events, states) && n < |events| && Present(start, key)
    ensures KeepsHolding(start, states[n], states[n + 1], x, key)
  {
    NowGrows(events, states, n);
    if StillHeld(start, states[n], x, key) && states[n + 1].now < At(start.counters, key).expiresAt {
      NextHoldsOn(events, states, start, n, x, key);
    }
  }

  lemma NowGrows(events: seq<Event>, states: seq<State>, n: nat)
    requires IsRun(events, states) && n < |events|
    ensures states[n].now <= states[n + 1].now
  {
    LifeOnly(events, states, n, n + 1, UserKey(0));
  }

  lemma NextHoldsOn(events: seq<Event>, states: seq<State>, start: State, n: nat, x: StreamId, key: Key)
    requires IsRun(events, states) && n < |events| && Present(start, key) && states[n].now < At(start.counters, key).expiresAt
    requires HeldAfter(start, states[n], x, key) && InTime(states[n], key) && states[n + 1].now < At(start.counters, key).expiresAt
    ensures HeldAfter(start, states[n + 1], x, key) && InTime(states[n + 1], key)
  {
    RunBalances(events, states, n, key);
    FollowsAt(events, states, n);
    HoldsOn(start, states[n], events[n], x, key);
  }

  /**
   How long a slot is held that was leaked before the key ever expired under a live stream, exactly: until the expiry that
   the increment from nothing set for its key, and no longer.
   */
  lemma LeakHeldExactlyUntilExpiry(events: seq<Event>, states: seq<State>, i: nat, j: nat, x: StreamId, key: Key)
    requires IsRun(events, states) && i <= j < |states| && Present(states[i], key) && LeakedNow(states[i], x, key)
    requires NoDrops(events, states, i, key)
    ensures Present(states[j], key) && x in Holders(states[j], key) <==> states[j].now < At(states[i].counters, key).expiresAt
  {
    if states[j].now < At(states[i].counters, key).expiresAt {
      StaysInTime(events, states, 0, i, key);
      LeakHeldUntilExpiry(events, states, i, j, x, key);
    } else {
      LeakEndsAtExpiry(events, states, i, j, x, key);
    }
  }

  lemma LeakedStays(s: State, e: Event, x: StreamId)
    requires Follows(s, e, Step(s, e)) && x in s.streams && s.streams[x].phase.Leaked?
    ensures x in Step(s, e).streams && Step(s, e).streams[x] == s.streams[x]
  {
  }

  lemma {:induction false} LeakedUnchanged(events: seq<Event>, states: seq<State>, i: nat, j: nat, x: StreamId)
    requires IsRun(events, states) && i <= j < |states| && x in states[i].streams && states[i].streams[x].phase.Leaked?
    ensures x in states[j].streams && states[j].streams[x] == states[i].streams[x]
  {
    if i < j {
      LeakedUnchanged(events, states, i, j - 1, x);
      FollowsAt(events, states, j - 1);
      LeakedStays(states[j - 1], events[j - 1], x);
    }
  }

  // ------------------------------------------------------------------ limits

  /** With a fixed limit for a key its counter never exceeds it. */
  lemma {:induction false} CounterWithinLimit(events: seq<Event>, states: seq<State>, n: nat, key: Key, limit: nat)
    requires IsRun(events, states) && n < |states|
    requires AllLimited(events, key, limit)
    ensures Get(states[n].counters, key) <= limit
  {
    if n > 0 {
      CounterWithinLimit(events, states, n - 1, key, limit);
      RunBalances(events, states, n - 1, key);
      FollowsAt(events, states, n - 1);
      StepWithinLimit(states[n - 1], events[n - 1], key, limit);
    }
  }

  ghost predicate LimitedTo(e: Event, key: Key, limit: nat) {
    e.Subscribe? ==> (key == UserKey(e.user) ==> e.userLimit == limit) && (key == IpKey(e.ip) ==> e.ipLimit == limit)
  }

  lemma StepWithinLimit(s: State, e: Event, key: Key, limit: nat)
    requires Balanced(s, key) && Get(s.counters, key) <= limit && LimitedTo(e, key, limit)
    ensures Get(Step(s, e).counters, key) <= limit
  {
    match e
    case Subscribe(x, user, userLimit, ip, ipLimit, ttl) =>
      var entries := [Entry(UserKey(user), userLimit), Entry(IpKey(ip), ipLimit)];
      SubscribedKey(s, x, user, ip, ttl, key);
      assert HasRoom(s.counters, entries) ==>
               Get(s.counters, entries[0].key) < entries[0].limit && Get(s.counters, entries[1].key) < entries[1].limit;
    case Teardown(x) =>
      if x in s.streams {
        TornDownKey(s, x, key);
      }
    case _ =>
  }

  ghost predicate AllLimited(events: seq<Event>, key: Key, limit: nat) {
    forall i :: 0 <= i < |events| ==> LimitedTo(events[i], key, limit)
  }

  /** What a limit is meant to bound: the live streams, and those leaked in the counter that is there. */
  ghost function Load(s: State, key: Key): nat {
    |LiveUsers(s, key)| + if Present(s, key) then |LeakedHolders(s, key)| else 0
  }

  /** If the key has never expired while one of its streams was live, no more streams than the limit use it. */
  lemma NeverOverLimit(events: seq<Event>, states: seq<State>, n: nat, key: Key, limit: nat)
    requires IsRun(events, states) && n < |states| && NoDrops(events, states, n, key) && AllLimited(events, key, limit)
    ensures |LiveUsers(states[n], key)| <= Load(states[n], key) <= limit
  {
    StaysInTime(events, states, 0, n, key);
    LoadInTime(events, states, n, key, limit);
  }

  lemma LoadInTime(events: seq<Event>, states: seq<State>, n: nat, key: Key, limit: nat)
    requires IsRun(events, states) && n < |states| && InTime(states[n], key) && AllLimited(events, key, limit)
    ensures Load(states[n], key) <= limit
  {
    CounterWithinLimit(events, states, n, key, limit);
    RunBalances(events, states, n, key);
    CountsInTime(states[n], key);
  }

  /** The live streams that no counter knows of: their key has expired since they were opened. */
  ghost function Outlived(s: State, key: Key): set<StreamId> {
    set x | x in LiveUsers(s, key) && !(Present(s, key) && x in Holders(s, key))
  }

  /** However long streams live: the live and leaked ones are what the counter says, what strayed into it, and what outlived it. */
  lemma LiveIsExact(events: seq<Event>, states: seq<State>, n: nat, key: Key)
    requires IsRun(events, states) && n < |states|
    ensures var s := states[n];
            Load(s, key) == Get(s.counters, key) + (if Present(s, key) then Count(s.strays, key) else 0) + |Outlived(s, key)|
  {
    var s := states[n];
    CounterIsExact(events, states, n, key);
    if Present(s, key) {
      assert LiveUsers(s, key) == (Holders(s, key) - LeakedHolders(s, key)) + Outlived(s, key);
    } else {
      assert LiveUsers(s, key) == Outlived(s, key);
    }
  }

  // ------------------------------------------- exactly when it is exceeded

  lemma {:induction false} UnusedId(ids: set<StreamId>) returns (x: StreamId)
    ensures forall y :: y in ids ==> y < x
    decreases ids
  {
    if ids == {} {
      x := 0;
    } else {
      var y :| y in ids;
      x := UnusedId(ids - {y});
      assert forall z :: z in ids ==> z == y || z in ids - {y};
      x := if y < x then x else y + 1;
    }
  }

  function Above(s: State, key: Key): nat {
    if Get(s.counters, key) < 0 then 0 else Get(s.counters, key) + 1
  }

  /** A new stream of the key under its limit; the limit of its other key is no obstacle. */
  function NewStream(s: State, x: StreamId, key: Key, limit: nat): Event {
    match key
    case UserKey(user) => Subscribe(x, user, limit, 0, Above(s, IpKey(0)), 1)
    case IpKey(ip) => Subscribe(x, 0, Above(s, UserKey(0)), ip, limit, 1)
  }

  lemma NewStreamAdmitted(s: State, x: StreamId, key: Key, limit: nat)
    requires Get(s.counters, key) < limit && x !in s.streams
    ensures var e := NewStream(s, x, key, limit);
            && LimitedTo(e, key, limit) && Follows(s, e, Step(s, e))
            && Step(s, e) == Subscribed(s, x, e.user, e.ip, 1) && Get(Step(s, e).counters, key) == Get(s.counters, key) + 1
  {
    var e := NewStream(s, x, key, limit);
    SubscribedKey(s, x, e.user, e.ip, 1, key);
  }

  /** What has outlived its counter is not counted by later streams either. */
  lemma LateStaysLate(s: State, x: StreamId, user: Subject, ip: Subject, key: Key)
    requires Balanced(s, key) && !InTime(s, key) && x !in s.streams && (key == UserKey(user) || key == IpKey(ip))
    ensures !InTime(Subscribed(s, x, user, ip, 1), key)
  {
    var t := Subscribed(s, x, user, ip, 1);
    SubscribedKey(s, x, user, ip, 1, key);
    if !Present(s, key) || Count(s.strays, key) == 0 {
      var y :| y in LiveUsers(s, key) && !(Present(s, key) && y in Holders(s, key));
      assert y in LiveUsers(t, key) && y !in Holders(t, key);
    }
  }

  /** The run goes on with these events, each under the limit of the key. */
  ghost predicate Continues(events: seq<Event>, states: seq<State>, more: seq<Event>, later: seq<State>, key: Key, limit: nat) {
    |later| == |more| && IsRun(events + more, states + later) && AllLimited(more, key, limit)
  }

  lemma ContinueOne(events: seq<Event>, states: seq<State>, e: Event, key: Key, limit: nat)
    requires IsRun(events, states) && Follows(states[|events|], e, Step(states[|events|], e)) && LimitedTo(e, key, limit)
    ensures Continues(events, states, [e], [Step(states[|events|], e)], key, limit)
  {
    var events', states' := events + [e], states + [Step(states[|events|], e)];
    forall i | 0 <= i < |events'|
      ensures Follows(states'[i], events'[i], states'[i + 1])
    {
      if i < |events| {
        FollowsAt(events, states, i);
      }
    }
  }

  lemma ContinueTwice(events: seq<Event>, states: seq<State>, more: seq<Event>, later: seq<State>,
                      further: seq<Event>, last: seq<State>, key: Key, limit: nat)
    requires Continues(events, states, more, later, key, limit) && Continues(events + more, states + later, further, last, key, limit)
    ensures events + (more + further) == events + more + further && states + (later + last) == states + later + last
    ensures Continues(events, states, more + further, later + last, key, limit)
  {
    ConcatAssociates(events, more, further);
    ConcatAssociates(states, later, last);
  }

  predicate AllSubscribe(events: seq<Event>) {
    forall i :: 0 <= i < |events| ==> events[i].Subscribe?
  }

  /** Once a stream has outlived its counter, new ones fill the counter up to the limit beside it. */
  lemma {:induction false} Overfill(events: seq<Event>, states: seq<State>, key: Key, limit: nat)
      returns (more: seq<Event>, later: seq<State>)
    requires IsRun(events, states) && !InTime(states[|events|], key) && Get(states[|events|].counters, key) <= limit
    ensures Continues(events, states, more, later, key, limit) && AllSubscribe(more)
    ensures var s := (states + later)[|events + more|];
            !InTime(s, key) && Get(s.counters, key) == limit
    decreases limit - Get(states[|events|].counters, key)
  {
    var s := states[|events|];
    if Get(s.counters, key) == limit {
      more, later := [], [];
      AppendNothing(events);
      AppendNothing(states);
    } else {
      var x := UnusedId(s.streams.Keys);
      var e := NewStream(s, x, key, limit);
      RunBalances(events, states, |events|, key);
      NewStreamAdmitted(s, x, key, limit);
      LateStaysLate(s, x, e.user, e.ip, key);
      ContinueOne(events, states, e, key, limit);
      var rest, last := Overfill(events + [e], states + [Step(s, e)], key, limit);
      ContinueTwice(events, states, [e], [Step(s, e)], rest, last, key, limit);
      more, later := [e] + rest, [Step(s, e)] + last;
    }
  }

  lemma LateAndFull(events: seq<Event>, states: seq<State>, key: Key, limit: nat)
    requires IsRun(events, states) && !InTime(states[|events|], key) && Get(states[|events|].counters, key) == limit
    ensures Load(states[|events|], key) > limit
  {
    var s := states[|events|];
    LiveIsExact(events, states, |events|, key);
    RunBalances(events, states, |events|, key);
    if !Present(s, key) || Count(s.strays, key) == 0 {
      var y :| y in LiveUsers(s, key) && !(Present(s, key) && y in Holders(s, key));
      assert y in Outlived(s, key);
    }
  }

  /** The run goes on with nothing but new streams, each under the limit, and ends with more of them than it allows. */
  ghost predicate Exceeds(events: seq<Event>, states: seq<State>, more: seq<Event>, later: seq<State>, key: Key, limit: nat) {
    && Continues(events, states, more, later, key, limit) && AllSubscribe(more)
    && Load((states + later)[|events + more|], key) > limit
  }

  ghost predicate CanExceed(events: seq<Event>, states: seq<State>, key: Key, limit: nat) {
    exists more, later :: Exceeds(events, states, more, later, key, limit)
  }

  /** Where new streams alone can come to exceed the limit, exactly: where some stream has outlived its counter. */
  lemma OverLimitExactlyWhen(events: seq<Event>, states: seq<State>, key: Key, limit: nat)
    requires IsRun(events, states) && AllLimited(events, key, limit)
    ensures CanExceed(events, states, key, limit) <==> !InTime(states[|events|], key)
  {
    if InTime(states[|events|], key) {
      forall more, later
        ensures !Exceeds(events, states, more, later, key, limit)
      {
        if Continues(events, states, more, later, key, limit) && AllSubscribe(more) {
          StaysInTime(events + more, states + later, |events|, |events + more|, key);
          LoadInTime(events + more, states + later, |events + more|, key, limit);
        }
      }
    } else {
      var more, later := ExcessWhenLate(events, states, key, limit);
    }
  }

  lemma ExcessWhenLate(events: seq<Event>, states: seq<State>, key: Key, limit: nat) returns (more: seq<Event>, later: seq<State>)
    requires IsRun(events, states) && AllLimited(events, key, limit) && !InTime(states[|events|], key)
    ensures Exceeds(events, states, more, later, key, limit)
  {
    CounterWithinLimit(events, states, |events|, key, limit);
    more, later := Overfill(events, states, key, limit);
    LateAndFull(events + more, states + later, key, limit);
  }

  lemma RunPrefix(events: seq<Event>, states: seq<State>, m: nat)
    requires IsRun(events, states) && m <= |events|
    ensures IsRun(events[..m], states[..m + 1])
  {
    forall i | 0 <= i < m
      ensures Follows(states[..m + 1][i], events[..m][i], states[..m + 1][i + 1])
    {
      FollowsAt(events, states, i);
    }
  }

  /**
   The limit of a key is safe, exactly: at no point of a run up to n can new streams exceed it, if and only if the key
   has not expired by then while one of its streams was live.
   */
  lemma LimitIsSafeExactlyWithoutDrops(events: seq<Event>, states: seq<State>, n: nat, key: Key, limit: nat)
    requires IsRun(events, states) && n < |states| && AllLimited(events, key, limit)
    ensures (forall m :: 0 <= m <= n ==> !CanExceed(events[..m], states[..m + 1], key, limit)) <==> NoDrops(events, states, n, key)
  {
    forall m | 0 <= m <= n
      ensures CanExceed(events[..m], states[..m + 1], key, limit) <==> !InTime(states[m], key)
    {
      RunPrefix(events, states, m);
      OverLimitExactlyWhen(events[..m], states[..m + 1], key, limit);
    }
    InTimeExactlyWithoutDrops(events, states, n, key);
    if NoDrops(events, states, n, key) {
      forall m | 0 <= m <= n
        ensures !CanExceed(events[..m], states[..m + 1], key, limit)
      {
        assert InTime(states[m], key);
      }
    } else {
      var m :| 0 <= m <= n && !InTime(states[m], key);
      assert CanExceed(events[..m], states[..m + 1], key, limit);
    }
  }

  /** As soon as the key has expired while one of its streams was live, new streams alone can exceed the limit. */
  lemma ExcessAfterDrop(events: seq<Event>, states: seq<State>, key: Key, limit: nat) returns (more: seq<Event>, later: seq<State>)
    requires IsRun(events, states) && |events| > 0 && AllLimited(events, key, limit)
    requires Drops(states[|events| - 1], events[|events| - 1], key)
    ensures Exceeds(events, states, more, later, key, limit)
  {
    FollowsAt(events, states, |events| - 1);
    DroppedIsLate(states[|events| - 1], events[|events| - 1], key);
    more, later := ExcessWhenLate(events, states, key, limit);
  }

  /** How far a run is from a stream that has outlived its counter. */
  ghost function Distance(s: State, key: Key): nat {
    if !InTime(s, key) then 0 else if LiveUsers(s, key) != {} then 1 else if !Present(s, key) then 2 else 3
  }

  /** Waiting for the expiry of the counter, or opening a stream if there is none, comes nearer. */
  lemma Nearer(s: State, key: Key, limit: nat) returns (e: Event)
    requires Balanced(s, key) && InTime(s, key) && limit > 0
    ensures LimitedTo(e, key, limit) && Follows(s, e, Step(s, e)) && Distance(Step(s, e), key) < Distance(s, key)
  {
    if Present(s, key) {
      e := Tick(At(s.counters, key).expiresAt - s.now);
      if LiveUsers(s, key) != {} {
        DroppedIsLate(s, e, key);
      } else {
        assert LiveUsers(Step(s, e), key) == {};
      }
    } else {
      var x := UnusedId(s.streams.Keys);
      e := NewStream(s, x, key, limit);
      NewStreamAdmitted(s, x, key, limit);
      CountsInTime(s, key);
      assert x in LiveUsers(Step(s, e), key);
    }
  }

  lemma {:induction false} BecomeLate(events: seq<Event>, states: seq<State>, key: Key, limit: nat)
      returns (more: seq<Event>, later: seq<State>)
    requires IsRun(events, states) && limit > 0
    ensures Continues(events, states, more, later, key, limit) && !InTime((states + later)[|events + more|], key)
    decreases Distance(states[|events|], key)
  {
    var s := states[|events|];
    if !InTime(s, key) {
      more, later := [], [];
      AppendNothing(events);
      AppendNothing(states);
    } else {
      RunBalances(events, states, |events|, key);
      var e := Nearer(s, key, limit);
      ContinueOne(events, states, e, key, limit);
      var rest, last := BecomeLate(events + [e], states + [Step(s, e)], key, limit);
      ContinueTwice(events, states, [e], [Step(s, e)], rest, last, key, limit);
      more, later := [e] + rest, [Step(s, e)] + last;
    }
  }

  /** However a run has gone so far, the expiry of the key at the wrong time can still bring it above its limit. */
  lemma AnyRunCanExceed(events: seq<Event>, states: seq<State>, key: Key, limit: nat) returns (more: seq<Event>, later: seq<State>)
    requires IsRun(events, states) && AllLimited(events, key, limit) && limit > 0
    ensures Continues(events, states, more, later, key, limit) && Load((states + later)[|events + more|], key) > limit
  {
    var first, firstStates := BecomeLate(events, states, key, limit);
    var rest, restStates := ExcessWhenLate(events + first, states + firstStates, key, limit);
    ContinueTwice(events, states, first, firstStates, rest, restStates, key, limit);
    more, later := first + rest, firstStates + restStates;
  }

  /** A stream that outlives its counter is forgotten: with a limit of one, a second one can then be opened beside it. */
  lemma OutlivedCounterAdmitsMore(ttl: nat) returns (events: seq<Event>, states: seq<State>)
    requires ttl > 0
    ensures IsRun(events, states) && |events| == 4 && forall i :: 0 <= i < 4 ==> LimitedTo(events[i], UserKey(0), 1)
    ensures Drops(states[2], events[2], UserKey(0)) && LiveUsers(states[4], UserKey(0)) == {0, 1}
  {
    var s1 := Subscribed(INITIAL, 0, 0, 0, ttl);
    var s2 := s1.(streams := s1.streams[0 := s1.streams[0].(phase := Open)]);
    var s3 := Step(s2, Tick(ttl));
    var s4 := Subscribed(s3, 1, 0, 0, ttl);
    SubscribedKey(INITIAL, 0, 0, 0, ttl, UserKey(0));
    SubscribedKey(INITIAL, 0, 0, 0, ttl, IpKey(0));
    OutlivedCounter(s2, ttl);
    events, states := FourSteps(Subscribe(0, 0, 1, 0, 2, ttl), s1, Acquired(0), s2, Tick(ttl), s3, Subscribe(1, 0, 1, 0, 2, ttl), s4);
    assert 0 in LiveUsers(s2, UserKey(0));
    assert s4.streams.Keys == {0, 1};
  }

  lemma OutlivedCounter(s: State, ttl: nat)
    requires s.now == 0 && At(s.counters, UserKey(0)) == At(s.counters, IpKey(0)) == Slot(1, ttl) && 1 !in s.streams && ttl > 0
    ensures var t := Step(s, Tick(ttl));
            Follows(t, Subscribe(1, 0, 1, 0, 2, ttl), Subscribed(t, 1, 0, 0, ttl))
  {
    var t := Step(s, Tick(ttl));
    assert At(t.counters, UserKey(0)).Absent? && At(t.counters, IpKey(0)).Absent?;
  }

  lemma FourSteps(e0: Event, s1: State, e1: Event, s2: State, e2: Event, s3: State, e3: Event, s4: State)
      returns (events: seq<Event>, states: seq<State>)
    requires Follows(INITIAL, e0, s1) && Follows(s1, e1, s2) && Follows(s2, e2, s3) && Follows(s3, e3, s4)
    ensures IsRun(events, states) && events == [e0, e1, e2, e3] && states == [INITIAL, s1, s2, s3, s4]
  {
    events, states := [e0, e1, e2, e3], [INITIAL, s1, s2, s3, s4];
    assert Follows(states[0], events[0], states[1]) && Follows(states[1], events[1], states[2]);
    assert Follows(states[2], events[2], states[3]) && Follows(states[3], events[3], states[4]);
  }

  // ------------------------------------------------- the method makes the step

  method AcquireForStream(store: Store, user: Subject, userLimit: nat, ip: Subject, ipLimit: nat, now: int, ttl: nat) returns (ok: bool)
    requires Tidy(store.counters) && userLimit >= 1 && ipLimit >= 1
    modifies store
    ensures Tidy(store.counters)
    ensures ok <==> HasRoom(old(store.counters), [Entry(UserKey(user), userLimit), Entry(IpKey(ip), ipLimit)])
    ensures ok ==> Taken(old(store.counters), store.counters, [Entry(UserKey(user), userLimit), Entry(IpKey(ip), ipLimit)], now, ttl)
    ensures ok ==> forall s: State, x ::
              s.counters == old(store.counters) && s.now == now ==>
                forall key :: At(Subscribed(s, x, user, ip, ttl).counters, key) == At(store.counters, key)
    ensures !ok ==> store.counters == old(store.counters)
  {
    var entries := [Entry(UserKey(user), userLimit), Entry(IpKey(ip), ipLimit)];
    ghost var before := store.counters;
    ok := store.Acquire(entries, now, ttl);
    if ok {
      forall s: State, x, key | s.counters == before && s.now == now
        ensures At(Subscribed(s, x, user, ip, ttl).counters, key) == At(store.counters, key)
      {
        SubscribedKey(s, x, user, ip, ttl, key);
        AmongTwo(entries, key);
      }
    }
  }

  lemma AmongTwo(entries: seq<Entry>, key: Key)
    requires |entries| == 2
    ensures Among(entries, key) <==> key == entries[0].key || key == entries[1].key
  {
  }
}
