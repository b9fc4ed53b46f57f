/** Concurrent resumes of paused runs, interleaved with pauses, cleanups and the clock
    (aguiadk/bridge.go, the resume block; aguiadk/runstore.go). */
module ResumeProtocol {
  import opened Events
  import opened RunStores
  import opened Bridge

  /** A stored run with the serial number of the pause that saved it. */
  datatype Ticket = Ticket(entry: Entry, serial: nat)

  /** One resume request on its way. It keeps the run it peeked at, and (for the proofs only)
      whether a later pause has saved the same key since. */
  datatype Attempt =
    | Peeked(key: string, entries: seq<ResumeEntry>, seen: Ticket, resaved: bool)
    | Validated(key: string, entries: seq<ResumeEntry>, seen: Ticket, resaved: bool)
    | Executed(key: string, seen: Ticket, claimed: Ticket, resaved: bool)
    | Rejected

  datatype State = State(now: int, store: map<string, Ticket>, nextSerial: nat, attempts: map<nat, Attempt>)

  /** The atomic steps; store operations hold the store's lock. */
  datatype Action =
    | Pause(key: string, run: PausedRun)
    | Peek(who: nat, key: string, entries: seq<ResumeEntry>)
    | Validate(who: nat)
    | Claim(who: nat)
    | Tick(elapsed: nat)
    | CleanUp

  function RunsIn(store: map<string, Ticket>): Runs { map k | k in store :: store[k].entry }

  /** The store moves by one of its operations; entries that stay keep their serial number. */
  ghost predicate StoreStep(s: State, op: Op, after: map<string, Ticket>, reply: Option<PausedRun>, ttl: int, max: int) {
    && Step(RunsIn(s.store), op, s.now, ttl, max, RunsIn(after), reply)
    && forall k :: k in after ==>
      if op.Save? && k == op.key then after[k].serial == s.nextSerial else k in s.store && after[k] == s.store[k]
  }

  function Resaved(a: Attempt, key: string): Attempt {
    match a
    case Peeked(k, entries, seen, resaved) => Peeked(k, entries, seen, resaved || k == key)
    case Validated(k, entries, seen, resaved) => Validated(k, entries, seen, resaved || k == key)
    case _ => a
  }

  ghost predicate Next(s: State, action: Action, t: State, ttl: int, max: int) {
    match action
    case Pause(key, run) =>
      && StoreStep(s, Save(key, run), t.store, None, ttl, max)
      && t == State(s.now, t.store, s.nextSerial + 1, map a | a in s.attempts :: Resaved(s.attempts[a], key))
    case Peek(who, key, entries) =>
      && who !in s.attempts
      && exists reply ::
        && StoreStep(s, Load(key), t.store, reply, ttl, max)
        && t == s.(store := t.store, attempts := s.attempts[who :=
          if reply.Some? then Peeked(key, entries, s.store[key], false) else Rejected])
    case Validate(who) =>
      && who in s.attempts && s.attempts[who].Peeked?
      && var a := s.attempts[who];
      t == s.(attempts := s.attempts[who :=
        if Settles(a.entries, a.seen.entry.run) then Validated(a.key, a.entries, a.seen, a.resaved) else Rejected])
    case Claim(who) =>
      && who in s.attempts && s.attempts[who].Validated?
      && var a := s.attempts[who];
      exists reply ::
        && StoreStep(s, LoadAndDelete(a.key), t.store, reply, ttl, max)
        && t == s.(store := t.store, attempts := s.attempts[who :=
          if reply.Some? then Executed(a.key, a.seen, s.store[a.key], a.resaved) else Rejected])
    case Tick(elapsed) => t == s.(now := s.now + elapsed)
    case CleanUp => StoreStep(s, Op.Cleanup, t.store, None, ttl, max) && t == s.(store := t.store)
  }

  const Initial: State := State(0, map[], 0, map[])

  ghost predicate Behaviour(ss: seq<State>, actions: seq<Action>, ttl: int, max: int) {
    && |ss| == |actions| + 1 && ss[0] == Initial
    && forall i :: 0 <= i < |actions| ==> Next(ss[i], actions[i], ss[i + 1], ttl, max)
  }

  predicate InFlight(a: Attempt) { a.Peeked? || a.Validated? }

  /** Serial numbers tell stored and claimed runs apart, and an attempt's key still holds
      what it peeked at unless it was saved again. */
  ghost predicate Inv(s: State) {
    && (forall k :: k in s.store ==> s.store[k].serial < s.nextSerial)
    && (forall k, l :: k in s.store && l in s.store && s.store[k].serial == s.store[l].serial ==> k == l)
    && (forall a :: a in s.attempts && InFlight(s.attempts[a]) ==> AttemptInv(s, s.attempts[a]))
    && (forall a :: a in s.attempts && s.attempts[a].Executed? ==> ExecutedInv(s, s.attempts[a]))
    && (forall a, b :: a in s.attempts && b in s.attempts && s.attempts[a].Executed? && s.attempts[b].Executed? && a != b ==>
      s.attempts[a].claimed.serial != s.attempts[b].claimed.serial)
  }

  predicate AttemptInv(s: State, a: Attempt)
    requires InFlight(a)
  {
    && a.seen.serial < s.nextSerial
    && (a.Validated? ==> Settles(a.entries, a.seen.entry.run))
    && (a.key in s.store ==> (s.store[a.key] == a.seen <==> !a.resaved))
    && (a.key in s.store && a.resaved ==> s.store[a.key].serial > a.seen.serial)
  }

  ghost predicate ExecutedInv(s: State, a: Attempt)
    requires a.Executed?
  {
    && a.claimed.serial < s.nextSerial
    && (forall k :: k in s.store ==> s.store[k].serial != a.claimed.serial)
    && (a.claimed == a.seen <==> !a.resaved)
  }

  lemma StoreAfter(s: State, op: Op, after: map<string, Ticket>, reply: Option<PausedRun>, ttl: int, max: int)
    requires StoreStep(s, op, after, reply, ttl, max) && !op.Save?
    ensures forall k :: k in after ==> k in s.store && after[k] == s.store[k]
    ensures reply.Some? ==> op.key in s.store && op.key in RunsIn(s.store) && s.store[op.key].entry.run == reply.value
    ensures op.LoadAndDelete? ==> op.key !in after
  {
    if op.LoadAndDelete? {
      assert op.key !in RunsIn(after);
    }
  }

  lemma PauseKeepsInv(s: State, key: string, run: PausedRun, t: State, ttl: int, max: int)
    requires Inv(s) && Next(s, Pause(key, run), t, ttl, max)
    ensures Inv(t)
  {
    forall a | a in t.attempts && InFlight(t.attempts[a]) ensures AttemptInv(t, t.attempts[a]) {
      assert AttemptInv(s, s.attempts[a]);
    }
    forall a | a in t.attempts && t.attempts[a].Executed? ensures ExecutedInv(t, t.attempts[a]) {
      assert t.attempts[a] == s.attempts[a] && ExecutedInv(s, s.attempts[a]);
    }
    forall a, b | a in t.attempts && b in t.attempts && t.attempts[a].Executed? && t.attempts[b].Executed? && a != b
      ensures t.attempts[a].claimed.serial != t.attempts[b].claimed.serial
    {
      assert t.attempts[a] == s.attempts[a] && t.attempts[b] == s.attempts[b];
    }
  }

  lemma PeekKeepsInv(s: State, who: nat, key: string, entries: seq<ResumeEntry>, t: State, ttl: int, max: int)
    requires Inv(s) && Next(s, Peek(who, key, entries), t, ttl, max)
    ensures Inv(t)
  {
    var reply :| StoreStep(s, Load(key), t.store, reply, ttl, max)
      && t == s.(store := t.store, attempts := s.attempts[who :=
        if reply.Some? then Peeked(key, entries, s.store[key], false) else Rejected]);
    StoreAfter(s, Load(key), t.store, reply, ttl, max);
  }

  lemma ClaimKeepsInv(s: State, who: nat, t: State, ttl: int, max: int)
    requires Inv(s) && Next(s, Claim(who), t, ttl, max)
    ensures Inv(t)
  {
    var a := s.attempts[who];
    var reply :| StoreStep(s, LoadAndDelete(a.key), t.store, reply, ttl, max)
      && t == s.(store := t.store, attempts := s.attempts[who :=
        if reply.Some? then Executed(a.key, a.seen, s.store[a.key], a.resaved) else Rejected]);
    StoreAfter(s, LoadAndDelete(a.key), t.store, reply, ttl, max);
  }

  lemma ValidateKeepsInv(s: State, who: nat, t: State, ttl: int, max: int)
    requires Inv(s) && Next(s, Validate(who), t, ttl, max)
    ensures Inv(t)
  {
  }

  lemma CleanUpKeepsInv(s: State, t: State, ttl: int, max: int)
    requires Inv(s) && Next(s, CleanUp, t, ttl, max)
    ensures Inv(t)
  {
    StoreAfter(s, Op.Cleanup, t.store, None, ttl, max);
  }

  lemma NextKeepsInv(s: State, action: Action, t: State, ttl: int, max: int)
    requires Inv(s) && Next(s, action, t, ttl, max)
    ensures Inv(t)
  {
    match action
    case Pause(key, run) => PauseKeepsInv(s, key, run, t, ttl, max);
    case Peek(who, key, entries) => PeekKeepsInv(s, who, key, entries, t, ttl, max);
    case Validate(who) => ValidateKeepsInv(s, who, t, ttl, max);
    case Claim(who) => ClaimKeepsInv(s, who, t, ttl, max);
    case Tick(_) =>
    case CleanUp => CleanUpKeepsInv(s, t, ttl, max);
  }

  lemma {:induction false} BehaviourInv(ss: seq<State>, actions: seq<Action>, ttl: int, max: int, n: nat)
    requires Behaviour(ss, actions, ttl, max) && n < |ss|
    ensures Inv(ss[n])
  {
    if n > 0 {
      BehaviourInv(ss, actions, ttl, max, n - 1);
      NextKeepsInv(ss[n - 1], actions[n - 1], ss[n - 1 + 1], ttl, max);
    }
  }

  /** In every interleaving each saved run is claimed by at most one resume. */
  lemma ClaimedOnce(ss: seq<State>, actions: seq<Action>, ttl: int, max: int, n: nat, a: nat, b: nat)
    requires Behaviour(ss, actions, ttl, max) && n < |ss|
    requires a in ss[n].attempts && b in ss[n].attempts && a != b
    requires ss[n].attempts[a].Executed? && ss[n].attempts[b].Executed?
    ensures ss[n].attempts[a].claimed.serial != ss[n].attempts[b].claimed.serial
  {
    BehaviourInv(ss, actions, ttl, max, n);
  }

  /** What a resume executes is what it claimed exactly when no pause saved its key again
      between its peek and its claim: the code executes the run it peeked at. */
  lemma ExecutesWhatItClaimed(ss: seq<State>, actions: seq<Action>, ttl: int, max: int, n: nat, a: nat)
    requires Behaviour(ss, actions, ttl, max) && n < |ss|
    requires a in ss[n].attempts && ss[n].attempts[a].Executed?
    ensures ss[n].attempts[a].claimed == ss[n].attempts[a].seen <==> !ss[n].attempts[a].resaved
  {
    BehaviourInv(ss, actions, ttl, max, n);
  }

  /** So without such a pause no saved run is executed twice. */
  lemma ExecutedOnce(ss: seq<State>, actions: seq<Action>, ttl: int, max: int, n: nat, a: nat, b: nat)
    requires Behaviour(ss, actions, ttl, max) && n < |ss|
    requires a in ss[n].attempts && b in ss[n].attempts && a != b
    requires ss[n].attempts[a].Executed? && ss[n].attempts[b].Executed?
    requires !ss[n].attempts[a].resaved && !ss[n].attempts[b].resaved
    ensures ss[n].attempts[a].seen.serial != ss[n].attempts[b].seen.serial
  {
    BehaviourInv(ss, actions, ttl, max, n);
  }

  /** The steps of an attempt, found again in the history: an attempt peeks and later
      validates and claims; it counts as resaved when a pause of its key came between. */
  lemma {:induction false} AttemptHistory(ss: seq<State>, actions: seq<Action>, ttl: int, max: int, n: nat, a: nat)
      returns (peek: nat, end: nat)
    requires Behaviour(ss, actions, ttl, max) && n < |ss|
    requires a in ss[n].attempts && !ss[n].attempts[a].Rejected?
    ensures peek < end <= n && actions[peek].Peek? && actions[peek].who == a && actions[peek].key == ss[n].attempts[a].key
    ensures if ss[n].attempts[a].Executed? then end < n && actions[end] == Claim(a) else end == n
    ensures ss[n].attempts[a].resaved
      <==> exists i :: peek < i < end && actions[i].Pause? && actions[i].key == ss[n].attempts[a].key
  {
    var action := actions[n - 1];
    assert Next(ss[n - 1], action, ss[n - 1 + 1], ttl, max);
    if action.Peek? && action.who == a {
      peek, end := n - 1, n;
    } else {
      assert a in ss[n - 1].attempts && !ss[n - 1].attempts[a].Rejected?;
      peek, end := AttemptHistory(ss, actions, ttl, max, n - 1, a);
      if !ss[n - 1].attempts[a].Executed? {
        end := if action == Claim(a) then n - 1 else n;
      }
    }
  }

  /** A successful peek and a validation, whatever its verdict, leave the store as it was:
      a rejected resume can be retried until the run expires. */
  lemma RejectionLeavesStore(s: State, action: Action, t: State, ttl: int, max: int)
    requires Next(s, action, t, ttl, max)
    requires action.Validate? || (action.Peek? && t.attempts[action.who].Peeked?)
    ensures t.store == s.store
  {
    if action.Peek? {
      var reply :| StoreStep(s, Load(action.key), t.store, reply, ttl, max)
        && t == s.(store := t.store, attempts := s.attempts[action.who :=
          if reply.Some? then Peeked(action.key, action.entries, s.store[action.key], false) else Rejected]);
      assert RunsIn(t.store).Keys == t.store.Keys && RunsIn(s.store).Keys == s.store.Keys;
    }
  }

  // ----- A run executed twice -----

  function Waiting(at: int): Entry {
    Entry(PausedRun("t", "r", "s", [PendingToolCall("c1", "wipe", "{}")], None, map[]), at)
  }

  const Approval: seq<ResumeEntry> := [ResumeEntry("c1", true, "", None)]

  const First: Ticket := Ticket(Waiting(0), 0)
  const Second: Ticket := Ticket(Waiting(0), 1)

  function Race(i: nat): State {
    var peeked, valid := Peeked("k", Approval, First, false), Validated("k", Approval, First, false);
    var winner := Executed("k", First, First, false);
    match i
    case 0 => Initial
    case 1 => State(0, map["k" := First], 1, map[])
    case 2 => State(0, map["k" := First], 1, map[0 := peeked])
    case 3 => State(0, map["k" := First], 1, map[0 := valid])
    case 4 => State(0, map["k" := First], 1, map[0 := valid, 1 := peeked])
    case 5 => State(0, map["k" := First], 1, map[0 := valid, 1 := valid])
    case 6 => State(0, map[], 1, map[0 := valid, 1 := winner])
    case 7 => State(0, map["k" := Second], 2, map[0 := Validated("k", Approval, First, true), 1 := winner])
    case _ => State(0, map[], 2, map[0 := Executed("k", First, Second, true), 1 := winner])
  }

  function RaceAction(i: nat): Action {
    match i
    case 0 => Pause("k", Waiting(0).run)
    case 1 => Peek(0, "k", Approval)
    case 2 => Validate(0)
    case 3 => Peek(1, "k", Approval)
    case 4 => Validate(1)
    case 5 => Claim(1)
    case 6 => Pause("k", Waiting(0).run)
    case _ => Claim(0)
  }

  lemma RaceStep(i: nat)
    requires i < 8
    ensures Next(Race(i), RaceAction(i), Race(i + 1), 1800, 1024)
  {
    match i
    case 0 => PauseStep(Race(0), "k", Waiting(0).run, Race(1));
    case 1 => PeekStep(Race(1), 0, "k", Approval, Race(2));
    case 2 =>
    case 3 => PeekStep(Race(3), 1, "k", Approval, Race(4));
    case 4 =>
    case 5 => ClaimStep(Race(5), 1, Race(6));
    case 6 => PauseStep(Race(6), "k", Waiting(0).run, Race(7));
    case 7 => ClaimStep(Race(7), 0, Race(8));
  }

  /** The first resume peeks, a second one peeks, claims and executes, the continued run
      pauses again under the same key, and the first resume claims the new pause but
      executes the old one: the same pending call is executed twice, and what the second
      pause was waiting for never is. */
  lemma ExecutedTwice() returns (ss: seq<State>, actions: seq<Action>)
    ensures Behaviour(ss, actions, 1800, 1024)
    ensures
      var last := ss[|ss| - 1].attempts;
      && last.Keys == {0, 1} && last[0].Executed? && last[1].Executed?
      && last[0].seen == last[1].seen && last[0].claimed.serial != last[1].claimed.serial
  {
    ss, actions := seq(9, i requires 0 <= i => Race(i)), seq(8, i requires 0 <= i => RaceAction(i));
    forall i | 0 <= i < |actions| ensures Next(ss[i], actions[i], ss[i + 1], 1800, 1024) {
      RaceStep(i);
    }
  }

  lemma PauseStep(s: State, key: string, run: PausedRun, t: State)
    requires s.store == map[] && s.now == 0
    requires t == State(0, map[key := Ticket(Entry(run, 0), s.nextSerial)], s.nextSerial + 1,
                        map a | a in s.attempts :: Resaved(s.attempts[a], key))
    ensures Next(s, Pause(key, run), t, 1800, 1024)
  {
    assert RunsIn(s.store) == map[] && Live(map[], 0, 1800) == map[];
    assert RunsIn(t.store) == map[key := Entry(run, 0)];
  }

  lemma PeekStep(s: State, who: nat, key: string, entries: seq<ResumeEntry>, t: State)
    requires s.now == 0 && key in s.store && s.store[key].entry.at == 0 && who !in s.attempts
    requires t == s.(attempts := s.attempts[who := Peeked(key, entries, s.store[key], false)])
    ensures Next(s, Peek(who, key, entries), t, 1800, 1024)
  {
    assert StoreStep(s, Load(key), t.store, Some(s.store[key].entry.run), 1800, 1024);
  }

  lemma ClaimStep(s: State, who: nat, t: State)
    requires s.now == 0 && who in s.attempts && s.attempts[who].Validated?
    requires var a := s.attempts[who];
      && a.key in s.store && s.store[a.key].entry.at == 0
      && t == s.(store := s.store - {a.key}, attempts := s.attempts[who := Executed(a.key, a.seen, s.store[a.key], a.resaved)])
    ensures Next(s, Claim(who), t, 1800, 1024)
  {
    var key := s.attempts[who].key;
    assert RunsIn(t.store) == RunsIn(s.store) - {key};
    assert StoreStep(s, LoadAndDelete(key), t.store, Some(s.store[key].entry.run), 1800, 1024);
  }
}
