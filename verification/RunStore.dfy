/** The bounded, expiring store of paused runs (aguiadk/runstore.go). */
module RunStores {
  import opened Events
  import opened Adk

  const DEFAULT_TTL: int := 1800
  const DEFAULT_MAX_RUNS: int := 1024

  datatype PendingToolCall = PendingToolCall(id: string, name: string, args: string)

  datatype PausedRun = PausedRun(
    threadID: string, runID: string, sessionID: string,
    pending: seq<PendingToolCall>, requestedInput: Option<RequestedInput>, state: map<string, string>)

  datatype Entry = Entry(run: PausedRun, at: int)

  type Runs = map<string, Entry>

  function RunKey(threadID: string, runID: string): string { threadID + "|" + runID }

  // ----- Specification -----

  predicate Expired(e: Entry, now: int, ttl: int) { now - e.at >= ttl }

  function Live(runs: Runs, now: int, ttl: int): Runs {
    map k | k in runs && !Expired(runs[k], now, ttl) :: runs[k]
  }

  ghost predicate Oldest(runs: Runs, victim: string) {
    victim in runs && forall k :: k in runs ==> runs[victim].at <= runs[k].at
  }

  datatype Op = Save(key: string, run: PausedRun) | Load(key: string) | LoadAndDelete(key: string) | Delete(key: string) | Cleanup

  function Answer(runs: Runs, key: string, now: int, ttl: int): Option<PausedRun> {
    if key in runs && !Expired(runs[key], now, ttl) then Some(runs[key].run) else None
  }

  /** What one store operation may do: only a save of a key that is not live, into a store
      full of live entries, is nondeterministic, in the choice among its oldest entries. */
  ghost predicate Step(runs: Runs, op: Op, now: int, ttl: int, max: int, after: Runs, reply: Option<PausedRun>) {
    match op
    case Save(key, run) =>
      var live := Live(runs, now, ttl);
      && reply == None
      && if key in live || |live| < max then after == live[key := Entry(run, now)]
         else exists victim :: Oldest(live, victim) && after == (live - {victim})[key := Entry(run, now)]
    case Load(key) =>
      && reply == Answer(runs, key, now, ttl)
      && after == if reply.None? then runs - {key} else runs
    case LoadAndDelete(key) => reply == Answer(runs, key, now, ttl) && after == runs - {key}
    case Delete(key) => reply == None && after == runs - {key}
    case Cleanup => reply == None && after == Live(runs, now, ttl)
  }

  // ----- The store -----

  class RunStore {
    var runs: Runs
    const ttl: int
    const maxEntries: int

    ghost predicate Valid()
      reads this
    {
      ttl > 0 && maxEntries > 0 && |runs| <= maxEntries
    }

    constructor (ttl: int, maxEntries: int)
      ensures Valid() && runs == map[]
      ensures this.ttl == (if ttl <= 0 then 1800 else ttl)
      ensures this.maxEntries == (if maxEntries <= 0 then 1024 else maxEntries)
    {
      runs := map[];
      this.ttl := if ttl <= 0 then DEFAULT_TTL else ttl;
      this.maxEntries := if maxEntries <= 0 then DEFAULT_MAX_RUNS else maxEntries;
    }

    method PurgeExpired(now: int)
      requires Valid()
      modifies this`runs
      ensures Valid() && runs == Live(old(runs), now, ttl)
    {
      var todo := runs.Keys;
      while todo != {}
        invariant todo <= runs.Keys <= old(runs).Keys
        invariant forall k :: k in runs ==> runs[k] == old(runs)[k]
        invariant forall k :: k in old(runs) && k !in todo ==> (k in runs <==> !Expired(old(runs)[k], now, ttl))
        invariant |runs| <= |old(runs)|
        decreases todo
      {
        var k :| k in todo;
        if now - runs[k].at >= ttl {
          ghost var before := runs;
          runs := runs - {k};
          assert before.Keys == runs.Keys + {k};
        }
        todo := todo - {k};
      }
    }

    method EvictOldest()
      requires Valid()
      modifies this`runs
      ensures Valid()
      ensures old(runs) == map[] ==> runs == map[]
      ensures old(runs) != map[] ==>
        |runs| == |old(runs)| - 1 && exists victim :: Oldest(old(runs), victim) && runs == old(runs) - {victim}
    {
      var oldestKey, oldestAt, first := "", 0, true;
      var todo := runs.Keys;
      while todo != {}
        invariant todo <= runs.Keys
        invariant first ==> todo == runs.Keys
        invariant !first ==> oldestKey in runs && oldestAt == runs[oldestKey].at
        invariant !first ==> forall k :: k in runs && k !in todo ==> oldestAt <= runs[k].at
        decreases todo
      {
        var k :| k in todo;
        if first || runs[k].at < oldestAt {
          oldestKey, oldestAt, first := k, runs[k].at, false;
        }
        todo := todo - {k};
      }
      if !first {
        ghost var before := runs;
        assert Oldest(before, oldestKey);
        runs := runs - {oldestKey};
        assert before.Keys == runs.Keys + {oldestKey};
      } else {
        assert runs.Keys == {};
      }
    }

    method Save(key: string, run: PausedRun, now: int)
      requires Valid()
      modifies this`runs
      ensures Valid() && Step(old(runs), Op.Save(key, run), now, ttl, maxEntries, runs, None)
    {
      PurgeExpired(now);
      ghost var live := runs;
      if key !in runs && |runs| >= maxEntries {
        EvictOldest();
        assert live != map[];
      }
      ghost var before := runs;
      runs := runs[key := Entry(run, now)];
      assert runs.Keys == before.Keys + {key};
    }

    method Load(key: string, now: int) returns (run: Option<PausedRun>)
      requires Valid()
      modifies this`runs
      ensures Valid() && Step(old(runs), Op.Load(key), now, ttl, maxEntries, runs, run)
    {
      if key !in runs {
        assert runs - {key} == runs;
        return None;
      }
      var e := runs[key];
      if now - e.at >= ttl {
        ghost var before := runs;
        runs := runs - {key};
        assert before.Keys == runs.Keys + {key};
        return None;
      }
      return Some(e.run);
    }

    method LoadAndDelete(key: string, now: int) returns (run: Option<PausedRun>)
      requires Valid()
      modifies this`runs
      ensures Valid() && Step(old(runs), Op.LoadAndDelete(key), now, ttl, maxEntries, runs, run)
    {
      if key !in runs {
        assert runs - {key} == runs;
        return None;
      }
      var e := runs[key];
      ghost var before := runs;
      runs := runs - {key};
      assert before.Keys == runs.Keys + {key};
      if now - e.at >= ttl {
        return None;
      }
      return Some(e.run);
    }

    method Delete(key: string)
      requires Valid()
      modifies this`runs
      ensures Valid() && forall now :: Step(old(runs), Op.Delete(key), now, ttl, maxEntries, runs, None)
    {
      ghost var before := runs;
      runs := runs - {key};
      assert before.Keys == runs.Keys + if key in before then {key} else {};
    }

    method Cleanup(now: int)
      requires Valid()
      modifies this`runs
      ensures Valid() && Step(old(runs), Op.Cleanup, now, ttl, maxEntries, runs, None)
    {
      PurgeExpired(now);
    }
  }

  // ----- What single operations keep -----

  lemma MapSizes(m: Runs, n: Runs)
    requires m.Keys <= n.Keys
    ensures |m| <= |n|
    ensures m.Keys < n.Keys ==> |m| < |n|
  {
    assert n.Keys == m.Keys + (n.Keys - m.Keys);
    assert |n.Keys| == |m.Keys| + |n.Keys - m.Keys|;
  }

  lemma SaveKeepsBound(live: Runs, key: string, e: Entry, max: int, after: Runs)
    requires |live| <= max && max > 0
    requires if key in live || |live| < max then after == live[key := e]
             else exists victim :: Oldest(live, victim) && after == (live - {victim})[key := e]
    ensures |after| <= max
  {
    if key in live || |live| < max {
      assert after.Keys == live.Keys + {key};
    } else {
      var victim :| Oldest(live, victim) && after == (live - {victim})[key := e];
      assert live.Keys == (live - {victim}).Keys + {victim};
      assert after.Keys == (live - {victim}).Keys + {key};
    }
  }

  /** The store never outgrows its bound, and no operation returns an expired run. */
  lemma StepKeepsBound(runs: Runs, op: Op, now: int, ttl: int, max: int, after: Runs, reply: Option<PausedRun>)
    requires Step(runs, op, now, ttl, max, after, reply) && |runs| <= max && max > 0
    ensures |after| <= max
    ensures reply.Some? ==> op.key in runs && now - runs[op.key].at < ttl && runs[op.key].run == reply.value
  {
    if op.Save? {
      MapSizes(Live(runs, now, ttl), runs);
      SaveKeepsBound(Live(runs, now, ttl), op.key, Entry(op.run, now), max, after);
    } else {
      MapSizes(after, runs);
    }
  }

  /** The entries younger than the limit, told one by one. */
  predicate Young(runs: Runs, k: string, now: int, ttl: int) { k in runs && now - runs[k].at < ttl }

  /** A young entry under another key survives a save unless the save found the store full of
      young entries none of which was its own key; then exactly one goes, and none is older. No
      old entry survives a save or a cleanup. */
  lemma SaveEvictsOneOldest(runs: Runs, key: string, run: PausedRun, now: int, ttl: int, max: int, after: Runs)
    requires Step(runs, Save(key, run), now, ttl, max, after, None)
    ensures
      var young := set k | k in runs && Young(runs, k, now, ttl);
      var lost := young - after.Keys;
      && key in after && after[key] == Entry(run, now)
      && (forall k :: k in after && k != key ==> k in young && after[k] == runs[k])
      && (key in young || |young| < max ==> lost == {})
      && (key !in young && |young| >= max ==> exists victim ::
           && lost == {victim} && victim in young
           && forall k :: k in young ==> runs[victim].at <= runs[k].at)
  {
    var live := Live(runs, now, ttl);
    var young := set k | k in runs && Young(runs, k, now, ttl);
    assert live.Keys == young && |live| == |live.Keys|;
    if key in live || |live| < max {
      assert young - after.Keys == {};
    } else {
      var victim :| Oldest(live, victim) && after == (live - {victim})[key := Entry(run, now)];
      assert young - after.Keys == {victim};
    }
  }

  lemma CleanupKeepsYoung(runs: Runs, now: int, ttl: int, max: int, after: Runs, k: string)
    requires Step(runs, Cleanup, now, ttl, max, after, None)
    ensures k in after <==> Young(runs, k, now, ttl)
    ensures k in after ==> after[k] == runs[k]
  {
  }

  // ----- Whole histories -----

  datatype Record = Record(now: int, op: Op, reply: Option<PausedRun>)

  /** The first n operations of a history, under a clock that never goes back. */
  ghost predicate History(h: seq<Record>, states: seq<Runs>, ttl: int, max: int, n: nat) {
    && n <= |h| && |states| == |h| + 1
    && if n == 0 then states[0] == map[]
       else
         && History(h, states, ttl, max, n - 1)
         && (n > 1 ==> h[n - 2].now <= h[n - 1].now)
         && Step(states[n - 1], h[n - 1].op, h[n - 1].now, ttl, max, states[n], h[n - 1].reply)
  }

  /** The i-th operation pushed a live entry out of the store. */
  predicate Evicts(h: seq<Record>, states: seq<Runs>, ttl: int, i: nat, key: string)
    requires i < |h| && |states| == |h| + 1
  {
    h[i].op.Save? && h[i].op.key != key && key in Live(states[i], h[i].now, ttl) && key !in states[i + 1]
  }

  /** The latest save of the key that was not overwritten, claimed, deleted or evicted since. */
  function LatestSave(h: seq<Record>, states: seq<Runs>, ttl: int, n: nat, key: string): (i: Option<nat>)
    requires n <= |h| && |states| == |h| + 1
    ensures i.Some? ==> i.value < n && h[i.value].op.Save? && h[i.value].op.key == key
  {
    if n == 0 then None
    else if h[n - 1].op.Save? && h[n - 1].op.key == key then Some(n - 1)
    else if h[n - 1].op == LoadAndDelete(key) || h[n - 1].op == Delete(key) || Evicts(h, states, ttl, n - 1, key)
    then None
    else LatestSave(h, states, ttl, n - 1, key)
  }

  /** What an operation on something else leaves of a key. */
  lemma OtherOpOnKey(runs: Runs, op: Op, now: int, ttl: int, max: int, after: Runs, reply: Option<PausedRun>, key: string)
    requires Step(runs, op, now, ttl, max, after, reply)
    requires !(op.Save? && op.key == key) && op != LoadAndDelete(key) && op != Delete(key)
    ensures key in after ==> key in runs && after[key] == runs[key]
    ensures key in Live(runs, now, ttl) && !op.Save? ==> key in after
  {
    if op.Save? {
      SaveEvictsOneOldest(runs, op.key, op.run, now, ttl, max, after);
    }
  }

  function SavedBy(h: seq<Record>, i: Option<nat>): Option<Entry>
    requires i.Some? ==> i.value < |h| && h[i.value].op.Save?
  {
    if i.Some? then Some(Entry(h[i.value].op.run, h[i.value].now)) else None
  }

  /** The store holds that entry under the key, at least until it expires. */
  predicate Holds(runs: Runs, key: string, saved: Option<Entry>, now: int, ttl: int) {
    && (key in runs && !Expired(runs[key], now, ttl) <==> saved.Some? && !Expired(saved.value, now, ttl))
    && (key in runs ==> saved == Some(runs[key]))
  }

  lemma OtherOpKeeps(runs: Runs, op: Op, at: int, ttl: int, max: int, after: Runs, reply: Option<PausedRun>,
                     key: string, saved: Option<Entry>, now: int)
    requires Step(runs, op, at, ttl, max, after, reply) && at <= now
    requires !(op.Save? && op.key == key) && op != LoadAndDelete(key) && op != Delete(key)
    requires op.Save? && key in Live(runs, at, ttl) ==> key in after
    requires Holds(runs, key, saved, at, ttl) && Holds(runs, key, saved, now, ttl)
    ensures Holds(after, key, saved, now, ttl)
  {
    OtherOpOnKey(runs, op, at, ttl, max, after, reply, key);
  }

  /** What one more operation makes of the latest save. */
  lemma SaveStillHeld(h: seq<Record>, states: seq<Runs>, ttl: int, max: int, n: nat, key: string, now: int)
    requires 0 < n <= |h| && |states| == |h| + 1 && h[n - 1].now <= now
    requires Step(states[n - 1], h[n - 1].op, h[n - 1].now, ttl, max, states[n], h[n - 1].reply)
    requires Holds(states[n - 1], key, SavedBy(h, LatestSave(h, states, ttl, n - 1, key)), now, ttl)
    requires Holds(states[n - 1], key, SavedBy(h, LatestSave(h, states, ttl, n - 1, key)), h[n - 1].now, ttl)
    ensures Holds(states[n], key, SavedBy(h, LatestSave(h, states, ttl, n, key)), now, ttl)
  {
    var r := h[n - 1];
    if r.op.Save? && r.op.key == key {
      assert states[n][key] == Entry(r.op.run, r.now);
    } else if r.op == LoadAndDelete(key) || r.op == Delete(key) || Evicts(h, states, ttl, n - 1, key) {
      assert key !in states[n];
    } else {
      OtherOpKeeps(states[n - 1], r.op, r.now, ttl, max, states[n], r.reply, key,
                   SavedBy(h, LatestSave(h, states, ttl, n - 1, key)), now);
    }
  }

  /** The store holds what was saved last, at least until it expires. */
  lemma {:induction false} StoreHoldsLatestSave(h: seq<Record>, states: seq<Runs>, ttl: int, max: int, n: nat, key: string, now: int)
    requires History(h, states, ttl, max, n) && (n > 0 ==> h[n - 1].now <= now)
    ensures Holds(states[n], key, SavedBy(h, LatestSave(h, states, ttl, n, key)), now, ttl)
  {
    if n > 0 {
      StoreHoldsLatestSave(h, states, ttl, max, n - 1, key, now);
      StoreHoldsLatestSave(h, states, ttl, max, n - 1, key, h[n - 1].now);
      SaveStillHeld(h, states, ttl, max, n, key, now);
    }
  }

  /** A lookup answers with the latest save of its key, unless that was claimed, deleted or
      evicted in the meantime or is ttl old; otherwise it misses. */
  lemma LookupAnswersLatestSave(h: seq<Record>, states: seq<Runs>, ttl: int, max: int, n: nat, run: PausedRun)
    requires n < |h| && History(h, states, ttl, max, n + 1)
    requires h[n].op.Load? || h[n].op.LoadAndDelete?
    ensures var i := LatestSave(h, states, ttl, n, h[n].op.key);
      h[n].reply == Some(run) <==> i.Some? && h[n].now - h[i.value].now < ttl && h[i.value].op.run == run
  {
    StoreHoldsLatestSave(h, states, ttl, max, n, h[n].op.key, h[n].now);
  }

  /** The latest save is really the last one: nothing since then saved, claimed, deleted or
      evicted the key. */
  lemma {:induction false} LatestSaveIsLast(h: seq<Record>, states: seq<Runs>, ttl: int, n: nat, key: string, j: nat)
    requires |states| == |h| + 1 && n <= |h| && LatestSave(h, states, ttl, n, key).Some?
    requires LatestSave(h, states, ttl, n, key).value < j < n
    ensures !(h[j].op.Save? && h[j].op.key == key)
    ensures h[j].op != LoadAndDelete(key) && h[j].op != Delete(key) && !Evicts(h, states, ttl, j, key)
  {
    if j < n - 1 {
      LatestSaveIsLast(h, states, ttl, n - 1, key, j);
    }
  }

  // ----- Keys -----

  /** A key names one run only exactly when neither identifier has a '|'. */
  lemma RunKeyUnique(t: string, r: string)
    ensures (forall t2, r2 :: RunKey(t2, r2) == RunKey(t, r) ==> t2 == t && r2 == r) <==> '|' !in t && '|' !in r
  {
    if '|' in t {
      var i :| 0 <= i < |t| && t[i] == '|';
      assert t == t[..i] + "|" + t[i + 1..];
      assert RunKey(t[..i], t[i + 1..] + "|" + r) == RunKey(t, r) && |t[..i]| < |t|;
    } else if '|' in r {
      var i :| 0 <= i < |r| && r[i] == '|';
      assert r == r[..i] + "|" + r[i + 1..];
      assert RunKey(t + "|" + r[..i], r[i + 1..]) == RunKey(t, r) && |r[i + 1..]| < |r|;
    } else {
      forall t2, r2 | RunKey(t2, r2) == RunKey(t, r) ensures t2 == t && r2 == r {
        OnlyBar(t, r, t2, r2);
      }
    }
  }

  lemma OnlyBar(t: string, r: string, t2: string, r2: string)
    requires '|' !in t && '|' !in r && RunKey(t2, r2) == RunKey(t, r)
    ensures t2 == t && r2 == r
  {
    var k := RunKey(t, r);
    assert k[|t2|] == '|' && k[|t|] == '|';
    assert forall i :: 0 <= i < |t| ==> k[i] == t[i];
    assert forall i :: |t| < i < |k| ==> k[i] == r[i - |t| - 1];
    assert |t2| == |t|;
    assert k[..|t|] == t && k[..|t|] == t2 && k[|t| + 1..] == r && k[|t| + 1..] == r2;
  }

  // ----- Approval decisions -----

  /** A resume entry with its payload as JSON text, and the boolean that payload carries
      under "approved", if it is an object with one. */
  datatype ResumeEntry = ResumeEntry(interruptID: string, resolved: bool, payload: string, approved: Option<bool>)

  predicate Approves(e: ResumeEntry) {
    e.resolved && e.approved != Some(false)
  }

  /** The decision on an interrupt: that of its last entry, if it has one. */
  function Decision(entries: seq<ResumeEntry>, id: string): Option<bool> {
    if entries == [] then None
    else if entries[|entries| - 1].interruptID == id then Some(Approves(entries[|entries| - 1]))
    else Decision(entries[..|entries| - 1], id)
  }

  /** The last entry for an interrupt. */
  predicate LastFor(entries: seq<ResumeEntry>, id: string, j: int) {
    0 <= j < |entries| && entries[j].interruptID == id && forall i :: j < i < |entries| ==> entries[i].interruptID != id
  }

  /** An interrupt is decided exactly if some entry is for it, and then by the last such entry. */
  lemma {:induction false} DecisionMeans(entries: seq<ResumeEntry>, id: string)
    ensures Decision(entries, id).None? <==> forall j :: 0 <= j < |entries| ==> entries[j].interruptID != id
    ensures Decision(entries, id).Some? ==> exists j :: LastFor(entries, id, j)
    ensures forall j :: LastFor(entries, id, j) ==> Decision(entries, id) == Some(entries[j].resolved && entries[j].approved != Some(false))
  {
    if entries != [] {
      var before, last := entries[..|entries| - 1], |entries| - 1;
      DecisionMeans(before, id);
      if entries[last].interruptID == id {
        assert LastFor(entries, id, last);
      } else {
        forall j | 0 <= j < last ensures LastFor(entries, id, j) <==> LastFor(before, id, j) {
          assert forall i :: 0 <= i < last ==> before[i] == entries[i];
        }
      }
    }
  }

  method ApprovalsFromResume(entries: seq<ResumeEntry>) returns (approvals: map<string, bool>)
    ensures forall id :: (if id in approvals then Some(approvals[id]) else None) == Decision(entries, id)
  {
    approvals := map[];
    for n := 0 to |entries|
      invariant forall id :: (if id in approvals then Some(approvals[id]) else None) == Decision(entries[..n], id)
    {
      var e := entries[n];
      assert entries[..n + 1][..n] == entries[..n];
      var approved := e.resolved;
      if approved && e.approved.Some? {
        approved := e.approved.value;
      }
      approvals := approvals[e.interruptID := approved];
    }
    assert entries[..|entries|] == entries;
  }
}
