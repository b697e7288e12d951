/** The production-line registry: it owns the runtime state of every line and
    orchestrates the other controllers (buying levels, starting production,
    crediting completions, hiring managers, saving and loading). */
module Business {
  import opened Wrappers
  import opened Models
  import opened Timers
  import Money
  import Managers

  /** One line's persisted state: level, manager flag, whether it was
      producing, and the time its cycle had left (0 when not producing). */
  datatype SaveData = SaveData(level: nat, hasManager: bool, processing: bool, timer: nat)

  /** A live timer with id `id`, the line's cycle duration, and no overshoot. */
  ghost predicate IsLive(ts: seq<Timer>, id: int, duration: int)
  {
    exists t :: t in ts && t.id == id && t.duration == duration && t.time <= duration
  }

  /** A completion reported for `id` whose handler has not run yet; its
      overshoot is less than the cycle duration. */
  ghost predicate IsPending(pending: seq<Fired>, id: int, duration: int)
  {
    exists e :: e in pending && e.id == id && e.remainingTime < duration
  }

  /** Completions waiting for their handler: distinct ids handed out by the
      engine, none of them live any more, each with at least one cycle. */
  ghost predicate PendingOk(ts: seq<Timer>, nextId: int, pending: seq<Fired>)
  {
    IncreasingFiredIds(pending) &&
    (forall e :: e in pending ==> 0 <= e.id < nextId && e.repeatCount >= 1 && e.remainingTime >= 0) &&
    (forall e, t :: e in pending && t in ts ==> e.id != t.id)
  }

  /** A line is idle, or its id came from the engine and is live or pending. */
  ghost predicate LineLinked(b: RuntimeBusiness, ts: seq<Timer>, nextId: int, pending: seq<Fired>)
  {
    b.timerId == -1 ||
    (0 <= b.timerId < nextId &&
     (IsLive(ts, b.timerId, b.processingTime) || IsPending(pending, b.timerId, b.processingTime)))
  }

  /** No two lines share a timer. */
  ghost predicate DistinctTimerIds(bs: seq<RuntimeBusiness>)
  {
    forall i, j :: 0 <= i < j < |bs| && bs[i].timerId != -1 ==> bs[i].timerId != bs[j].timerId
  }

  /** How the lines' timer ids relate to the engine's state, with `pending`
      the completions the engine has reported but the handler has not seen. */
  ghost predicate LinkedState(bs: seq<RuntimeBusiness>, ts: seq<Timer>, nextId: int, pending: seq<Fired>)
  {
    PendingOk(ts, nextId, pending) &&
    DistinctTimerIds(bs) &&
    forall i :: 0 <= i < |bs| ==> LineLinked(bs[i], ts, nextId, pending)
  }

  /** What holds of every line at all times: its definition can drive a
      timer, name and cycle time are the definition's, revenue is not negative. */
  ghost predicate LineOk(b: RuntimeBusiness)
  {
    WellFormedOffer(b.definition) &&
    b.name == b.definition.name &&
    b.processingTime == b.definition.processingTime &&
    b.revenue >= 0
  }

  /** The position at which the manager hook stops: the first line running
      `target` that is idle, or |bs| when there is none. */
  function FirstIdleMatch(bs: seq<RuntimeBusiness>, target: Offer): (s: nat)
    ensures s <= |bs|
    ensures s < |bs| ==> bs[s].definition == target && bs[s].timerId == -1
    ensures forall j :: 0 <= j < s ==> !(bs[j].definition == target && bs[j].timerId == -1)
  {
    if bs == [] then 0
    else if bs[0].definition == target && bs[0].timerId == -1 then 0
    else
      var s := FirstIdleMatch(bs[1..], target);
      assert forall j :: 1 <= j < |bs| ==> bs[1..][j - 1] == bs[j];
      s + 1
  }

  /** Recomputing for any level keeps revenue non-negative. */
  lemma RevenueAtNonNegative(def: Offer, level: nat)
    requires def.revenue >= 0
    ensures RevenueAt(def, level) >= 0
  {
    if level > 1 {
      assert def.revenue * level >= def.revenue * 0;
    }
  }

  /** Two timers of a list with increasing ids that carry the same id are the same timer. */
  lemma SameIdSameTimer(ts: seq<Timer>, a: Timer, b: Timer)
    requires IncreasingIds(ts) && a in ts && b in ts && a.id == b.id
    ensures a == b
  {
    var i :| 0 <= i < |ts| && ts[i] == a;
    var j :| 0 <= j < |ts| && ts[j] == b;
  }

  /** Advancing the engine and reporting its due timers keeps every line
      linked: a line's timer either survives (still live, no overshoot) or is
      reported with an overshoot below the line's cycle time. */
  lemma AdvanceKeepsLinks(bs: seq<RuntimeBusiness>, ts: seq<Timer>, nextId: int, dt: int)
    requires IncreasingIds(ts) && PositiveDurations(ts) && forall t :: t in ts ==> 0 <= t.id < nextId
    requires LinkedState(bs, ts, nextId, [])
    ensures PositiveDurations(Advance(ts, dt))
    ensures LinkedState(bs, Survivors(Advance(ts, dt)), nextId, Fires(Advance(ts, dt)))
  {
    var adv := Advance(ts, dt);
    AdvanceKeepsIds(ts, dt, nextId);
    var surv, fired := Survivors(adv), Fires(adv);
    SurvivorsMembers(adv);
    FiresSound(adv);
    FiresComplete(adv);
    FiresIncreasing(adv);
    forall e, s | e in fired && s in surv ensures e.id != s.id {
      var t :| t in adv && Due(t) && e == FireOf(t);
      if e.id == s.id {
        SameIdSameTimer(adv, t, s);
      }
    }
    forall e | e in fired ensures 0 <= e.id < nextId && e.repeatCount >= 1 && e.remainingTime >= 0 {
      var t :| t in adv && Due(t) && e == FireOf(t);
    }
    forall i | 0 <= i < |bs| ensures LineLinked(bs[i], surv, nextId, fired) {
      var b := bs[i];
      if b.timerId != -1 {
        var t :| t in ts && t.id == b.timerId && t.duration == b.processingTime && t.time <= b.processingTime;
        var j :| 0 <= j < |ts| && ts[j] == t;
        var t' := adv[j];
        assert t' == t.(time := t.time + dt) && t' in adv;
        if Due(t') {
          assert FireOf(t') in fired;
        } else {
          assert t' in surv;
        }
      }
    }
  }

  /** Marking a line idle keeps everything linked. */
  lemma ClearLine(bs: seq<RuntimeBusiness>, ts: seq<Timer>, nextId: int, pending: seq<Fired>, i: nat)
    requires LinkedState(bs, ts, nextId, pending) && i < |bs|
    ensures LinkedState(bs[i := bs[i].(timerId := -1)], ts, nextId, pending)
  {
  }

  /** Changing a line in anything but its timer id and cycle time keeps everything linked. */
  lemma UpdateLine(bs: seq<RuntimeBusiness>, ts: seq<Timer>, nextId: int, pending: seq<Fired>, i: nat, b: RuntimeBusiness)
    requires LinkedState(bs, ts, nextId, pending) && i < |bs|
    requires b.timerId == bs[i].timerId && b.processingTime == bs[i].processingTime
    ensures LinkedState(bs[i := b], ts, nextId, pending)
  {
    var bs' := bs[i := b];
    assert LineLinked(b, ts, nextId, pending) by {
      assert LineLinked(bs[i], ts, nextId, pending);
    }
    forall j | 0 <= j < |bs'| ensures LineLinked(bs'[j], ts, nextId, pending) {
      if j != i {
        assert bs'[j] == bs[j];
      }
    }
  }

  /** Dropping the head of the pending completions keeps them well formed. */
  lemma PendingTail(ts: seq<Timer>, nextId: int, ev: Fired, pending: seq<Fired>)
    requires PendingOk(ts, nextId, [ev] + pending)
    ensures PendingOk(ts, nextId, pending)
  {
    var all := [ev] + pending;
    forall i, j | 0 <= i < j < |pending| ensures pending[i].id < pending[j].id {
      assert pending[i] == all[i + 1] && pending[j] == all[j + 1];
    }
    forall e | e in pending ensures e in all {
    }
  }

  /** The completion at the head of the pending list, once no line holds its
      id, can be dropped. */
  lemma DropFired(bs: seq<RuntimeBusiness>, ts: seq<Timer>, nextId: int, ev: Fired, pending: seq<Fired>)
    requires LinkedState(bs, ts, nextId, [ev] + pending)
    requires forall i :: 0 <= i < |bs| ==> bs[i].timerId != ev.id
    ensures LinkedState(bs, ts, nextId, pending)
  {
    var all := [ev] + pending;
    PendingTail(ts, nextId, ev, pending);
    forall i | 0 <= i < |bs| ensures LineLinked(bs[i], ts, nextId, pending) {
      var b := bs[i];
      assert LineLinked(b, ts, nextId, all);
      if b.timerId != -1 && !IsLive(ts, b.timerId, b.processingTime) {
        var e :| e in all && e.id == b.timerId && e.remainingTime < b.processingTime;
        assert e != ev;
        assert e in pending;
      }
    }
  }

  /** The line holding the head completion's id got it from that completion,
      so the overshoot the handler restarts with is below its cycle time. */
  lemma HeadOwner(bs: seq<RuntimeBusiness>, ts: seq<Timer>, nextId: int, ev: Fired, pending: seq<Fired>, i: nat)
    requires LinkedState(bs, ts, nextId, [ev] + pending) && i < |bs| && bs[i].timerId == ev.id
    ensures 0 <= ev.remainingTime < bs[i].processingTime && ev.repeatCount >= 1
    ensures forall j :: 0 <= j < |bs| && j != i ==> bs[j].timerId != ev.id
  {
    var all := [ev] + pending;
    assert ev in all;
    assert LineLinked(bs[i], ts, nextId, all);
    assert !IsLive(ts, ev.id, bs[i].processingTime);
    var e :| e in all && e.id == ev.id && e.remainingTime < bs[i].processingTime;
    var k :| 0 <= k < |all| && all[k] == e;
    assert all[0] == ev;
    forall j | 0 <= j < |bs| && j != i ensures bs[j].timerId != ev.id {
      if j < i {
        assert bs[j].timerId != -1 ==> bs[j].timerId != bs[i].timerId;
      }
    }
  }

  /** Giving an idle line a fresh timer with no overshoot keeps everything linked. */
  lemma StartLine(bs: seq<RuntimeBusiness>, ts: seq<Timer>, nextId: int, pending: seq<Fired>, i: nat, startTime: int)
    requires LinkedState(bs, ts, nextId, pending) && i < |bs| && bs[i].timerId == -1
    requires nextId >= 0 && startTime <= bs[i].processingTime
    requires forall j :: 0 <= j < |bs| ==> bs[j].timerId < nextId
    ensures LinkedState(bs[i := bs[i].(timerId := nextId)], ts + [Timer(nextId, startTime, bs[i].processingTime)],
                        nextId + 1, pending)
  {
    var bs' := bs[i := bs[i].(timerId := nextId)];
    var t := Timer(nextId, startTime, bs[i].processingTime);
    var ts' := ts + [t];
    forall e, u | e in pending && u in ts' ensures e.id != u.id {
      if u != t {
        assert u in ts;
      }
    }
    forall j | 0 <= j < |bs'| ensures LineLinked(bs'[j], ts', nextId + 1, pending) {
      if j == i {
        assert t in ts';
      } else if bs[j].timerId != -1 {
        assert LineLinked(bs[j], ts, nextId, pending);
        if IsLive(ts, bs[j].timerId, bs[j].processingTime) {
          var u :| u in ts && u.id == bs[j].timerId && u.duration == bs[j].processingTime && u.time <= bs[j].processingTime;
          assert u in ts';
        }
      }
    }
  }

  /** What handling the head completion does to the links: its owner can be
      marked idle, or restarted with a fresh timer whose elapsed time is the
      overshoot, and in both cases the completion is no longer pending. */
  lemma HandleLine(bs: seq<RuntimeBusiness>, ts: seq<Timer>, nextId: int, ev: Fired, pending: seq<Fired>, i: nat)
    requires LinkedState(bs, ts, nextId, [ev] + pending) && i < |bs| && bs[i].timerId == ev.id
    requires nextId >= 0 && bs[i].revenue >= 0
    ensures 0 <= ev.remainingTime < bs[i].processingTime && bs[i].revenue * ev.repeatCount >= 0
    ensures forall j :: 0 <= j < |bs| && j != i ==> bs[j].timerId != ev.id
    ensures LinkedState(bs[i := bs[i].(timerId := -1)], ts, nextId, pending)
    ensures LinkedState(bs[i := bs[i].(timerId := nextId)], ts + [Timer(nextId, ev.remainingTime, bs[i].processingTime)],
                        nextId + 1, pending)
  {
    HeadOwner(bs, ts, nextId, ev, pending, i);
    ClearLine(bs, ts, nextId, [ev] + pending, i);
    var cleared := bs[i := bs[i].(timerId := -1)];
    DropFired(cleared, ts, nextId, ev, pending);
    LinkedBelowCounter(cleared, ts, nextId, pending);
    StartLine(cleared, ts, nextId, pending, i, ev.remainingTime);
    assert cleared[i := cleared[i].(timerId := nextId)] == bs[i := bs[i].(timerId := nextId)];
  }

  /** Line ids are below the engine's counter whenever everything is linked. */
  lemma LinkedBelowCounter(bs: seq<RuntimeBusiness>, ts: seq<Timer>, nextId: int, pending: seq<Fired>)
    requires LinkedState(bs, ts, nextId, pending) && nextId >= 0
    ensures forall j :: 0 <= j < |bs| ==> bs[j].timerId < nextId
  {
    forall j | 0 <= j < |bs| ensures bs[j].timerId < nextId {
      assert LineLinked(bs[j], ts, nextId, pending);
    }
  }

  /** Aborting an idle-to-be line's timer keeps everything linked. */
  lemma AbortLine(bs: seq<RuntimeBusiness>, ts: seq<Timer>, nextId: int, i: nat, p: nat)
    requires LinkedState(bs, ts, nextId, []) && IncreasingIds(ts)
    requires i < |bs| && p < |ts| && ts[p].id == bs[i].timerId
    ensures LinkedState(bs[i := bs[i].(timerId := -1)], ts[..p] + ts[p + 1..], nextId, [])
  {
    var bs' := bs[i := bs[i].(timerId := -1)];
    var ts' := ts[..p] + ts[p + 1..];
    RemoveIncreasing(ts, p);
    forall j | 0 <= j < |bs'| ensures LineLinked(bs'[j], ts', nextId, []) {
      if j != i && bs[j].timerId != -1 {
        assert LineLinked(bs[j], ts, nextId, []);
        var u :| u in ts && u.id == bs[j].timerId && u.duration == bs[j].processingTime && u.time <= bs[j].processingTime;
        assert bs[j].timerId != bs[i].timerId by {
          if j < i {} else {}
        }
        assert u in ts';
      }
    }
  }

  /** A producing line's timer sits at some position p of the engine's list;
      cutting it out marks the line idle, keeps everything linked and leaves
      every other line's time left as it was. */
  /** Every producing line other than `i` has the same time left in `ts'` as in `ts`. */
  ghost predicate KeepsOthers(bs: seq<RuntimeBusiness>, i: int, ts: seq<Timer>, ts': seq<Timer>)
  {
    forall j :: 0 <= j < |bs| && j != i && bs[j].timerId != -1 ==> Remaining(ts', bs[j].timerId) == Remaining(ts, bs[j].timerId)
  }

  /** Changing line `i` alone does not change which other lines keep their time left. */
  lemma KeepsAcrossUpdate(bs: seq<RuntimeBusiness>, i: nat, x: RuntimeBusiness, ts: seq<Timer>, ts': seq<Timer>)
    requires i < |bs| && KeepsOthers(bs[i := x], i, ts, ts')
    ensures KeepsOthers(bs, i, ts, ts')
  {
    forall j | 0 <= j < |bs| && j != i && bs[j].timerId != -1
      ensures Remaining(ts', bs[j].timerId) == Remaining(ts, bs[j].timerId)
    {
      assert bs[i := x][j] == bs[j];
    }
  }

  /** Two steps that each keep the other lines' time left, the second after
      line `i` changed, keep it together. */
  lemma KeepsChain(bs: seq<RuntimeBusiness>, i: nat, x: RuntimeBusiness, ts0: seq<Timer>, ts1: seq<Timer>, ts2: seq<Timer>)
    requires i < |bs| && KeepsOthers(bs, i, ts0, ts1) && KeepsOthers(bs[i := x], i, ts1, ts2)
    ensures KeepsOthers(bs, i, ts0, ts2)
  {
    KeepsAcrossUpdate(bs, i, x, ts1, ts2);
  }

  lemma StopFacts(bs: seq<RuntimeBusiness>, ts: seq<Timer>, nextId: int, i: nat) returns (p: nat)
    requires LinkedState(bs, ts, nextId, []) && IncreasingIds(ts)
    requires i < |bs| && bs[i].timerId != -1
    ensures p < |ts| && ts[p].id == bs[i].timerId
    ensures LinkedState(bs[i := bs[i].(timerId := -1)], ts[..p] + ts[p + 1..], nextId, [])
    ensures KeepsOthers(bs, i, ts, ts[..p] + ts[p + 1..])
  {
    assert LineLinked(bs[i], ts, nextId, []);
    var t :| t in ts && t.id == bs[i].timerId && t.duration == bs[i].processingTime && t.time <= bs[i].processingTime;
    p :| 0 <= p < |ts| && ts[p] == t;
    AbortLine(bs, ts, nextId, i, p);
    forall j | 0 <= j < |bs| && j != i && bs[j].timerId != -1
      ensures Remaining(ts[..p] + ts[p + 1..], bs[j].timerId) == Remaining(ts, bs[j].timerId)
    {
      assert bs[j].timerId != ts[p].id by {
        if j < i {} else {}
      }
      RemainingRemove(ts, p, bs[j].timerId);
    }
  }

  /** Starting an idle line with `currentTime` elapsed keeps everything
      linked, gives the new id the rest of the cycle as time left and leaves
      every other id's time left as it was. */
  lemma StartFacts(bs: seq<RuntimeBusiness>, ts: seq<Timer>, nextId: int, i: nat, currentTime: int)
    requires LinkedState(bs, ts, nextId, []) && IncreasingIds(ts) && forall t :: t in ts ==> 0 <= t.id < nextId
    requires i < |bs| && bs[i].timerId == -1 && nextId >= 0 && currentTime <= bs[i].processingTime
    ensures LinkedState(bs[i := bs[i].(timerId := nextId)], ts + [Timer(nextId, currentTime, bs[i].processingTime)],
                        nextId + 1, [])
    ensures Remaining(ts + [Timer(nextId, currentTime, bs[i].processingTime)], nextId) == bs[i].processingTime - currentTime
    ensures KeepsOthers(bs, i, ts, ts + [Timer(nextId, currentTime, bs[i].processingTime)])
  {
    var t := Timer(nextId, currentTime, bs[i].processingTime);
    LinkedBelowCounter(bs, ts, nextId, []);
    StartLine(bs, ts, nextId, [], i, currentTime);
    forall j | 0 <= j < |bs| && j != i && bs[j].timerId != -1 ensures Remaining(ts + [t], bs[j].timerId) == Remaining(ts, bs[j].timerId) {
      assert LineLinked(bs[j], ts, nextId, []);
      RemainingAppend(ts, t, bs[j].timerId);
    }
    assert IncreasingIds(ts + [t]) by {
      var ts' := ts + [t];
      forall a, b | 0 <= a < b < |ts'| ensures ts'[a].id < ts'[b].id {
        if b == |ts| {
          assert ts'[a] in ts;
        }
      }
    }
    RemainingOfMember(ts + [t], t);
  }

  /** The time left on a line's live timer is never negative. */
  lemma LiveRemaining(ts: seq<Timer>, id: int, duration: int)
    requires IncreasingIds(ts) && IsLive(ts, id, duration)
    ensures Remaining(ts, id) >= 0
  {
    var t :| t in ts && t.id == id && t.duration == duration && t.time <= duration;
    RemainingOfMember(ts, t);
  }

  /** Removing a timer leaves the time left on every other id unchanged. */
  lemma {:induction false} RemainingRemove(ts: seq<Timer>, p: nat, id: int)
    requires p < |ts| && ts[p].id != id
    ensures Remaining(ts[..p] + ts[p + 1..], id) == Remaining(ts, id)
  {
    var r := ts[..p] + ts[p + 1..];
    if p == 0 {
      assert r == ts[1..];
    } else {
      assert r[0] == ts[0];
      assert r[1..] == ts[1..][..p - 1] + ts[1..][p..];
      if ts[0].id != id {
        RemainingRemove(ts[1..], p - 1, id);
      }
    }
  }

  /** Appending a timer leaves the time left on every other id unchanged. */
  lemma {:induction false} RemainingAppend(ts: seq<Timer>, t: Timer, id: int)
    requires t.id != id
    ensures Remaining(ts + [t], id) == Remaining(ts, id)
  {
    if ts != [] {
      assert (ts + [t])[1..] == ts[1..] + [t];
      RemainingAppend(ts[1..], t, id);
    } else {
      assert ([t])[1..] == [];
    }
  }

  /** A line after loading `s` over `before`: level and manager flag come
      from the save, price and revenue follow the level rule, the rest of the
      line is kept; it is producing exactly when the save says so, with the
      saved time left on its cycle. */
  predicate Restored(before: RuntimeBusiness, s: SaveData, after: RuntimeBusiness, ts: seq<Timer>)
  {
    after == Recalculated(before.(level := s.level, hasManager := s.hasManager)).(timerId := after.timerId) &&
    (after.timerId != -1 <==> s.processing) &&
    (s.processing ==> Remaining(ts, after.timerId) == s.timer)
  }

  /** `ts'` is `ts` with one timer carrying `id` cut out, the rest in order. */
  ghost predicate CutOut(ts: seq<Timer>, ts': seq<Timer>, id: int)
  {
    exists p :: 0 <= p < |ts| && ts[p].id == id && ts' == ts[..p] + ts[p + 1..]
  }

  /** Line `i` made idle: lines `bs`, timers `ts` and counter `n` become
      `bs'`, `ts'` and `n'`, the line's timer is gone and no other line's
      time left changes. */
  ghost predicate LineStop(bs: seq<RuntimeBusiness>, ts: seq<Timer>, n: int,
                           bs': seq<RuntimeBusiness>, ts': seq<Timer>, n': int, i: int)
  {
    0 <= i < |bs| &&
    bs' == bs[i := bs[i].(timerId := -1)] &&
    ts' == Without(ts, bs[i].timerId) && n' == n &&
    KeepsOthers(bs, i, ts, ts')
  }

  /** When `processing`, the idle line `i` started on timer `n` with `left`
      of its cycle to go; otherwise nothing changes. */
  ghost predicate LineStart(bs: seq<RuntimeBusiness>, ts: seq<Timer>, n: int,
                            bs': seq<RuntimeBusiness>, ts': seq<Timer>, n': int, i: int,
                            processing: bool, left: int)
  {
    0 <= i < |bs| &&
    bs' == (if processing then bs[i := bs[i].(timerId := n)] else bs) &&
    ts' == ts + (if processing then [Timer(n, bs[i].processingTime - left, bs[i].processingTime)] else []) &&
    n' == n + (if processing then 1 else 0) &&
    (processing ==> Remaining(ts', n) == left) &&
    KeepsOthers(bs, i, ts, ts')
  }

  /** Line `i` stopped and, when `processing`, started again on timer `n`
      with `left` of its cycle to go: the engine loses exactly the line's old
      timer and gains exactly the new one. */
  ghost predicate LineRestart(bs: seq<RuntimeBusiness>, ts: seq<Timer>, n: int,
                              bs': seq<RuntimeBusiness>, ts': seq<Timer>, n': int, i: int,
                              processing: bool, left: int)
  {
    0 <= i < |bs| &&
    bs' == bs[i := bs[i].(timerId := if processing then n else -1)] &&
    ts' == Without(ts, bs[i].timerId) +
      (if processing then [Timer(n, bs[i].processingTime - left, bs[i].processingTime)] else []) &&
    n' == n + (if processing then 1 else 0) &&
    (processing ==> Remaining(ts', n) == left) &&
    KeepsOthers(bs, i, ts, ts')
  }

  /** Line `i` loaded from save record `s`: it is `Restored`, on timer `n`
      when the save was producing; the engine loses exactly the line's old
      timer and gains exactly the new one; no other line changes, nor its
      time left. */
  ghost predicate LineReload(bs: seq<RuntimeBusiness>, ts: seq<Timer>, n: int,
                             bs': seq<RuntimeBusiness>, ts': seq<Timer>, n': int, i: int, s: SaveData)
  {
    0 <= i < |bs| && |bs'| == |bs| &&
    bs' == bs[i := bs'[i]] &&
    Restored(bs[i], s, bs'[i], ts') &&
    bs'[i].timerId == (if s.processing then n else -1) &&
    ts' == Without(ts, bs[i].timerId) +
      (if s.processing then [Timer(n, bs[i].processingTime - s.timer, bs[i].processingTime)] else []) &&
    n' == n + (if s.processing then 1 else 0) &&
    KeepsOthers(bs, i, ts, ts')
  }

  /** Stopping a line and then starting it is restarting it. */
  lemma RestartComposed(bs: seq<RuntimeBusiness>, ts: seq<Timer>, n: int,
                        mid: seq<RuntimeBusiness>, ts1: seq<Timer>, n1: int,
                        fin: seq<RuntimeBusiness>, ts2: seq<Timer>, n2: int, i: nat, processing: bool, left: int)
    requires LineStop(bs, ts, n, mid, ts1, n1, i)
    requires LineStart(mid, ts1, n1, fin, ts2, n2, i, processing, left)
    ensures LineRestart(bs, ts, n, fin, ts2, n2, i, processing, left)
  {
    var b := bs[i].(timerId := -1);
    assert mid == bs[i := b] && mid[i] == b;
    if processing {
      assert fin == bs[i := b][i := b.(timerId := n)];
      assert fin == bs[i := bs[i].(timerId := n)];
      KeepsChain(bs, i, b, ts, ts1, ts2);
    } else {
      assert ts1 + [] == ts1;
    }
  }

  /** Taking level and manager flag from `s` and then restarting the line
      as the save says is loading it. */
  lemma ReloadComposed(bs: seq<RuntimeBusiness>, ts: seq<Timer>, n: int, mid: seq<RuntimeBusiness>,
                       fin: seq<RuntimeBusiness>, ts': seq<Timer>, n': int, i: nat, s: SaveData)
    requires i < |bs| && n >= 0
    requires mid == bs[i := Recalculated(bs[i].(level := s.level, hasManager := s.hasManager))]
    requires LineRestart(mid, ts, n, fin, ts', n', i, s.processing, s.timer)
    ensures LineReload(bs, ts, n, fin, ts', n', i, s)
  {
    KeepsAcrossUpdate(bs, i, mid[i], ts, ts');
  }

  /** The number of save records that were producing. */
  function StartedCount(data: seq<SaveData>): (c: nat)
    ensures c <= |data|
  {
    if data == [] then 0
    else StartedCount(data[..|data| - 1]) + (if data[|data| - 1].processing then 1 else 0)
  }

  /** Line `b0` loaded from `s` into `b`: it is `Restored`, the timer it had
      before is gone and, when producing, it runs on a timer numbered from
      `n0` up to below `n`. */
  ghost predicate LoadedLine(b0: RuntimeBusiness, s: SaveData, b: RuntimeBusiness, ts: seq<Timer>, n0: int, n: int)
  {
    Restored(b0, s, b, ts) &&
    (b0.timerId != -1 ==> Remaining(ts, b0.timerId) == -1) &&
    (s.processing ==> n0 <= b.timerId < n)
  }

  /** Line `b0` left alone: it is still `b0` and its time left in `ts` is the one in `ts0`. */
  ghost predicate KeptLine(b0: RuntimeBusiness, b: RuntimeBusiness, ts0: seq<Timer>, ts: seq<Timer>)
  {
    b == b0 && (b0.timerId != -1 ==> Remaining(ts, b0.timerId) == Remaining(ts0, b0.timerId))
  }

  /** The first `k` lines of `bs0` loaded from `data`, the others kept; the
      counter moved once per producing record. */
  ghost predicate Loaded(bs0: seq<RuntimeBusiness>, ts0: seq<Timer>, n0: int,
                         bs: seq<RuntimeBusiness>, ts: seq<Timer>, n: int, data: seq<SaveData>, k: int)
  {
    |bs| == |bs0| && 0 <= k <= |bs| && k <= |data| &&
    n == n0 + StartedCount(data[..k]) &&
    (forall j :: 0 <= j < k ==> LoadedLine(bs0[j], data[j], bs[j], ts, n0, n)) &&
    (forall j :: k <= j < |bs| ==> KeptLine(bs0[j], bs[j], ts0, ts))
  }

  /** Loading one more line keeps `Loaded`. */
  lemma LoadedStep(bs0: seq<RuntimeBusiness>, ts0: seq<Timer>, n0: int,
                   bs: seq<RuntimeBusiness>, ts: seq<Timer>, n: int,
                   bs': seq<RuntimeBusiness>, ts': seq<Timer>, n': int, data: seq<SaveData>, k: nat)
    requires Loaded(bs0, ts0, n0, bs, ts, n, data, k) && k < |bs| && k < |data|
    requires forall j :: 0 <= j < |bs0| ==> bs0[j].timerId < n0
    requires LineReload(bs, ts, n, bs', ts', n', k, data[k])
    ensures Loaded(bs0, ts0, n0, bs', ts', n', data, k + 1)
  {
    var extra := if data[k].processing then [Timer(n, bs[k].processingTime - data[k].timer, bs[k].processingTime)] else [];
    var cut := Without(ts, bs[k].timerId);
    assert ts' == cut + extra;
    /* A line id from before the load is below n0 <= n, so never the new timer's. */
    forall id | id < n0 ensures Remaining(ts', id) == Remaining(cut, id) {
      if data[k].processing {
        RemainingAppend(cut, extra[0], id);
      } else {
        assert cut + [] == cut;
      }
    }
    assert data[..k + 1][..k] == data[..k];
    forall j | 0 <= j < k + 1 ensures LoadedLine(bs0[j], data[j], bs'[j], ts', n0, n') {
      if bs0[j].timerId != -1 {
        RemainingWithout(ts, bs[k].timerId, bs0[j].timerId);
      }
      if j < k {
        assert bs'[j] == bs[j];
        assert LoadedLine(bs0[j], data[j], bs[j], ts, n0, n);
      } else {
        assert KeptLine(bs0[k], bs[k], ts0, ts);
      }
    }
    forall j | k + 1 <= j < |bs'| ensures KeptLine(bs0[j], bs'[j], ts0, ts') {
      assert KeptLine(bs0[j], bs[j], ts0, ts);
      assert bs'[j] == bs[j];
    }
  }

  /** Where a line stands after the first k completions of a tick: `b0` is
      the line before the tick, `cur` its timer id now, `n0` the engine's
      counter before the tick. A line whose timer reported among the first k
      was restarted with a fresh timer when managed and is idle otherwise;
      every other line still holds its timer. */
  ghost predicate TickStep(b0: RuntimeBusiness, cur: int, fired: seq<Fired>, k: nat, n0: int)
    requires k <= |fired|
  {
    var o := b0.timerId;
    (o == -1 ==> cur == -1) &&
    (o != -1 && !HasFired(fired, o) ==> cur == o) &&
    (o != -1 && HasFired(fired[k..], o) ==> cur == o) &&
    (o != -1 && HasFired(fired[..k], o) ==> if b0.hasManager then cur >= n0 else cur == -1)
  }

  /** Handling the k-th completion moves every line one step on. */
  lemma TickStepAdvance(b0: RuntimeBusiness, cur: int, cur': int, fired: seq<Fired>, k: nat, n0: int)
    requires k < |fired| && IncreasingFiredIds(fired) && 0 <= fired[k].id < n0
    requires TickStep(b0, cur, fired, k, n0)
    requires HasFired(fired, b0.timerId) <==> HasFired(fired[..k], b0.timerId) || HasFired(fired[k..], b0.timerId)
    requires cur == fired[k].id ==> if b0.hasManager then cur' >= n0 else cur' == -1
    requires cur != fired[k].id ==> cur' == cur
    ensures TickStep(b0, cur', fired, k + 1, n0)
  {
    HasFiredAt(fired, k, b0.timerId);
  }

  /** What the engine's update tells about one line, `ts` being the timers
      before, `surv` the survivors and `fired` the completions: a running
      line's timer is reported exactly when its time left is covered by
      `dt`; if it is not covered it survives with `dt` less time left, and
      if it is, its report's overshoot is the advanced elapsed time modulo
      the cycle time. */
  ghost predicate LineUpdated(b: RuntimeBusiness, ts: seq<Timer>, surv: seq<Timer>, fired: seq<Fired>, dt: int)
  {
    var o := b.timerId;
    o != -1 ==>
      b.processingTime > 0 &&
      (HasFired(fired, o) <==> Remaining(ts, o) <= dt) &&
      (Remaining(ts, o) > dt ==> Remaining(surv, o) == Remaining(ts, o) - dt) &&
      forall e :: e in fired && e.id == o ==>
        e.remainingTime == (b.processingTime - Remaining(ts, o) + dt) % b.processingTime
  }

  /** What a tick starts from: advancing the engine keeps every line linked,
      with the due timers as pending completions, and every line is updated
      as LineUpdated says. */
  lemma TickPrelude(bs: seq<RuntimeBusiness>, ts: seq<Timer>, n0: int, dt: int)
    requires IncreasingIds(ts) && PositiveDurations(ts) && forall t :: t in ts ==> 0 <= t.id < n0
    requires LinkedState(bs, ts, n0, []) && n0 >= 0 && forall i :: 0 <= i < |bs| ==> bs[i].processingTime > 0
    ensures PositiveDurations(Advance(ts, dt))
    ensures LinkedState(bs, Survivors(Advance(ts, dt)), n0, Fires(Advance(ts, dt)))
    ensures forall i :: 0 <= i < |bs| ==> bs[i].timerId < n0
    ensures forall i :: 0 <= i < |bs| ==> LineUpdated(bs[i], ts, Survivors(Advance(ts, dt)), Fires(Advance(ts, dt)), dt)
  {
    AdvanceKeepsLinks(bs, ts, n0, dt);
    LinkedBelowCounter(bs, ts, n0, []);
    forall i | 0 <= i < |bs|
      ensures LineUpdated(bs[i], ts, Survivors(Advance(ts, dt)), Fires(Advance(ts, dt)), dt)
    {
      LinePrelude(bs[i], ts, n0, dt);
    }
  }

  /** LineUpdated for one line linked to the timers before the update. */
  lemma LinePrelude(b: RuntimeBusiness, ts: seq<Timer>, n0: int, dt: int)
    requires IncreasingIds(ts) && PositiveDurations(ts) && LineLinked(b, ts, n0, []) && b.processingTime > 0
    ensures LineUpdated(b, ts, Survivors(Advance(ts, dt)), Fires(Advance(ts, dt)), dt)
  {
    if b.timerId != -1 {
      LineFires(b, ts, n0, dt);
      if Remaining(ts, b.timerId) > dt {
        LineSurvives(b, ts, n0, dt);
      }
      LineOvershoots(b, ts, n0, dt);
    }
  }

  lemma LineOvershoots(b: RuntimeBusiness, ts: seq<Timer>, n0: int, dt: int)
    requires IncreasingIds(ts) && PositiveDurations(ts) && LineLinked(b, ts, n0, []) && b.timerId != -1
    requires b.processingTime > 0 && PositiveDurations(Advance(ts, dt))
    ensures forall e :: e in Fires(Advance(ts, dt)) && e.id == b.timerId ==>
      e.remainingTime == (b.processingTime - Remaining(ts, b.timerId) + dt) % b.processingTime
  {
    forall e | e in Fires(Advance(ts, dt)) && e.id == b.timerId
      ensures e.remainingTime == (b.processingTime - Remaining(ts, b.timerId) + dt) % b.processingTime
    {
      LineOvershoot(b, ts, n0, dt, e);
    }
  }

  /** A running line's timer sits at some position of the engine's list, and
      its time left is its cycle time minus its elapsed time. */
  lemma LiveAt(b: RuntimeBusiness, ts: seq<Timer>, n0: int) returns (j: nat)
    requires IncreasingIds(ts) && LineLinked(b, ts, n0, []) && b.timerId != -1
    ensures j < |ts| && ts[j].id == b.timerId && ts[j].duration == b.processingTime
    ensures Remaining(ts, b.timerId) == b.processingTime - ts[j].time
  {
    assert !IsPending([], b.timerId, b.processingTime);
    var t :| t in ts && t.id == b.timerId && t.duration == b.processingTime && t.time <= b.processingTime;
    j :| 0 <= j < |ts| && ts[j] == t;
    RemainingOfMember(ts, t);
  }

  lemma LineFires(b: RuntimeBusiness, ts: seq<Timer>, n0: int, dt: int)
    requires IncreasingIds(ts) && PositiveDurations(ts) && LineLinked(b, ts, n0, []) && b.timerId != -1
    ensures PositiveDurations(Advance(ts, dt))
    ensures HasFired(Fires(Advance(ts, dt)), b.timerId) <==> Remaining(ts, b.timerId) <= dt
  {
    var j := LiveAt(b, ts, n0);
    FiredIffCovered(ts, dt, ts[j]);
  }

  lemma LineSurvives(b: RuntimeBusiness, ts: seq<Timer>, n0: int, dt: int)
    requires IncreasingIds(ts) && PositiveDurations(ts) && LineLinked(b, ts, n0, []) && b.timerId != -1
    requires Remaining(ts, b.timerId) > dt
    ensures Remaining(Survivors(Advance(ts, dt)), b.timerId) == Remaining(ts, b.timerId) - dt
  {
    var j := LiveAt(b, ts, n0);
    SurvivorRemaining(ts, dt, j);
  }

  lemma LineOvershoot(b: RuntimeBusiness, ts: seq<Timer>, n0: int, dt: int, e: Fired)
    requires IncreasingIds(ts) && PositiveDurations(ts) && LineLinked(b, ts, n0, []) && b.timerId != -1
    requires b.processingTime > 0 && PositiveDurations(Advance(ts, dt))
    requires e in Fires(Advance(ts, dt)) && e.id == b.timerId
    ensures e.remainingTime == (b.processingTime - Remaining(ts, b.timerId) + dt) % b.processingTime
  {
    var j := LiveAt(b, ts, n0);
    FiredOvershoot(ts, dt, j, e);
  }

  /** The timers' side of TickStep, with `surv` the timers that survived the
      update: a line whose timer has not reported among the first k
      completions has the time left it has among the survivors, and a managed
      line restarted by one of them holds a timer whose time left is its cycle
      time minus that completion's overshoot. */
  ghost predicate TickTimers(b0: RuntimeBusiness, cur: int, ts: seq<Timer>, fired: seq<Fired>, k: nat, surv: seq<Timer>)
    requires k <= |fired|
  {
    var o := b0.timerId;
    (o != -1 && !HasFired(fired[..k], o) ==> Remaining(ts, o) == Remaining(surv, o)) &&
    (o != -1 && b0.hasManager ==>
      forall e :: e in fired[..k] && e.id == o ==> Remaining(ts, cur) == b0.processingTime - e.remainingTime)
  }

  /** Handling the k-th completion, which appends at most one timer with the
      counter's id `n`, moves every line's timer facts one step on. */
  lemma TickTimersAdvance(b0: RuntimeBusiness, cur: int, cur': int, ts: seq<Timer>, ts': seq<Timer>, added: seq<Timer>,
                          fired: seq<Fired>, k: nat, n0: int, n: int, surv: seq<Timer>)
    requires k < |fired| && IncreasingFiredIds(fired) && 0 <= fired[k].id < n0
    requires TickStep(b0, cur, fired, k, n0) && TickTimers(b0, cur, ts, fired, k, surv)
    requires b0.timerId < n0 <= n && cur < n && forall u :: u in ts ==> u.id < n
    requires ts' == ts + added && |added| <= 1 && forall u :: u in added ==> u.id == n
    requires cur == fired[k].id && b0.hasManager ==>
      cur' == n && ts' == ts + [Timer(n, fired[k].remainingTime, b0.processingTime)]
    requires cur != fired[k].id ==> cur' == cur
    ensures TickTimers(b0, cur', ts', fired, k + 1, surv)
  {
    var o := b0.timerId;
    HasFiredAt(fired, k, o);
    assert fired[..k + 1] == fired[..k] + [fired[k]];
    forall id | id != n ensures Remaining(ts', id) == Remaining(ts, id) {
      if added != [] {
        assert added == [added[0]] && added[0] in added;
        RemainingAppend(ts, added[0], id);
      } else {
        assert ts' == ts;
      }
    }
    if o != -1 && b0.hasManager {
      forall e | e in fired[..k + 1] && e.id == o
        ensures Remaining(ts', cur') == b0.processingTime - e.remainingTime
      {
        if e in fired[..k] {
          assert HasFired(fired[..k], o);
        } else {
          assert e == fired[k];
          RemainingLast(ts, Timer(n, fired[k].remainingTime, b0.processingTime));
        }
      }
    }
  }

  /** What one tick does to a line, `b` before and `c` after, with `ts` the
      engine's timers before and `cur` after: only the timer id changes; an
      idle line stays idle; a line whose time left exceeds `dt` keeps its
      timer with `dt` less time left; a covered unmanaged line is idle; a
      covered managed line holds a fresh timer (id at least the old counter)
      whose time left is the cycle time minus the overshoot, the overshoot
      being the advanced elapsed time modulo the cycle time. */
  ghost predicate LineTicked(b: RuntimeBusiness, c: RuntimeBusiness, ts: seq<Timer>, cur: seq<Timer>, n0: int, dt: int)
  {
    var o := b.timerId;
    c == b.(timerId := c.timerId) &&
    (o == -1 ==> c.timerId == -1) &&
    (o != -1 && b.hasManager ==> c.timerId != -1) &&
    (o != -1 && Remaining(ts, o) > dt ==> c.timerId == o && Remaining(cur, o) == Remaining(ts, o) - dt) &&
    (o != -1 && Remaining(ts, o) <= dt && !b.hasManager ==> c.timerId == -1) &&
    (o != -1 && Remaining(ts, o) <= dt && b.hasManager ==>
      c.timerId >= n0 && b.processingTime > 0 &&
      Remaining(cur, c.timerId) == b.processingTime - (b.processingTime - Remaining(ts, o) + dt) % b.processingTime)
  }

  /** LineTicked for every line. */
  ghost predicate TickResult(bs: seq<RuntimeBusiness>, cs: seq<RuntimeBusiness>, ts: seq<Timer>, cur: seq<Timer>,
                             n0: int, dt: int)
  {
    |cs| == |bs| && forall i :: 0 <= i < |bs| ==> LineTicked(bs[i], cs[i], ts, cur, n0, dt)
  }

  /** Once all of a tick's completions are handled, every line stands as
      TickResult says. */
  lemma TickOutcome(bs: seq<RuntimeBusiness>, cs: seq<RuntimeBusiness>, ts: seq<Timer>, cur: seq<Timer>,
                    surv: seq<Timer>, fired: seq<Fired>, n0: int, dt: int)
    requires n0 >= 0
    requires Stepped(bs, cs, cur, fired, |fired|, n0, surv)
    requires forall i :: 0 <= i < |bs| ==> cs[i] == bs[i].(timerId := cs[i].timerId)
    requires forall i :: 0 <= i < |bs| ==> LineUpdated(bs[i], ts, surv, fired, dt)
    ensures TickResult(bs, cs, ts, cur, n0, dt)
  {
    forall i | 0 <= i < |bs| ensures LineTicked(bs[i], cs[i], ts, cur, n0, dt) {
      LineOutcome(bs[i], cs[i], ts, cur, surv, fired, n0, dt);
    }
  }

  lemma LineOutcome(b: RuntimeBusiness, c: RuntimeBusiness, ts: seq<Timer>, cur: seq<Timer>,
                    surv: seq<Timer>, fired: seq<Fired>, n0: int, dt: int)
    requires n0 >= 0 && c == b.(timerId := c.timerId)
    requires TickStep(b, c.timerId, fired, |fired|, n0) && TickTimers(b, c.timerId, cur, fired, |fired|, surv)
    requires LineUpdated(b, ts, surv, fired, dt)
    ensures LineTicked(b, c, ts, cur, n0, dt)
  {
    var o := b.timerId;
    assert fired[..|fired|] == fired;
    assert !HasFired(fired[|fired|..], o);
    if o != -1 {
      if Remaining(ts, o) > dt {
        assert !HasFired(fired, o);
      } else if b.hasManager {
        assert HasFired(fired, o);
        var e :| e in fired && e.id == o;
        assert Remaining(cur, c.timerId) == b.processingTime - e.remainingTime;
      }
    }
  }

  /** Every line's TickStep and TickTimers after k completions; `cs` are
      the lines now and `ts` the engine's timers now. */
  ghost predicate Stepped(bs: seq<RuntimeBusiness>, cs: seq<RuntimeBusiness>, ts: seq<Timer>, fired: seq<Fired>,
                          k: nat, n0: int, surv: seq<Timer>)
    requires k <= |fired|
  {
    |cs| == |bs| &&
    forall i :: 0 <= i < |bs| ==>
      TickStep(bs[i], cs[i].timerId, fired, k, n0) && TickTimers(bs[i], cs[i].timerId, ts, fired, k, surv)
  }

  /** What the completion handler does for `ev`, on values: the owner of
      the id (if any) goes idle or, when managed, takes the counter `n` for
      a timer appended with the overshoot; nothing else changes. */
  ghost predicate Handled(before: seq<RuntimeBusiness>, after: seq<RuntimeBusiness>, ts0: seq<Timer>, ts1: seq<Timer>,
                          n: int, ev: Fired)
  {
    |after| == |before| &&
    (forall i :: 0 <= i < |before| && before[i].timerId != ev.id ==> after[i] == before[i]) &&
    (forall i :: 0 <= i < |before| && before[i].timerId == ev.id ==>
      after[i] == before[i].(timerId := if before[i].hasManager then n else -1) &&
      ts1 == if before[i].hasManager then ts0 + [Timer(n, ev.remainingTime, before[i].processingTime)] else ts0) &&
    ((forall i :: 0 <= i < |before| ==> before[i].timerId != ev.id) ==> ts1 == ts0)
  }

  /** Before any completion is handled, every line is at step 0. */
  lemma StepStart(bs: seq<RuntimeBusiness>, surv: seq<Timer>, fired: seq<Fired>, n0: int)
    ensures Stepped(bs, bs, surv, fired, 0, n0, surv)
  {
    assert fired[..0] == [] && fired[0..] == fired;
  }

  /** One handled completion moves every line one step on. */
  lemma HandleStep(bs: seq<RuntimeBusiness>, before: seq<RuntimeBusiness>, after: seq<RuntimeBusiness>,
                   ts0: seq<Timer>, ts1: seq<Timer>, fired: seq<Fired>, k: nat, n0: int, n: int, surv: seq<Timer>)
    requires k < |fired| && IncreasingFiredIds(fired) && forall e :: e in fired ==> 0 <= e.id < n0
    requires (forall i :: 0 <= i < |bs| ==> bs[i].timerId < n0) && n0 <= n
    requires |before| == |bs| && forall i :: 0 <= i < |bs| ==> before[i] == bs[i].(timerId := before[i].timerId)
    requires (forall i :: 0 <= i < |before| ==> before[i].timerId < n) && forall u :: u in ts0 ==> u.id < n
    requires Stepped(bs, before, ts0, fired, k, n0, surv)
    requires Handled(before, after, ts0, ts1, n, fired[k])
    ensures Stepped(bs, after, ts1, fired, k + 1, n0, surv)
  {
    assert fired[k] in fired;
    var added := HandledAdded(before, after, ts0, ts1, n, fired[k]);
    forall i | 0 <= i < |bs|
      ensures TickStep(bs[i], after[i].timerId, fired, k + 1, n0)
      ensures TickTimers(bs[i], after[i].timerId, ts1, fired, k + 1, surv)
    {
      HasFiredSplit(fired, k, bs[i].timerId);
      TickStepAdvance(bs[i], before[i].timerId, after[i].timerId, fired, k, n0);
      TickTimersAdvance(bs[i], before[i].timerId, after[i].timerId, ts0, ts1, added, fired, k, n0, n, surv);
    }
  }

  /** The timers a handled completion appends: none, or the owner's fresh
      timer with the counter's id when the owner is managed. */
  lemma HandledAdded(before: seq<RuntimeBusiness>, after: seq<RuntimeBusiness>, ts0: seq<Timer>, ts1: seq<Timer>,
                     n: int, ev: Fired) returns (added: seq<Timer>)
    requires Handled(before, after, ts0, ts1, n, ev)
    ensures ts1 == ts0 + added && |added| <= 1 && forall u :: u in added ==> u.id == n
    ensures forall i :: 0 <= i < |before| && before[i].timerId == ev.id && before[i].hasManager ==>
      added == [Timer(n, ev.remainingTime, before[i].processingTime)]
  {
    added := [];
    if exists j :: 0 <= j < |before| && before[j].timerId == ev.id {
      var j :| 0 <= j < |before| && before[j].timerId == ev.id;
      if before[j].hasManager {
        added := [Timer(n, ev.remainingTime, before[j].processingTime)];
      }
    }
    assert ts0 + [] == ts0;
    forall i | 0 <= i < |before| && before[i].timerId == ev.id && before[i].hasManager
      ensures added == [Timer(n, ev.remainingTime, before[i].processingTime)]
    {
      assert ts1[|ts0|] == Timer(n, ev.remainingTime, before[i].processingTime);
      assert |added| == 1 && ts1[|ts0|] == added[0];
    }
  }

  /** A report list is the reports before k and those from k on. */
  lemma HasFiredSplit(es: seq<Fired>, k: nat, id: int)
    requires k <= |es|
    ensures HasFired(es, id) <==> HasFired(es[..k], id) || HasFired(es[k..], id)
  {
    assert es == es[..k] + es[k..];
  }

  class BusinessController {
    const businesses: array<RuntimeBusiness>
    const timers: TimerController
    const money: Money.MoneyController
    const managers: Managers.ManagerController

    /** The other controllers' invariants and the per-line facts. */
    ghost predicate PartsValid()
      reads this, businesses, timers, money, managers
    {
      timers.Valid() && money.Valid() && managers.Valid() && managers.money == money &&
      forall i :: 0 <= i < businesses.Length ==> LineOk(businesses[i])
    }

    ghost predicate Linked(pending: seq<Fired>)
      reads this, businesses, timers, money, managers
    {
      PartsValid() && LinkedState(businesses[..], timers.timers, timers.nextId, pending)
    }

    /** Between engine ticks no completion is pending. */
    ghost predicate Valid()
      reads this, businesses, timers, money, managers
    {
      Linked([])
    }

    /** One idle, unmanaged line per definition, at its default level. */
    constructor (timerController: TimerController, moneyController: Money.MoneyController,
                 managerController: Managers.ManagerController, definitionList: seq<Offer>)
      requires timerController.Valid() && moneyController.Valid() && managerController.Valid()
      requires managerController.money == moneyController
      requires forall i :: 0 <= i < |definitionList| ==> WellFormedOffer(definitionList[i])
      ensures Valid() && fresh(businesses)
      ensures timers == timerController && money == moneyController && managers == managerController
      ensures businesses.Length == |definitionList|
      ensures forall i :: 0 <= i < |definitionList| ==>
        businesses[i] == NewRuntimeBusiness(definitionList[i], definitionList[i].defaultLevel)
    {
      var list := new RuntimeBusiness[|definitionList|];
      var i := 0;
      while i < |definitionList|
        invariant 0 <= i <= |definitionList|
        invariant forall j :: 0 <= j < i ==> list[j] == NewRuntimeBusiness(definitionList[j], definitionList[j].defaultLevel)
      {
        list[i] := NewRuntimeBusiness(definitionList[i], definitionList[i].defaultLevel);
        i := i + 1;
      }
      businesses := list;
      timers := timerController;
      money := moneyController;
      managers := managerController;
    }

    /** Buys one level when the ledger covers the line's current price: the
        price is debited, the level goes up by one and price and revenue follow
        the level rule. Otherwise nothing changes. */
    method BuyBusiness(index: int)
      requires Valid() && 0 <= index < businesses.Length
      modifies businesses, money
      ensures Valid()
      ensures var b := old(businesses[index]);
        b.price <= old(money.amount) ==>
          money.amount == old(money.amount) - b.price &&
          businesses[index] == Recalculated(b.(level := b.level + 1))
      ensures var b := old(businesses[index]);
        b.price > old(money.amount) ==> money.amount == old(money.amount) && businesses[index] == b
      ensures forall j :: 0 <= j < businesses.Length && j != index ==> businesses[j] == old(businesses[j])
    {
      var business := businesses[index];
      if money.CanAfford(business.price) {
        var _ := money.Consume(business.price);
        business := business.(level := business.level + 1);
        business := Recalculated(business);
        RevenueAtNonNegative(business.definition, business.level);
        UpdateLine(businesses[..], timers.timers, timers.nextId, [], index, business);
        businesses[index] := business;
        assert businesses[..] == old(businesses[..])[index := business];
      }
    }

    /** Starts a cycle only when the line is idle (its level is not checked). */
    method StartProcessing(index: int)
      requires Valid() && 0 <= index < businesses.Length
      modifies businesses, timers
      ensures Valid()
      ensures var b := old(businesses[index]);
        b.timerId == -1 ==>
          businesses[index] == b.(timerId := old(timers.nextId)) &&
          timers.timers == old(timers.timers) + [NewTimer(old(timers.nextId), b.processingTime)] &&
          timers.nextId == old(timers.nextId) + 1
      ensures var b := old(businesses[index]);
        b.timerId != -1 ==>
          businesses[index] == b && timers.timers == old(timers.timers) && timers.nextId == old(timers.nextId)
      ensures forall j :: 0 <= j < businesses.Length && j != index ==> businesses[j] == old(businesses[j])
    {
      var business := businesses[index];
      if business.timerId == -1 {
        LinkedBelowCounter(businesses[..], timers.timers, timers.nextId, []);
        StartLine(businesses[..], timers.timers, timers.nextId, [], index, 0);
        var id := timers.StartTimer(business.processingTime);
        businesses[index] := business.(timerId := id);
        assert businesses[..] == old(businesses[..])[index := business.(timerId := id)];
      }
    }

    /** The completion handler of every timer: the line holding `timerId`
        (if any) becomes idle and is credited revenue * multiplier; a managed
        line is restarted at once with the overshoot as elapsed time. */
    method TimerCompletionHandler(timerId: int, multiplier: int, remainingTime: int, ghost pending: seq<Fired>)
      requires Linked([Fired(timerId, multiplier, remainingTime)] + pending)
      modifies businesses, money, timers
      ensures Linked(pending)
      ensures money.amount >= old(money.amount) && timers.nextId >= old(timers.nextId)
      ensures forall i :: 0 <= i < businesses.Length && old(businesses[i].timerId) != timerId ==>
        businesses[i] == old(businesses[i])
      ensures forall i :: 0 <= i < businesses.Length && old(businesses[i].timerId) == timerId ==>
        var b := old(businesses[i]);
        businesses[i] == b.(timerId := if b.hasManager then old(timers.nextId) else -1)
      ensures forall i :: 0 <= i < businesses.Length && old(businesses[i].timerId) == timerId ==>
        var b := old(businesses[i]);
        0 <= remainingTime < b.processingTime &&
        money.amount == old(money.amount) + b.revenue * multiplier &&
        timers.timers == (if b.hasManager then old(timers.timers) + [Timer(old(timers.nextId), remainingTime, b.processingTime)]
                          else old(timers.timers)) &&
        timers.nextId == old(timers.nextId) + (if b.hasManager then 1 else 0)
      ensures (forall i :: 0 <= i < businesses.Length ==> old(businesses[i].timerId) != timerId) ==>
        money.amount == old(money.amount) && timers.timers == old(timers.timers) && timers.nextId == old(timers.nextId)
    {
      ghost var ev := Fired(timerId, multiplier, remainingTime);
      var i := 0;
      while i < businesses.Length && businesses[i].timerId != timerId
        invariant 0 <= i <= businesses.Length
        invariant forall j :: 0 <= j < i ==> businesses[j].timerId != timerId
      {
        i := i + 1;
      }
      if i < businesses.Length {
        var business := businesses[i];
        HandleLine(businesses[..], timers.timers, timers.nextId, ev, pending, i);
        businesses[i] := business.(timerId := -1);
        money.Grant(business.revenue * multiplier);
        if business.hasManager {
          var id := timers.StartTimer(business.processingTime, remainingTime);
          businesses[i] := business.(timerId := id);
          assert businesses[..] == old(businesses[..])[i := business.(timerId := id)];
        } else {
          assert businesses[..] == old(businesses[..])[i := business.(timerId := -1)];
        }
      } else {
        DropFired(businesses[..], timers.timers, timers.nextId, ev, pending);
      }
    }

    /** One call of the engine's update with every timer's handler being
        TimerCompletionHandler: all timers advance by `dt`, then each due one
        is removed and handled in list order. Offline catch-up is this same
        call with the whole time away as `dt`. Every line ends as LineTicked
        says, measured against the lines and timers before the call. */
    method Tick(dt: int)
      requires Valid()
      modifies timers, money, businesses
      ensures Valid()
      ensures money.amount >= old(money.amount)
      ensures TickResult(old(businesses[..]), businesses[..], old(timers.timers), timers.timers, old(timers.nextId), dt)
    {
      ghost var ts := timers.timers;
      ghost var n0 := timers.nextId;
      ghost var bs := businesses[..];
      TickPrelude(bs, ts, n0, dt);
      var fired := timers.UpdateTimers(dt);
      ghost var surv := timers.timers;
      assert businesses[..] == bs;
      assert fired[0..] == fired;
      StepStart(bs, surv, fired, n0);
      var k := 0;
      while k < |fired|
        invariant 0 <= k <= |fired| && |bs| == businesses.Length
        invariant Linked(fired[k..])
        invariant IncreasingFiredIds(fired) && forall e :: e in fired ==> 0 <= e.id < n0
        invariant timers.nextId >= n0
        invariant money.amount >= old(money.amount)
        invariant forall i :: 0 <= i < businesses.Length ==>
          businesses[i] == bs[i].(timerId := businesses[i].timerId)
        invariant Stepped(bs, businesses[..], timers.timers, fired, k, n0, surv)
      {
        HandleFired(fired, k, bs, n0, surv);
        k := k + 1;
      }
      assert fired[k..] == [];
      TickOutcome(bs, businesses[..], ts, timers.timers, surv, fired, n0, dt);
    }

    /** The k-th completion of a tick handed to the completion handler: every
        line moves one step on in the sense of Stepped. */
    method HandleFired(fired: seq<Fired>, k: nat, ghost bs: seq<RuntimeBusiness>, ghost n0: int, ghost surv: seq<Timer>)
      requires k < |fired| && |bs| == businesses.Length
      requires Linked(fired[k..])
      requires IncreasingFiredIds(fired) && forall e :: e in fired ==> 0 <= e.id < n0
      requires timers.nextId >= n0 && forall i :: 0 <= i < |bs| ==> bs[i].timerId < n0
      requires forall i :: 0 <= i < businesses.Length ==>
        businesses[i] == bs[i].(timerId := businesses[i].timerId)
      requires Stepped(bs, businesses[..], timers.timers, fired, k, n0, surv)
      modifies businesses, money, timers
      ensures Linked(fired[k + 1..])
      ensures timers.nextId >= n0 && money.amount >= old(money.amount)
      ensures forall i :: 0 <= i < businesses.Length ==>
        businesses[i] == bs[i].(timerId := businesses[i].timerId)
      ensures Stepped(bs, businesses[..], timers.timers, fired, k + 1, n0, surv)
    {
      assert fired[k..] == [fired[k]] + fired[k + 1..];
      ghost var before := businesses[..];
      ghost var ts0 := timers.timers;
      ghost var n := timers.nextId;
      LinkedBelowCounter(before, ts0, n, fired[k..]);
      TimerCompletionHandler(fired[k].id, fired[k].repeatCount, fired[k].remainingTime, fired[k + 1..]);
      assert Handled(before, businesses[..], ts0, timers.timers, n, fired[k]);
      HandleStep(bs, before, businesses[..], ts0, timers.timers, fired, k, n0, n, surv);
    }

    /** The manager unlock notification: every line running `manager.target`
        up to and including the first idle one gets the manager, and that idle
        line is started; lines after it are left as they are. */
    method ManagerUnlockedCallback(manager: Manager)
      requires Valid()
      modifies businesses, timers
      ensures Valid()
      ensures var s := FirstIdleMatch(old(businesses[..]), manager.target);
        forall j :: 0 <= j < businesses.Length ==>
          businesses[j] ==
            if j < s && old(businesses[j]).definition == manager.target then old(businesses[j]).(hasManager := true)
            else if j == s then old(businesses[j]).(hasManager := true, timerId := old(timers.nextId))
            else old(businesses[j])
      ensures var s := FirstIdleMatch(old(businesses[..]), manager.target);
        s < businesses.Length ==>
          timers.timers == old(timers.timers) + [NewTimer(old(timers.nextId), old(businesses[s]).processingTime)] &&
          timers.nextId == old(timers.nextId) + 1
      ensures FirstIdleMatch(old(businesses[..]), manager.target) == businesses.Length ==>
        timers.timers == old(timers.timers) && timers.nextId == old(timers.nextId)
    {
      ghost var bs := businesses[..];
      ghost var s := FirstIdleMatch(bs, manager.target);
      var i := 0;
      while i < businesses.Length
        invariant 0 <= i <= s && |bs| == businesses.Length
        invariant Valid()
        invariant timers.timers == old(timers.timers) && timers.nextId == old(timers.nextId)
        invariant forall j :: 0 <= j < i ==>
          businesses[j] == if bs[j].definition == manager.target then bs[j].(hasManager := true) else bs[j]
        invariant forall j :: i <= j < businesses.Length ==> businesses[j] == bs[j]
      {
        var business := businesses[i];
        if business.definition == manager.target {
          SetManaged(i);
          if business.timerId == -1 {
            assert i == s;
            StartProcessing(i);
            break;
          }
        }
        i := i + 1;
      }
    }

    /** Marks line `index` as managed; nothing else changes. */
    method SetManaged(index: int)
      requires Valid() && 0 <= index < businesses.Length
      modifies businesses
      ensures Valid()
      ensures businesses[..] == old(businesses[..])[index := old(businesses[index]).(hasManager := true)]
    {
      var business := businesses[index];
      ghost var pre := businesses[..];
      UpdateLine(pre, timers.timers, timers.nextId, [], index, business.(hasManager := true));
      businesses[index] := business.(hasManager := true);
      assert businesses[..] == pre[index := business.(hasManager := true)];
    }

    /** Buys the manager of `def` through the manager registry; on success the
        unlock notification runs: every line of the manager's offer up to the
        first idle one becomes managed and that idle line starts a fresh
        timer with the counter's id. */
    method BuyManager(def: Offer) returns (ok: bool)
      requires Valid()
      modifies managers, money, businesses, timers
      ensures Valid()
      ensures var idx := Managers.IndexOf(managers.managerList, def);
        ok <==> idx >= 0 && managers.managerList[idx].price <= old(money.amount)
      ensures ok ==> var idx := Managers.IndexOf(managers.managerList, def);
        var target := managers.managerList[idx].target;
        var s := FirstIdleMatch(old(businesses[..]), target);
        money.amount == old(money.amount) - managers.managerList[idx].price &&
        managers.unlockedFlags == old(managers.unlockedFlags)[idx := true] &&
        (forall j :: 0 <= j < businesses.Length ==>
          businesses[j] ==
            if j < s && old(businesses[j]).definition == target then old(businesses[j]).(hasManager := true)
            else if j == s then old(businesses[j]).(hasManager := true, timerId := old(timers.nextId))
            else old(businesses[j])) &&
        (s < businesses.Length ==>
          timers.timers == old(timers.timers) + [NewTimer(old(timers.nextId), old(businesses[s]).processingTime)] &&
          timers.nextId == old(timers.nextId) + 1) &&
        (s == businesses.Length ==> timers.timers == old(timers.timers) && timers.nextId == old(timers.nextId))
      ensures !ok ==>
        money.amount == old(money.amount) && managers.unlockedFlags == old(managers.unlockedFlags) &&
        businesses[..] == old(businesses[..]) &&
        timers.timers == old(timers.timers) && timers.nextId == old(timers.nextId)
    {
      var notified;
      ok, notified := managers.BuyManager(def);
      if notified.Some? {
        ManagerUnlockedCallback(notified.value);
      }
    }

    /** The save record of every line; a line counts as producing when its
        timer still reports a non-negative time left. */
    method WriteLocal() returns (saveDataList: seq<SaveData>)
      requires Valid()
      ensures |saveDataList| == businesses.Length
      ensures forall i :: 0 <= i < businesses.Length ==>
        var b := businesses[i];
        var d := saveDataList[i];
        d.level == b.level && d.hasManager == b.hasManager &&
        (d.processing <==> b.timerId != -1) &&
        d.timer == if d.processing then Remaining(timers.timers, b.timerId) else 0
    {
      saveDataList := [];
      var i := 0;
      while i < businesses.Length
        invariant 0 <= i <= businesses.Length && |saveDataList| == i
        invariant forall j :: 0 <= j < i ==>
          var b := businesses[j];
          var d := saveDataList[j];
          d.level == b.level && d.hasManager == b.hasManager &&
          (d.processing <==> b.timerId != -1) &&
          d.timer == if d.processing then Remaining(timers.timers, b.timerId) else 0
      {
        var business := businesses[i];
        if business.timerId != -1 {
          var remainingTime := timers.GetRemainingTime(business.timerId);
          assert LineLinked(businesses[..][i], timers.timers, timers.nextId, []);
          LiveRemaining(timers.timers, business.timerId, business.processingTime);
          if remainingTime >= 0 {
            saveDataList := saveDataList + [SaveData(business.level, business.hasManager, true, remainingTime)];
            i := i + 1;
            continue;
          }
        }
        saveDataList := saveDataList + [SaveData(business.level, business.hasManager, false, 0)];
        i := i + 1;
      }
    }

    /** Aborts the timer of a producing line and marks it idle; no other
        line's time left changes. */
    method StopLine(index: int)
      requires Valid() && 0 <= index < businesses.Length && businesses[index].timerId >= 0
      modifies businesses, timers
      ensures Valid()
      ensures LineStop(old(businesses[..]), old(timers.timers), old(timers.nextId),
                       businesses[..], timers.timers, timers.nextId, index)
      ensures CutOut(old(timers.timers), timers.timers, old(businesses[index]).timerId)
    {
      var business := businesses[index];
      ghost var bs := businesses[..];
      ghost var p := StopFacts(bs, timers.timers, timers.nextId, index);
      ghost var ts := timers.timers;
      WithoutCut(ts, p);
      timers.AbortTimer(business.timerId);
      assert timers.timers == ts[..p] + ts[p + 1..];
      businesses[index] := business.(timerId := -1);
      assert businesses[..] == bs[index := business.(timerId := -1)];
    }

    /** Starts an idle line with `currentTime` of its cycle already elapsed;
        its time left is the rest of the cycle and no other line's changes. */
    method StartLineAt(index: int, currentTime: int)
      requires Valid() && 0 <= index < businesses.Length && businesses[index].timerId == -1
      requires currentTime <= businesses[index].processingTime
      modifies businesses, timers
      ensures Valid()
      ensures businesses[..] == old(businesses[..])[index := old(businesses[index]).(timerId := old(timers.nextId))]
      ensures timers.timers == old(timers.timers) + [Timer(old(timers.nextId), currentTime, old(businesses[index]).processingTime)]
      ensures timers.nextId == old(timers.nextId) + 1
      ensures Remaining(timers.timers, old(timers.nextId)) == businesses[index].processingTime - currentTime
      ensures KeepsOthers(old(businesses[..]), index, old(timers.timers), timers.timers)
    {
      var business := businesses[index];
      ghost var bs := businesses[..];
      StartFacts(bs, timers.timers, timers.nextId, index, currentTime);
      var id := timers.StartTimer(business.processingTime, currentTime);
      businesses[index] := business.(timerId := id);
      assert businesses[..] == bs[index := business.(timerId := id)];
    }

    /** Loads one save record into line `index`: level and manager flag, the
        level rule, the running timer aborted, and a new one started with
        elapsed time cycle minus saved time left when the save was producing. */
    method RestoreLine(index: int, s: SaveData)
      requires Valid() && 0 <= index < businesses.Length
      modifies businesses, timers
      ensures Valid()
      ensures LineReload(old(businesses[..]), old(timers.timers), old(timers.nextId),
                         businesses[..], timers.timers, timers.nextId, index, s)
    {
      ghost var pre := businesses[..];
      ghost var ts := timers.timers;
      ghost var n := timers.nextId;
      ReloadLevels(index, s);
      ghost var mid := businesses[..];
      RestartLine(index, s.processing, s.timer);
      ReloadComposed(pre, ts, n, mid, businesses[..], timers.timers, timers.nextId, index, s);
    }

    /** Line `index` takes level and manager flag from `s`, and price and
        revenue from the level rule; its timer and the engine are untouched. */
    method ReloadLevels(index: int, s: SaveData)
      requires Valid() && 0 <= index < businesses.Length
      modifies businesses
      ensures Valid()
      ensures businesses[..] ==
        old(businesses[..])[index := Recalculated(old(businesses[index]).(level := s.level, hasManager := s.hasManager))]
    {
      var business := Recalculated(businesses[index].(level := s.level, hasManager := s.hasManager));
      RevenueAtNonNegative(business.definition, business.level);
      ghost var pre := businesses[..];
      UpdateLine(pre, timers.timers, timers.nextId, [], index, business);
      businesses[index] := business;
      assert businesses[..] == pre[index := business];
    }

    /** Stops line `index` if it is producing and, when `processing`, starts
        it again with `left` of its cycle still to go. */
    method RestartLine(index: int, processing: bool, left: nat)
      requires Valid() && 0 <= index < businesses.Length
      modifies businesses, timers
      ensures Valid()
      ensures LineRestart(old(businesses[..]), old(timers.timers), old(timers.nextId),
                          businesses[..], timers.timers, timers.nextId, index, processing, left)
    {
      ghost var bs := businesses[..];
      ghost var ts := timers.timers;
      ghost var n := timers.nextId;
      StopIfProducing(index);
      ghost var mid := businesses[..];
      ghost var ts1 := timers.timers;
      ghost var n1 := timers.nextId;
      StartIfProcessing(index, processing, left);
      RestartComposed(bs, ts, n, mid, ts1, n1, businesses[..], timers.timers, timers.nextId, index, processing, left);
    }

    /** Starts the idle line `index` with `left` of its cycle to go when
        `processing`, and changes nothing otherwise. */
    method StartIfProcessing(index: int, processing: bool, left: nat)
      requires Valid() && 0 <= index < businesses.Length && businesses[index].timerId == -1
      modifies businesses, timers
      ensures Valid()
      ensures LineStart(old(businesses[..]), old(timers.timers), old(timers.nextId),
                        businesses[..], timers.timers, timers.nextId, index, processing, left)
    {
      if processing {
        StartLineAt(index, businesses[index].processingTime - left);
      } else {
        assert timers.timers + [] == timers.timers;
      }
    }

    /** Line `index` made idle: its timer, if it has one, is aborted. */
    method StopIfProducing(index: int)
      requires Valid() && 0 <= index < businesses.Length
      modifies businesses, timers
      ensures Valid()
      ensures LineStop(old(businesses[..]), old(timers.timers), old(timers.nextId),
                       businesses[..], timers.timers, timers.nextId, index)
    {
      if businesses[index].timerId >= 0 {
        StopLine(index);
      } else {
        WithoutAbsent(timers.timers, businesses[index].timerId);
        assert businesses[index].(timerId := -1) == businesses[index];
        assert businesses[..] == businesses[..][index := businesses[index]];
      }
    }

    /** Loads the save records of the first min(lines, records) lines, in
        order; absent data changes nothing. */
    method ReadLocal(loaded: Option<seq<SaveData>>)
      requires Valid()
      modifies businesses, timers
      ensures Valid()
      ensures loaded.None? ==>
        businesses[..] == old(businesses[..]) && timers.timers == old(timers.timers) && timers.nextId == old(timers.nextId)
      ensures loaded.Some? ==>
        Loaded(old(businesses[..]), old(timers.timers), old(timers.nextId), businesses[..], timers.timers, timers.nextId,
               loaded.value, if businesses.Length < |loaded.value| then businesses.Length else |loaded.value|)
    {
      if loaded.Some? {
        var data := loaded.value;
        var indexCap := if businesses.Length < |data| then businesses.Length else |data|;
        ghost var bs0 := businesses[..];
        ghost var ts0 := timers.timers;
        ghost var n0 := timers.nextId;
        LinkedBelowCounter(bs0, ts0, n0, []);
        var i := 0;
        while i < indexCap
          invariant 0 <= i <= indexCap
          invariant Valid()
          invariant Loaded(bs0, ts0, n0, businesses[..], timers.timers, timers.nextId, data, i)
        {
          ghost var bs := businesses[..];
          ghost var ts := timers.timers;
          ghost var n := timers.nextId;
          RestoreLine(i, data[i]);
          LoadedStep(bs0, ts0, n0, bs, ts, n, businesses[..], timers.timers, timers.nextId, data, i);
          i := i + 1;
        }
        assert Loaded(old(businesses[..]), old(timers.timers), old(timers.nextId), businesses[..], timers.timers, timers.nextId,
               loaded.value, if businesses.Length < |loaded.value| then businesses.Length else |loaded.value|);
      }
    }

    /** Every line back to its definition's default level, without a manager
        and idle. Its timers are not aborted: the engine is reset beside it. */
    method ResetAll()
      requires PartsValid()
      modifies businesses
      ensures Valid()
      ensures forall i :: 0 <= i < businesses.Length ==>
        businesses[i] == NewRuntimeBusiness(old(businesses[i]).definition, old(businesses[i]).definition.defaultLevel)
    {
      var i := 0;
      while i < businesses.Length
        invariant 0 <= i <= businesses.Length
        invariant PartsValid()
        invariant forall j :: 0 <= j < i ==>
          businesses[j] == NewRuntimeBusiness(old(businesses[j]).definition, old(businesses[j]).definition.defaultLevel)
        invariant forall j :: i <= j < businesses.Length ==> businesses[j] == old(businesses[j])
      {
        var business := businesses[i];
        var def := business.definition;
        businesses[i] := business.(level := def.defaultLevel, hasManager := false, price := def.price,
                                   revenue := def.revenue, timerId := -1);
        i := i + 1;
      }
    }
  }

  /** Saving every line and loading the records back keeps each line's level,
      manager, producing state and time left; a line that followed the level
      rule keeps everything but its timer id. */
  method SaveLoadRoundTrip(c: BusinessController)
    requires c.Valid()
    modifies c.businesses, c.timers
    ensures c.Valid()
    ensures forall i :: 0 <= i < c.businesses.Length ==>
      var b := old(c.businesses[i]);
      var b' := c.businesses[i];
      b'.level == b.level && b'.hasManager == b.hasManager &&
      (b'.timerId != -1 <==> b.timerId != -1) &&
      (b.timerId != -1 ==> Remaining(c.timers.timers, b'.timerId) == old(Remaining(c.timers.timers, b.timerId))) &&
      (FollowsLevelRule(b) ==> b' == b.(timerId := b'.timerId))
  {
    var saved := c.WriteLocal();
    c.ReadLocal(Some(saved));
  }
}
