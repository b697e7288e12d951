/** The clock engine: a list of countdown timers and the counter that hands
    out their ids. It knows nothing of businesses or money; what a completion
    does is up to the caller of UpdateTimers. */
module Timers {
  import opened Models

  /** A completion as the engine reports it to the completion handler:
      the timer's id, how many whole cycles elapsed, and the overshoot. */
  datatype Fired = Fired(id: int, repeatCount: int, remainingTime: int)

  /** Ids strictly increase along the list (so they are also distinct). */
  ghost predicate IncreasingIds(ts: seq<Timer>)
  {
    forall i, j :: 0 <= i < j < |ts| ==> ts[i].id < ts[j].id
  }

  ghost predicate IncreasingFiredIds(es: seq<Fired>)
  {
    forall i, j :: 0 <= i < j < |es| ==> es[i].id < es[j].id
  }

  predicate PositiveDurations(ts: seq<Timer>)
  {
    forall i :: 0 <= i < |ts| ==> ts[i].duration > 0
  }

  /** A timer is due once its elapsed time reaches its duration. */
  predicate Due(t: Timer)
  {
    t.time >= t.duration
  }

  /** The completion reported for a due timer: `repeatCount` is the floor of
      time / duration (Dafny's `/` agrees with floor here, both operands being
      positive) and the overshoot is what is left after whole cycles. */
  function FireOf(t: Timer): (f: Fired)
    requires t.duration > 0
    ensures f.id == t.id
    ensures Due(t) ==> f.repeatCount >= 1 && 0 <= f.remainingTime < t.duration
    ensures f.repeatCount * t.duration + f.remainingTime == t.time
  {
    var repeatCount := t.time / t.duration;
    Fired(t.id, repeatCount, t.time - repeatCount * t.duration)
  }

  /** Every timer's elapsed time advanced by `dt`. */
  function Advance(ts: seq<Timer>, dt: int): seq<Timer>
  {
    seq(|ts|, i requires 0 <= i < |ts| => ts[i].(time := ts[i].time + dt))
  }

  /** The timers that are not due, in list order. */
  function Survivors(ts: seq<Timer>): seq<Timer>
  {
    if ts == [] then []
    else
      var last := ts[|ts| - 1];
      Survivors(ts[..|ts| - 1]) + (if Due(last) then [] else [last])
  }

  /** The completions of the due timers, in list order. */
  function Fires(ts: seq<Timer>): seq<Fired>
    requires PositiveDurations(ts)
  {
    if ts == [] then []
    else
      var last := ts[|ts| - 1];
      Fires(ts[..|ts| - 1]) + (if Due(last) then [FireOf(last)] else [])
  }

  /** The time left on the first timer with id `id`, or -1 when there is none. */
  function Remaining(ts: seq<Timer>, id: int): (r: int)
    ensures (forall i :: 0 <= i < |ts| ==> ts[i].id != id) ==> r == -1
    ensures forall j :: 0 <= j < |ts| && ts[j].id == id && (forall i :: 0 <= i < j ==> ts[i].id != id) ==>
              r == ts[j].duration - ts[j].time
  {
    if ts == [] then -1
    else if ts[0].id == id then ts[0].duration - ts[0].time
    else
      var r := Remaining(ts[1..], id);
      assert forall j :: 1 <= j < |ts| ==> ts[1..][j - 1] == ts[j];
      r
  }

  lemma ButLast(ts: seq<Timer>)
    requires ts != []
    ensures ts == ts[..|ts| - 1] + [ts[|ts| - 1]]
  {
  }

  /** Cutting the element at position |done| out of done + rest. */
  lemma SpliceAt(done: seq<Timer>, rest: seq<Timer>)
    requires rest != []
    ensures (done + rest)[|done|] == rest[0]
    ensures (done + rest)[..|done|] + (done + rest)[|done| + 1..] == done + rest[1..]
    ensures done + rest == (done + [rest[0]]) + rest[1..]
  {
    assert (done + rest)[..|done|] == done;
    assert (done + rest)[|done| + 1..] == rest[1..];
  }

  /** One iteration of the drain loop over list == done + ts[k..]: the timer
      under the cursor is ts[k]; keeping it or cutting it out extends the
      processed prefix by one. */
  lemma DrainLoopStep(ts: seq<Timer>, k: nat, done: seq<Timer>)
    requires k < |ts| && PositiveDurations(ts)
    ensures (done + ts[k..])[|done|] == ts[k]
    ensures !Due(ts[k]) ==>
      done + ts[k..] == (done + [ts[k]]) + ts[k + 1..] &&
      Survivors(ts[..k + 1]) == Survivors(ts[..k]) + [ts[k]] && Fires(ts[..k + 1]) == Fires(ts[..k])
    ensures Due(ts[k]) ==>
      (done + ts[k..])[..|done|] + (done + ts[k..])[|done| + 1..] == done + ts[k + 1..] &&
      Survivors(ts[..k + 1]) == Survivors(ts[..k]) && Fires(ts[..k + 1]) == Fires(ts[..k]) + [FireOf(ts[k])]
  {
    DrainStep(ts, k);
    SpliceAt(done, ts[k..]);
    assert ts[k..][1..] == ts[k + 1..];
  }

  /** Advancing changes no id and no duration. */
  lemma AdvanceKeepsIds(ts: seq<Timer>, dt: int, bound: int)
    requires IncreasingIds(ts) && PositiveDurations(ts) && forall t :: t in ts ==> 0 <= t.id < bound
    ensures IncreasingIds(Advance(ts, dt)) && PositiveDurations(Advance(ts, dt))
    ensures forall t :: t in Advance(ts, dt) ==> 0 <= t.id < bound
  {
    var adv := Advance(ts, dt);
    assert forall k :: 0 <= k < |adv| ==> adv[k].duration == ts[k].duration && adv[k].id == ts[k].id && ts[k] in ts;
  }

  /** The survivors of an advance satisfy the engine's invariant whenever the timers before it did. */
  lemma AdvanceThenDrainValid(ts: seq<Timer>, dt: int, bound: int)
    requires IncreasingIds(ts) && PositiveDurations(ts) && forall t :: t in ts ==> 0 <= t.id < bound
    ensures PositiveDurations(Advance(ts, dt))
    ensures IncreasingIds(Survivors(Advance(ts, dt))) && PositiveDurations(Survivors(Advance(ts, dt)))
    ensures forall t :: t in Survivors(Advance(ts, dt)) ==> 0 <= t.id < bound
  {
    var adv := Advance(ts, dt);
    AdvanceKeepsIds(ts, dt, bound);
    SurvivorsMembers(adv);
    SurvivorsIncreasing(adv);
    SurvivorsPositive(adv);
  }

  /** Extending the processed prefix by one timer extends both results by at most that timer. */
  lemma DrainStep(ts: seq<Timer>, k: nat)
    requires k < |ts| && PositiveDurations(ts)
    ensures Survivors(ts[..k + 1]) == Survivors(ts[..k]) + (if Due(ts[k]) then [] else [ts[k]])
    ensures Fires(ts[..k + 1]) == Fires(ts[..k]) + (if Due(ts[k]) then [FireOf(ts[k])] else [])
  {
    assert ts[..k + 1][..k] == ts[..k];
  }

  /** A survivor is exactly a timer of the list that is not due. */
  lemma {:induction false} SurvivorsMembers(ts: seq<Timer>)
    ensures forall t :: t in Survivors(ts) <==> t in ts && !Due(t)
  {
    if ts != [] {
      ButLast(ts);
      SurvivorsMembers(ts[..|ts| - 1]);
    }
  }

  lemma SurvivorsPositive(ts: seq<Timer>)
    requires PositiveDurations(ts)
    ensures PositiveDurations(Survivors(ts))
  {
    SurvivorsMembers(ts);
    var s := Survivors(ts);
    forall i | 0 <= i < |s| ensures s[i].duration > 0 {
      assert s[i] in ts;
    }
  }

  /** Removing the due timers keeps the survivors in their insertion order. */
  lemma {:induction false} SurvivorsIncreasing(ts: seq<Timer>)
    requires IncreasingIds(ts)
    ensures IncreasingIds(Survivors(ts))
  {
    if ts != [] {
      var init, last := ts[..|ts| - 1], ts[|ts| - 1];
      SurvivorsIncreasing(init);
      SurvivorsMembers(init);
      var s := Survivors(init);
      forall t | t in s ensures t.id < last.id {
        var i :| 0 <= i < |init| && init[i] == t;
      }
    }
  }

  /** Every due timer is reported. */
  lemma {:induction false} FiresComplete(ts: seq<Timer>)
    requires PositiveDurations(ts)
    ensures forall t :: t in ts && Due(t) ==> FireOf(t) in Fires(ts)
  {
    if ts != [] {
      ButLast(ts);
      FiresComplete(ts[..|ts| - 1]);
    }
  }

  /** Every report comes from a due timer of the list. */
  lemma {:induction false} FiresSound(ts: seq<Timer>)
    requires PositiveDurations(ts)
    ensures forall e :: e in Fires(ts) ==> exists t :: t in ts && Due(t) && e == FireOf(t)
  {
    if ts != [] {
      ButLast(ts);
      FiresSound(ts[..|ts| - 1]);
    }
  }

  /** Reports come in list order, so no timer is reported twice. */
  lemma {:induction false} FiresIncreasing(ts: seq<Timer>)
    requires PositiveDurations(ts) && IncreasingIds(ts)
    ensures IncreasingFiredIds(Fires(ts))
  {
    if ts != [] {
      var init, last := ts[..|ts| - 1], ts[|ts| - 1];
      FiresIncreasing(init);
      FiresSound(init);
      forall e | e in Fires(init) ensures e.id < last.id {
        var t :| t in init && Due(t) && e == FireOf(t);
        var i :| 0 <= i < |init| && init[i] == t;
      }
    }
  }

  /** Each timer either survives or is reported. */
  lemma {:induction false} PartitionSize(ts: seq<Timer>)
    requires PositiveDurations(ts)
    ensures |Survivors(ts)| + |Fires(ts)| == |ts|
  {
    if ts != [] {
      PartitionSize(ts[..|ts| - 1]);
    }
  }

  /** A due timer's report is the one Fires lists under its id, and no other
      report carries that id. */
  lemma DueTimerFiresOnce(ts: seq<Timer>, dt: int, j: nat)
    requires PositiveDurations(ts) && IncreasingIds(ts)
    requires j < |ts| && ts[j].time + dt >= ts[j].duration
    ensures PositiveDurations(Advance(ts, dt))
    ensures FireOf(ts[j].(time := ts[j].time + dt)) in Fires(Advance(ts, dt))
    ensures forall k, l :: 0 <= k < l < |Fires(Advance(ts, dt))| ==>
              Fires(Advance(ts, dt))[k].id != Fires(Advance(ts, dt))[l].id
  {
    var adv := Advance(ts, dt);
    assert adv[j] == ts[j].(time := ts[j].time + dt);
    FiresComplete(adv);
    FiresIncreasing(adv);
  }

  /** Some report carries id `id`. */
  ghost predicate HasFired(es: seq<Fired>, id: int)
  {
    exists e :: e in es && e.id == id
  }

  /** A live timer is reported by an advance exactly when the advance covers
      the time it had left. */
  lemma FiredIffCovered(ts: seq<Timer>, dt: int, t: Timer)
    requires IncreasingIds(ts) && PositiveDurations(ts) && t in ts
    ensures PositiveDurations(Advance(ts, dt))
    ensures HasFired(Fires(Advance(ts, dt)), t.id) <==> Remaining(ts, t.id) <= dt
  {
    var j :| 0 <= j < |ts| && ts[j] == t;
    AdvanceAt(ts, dt, j);
    if Remaining(ts, t.id) <= dt {
      CoveredFires(ts, dt, j);
    }
    if HasFired(Fires(Advance(ts, dt)), t.id) {
      FiredCovered(ts, dt, j);
    }
  }

  /** The j-th timer after an advance, and the time it had left before. */
  lemma AdvanceAt(ts: seq<Timer>, dt: int, j: nat)
    requires IncreasingIds(ts) && PositiveDurations(ts) && j < |ts|
    ensures PositiveDurations(Advance(ts, dt))
    ensures Advance(ts, dt)[j] == ts[j].(time := ts[j].time + dt)
    ensures Remaining(ts, ts[j].id) == ts[j].duration - ts[j].time
  {
    var adv := Advance(ts, dt);
    assert forall k :: 0 <= k < |adv| ==> adv[k].duration == ts[k].duration;
    RemainingOfMember(ts, ts[j]);
  }

  lemma CoveredFires(ts: seq<Timer>, dt: int, j: nat)
    requires IncreasingIds(ts) && PositiveDurations(ts) && j < |ts|
    requires PositiveDurations(Advance(ts, dt)) && Advance(ts, dt)[j] == ts[j].(time := ts[j].time + dt)
    requires ts[j].duration - ts[j].time <= dt
    ensures HasFired(Fires(Advance(ts, dt)), ts[j].id)
  {
    var adv := Advance(ts, dt);
    FiresComplete(adv);
    assert adv[j] in adv && Due(adv[j]);
    assert FireOf(adv[j]) in Fires(adv);
  }

  lemma FiredCovered(ts: seq<Timer>, dt: int, j: nat)
    requires IncreasingIds(ts) && PositiveDurations(ts) && j < |ts|
    requires PositiveDurations(Advance(ts, dt)) && Advance(ts, dt)[j] == ts[j].(time := ts[j].time + dt)
    requires HasFired(Fires(Advance(ts, dt)), ts[j].id)
    ensures ts[j].duration - ts[j].time <= dt
  {
    var adv := Advance(ts, dt);
    FiresSound(adv);
    var e :| e in Fires(adv) && e.id == ts[j].id;
    var w :| w in adv && Due(w) && e == FireOf(w);
    var l :| 0 <= l < |adv| && adv[l] == w;
    assert adv[l].id == ts[l].id;
    assert l == j;
  }

  /** A timer that dt does not cover survives the update with dt less time left. */
  lemma SurvivorRemaining(ts: seq<Timer>, dt: int, j: nat)
    requires IncreasingIds(ts) && PositiveDurations(ts) && j < |ts|
    requires ts[j].duration - ts[j].time > dt
    ensures Remaining(Survivors(Advance(ts, dt)), ts[j].id) == Remaining(ts, ts[j].id) - dt
  {
    var adv := Advance(ts, dt);
    AdvanceAt(ts, dt, j);
    assert forall k :: 0 <= k < |adv| ==> adv[k].id == ts[k].id;
    SurvivorsMembers(adv);
    SurvivorsIncreasing(adv);
    assert adv[j] in adv && !Due(adv[j]);
    RemainingOfMember(Survivors(adv), adv[j]);
  }

  /** The completion reported for the j-th timer carries as overshoot its
      advanced elapsed time modulo its duration. */
  lemma FiredOvershoot(ts: seq<Timer>, dt: int, j: nat, e: Fired)
    requires IncreasingIds(ts) && PositiveDurations(ts) && j < |ts|
    requires PositiveDurations(Advance(ts, dt)) && e in Fires(Advance(ts, dt)) && e.id == ts[j].id
    ensures e.remainingTime == (ts[j].time + dt) % ts[j].duration
  {
    AdvanceAt(ts, dt, j);
    var w := Advance(ts, dt)[j];
    FiredIsFireOf(ts, dt, j, e);
    OvershootIsMod(w);
  }

  /** Ids being distinct, a completion with the j-th timer's id is that timer's. */
  lemma FiredIsFireOf(ts: seq<Timer>, dt: int, j: nat, e: Fired)
    requires IncreasingIds(ts) && j < |ts|
    requires PositiveDurations(Advance(ts, dt)) && e in Fires(Advance(ts, dt)) && e.id == ts[j].id
    ensures e == FireOf(Advance(ts, dt)[j])
  {
    var adv := Advance(ts, dt);
    FiresSound(adv);
    var w :| w in adv && Due(w) && e == FireOf(w);
    var l :| 0 <= l < |adv| && adv[l] == w;
    assert adv[l].id == ts[l].id && adv[j].id == ts[j].id;
  }

  /** The overshoot is the elapsed time modulo the duration. */
  lemma OvershootIsMod(w: Timer)
    requires w.duration > 0
    ensures FireOf(w).remainingTime == w.time % w.duration
  {
    var q := w.time / w.duration;
    assert w.time == q * w.duration + w.time % w.duration;
  }

  /** A timer appended with an id no listed timer has reports its own time left. */
  lemma RemainingLast(ts: seq<Timer>, t: Timer)
    requires forall u :: u in ts ==> u.id != t.id
    ensures Remaining(ts + [t], t.id) == t.duration - t.time
  {
    var ts' := ts + [t];
    assert forall i :: 0 <= i < |ts| ==> ts'[i] == ts[i] && ts[i] in ts;
    assert ts'[|ts|] == t;
  }

  /** How a report list splits around position k; with distinct ids, the
      report at k is the only one carrying its id. */
  lemma HasFiredAt(es: seq<Fired>, k: nat, id: int)
    requires IncreasingFiredIds(es) && k < |es|
    ensures HasFired(es[..k + 1], id) <==> HasFired(es[..k], id) || es[k].id == id
    ensures HasFired(es[k..], id) <==> es[k].id == id || HasFired(es[k + 1..], id)
    ensures es[k].id == id ==> !HasFired(es[..k], id) && !HasFired(es[k + 1..], id)
  {
    assert es[..k + 1] == es[..k] + [es[k]];
    assert es[k..] == [es[k]] + es[k + 1..];
  }

  /** Survivors and Fires seen from the front of the list. */
  lemma {:induction false} SurvivorsCons(t: Timer, r: seq<Timer>)
    ensures Survivors([t] + r) == (if Due(t) then [] else [t]) + Survivors(r)
    decreases |r|
  {
    if r != [] {
      var init := r[..|r| - 1];
      assert ([t] + r)[..|r|] == [t] + init;
      assert ([t] + r)[|r|] == r[|r| - 1];
      SurvivorsCons(t, init);
    }
  }

  lemma {:induction false} FiresCons(t: Timer, r: seq<Timer>)
    requires t.duration > 0 && PositiveDurations(r)
    ensures PositiveDurations([t] + r)
    ensures Fires([t] + r) == (if Due(t) then [FireOf(t)] else []) + Fires(r)
    decreases |r|
  {
    assert forall i :: 1 <= i < |r| + 1 ==> ([t] + r)[i] == r[i - 1];
    if r != [] {
      var init := r[..|r| - 1];
      assert ([t] + r)[..|r|] == [t] + init;
      assert ([t] + r)[|r|] == r[|r| - 1];
      FiresCons(t, init);
    }
  }

  /** The timers appended by a run of completion handlers, in order. */
  function Concat(xss: seq<seq<Timer>>): seq<Timer>
  {
    if xss == [] then [] else xss[0] + Concat(xss[1..])
  }

  /** The drain loop of updateTimers as the source runs it: the handler of
      each due timer runs before the scan goes on, and the timers it starts
      (`extras[m]` after the m-th completion) are appended to the list being
      scanned. Returns the final list and the completions in handler order. */
  function DrainWithHandlers(list: seq<Timer>, ptr: nat, extras: seq<seq<Timer>>): (seq<Timer>, seq<Fired>)
    requires ptr <= |list| && PositiveDurations(list[ptr..]) && PositiveDurations(Concat(extras))
    decreases |list| - ptr + |Concat(extras)|
  {
    if ptr == |list| then (list, [])
    else if list[ptr].time < list[ptr].duration then DrainWithHandlers(list, ptr + 1, extras)
    else
      var ext := if extras == [] then [] else extras[0];
      var later := if extras == [] then [] else extras[1..];
      var next := list[..ptr] + list[ptr + 1..] + ext;
      assert next[ptr..] == list[ptr + 1..] + ext;
      assert extras != [] ==> Concat(extras) == ext + Concat(later);
      assert forall i :: 0 <= i < |ext| ==> (ext + Concat(later))[i] == ext[i];
      assert forall i :: 0 <= i < |Concat(later)| ==> (ext + Concat(later))[|ext| + i] == Concat(later)[i];
      var (l, f) := DrainWithHandlers(next, ptr, later);
      (l, [FireOf(list[ptr])] + f)
  }

  /** What the source's loop leaves, whatever its handlers append: the
      timers before the cursor are kept, none from the cursor on is due, and
      every completion reports at least one full cycle and a non-negative
      overshoot. */
  lemma {:induction false} DrainWithHandlersShape(list: seq<Timer>, ptr: nat, extras: seq<seq<Timer>>)
    requires ptr <= |list| && PositiveDurations(list[ptr..]) && PositiveDurations(Concat(extras))
    ensures var (l, f) := DrainWithHandlers(list, ptr, extras);
      ptr <= |l| && l[..ptr] == list[..ptr] && NoneDue(l[ptr..]) &&
      forall e :: e in f ==> e.repeatCount >= 1 && e.remainingTime >= 0
    decreases |list| - ptr + |Concat(extras)|
  {
    if ptr == |list| {
    } else if !Due(list[ptr]) {
      DrainSkipStep(list, ptr, extras);
      DrainWithHandlersShape(list, ptr + 1, extras);
      var (l, f) := DrainWithHandlers(list, ptr + 1, extras);
      assert l[..ptr + 1] == list[..ptr + 1];
      assert l[ptr] == list[ptr];
      assert l[ptr..] == [l[ptr]] + l[ptr + 1..];
      NoneDueAppend([l[ptr]], l[ptr + 1..]);
    } else {
      var ext := if extras == [] then [] else extras[0];
      var later := if extras == [] then [] else extras[1..];
      var next := list[..ptr] + list[ptr + 1..] + ext;
      assert list[ptr..] == [list[ptr]] + list[ptr + 1..];
      PositiveAppend([list[ptr]], list[ptr + 1..]);
      if extras != [] {
        assert Concat(extras) == ext + Concat(later);
        PositiveAppend(ext, Concat(later));
      }
      PositiveAppend(list[ptr + 1..], ext);
      assert next[ptr..] == list[ptr + 1..] + ext;
      assert next[..ptr] == list[..ptr];
      DrainWithHandlersShape(next, ptr, later);
    }
  }

  /** No timer of the list is due. */
  predicate NoneDue(ts: seq<Timer>)
  {
    forall i :: 0 <= i < |ts| ==> !Due(ts[i])
  }

  /** Scanning a tail of timers none of which is due changes nothing. */
  lemma {:induction false} DrainNoneDue(list: seq<Timer>, ptr: nat)
    requires ptr <= |list| && PositiveDurations(list[ptr..]) && NoneDue(list[ptr..])
    ensures DrainWithHandlers(list, ptr, []) == (list, [])
    decreases |list| - ptr
  {
    if ptr < |list| {
      assert list[ptr] == list[ptr..][0];
      assert list[ptr + 1..] == list[ptr..][1..];
      DrainNoneDue(list, ptr + 1);
    }
  }

  lemma PositiveAppend(a: seq<Timer>, b: seq<Timer>)
    ensures PositiveDurations(a + b) <==> PositiveDurations(a) && PositiveDurations(b)
  {
    assert forall i :: 0 <= i < |a| ==> (a + b)[i] == a[i];
    assert forall i :: 0 <= i < |b| ==> (a + b)[|a| + i] == b[i];
  }

  lemma NoneDueAppend(a: seq<Timer>, b: seq<Timer>)
    ensures NoneDue(a + b) <==> NoneDue(a) && NoneDue(b)
  {
    assert forall i :: 0 <= i < |a| ==> (a + b)[i] == a[i];
    assert forall i :: 0 <= i < |b| ==> (a + b)[|a| + i] == b[i];
  }

  /** One step of the source's loop over a timer that is not due. */
  lemma DrainSkipStep(list: seq<Timer>, ptr: nat, extras: seq<seq<Timer>>)
    requires ptr < |list| && PositiveDurations(list[ptr..]) && PositiveDurations(Concat(extras))
    requires !Due(list[ptr])
    ensures PositiveDurations(list[ptr + 1..])
    ensures DrainWithHandlers(list, ptr, extras) == DrainWithHandlers(list, ptr + 1, extras)
  {
    assert list[ptr..] == [list[ptr]] + list[ptr + 1..];
    PositiveAppend([list[ptr]], list[ptr + 1..]);
  }

  /** One step of the source's loop over a due timer: it is cut out, its
      handler runs and appends its batch. */
  lemma DrainFireStep(list: seq<Timer>, ptr: nat, extras: seq<seq<Timer>>)
    requires ptr < |list| && PositiveDurations(list[ptr..]) && PositiveDurations(Concat(extras))
    requires Due(list[ptr]) && extras != []
    ensures list[ptr].duration > 0
    ensures (list[..ptr] + list[ptr + 1..] + extras[0])[ptr..] == list[ptr + 1..] + extras[0]
    ensures PositiveDurations(list[ptr + 1..] + extras[0]) && PositiveDurations(Concat(extras[1..]))
    ensures var (l, f) := DrainWithHandlers(list[..ptr] + list[ptr + 1..] + extras[0], ptr, extras[1..]);
      DrainWithHandlers(list, ptr, extras) == (l, [FireOf(list[ptr])] + f)
  {
    assert list[ptr..] == [list[ptr]] + list[ptr + 1..];
    PositiveAppend([list[ptr]], list[ptr + 1..]);
    assert Concat(extras) == extras[0] + Concat(extras[1..]);
    PositiveAppend(extras[0], Concat(extras[1..]));
    PositiveAppend(list[ptr + 1..], extras[0]);
    assert (list[..ptr] + list[ptr + 1..] + extras[0])[ptr..] == list[ptr + 1..] + extras[0];
  }

  /** With one batch of started timers per completion, none of them due, the
      loop as the source runs it ends with the survivors followed by the
      started timers, and reports exactly Fires, in the same order: the same
      result as draining first and running the handlers afterwards. */
  lemma {:induction false} DrainWithHandlersMatches(done: seq<Timer>, rest: seq<Timer>, app: seq<Timer>,
                                                      extras: seq<seq<Timer>>)
    requires PositiveDurations(rest) && PositiveDurations(app) && PositiveDurations(Concat(extras))
    requires NoneDue(app) && NoneDue(Concat(extras))
    requires |extras| == |Fires(rest)|
    ensures PositiveDurations((done + rest + app)[|done|..])
    ensures DrainWithHandlers(done + rest + app, |done|, extras) ==
              (done + Survivors(rest) + app + Concat(extras), Fires(rest))
    decreases |rest|, 1
  {
    var list := done + rest + app;
    assert list[|done|..] == rest + app;
    PositiveAppend(rest, app);
    if rest == [] {
      assert extras == [];
      assert list[|done|..] == app;
      DrainNoneDue(list, |done|);
      assert Concat(extras) == [] && Survivors(rest) == [] && Fires(rest) == [];
      assert done + Survivors(rest) + app + Concat(extras) == list;
    } else {
      var t, r := rest[0], rest[1..];
      assert rest == [t] + r;
      PositiveAppend([t], r);
      FiresCons(t, r);
      if !Due(t) {
        MatchesSkip(done, t, r, app, extras);
      } else {
        MatchesFire(done, t, r, app, extras);
      }
    }
  }

  lemma {:induction false} MatchesSkip(done: seq<Timer>, t: Timer, r: seq<Timer>, app: seq<Timer>,
                                       extras: seq<seq<Timer>>)
    requires t.duration > 0 && !Due(t)
    requires PositiveDurations(r) && PositiveDurations(app) && PositiveDurations(Concat(extras))
    requires NoneDue(app) && NoneDue(Concat(extras))
    requires |extras| == |Fires(r)|
    ensures PositiveDurations((done + ([t] + r) + app)[|done|..])
    ensures DrainWithHandlers(done + ([t] + r) + app, |done|, extras) ==
              (done + Survivors([t] + r) + app + Concat(extras), Fires([t] + r))
    decreases |r| + 1, 0
  {
    var list := done + ([t] + r) + app;
    PositiveAppend(r, app);
    PositiveAppend([t], r + app);
    assert list[|done|..] == [t] + (r + app);
    assert list[|done|] == t;
    calc {
      DrainWithHandlers(list, |done|, extras);
    == { DrainSkipStep(list, |done|, extras); }
      DrainWithHandlers(list, |done| + 1, extras);
    == { assert list == (done + [t]) + r + app && |done + [t]| == |done| + 1; }
      DrainWithHandlers((done + [t]) + r + app, |done + [t]|, extras);
    == { DrainWithHandlersMatches(done + [t], r, app, extras); }
      ((done + [t]) + Survivors(r) + app + Concat(extras), Fires(r));
    == { FiresCons(t, r);
         assert Fires([t] + r) == [] + Fires(r);
         assert [] + Fires(r) == Fires(r); }
      ((done + [t]) + Survivors(r) + app + Concat(extras), Fires([t] + r));
    == { SurvivorsCons(t, r);
         assert Survivors([t] + r) == [t] + Survivors(r);
         assert (done + [t]) + Survivors(r) == done + Survivors([t] + r); }
      (done + Survivors([t] + r) + app + Concat(extras), Fires([t] + r));
    }
  }

  lemma {:induction false} MatchesFire(done: seq<Timer>, t: Timer, r: seq<Timer>, app: seq<Timer>,
                                       extras: seq<seq<Timer>>)
    requires t.duration > 0 && Due(t)
    requires PositiveDurations(r) && PositiveDurations(app) && PositiveDurations(Concat(extras))
    requires NoneDue(app) && NoneDue(Concat(extras))
    requires |extras| == |Fires(r)| + 1
    ensures PositiveDurations((done + ([t] + r) + app)[|done|..])
    ensures DrainWithHandlers(done + ([t] + r) + app, |done|, extras) ==
              (done + Survivors([t] + r) + app + Concat(extras), Fires([t] + r))
    decreases |r| + 1, 0
  {
    var list := done + ([t] + r) + app;
    assert list[|done|..] == [t] + (r + app);
    PositiveAppend(r, app);
    PositiveAppend([t], r + app);
    assert list[|done|] == t;
    SurvivorsCons(t, r);
    FiresCons(t, r);
    var ext, later := extras[0], extras[1..];
    DrainFireStep(list, |done|, extras);
    assert Concat(extras) == ext + Concat(later);
    PositiveAppend(ext, Concat(later));
    NoneDueAppend(ext, Concat(later));
    PositiveAppend(app, ext);
    NoneDueAppend(app, ext);
    assert list[..|done|] + list[|done| + 1..] + ext == done + r + (app + ext);
    DrainWithHandlersMatches(done, r, app + ext, later);
    assert done + Survivors(r) + (app + ext) + Concat(later) == done + Survivors([t] + r) + app + Concat(extras);
  }

  /** The whole of updateTimers as the source runs it, handlers interleaved,
      against UpdateTimers followed by the handlers: same timers, in the same
      order, and the same completions in the same order. */
  lemma InterleavedUpdateMatches(ts: seq<Timer>, dt: int, extras: seq<seq<Timer>>)
    requires PositiveDurations(Advance(ts, dt)) && |extras| == |Fires(Advance(ts, dt))|
    requires PositiveDurations(Concat(extras)) && NoneDue(Concat(extras))
    ensures DrainWithHandlers(Advance(ts, dt), 0, extras) ==
              (Survivors(Advance(ts, dt)) + Concat(extras), Fires(Advance(ts, dt)))
  {
    var adv := Advance(ts, dt);
    var none: seq<Timer> := [];
    assert none + adv + none == adv;
    DrainWithHandlersMatches(none, adv, none, extras);
    assert none + Survivors(adv) + none + Concat(extras) == Survivors(adv) + Concat(extras);
  }

  /** A timer of duration 10 started at elapsed 0 and advanced by 25 fires
      once, with two cycles and an overshoot of 5. */
  lemma AdvanceExample()
    ensures Fires(Advance([NewTimer(0, 10)], 25)) == [Fired(0, 2, 5)]
    ensures Survivors(Advance([NewTimer(0, 10)], 25)) == []
  {
    var adv := Advance([NewTimer(0, 10)], 25);
    assert adv == [Timer(0, 25, 10)];
  }

  /** Under distinct ids, the time left on a live timer is its own. */
  lemma RemainingOfMember(ts: seq<Timer>, t: Timer)
    requires IncreasingIds(ts) && t in ts
    ensures Remaining(ts, t.id) == t.duration - t.time
  {
    var j :| 0 <= j < |ts| && ts[j] == t;
  }

  /** Removing one element keeps the ids increasing. */
  lemma RemoveIncreasing(ts: seq<Timer>, p: nat)
    requires IncreasingIds(ts) && p < |ts|
    ensures IncreasingIds(ts[..p] + ts[p + 1..])
    ensures forall t :: t in ts[..p] + ts[p + 1..] <==> t in ts && t != ts[p]
  {
    var r := ts[..p] + ts[p + 1..];
    assert forall i :: 0 <= i < p ==> r[i] == ts[i];
    assert forall i :: p <= i < |r| ==> r[i] == ts[i + 1];
    forall t | t in ts && t != ts[p] ensures t in r {
      var i :| 0 <= i < |ts| && ts[i] == t;
      if i < p { assert r[i] == t; } else { assert r[i - 1] == t; }
    }
  }

  /** The list without the timers carrying `id`, the others in order. */
  function Without(ts: seq<Timer>, id: int): seq<Timer>
  {
    if ts == [] then [] else (if ts[0].id == id then [] else [ts[0]]) + Without(ts[1..], id)
  }

  /** A timer is left exactly when it was listed and does not carry the id. */
  lemma {:induction false} WithoutMembers(ts: seq<Timer>, id: int)
    ensures forall t :: t in Without(ts, id) <==> t in ts && t.id != id
  {
    if ts != [] {
      WithoutMembers(ts[1..], id);
      assert ts == [ts[0]] + ts[1..];
    }
  }

  /** Removing an id no timer carries changes nothing. */
  lemma {:induction false} WithoutAbsent(ts: seq<Timer>, id: int)
    requires forall t :: t in ts ==> t.id != id
    ensures Without(ts, id) == ts
  {
    if ts != [] {
      assert ts[0] in ts;
      WithoutAbsent(ts[1..], id);
      assert ts == [ts[0]] + ts[1..];
    }
  }

  /** With increasing ids, cutting out the timer at `p` is removing its id. */
  lemma {:induction false} WithoutCut(ts: seq<Timer>, p: nat)
    requires IncreasingIds(ts) && p < |ts|
    ensures Without(ts, ts[p].id) == ts[..p] + ts[p + 1..]
  {
    if p == 0 {
      assert forall t :: t in ts[1..] ==> t.id != ts[0].id;
      WithoutAbsent(ts[1..], ts[0].id);
    } else {
      assert ts[0].id < ts[p].id;
      WithoutCut(ts[1..], p - 1);
      assert ts[1..][p - 1] == ts[p];
      assert ts[..p] == [ts[0]] + ts[1..][..p - 1];
      assert ts[p + 1..] == ts[1..][p..];
    }
  }

  /** Removing an id leaves no time on it and the time left on every other id as it was. */
  lemma {:induction false} RemainingWithout(ts: seq<Timer>, x: int, id: int)
    ensures Remaining(Without(ts, x), id) == if id == x then -1 else Remaining(ts, id)
  {
    if ts != [] {
      var rest := Without(ts[1..], x);
      RemainingWithout(ts[1..], x, id);
      if ts[0].id == x {
        assert Without(ts, x) == rest;
      } else {
        var w := [ts[0]] + rest;
        assert Without(ts, x) == w && w[0] == ts[0] && w[1..] == rest;
      }
    }
  }

  class TimerController {
    var nextId: nat
    var timers: seq<Timer>

    /** Ids are below the counter and increase along the list; durations are positive. */
    ghost predicate Valid()
      reads this
    {
      IncreasingIds(timers) &&
      PositiveDurations(timers) &&
      forall t :: t in timers ==> 0 <= t.id < nextId
    }

    constructor ()
      ensures Valid() && nextId == 0 && timers == []
    {
      nextId := 0;
      timers := [];
    }

    /** Starts a timer with elapsed time `startTime` and returns its id, the
        counter's value before the call. */
    method StartTimer(duration: int, startTime: int := 0) returns (id: int)
      requires Valid() && duration > 0
      modifies this
      ensures Valid()
      ensures id == old(nextId) && nextId == old(nextId) + 1
      ensures timers == old(timers) + [Timer(id, startTime, duration)]
    {
      id := nextId;
      nextId := nextId + 1;
      var timer := NewTimer(id, duration);
      if startTime != 0 {
        timer := timer.(time := startTime);
      }
      timers := timers + [timer];
    }

    /** The first pass of UpdateTimers: `dt` added to every timer's elapsed time. */
    static method AdvanceAll(ts: seq<Timer>, dt: int) returns (list: seq<Timer>)
      ensures list == Advance(ts, dt)
    {
      list := ts;
      var i := 0;
      while i < |list|
        invariant 0 <= i <= |list| == |ts|
        invariant forall k :: 0 <= k < i ==> list[k] == ts[k].(time := ts[k].time + dt)
        invariant forall k :: i <= k < |list| ==> list[k] == ts[k]
      {
        list := list[i := list[i].(time := list[i].time + dt)];
        i := i + 1;
      }
    }

    /** The second pass of UpdateTimers: every due timer is cut out of the list
        and its completion reported, in list order; the others stay in order. */
    static method DrainDue(ts: seq<Timer>) returns (list: seq<Timer>, fired: seq<Fired>)
      requires PositiveDurations(ts)
      ensures list == Survivors(ts)
      ensures fired == Fires(ts)
    {
      list := ts;
      ghost var k := 0;
      ghost var done: seq<Timer> := [];
      var ptr := 0;
      fired := [];
      while ptr < |list|
        invariant 0 <= k <= |ts|
        invariant done == Survivors(ts[..k])
        invariant fired == Fires(ts[..k])
        invariant list == done + ts[k..] && ptr == |done|
        decreases |list| - ptr
      {
        DrainLoopStep(ts, k, done);
        var timer := list[ptr];
        if timer.time < timer.duration {
          ptr := ptr + 1;
          done := done + [timer];
        } else {
          list := list[..ptr] + list[ptr + 1..];
          fired := fired + [FireOf(timer)];
        }
        k := k + 1;
      }
      assert ts[..k] == ts;
    }

    /** Advances every timer by `dt`, then removes every due timer and returns
        its completion, in list order; the survivors keep their order. */
    method UpdateTimers(dt: int) returns (fired: seq<Fired>)
      requires Valid()
      modifies this
      ensures Valid() && nextId == old(nextId)
      ensures PositiveDurations(Advance(old(timers), dt))
      ensures timers == Survivors(Advance(old(timers), dt))
      ensures fired == Fires(Advance(old(timers), dt))
    {
      var list := AdvanceAll(timers, dt);
      AdvanceThenDrainValid(timers, dt, nextId);
      list, fired := DrainDue(list);
      timers := list;
    }

    /** The time left on the timer with id `timerId`, or -1 when none is live. */
    method GetRemainingTime(timerId: int) returns (r: int)
      ensures r == Remaining(timers, timerId)
    {
      var i := 0;
      while i < |timers|
        invariant 0 <= i <= |timers|
        invariant Remaining(timers, timerId) == Remaining(timers[i..], timerId)
      {
        if timers[i].id == timerId {
          return timers[i].duration - timers[i].time;
        }
        assert timers[i..][1..] == timers[i + 1..];
        i := i + 1;
      }
      return -1;
    }

    /** Removes the timer with id `timerId` without reporting it; nothing
        happens when there is none. (The scan advances its cursor, which the
        source's loop does not: see AbortAsWrittenDiverges.) */
    method AbortTimer(timerId: int)
      requires Valid()
      modifies this
      ensures Valid() && nextId == old(nextId)
      ensures (forall i :: 0 <= i < |old(timers)| ==> old(timers)[i].id != timerId) ==> timers == old(timers)
      ensures forall p :: 0 <= p < |old(timers)| && old(timers)[p].id == timerId ==>
                timers == old(timers)[..p] + old(timers)[p + 1..]
    {
      var ptr := 0;
      while ptr < |timers|
        invariant 0 <= ptr <= |timers| && timers == old(timers)
        invariant forall i :: 0 <= i < ptr ==> timers[i].id != timerId
      {
        if timers[ptr].id == timerId {
          RemoveIncreasing(timers, ptr);
          timers := timers[..ptr] + timers[ptr + 1..];
          return;
        }
        ptr := ptr + 1;
      }
    }

    /** Forgets every timer and restarts the id counter at 0. */
    method ResetAll()
      modifies this
      ensures Valid() && nextId == 0 && timers == []
    {
      nextId := 0;
      timers := [];
    }
  }

  /** The loop state of abortTimer as the source writes it: the list and the
      cursor while the loop runs, the list once it has exited. */
  datatype AbortLoop = Running(timers: seq<Timer>, ptr: nat) | Exited(timers: seq<Timer>)

  /** One iteration of that loop: the guard, the splice-and-break on a match,
      and otherwise nothing, since the cursor is never incremented. */
  function AbortStepAsWritten(timers: seq<Timer>, ptr: nat, timerId: int): (r: AbortLoop)
    ensures r.Exited? <==> ptr >= |timers| || timers[ptr].id == timerId
    ensures r.Running? ==> r == Running(timers, ptr)
    ensures r.Exited? && ptr < |timers| ==>
      |r.timers| == |timers| - 1 &&
      forall i :: 0 <= i < |r.timers| ==> r.timers[i] == if i < ptr then timers[i] else timers[i + 1]
  {
    if ptr >= |timers| then Exited(timers)
    else if timers[ptr].id == timerId then Exited(timers[..ptr] + timers[ptr + 1..])
    else Running(timers, ptr)
  }

  /** At most `fuel` iterations of the loop; whatever the fuel, the loop
      either has exited or is exactly where it started. */
  function AbortRunAsWritten(state: AbortLoop, timerId: int, fuel: nat): (r: AbortLoop)
    ensures r == state || r.Exited?
    decreases fuel
  {
    if fuel == 0 || state.Exited? then state
    else AbortRunAsWritten(AbortStepAsWritten(state.timers, state.ptr, timerId), timerId, fuel - 1)
  }

  /** The loop as written never leaves its first state when the first timer
      does not carry the id: however many iterations run, it is still running
      at cursor 0. */
  lemma {:induction false} AbortAsWrittenDiverges(ts: seq<Timer>, timerId: int, fuel: nat)
    requires ts != [] && ts[0].id != timerId
    ensures AbortRunAsWritten(Running(ts, 0), timerId, fuel) == Running(ts, 0)
    decreases fuel
  {
    if fuel > 0 {
      AbortAsWrittenDiverges(ts, timerId, fuel - 1);
    }
  }

  /** It exits, after one iteration, only on an empty list or a match at the front. */
  lemma AbortAsWrittenExits(ts: seq<Timer>, timerId: int)
    requires ts == [] || ts[0].id == timerId
    ensures AbortRunAsWritten(Running(ts, 0), timerId, 1) == Exited(if ts == [] then [] else ts[1..])
  {
  }

  /** Concrete case: aborting the second of two live timers never terminates. */
  lemma AbortSecondTimerHangs(fuel: nat)
    ensures AbortRunAsWritten(Running([NewTimer(0, 1), NewTimer(1, 1)], 0), 1, fuel)
            == Running([NewTimer(0, 1), NewTimer(1, 1)], 0)
  {
    AbortAsWrittenDiverges([NewTimer(0, 1), NewTimer(1, 1)], 1, fuel);
  }
}
