/**
  Compaction by summary: a compaction holds the session's guard, works from the snapshot it
  loaded, and lands whenever the model answers; appends and resets go on meanwhile.
 */
module Summaries {
  import opened Basics
  import opened Transcript

  const KEEP_RECENT := 6

  /** A compaction under way: it loaded the entries after `lo` and summarizes those up to `upTo`. */
  datatype Plan = Plan(visibleFrom: nat, lo: nat, upTo: nat, resetSince: bool)

  /** A summary that landed: it covers the entries in (lo, upTo]; `stale` when all were hidden already. */
  datatype Landed = Landed(visibleFrom: nat, lo: nat, upTo: nat, at: nat, stale: bool)

  /** One session: `n` entries, the first `resetAt` of them hidden. */
  datatype View = View(n: nat, resetAt: nat, lastReset: nat, running: Option<Plan>, landed: seq<Landed>)

  datatype Step = Append | Reset | Start | Finish(success: bool)

  /** What a compaction sets out to do, if there is enough to summarize. */
  function PlanFor(n: nat, resetAt: nat, maxEntries: int): Option<Plan>
    requires resetAt <= n
  {
    var lo := LoadedFrom(n, resetAt, maxEntries);
    if n - lo <= KEEP_RECENT + 1 then None else Some(Plan(resetAt, lo, n - KEEP_RECENT, false))
  }

  function Next(v: View, step: Step, maxEntries: int): View
    requires v.resetAt <= v.n
  {
    match step
    case Append => v.(n := v.n + 1)
    case Reset =>
      v.(resetAt := v.n, lastReset := v.n,
         running := if v.running.Some? then Some(v.running.value.(resetSince := true)) else None)
    case Start => if v.running.Some? then v else v.(running := PlanFor(v.n, v.resetAt, maxEntries))
    case Finish(success) =>
      if v.running == None then v
      else if !success then v.(running := None)
      else
        var p := v.running.value;
        v.(n := v.n + 1,
           resetAt := if v.resetAt < p.upTo then p.upTo else v.resetAt,
           running := None,
           landed := v.landed + [Landed(p.visibleFrom, p.lo, p.upTo, v.n + 1, v.resetAt >= p.upTo)])
  }

  // ----- The code against the table -----

  /** Under the guard: loads, and decides what to summarize. */
  method BeginCompaction(store: Store, sid: SessionId, maxEntries: int) returns (plan: Option<Plan>)
    requires store.Valid()
    ensures store.Watermark(sid) <= |Log(store.rows, sid)|
    ensures plan == PlanFor(|Log(store.rows, sid)|, store.Watermark(sid), maxEntries)
  {
    var entries := store.LoadTranscript(sid, maxEntries);
    if |entries| <= KEEP_RECENT + 1 {
      return None;
    }
    var cut := |entries| - KEEP_RECENT;
    var older := entries[..cut];
    var upTo := older[|older| - 1].seqNo;
    return Some(Plan(store.Watermark(sid), older[0].seqNo - 1, upTo, false));
  }

  /** The summary has arrived: one entry more, and the watermark moves up to the plan's end. */
  method FinishCompaction(store: Store, sid: SessionId, plan: Plan, summary: string)
    requires store.Valid() && sid in store.resetAt && plan.upTo <= |Log(store.rows, sid)|
    modifies store
    ensures store.Valid() && store.resetAt.Keys == old(store.resetAt.Keys)
    ensures forall other ::
              Log(store.rows, other) == old(Log(store.rows, other)) + if other == sid then [Summary(summary)] else []
    ensures forall other :: other != sid ==> store.Watermark(other) == old(store.Watermark(other))
    ensures var v := View(|old(Log(store.rows, sid))|, old(store.Watermark(sid)), 0, Some(plan), []);
            v.resetAt <= v.n && Next(v, Finish(true), 0).n == |Log(store.rows, sid)|
            && Next(v, Finish(true), 0).resetAt == store.Watermark(sid)
  {
    store.CompactWithSummary(sid, plan.upTo, summary);
  }

  // ----- Every interleaving -----

  ghost predicate PlanIsSound(v: View, p: Plan) {
    && p.visibleFrom <= p.lo < p.upTo <= v.n
    && p.visibleFrom <= v.resetAt
    && (forall k :: 0 <= k < |v.landed| ==> v.landed[k].upTo <= p.visibleFrom)
    && (p.resetSince <==> v.resetAt >= p.upTo)
    && (p.resetSince ==> v.lastReset >= p.upTo)
    && (!p.resetSince ==> v.resetAt == p.visibleFrom)
  }

  ghost predicate LandedIsSound(v: View, k: nat)
    requires k < |v.landed|
  {
    var l := v.landed[k];
    && l.visibleFrom <= l.lo < l.upTo < l.at <= v.n && l.upTo <= v.resetAt
    && (forall j :: 0 <= j < k ==> v.landed[j].upTo <= l.visibleFrom)
    && (l.stale ==> l.upTo <= v.lastReset)
  }

  predicate Within(l: Landed, s: nat) {
    l.lo < s <= l.upTo
  }

  predicate PassedOver(l: Landed, s: nat) {
    l.visibleFrom < s <= l.lo
  }

  /** Summarized by the `k`th summary, or passed over by it because of the load limit. */
  ghost predicate Accounted(v: View, s: nat) {
    s <= v.lastReset || exists k :: 0 <= k < |v.landed| && (Within(v.landed[k], s) || PassedOver(v.landed[k], s))
  }

  ghost predicate Inv(v: View) {
    && v.lastReset <= v.resetAt <= v.n
    && (forall k :: 0 <= k < |v.landed| ==> LandedIsSound(v, k))
    && (v.running.Some? ==> PlanIsSound(v, v.running.value))
    && (forall s: nat :: 0 < s <= v.resetAt ==> Accounted(v, s))
  }

  lemma StepKeepsInv(v: View, step: Step, maxEntries: int)
    requires Inv(v)
    ensures Inv(Next(v, step, maxEntries))
    ensures var w := Next(v, step, maxEntries); v.n <= w.n && v.resetAt <= w.resetAt && v.lastReset <= w.lastReset
  {
    var w := Next(v, step, maxEntries);
    forall k | 0 <= k < |w.landed| ensures LandedIsSound(w, k) {
      assert k < |v.landed| ==> LandedIsSound(v, k);
    }
    forall s: nat | 0 < s <= w.resetAt ensures Accounted(w, s) {
      if s <= v.resetAt && s > w.lastReset {
        assert Accounted(v, s);
        var k :| 0 <= k < |v.landed| && (Within(v.landed[k], s) || PassedOver(v.landed[k], s));
        assert w.landed[k] == v.landed[k];
      } else if s > v.resetAt && step.Finish? {
        var l := w.landed[|w.landed| - 1];
        assert Within(l, s) || PassedOver(l, s);
      }
    }
    if step.Start? && w.running.Some? && v.running == None {
      forall k | 0 <= k < |w.landed| ensures w.landed[k].upTo <= w.running.value.visibleFrom {
        assert LandedIsSound(v, k);
      }
    }
  }

  function Run(v: View, steps: seq<Step>, maxEntries: int): (w: View)
    requires Inv(v)
    ensures Inv(w) && v.n <= w.n && v.resetAt <= w.resetAt && v.lastReset <= w.lastReset
    decreases |steps|
  {
    if steps == [] then v
    else
      var before := Run(v, steps[..|steps| - 1], maxEntries);
      StepKeepsInv(before, steps[|steps| - 1], maxEntries);
      Next(before, steps[|steps| - 1], maxEntries)
  }

  const EMPTY := View(0, 0, 0, None, [])

  lemma EmptyIsInv()
    ensures Inv(EMPTY)
  {
  }

  // ----- What that means -----

  /** Whatever happens next, an entry once hidden is never visible again. */
  lemma HiddenStaysHidden(v: View, steps: seq<Step>, maxEntries: int, s: nat)
    requires Inv(v) && s <= v.resetAt
    ensures s <= Run(v, steps, maxEntries).resetAt <= Run(v, steps, maxEntries).n
  {
    var _ := Run(v, steps, maxEntries);
  }

  /** No entry goes into two summaries. */
  lemma CoveredOnce(v: View, a: nat, b: nat, s: nat)
    requires Inv(v) && a < |v.landed| && b < |v.landed|
    requires Within(v.landed[a], s) && Within(v.landed[b], s)
    ensures a == b
  {
    assert LandedIsSound(v, a) && LandedIsSound(v, b);
  }

  ghost predicate Summarized(v: View, s: nat) {
    exists k :: 0 <= k < |v.landed| && Within(v.landed[k], s)
  }

  ghost predicate IsPassedOver(v: View, s: nat) {
    exists k :: 0 <= k < |v.landed| && PassedOver(v.landed[k], s)
  }

  /**
    An entry the user did not clear is hidden without a summary iff some compaction passed
    over it, its load having been cut short by the limit.
   */
  lemma LostIffPassedOver(v: View, s: nat)
    requires Inv(v) && v.lastReset < s
    ensures s <= v.resetAt && !Summarized(v, s) <==> IsPassedOver(v, s)
  {
    if s <= v.resetAt {
      assert Accounted(v, s);
    }
    if IsPassedOver(v, s) {
      var k :| 0 <= k < |v.landed| && PassedOver(v.landed[k], s);
      assert LandedIsSound(v, k);
      forall j | 0 <= j < |v.landed| ensures !Within(v.landed[j], s) {
        assert LandedIsSound(v, j);
      }
    }
  }

  /** A compaction passes over entries iff more are visible than the load may return. */
  lemma PassesOverIffLimited(n: nat, resetAt: nat, maxEntries: int)
    requires resetAt <= n && PlanFor(n, resetAt, maxEntries).Some?
    ensures PlanFor(n, resetAt, maxEntries).value.lo > PlanFor(n, resetAt, maxEntries).value.visibleFrom
            <==> maxEntries >= 0 && n - resetAt > maxEntries
  {
    var p := PlanFor(n, resetAt, maxEntries).value;
    assert p.lo == LoadedFrom(n, resetAt, maxEntries) && p.visibleFrom == resetAt;
  }

  // ----- Over whole runs -----

  lemma ViewIsOrdered(v: View)
    requires Inv(v)
    ensures v.lastReset <= v.resetAt <= v.n
  {
  }

  /** The session after the first `i` steps. */
  function At(steps: seq<Step>, i: nat, maxEntries: int): (v: View)
    requires i <= |steps|
    ensures Inv(v)
  {
    EmptyIsInv();
    Run(EMPTY, steps[..i], maxEntries)
  }

  lemma AtNext(steps: seq<Step>, i: nat, maxEntries: int)
    requires i < |steps|
    ensures At(steps, i + 1, maxEntries) == Next(At(steps, i, maxEntries), steps[i], maxEntries)
  {
    assert steps[..i + 1][..i] == steps[..i];
  }

  lemma {:induction false} OnlyForward(steps: seq<Step>, i: nat, j: nat, maxEntries: int)
    requires i <= j <= |steps|
    ensures var v, w := At(steps, i, maxEntries), At(steps, j, maxEntries);
            v.n <= w.n && v.lastReset <= w.lastReset && v.landed <= w.landed
  {
    hide Inv, At;
    if i < j {
      OnlyForward(steps, i, j - 1, maxEntries);
      AtNext(steps, j - 1, maxEntries);
      StepKeepsInv(At(steps, j - 1, maxEntries), steps[j - 1], maxEntries);
    }
  }

  predicate NoneEnds(steps: seq<Step>, i: nat, j: nat)
    requires j <= |steps|
  {
    forall k :: i < k < j ==> !steps[k].Finish?
  }

  predicate NoReset(steps: seq<Step>, i: nat, j: nat)
    requires j <= |steps|
  {
    forall k :: i < k < j ==> steps[k] != Reset
  }

  /** Step `i` starts a compaction, with the plan `p`, that is still under way before step `j`. */
  ghost predicate Started(steps: seq<Step>, i: nat, j: nat, maxEntries: int, p: Plan) {
    && i < j <= |steps| && steps[i] == Start && NoneEnds(steps, i, j)
    && At(steps, i, maxEntries).running == None
    && PlanFor(At(steps, i, maxEntries).n, At(steps, i, maxEntries).resetAt, maxEntries) == Some(p)
  }

  /** Whatever is under way was started by some step and is as it was planned then, but for the resets since. */
  lemma {:induction false} RunningWasStarted(steps: seq<Step>, j: nat, maxEntries: int) returns (i: nat, p: Plan)
    requires j <= |steps| && At(steps, j, maxEntries).running.Some?
    ensures Started(steps, i, j, maxEntries, p)
    ensures At(steps, j, maxEntries).running.value == p.(resetSince := !NoReset(steps, i, j))
  {
    hide Inv, At, PlanFor;
    if j == 0 {
      NothingAtFirst(steps, maxEntries);
    } else {
      AtNext(steps, j - 1, maxEntries);
      if At(steps, j - 1, maxEntries).running == None {
        i, p := j - 1, At(steps, j, maxEntries).running.value;
        ViewIsOrdered(At(steps, i, maxEntries));
        PlansAreFresh(At(steps, i, maxEntries).n, At(steps, i, maxEntries).resetAt, maxEntries);
      } else {
        i, p := RunningWasStarted(steps, j - 1, maxEntries);
        OneStepMoreOfResets(steps, i, j);
      }
    }
  }

  lemma OneStepMoreOfResets(steps: seq<Step>, i: nat, j: nat)
    requires i + 1 < j <= |steps|
    ensures NoReset(steps, i, j) <==> NoReset(steps, i, j - 1) && steps[j - 1] != Reset
  {
  }

  lemma NothingAtFirst(steps: seq<Step>, maxEntries: int)
    ensures At(steps, 0, maxEntries) == EMPTY
  {
  }

  lemma PlansAreFresh(n: nat, resetAt: nat, maxEntries: int)
    requires resetAt <= n
    ensures PlanFor(n, resetAt, maxEntries).Some? ==> !PlanFor(n, resetAt, maxEntries).value.resetSince
  {
  }

  predicate IsOf(l: Landed, p: Plan) {
    l.visibleFrom == p.visibleFrom && l.lo == p.lo && l.upTo == p.upTo
  }

  /** Every summary that landed by step `m` was planned at some `i` and landed at some `j`. */
  lemma {:induction false} LandedWasStarted(steps: seq<Step>, m: nat, maxEntries: int, k: nat)
    returns (i: nat, j: nat, p: Plan)
    requires m <= |steps| && k < |At(steps, m, maxEntries).landed|
    ensures Started(steps, i, j, maxEntries, p) && j < m && steps[j] == Finish(true)
    ensures IsOf(At(steps, m, maxEntries).landed[k], p)
    ensures At(steps, m, maxEntries).landed[k].stale <==> !NoReset(steps, i, j)
  {
    hide Inv, At, Started, NoReset;
    if m == 0 {
      NothingAtFirst(steps, maxEntries);
    } else {
      AtNext(steps, m - 1, maxEntries);
      if k < |At(steps, m - 1, maxEntries).landed| {
        i, j, p := LandedWasStarted(steps, m - 1, maxEntries, k);
      } else {
        j := m - 1;
        i, p := RunningWasStarted(steps, j, maxEntries);
        StaleIffFlagged(At(steps, j, maxEntries));
      }
    }
  }

  lemma StaleIffFlagged(v: View)
    requires Inv(v) && v.running.Some?
    ensures v.running.value.resetSince <==> v.resetAt >= v.running.value.upTo
    ensures v.running.value.resetSince ==> v.lastReset >= v.running.value.upTo
    ensures !v.running.value.resetSince ==> v.resetAt == v.running.value.visibleFrom
  {
  }

  /** A compaction started at `i` keeps its plan up to the step `j` that ends it. */
  lemma {:induction false} StartedKeepsRunning(steps: seq<Step>, i: nat, j: nat, maxEntries: int, p: Plan)
    requires Started(steps, i, j, maxEntries, p)
    ensures At(steps, j, maxEntries).running == Some(p.(resetSince := !NoReset(steps, i, j)))
  {
    hide Inv, At, PlanFor;
    AtNext(steps, j - 1, maxEntries);
    if i < j - 1 {
      StartedKeepsRunning(steps, i, j - 1, maxEntries, p);
      OneStepMoreOfResets(steps, i, j);
    } else {
      ViewIsOrdered(At(steps, i, maxEntries));
      PlansAreFresh(At(steps, i, maxEntries).n, At(steps, i, maxEntries).resetAt, maxEntries);
    }
  }

  /** After a reset all entries so far are cleared, for good. */
  lemma ResetClears(steps: seq<Step>, k: nat, maxEntries: int)
    requires k < |steps| && steps[k] == Reset
    ensures At(steps, |steps|, maxEntries).lastReset >= At(steps, k, maxEntries).n
  {
    hide Inv, At;
    AtNext(steps, k, maxEntries);
    OnlyForward(steps, k + 1, |steps|, maxEntries);
  }

  lemma {:induction false} NoResetNoChange(steps: seq<Step>, i: nat, j: nat, maxEntries: int)
    requires i < j <= |steps| && NoReset(steps, i, j) && steps[i] != Reset
    ensures At(steps, j, maxEntries).lastReset == At(steps, i, maxEntries).lastReset
  {
    hide Inv, At;
    AtNext(steps, j - 1, maxEntries);
    if i < j - 1 {
      NoResetNoChange(steps, i, j - 1, maxEntries);
    }
  }

  /** Some entry that the user did not clear is hidden and in no summary. */
  ghost predicate HasLost(v: View) {
    exists s: nat :: IsLost(v, s)
  }

  ghost predicate IsLost(v: View, s: nat) {
    v.lastReset < s <= v.resetAt && !Summarized(v, s)
  }

  /** More entries are visible than a load returns. */
  predicate Overfull(v: View, maxEntries: int)
    requires v.resetAt <= v.n
  {
    maxEntries >= 0 && v.n - v.resetAt > maxEntries
  }

  /**
    Step `i` starts a compaction while more entries are visible than a load returns, step
    `j` lands it, and the user has cleared nothing since.
   */
  ghost predicate LandsOverfull(steps: seq<Step>, i: nat, j: nat, maxEntries: int) {
    && (exists p :: Started(steps, i, j, maxEntries, p))
    && j < |steps| && steps[j] == Finish(true)
    && Overfull(At(steps, i, maxEntries), maxEntries)
    && NoReset(steps, i, |steps|)
  }

  /** Over any run from the empty session: what exactly makes the session lose an entry. */
  lemma LosesIffOverfull(steps: seq<Step>, maxEntries: int)
    ensures HasLost(Run(EMPTY, steps, maxEntries)) <==> exists i, j :: LandsOverfull(steps, i, j, maxEntries)
  {
    hide Inv, At, Run, LandsOverfull, Summarized;
    EndIsRun(steps, maxEntries);
    var w := At(steps, |steps|, maxEntries);
    if HasLost(w) {
      var s: nat :| IsLost(w, s);
      var i, j := LostWasOverfull(steps, maxEntries, s);
      assert LandsOverfull(steps, i, j, maxEntries);
    }
    if exists i, j :: LandsOverfull(steps, i, j, maxEntries) {
      var i, j :| LandsOverfull(steps, i, j, maxEntries);
      OverfullLoses(steps, i, j, maxEntries);
    }
  }

  lemma EndIsRun(steps: seq<Step>, maxEntries: int)
    ensures At(steps, |steps|, maxEntries) == Run(EMPTY, steps, maxEntries)
  {
    assert steps[..|steps|] == steps;
  }

  lemma LostWasOverfull(steps: seq<Step>, maxEntries: int, s: nat) returns (i: nat, j: nat)
    requires IsLost(At(steps, |steps|, maxEntries), s)
    ensures LandsOverfull(steps, i, j, maxEntries)
  {
    hide Inv, At, Summarized, PlanFor;
    var w := At(steps, |steps|, maxEntries);
    LostIffPassedOver(w, s);
    var k :| 0 <= k < |w.landed| && PassedOver(w.landed[k], s);
    var p;
    i, j, p := LandedWasStarted(steps, |steps|, maxEntries, k);
    var v := At(steps, i, maxEntries);
    ViewIsOrdered(v);
    PassesOverIffLimited(v.n, v.resetAt, maxEntries);
    forall r | i < r < |steps| ensures steps[r] != Reset {
      if steps[r] == Reset {
        ResetClears(steps, r, maxEntries);
        OnlyForward(steps, i, r, maxEntries);
        PlanIsWithin(v.n, v.resetAt, maxEntries);
      }
    }
  }

  lemma PlanIsWithin(n: nat, resetAt: nat, maxEntries: int)
    requires resetAt <= n && PlanFor(n, resetAt, maxEntries).Some?
    ensures var p := PlanFor(n, resetAt, maxEntries).value; resetAt == p.visibleFrom <= p.lo < p.upTo <= n
  {
  }

  lemma OverfullLoses(steps: seq<Step>, i: nat, j: nat, maxEntries: int)
    requires LandsOverfull(steps, i, j, maxEntries)
    ensures HasLost(At(steps, |steps|, maxEntries))
  {
    hide Inv, At, Summarized, PlanFor;
    var p :| Started(steps, i, j, maxEntries, p);
    var v, w := At(steps, i, maxEntries), At(steps, |steps|, maxEntries);
    StartedKeepsRunning(steps, i, j, maxEntries, p);
    AtNext(steps, j, maxEntries);
    OnlyForward(steps, j + 1, |steps|, maxEntries);
    NoResetNoChange(steps, i, |steps|, maxEntries);
    ViewIsOrdered(v);
    PassesOverIffLimited(v.n, v.resetAt, maxEntries);
    PlanIsWithin(v.n, v.resetAt, maxEntries);
    var k, s := |At(steps, j, maxEntries).landed|, p.visibleFrom + 1;
    assert w.landed[k] == At(steps, j + 1, maxEntries).landed[k];
    assert PassedOver(w.landed[k], s);
    LostIffPassedOver(w, s);
    assert IsLost(w, s);
  }

  function Appends(n: nat): seq<Step> {
    if n == 0 then [] else Appends(n - 1) + [Append]
  }

  lemma {:induction false} AppendsOnlyAdd(n: nat, maxEntries: int)
    ensures Run(EMPTY, Appends(n), maxEntries) == View(n, 0, 0, None, [])
  {
    EmptyIsInv();
    if n > 0 {
      AppendsOnlyAdd(n - 1, maxEntries);
      assert Appends(n)[..|Appends(n)| - 1] == Appends(n - 1);
    }
  }

  lemma OneStepMore(v: View, steps: seq<Step>, step: Step, maxEntries: int)
    requires Inv(v)
    ensures Run(v, steps + [step], maxEntries) == Next(Run(v, steps, maxEntries), step, maxEntries)
  {
    assert (steps + [step])[..|steps|] == steps;
  }

  /** With ten entries and a limit of eight, the first two are hidden and in no summary. */
  lemma TwoEntriesAreLost()
    ensures var w := Run(EMPTY, Appends(10) + [Start] + [Finish(true)], 8);
            w.resetAt == 4 && IsLost(w, 1) && IsLost(w, 2) && Summarized(w, 3) && Summarized(w, 4)
  {
    hide Inv, Run;
    EmptyIsInv();
    AppendsOnlyAdd(10, 8);
    OneStepMore(EMPTY, Appends(10), Start, 8);
    OneStepMore(EMPTY, Appends(10) + [Start], Finish(true), 8);
    var w := Run(EMPTY, Appends(10) + [Start] + [Finish(true)], 8);
    assert w.landed == [Landed(0, 2, 4, 11, false)];
    assert Within(w.landed[0], 3) && Within(w.landed[0], 4);
  }

  /** Eight entries, a compaction, a reset while the model writes: the summary is of cleared entries. */
  lemma ClearedEntriesComeBack()
    ensures var w := Run(EMPTY, Appends(8) + [Start] + [Reset] + [Finish(true)], -1);
            w.landed == [Landed(0, 0, 2, 9, true)] && w.lastReset == w.resetAt == 8 && w.n == 9
  {
    hide Inv, Run;
    EmptyIsInv();
    AppendsOnlyAdd(8, -1);
    OneStepMore(EMPTY, Appends(8), Start, -1);
    OneStepMore(EMPTY, Appends(8) + [Start], Reset, -1);
    OneStepMore(EMPTY, Appends(8) + [Start] + [Reset], Finish(true), -1);
  }

  /**
    A compaction started at step `i` and landed at step `j` of any run: its summary is visible,
    and is of entries the user has cleared, all of them, iff a reset came in between; otherwise
    exactly the entries it covers or passed over are hidden, and none of them was cleared.
   */
  lemma StaleIffResetSince(steps: seq<Step>, i: nat, j: nat, maxEntries: int, p: Plan)
    requires Started(steps, i, j, maxEntries, p) && j < |steps| && steps[j] == Finish(true)
    ensures var v, w := At(steps, j, maxEntries), At(steps, j + 1, maxEntries);
            var k := |v.landed|;
            && |w.landed| == k + 1 && IsOf(w.landed[k], p) && w.landed[k].at == w.n > w.resetAt
            && (w.landed[k].stale <==> !NoReset(steps, i, j))
            && (v.lastReset >= p.upTo <==> !NoReset(steps, i, j))
            && (NoReset(steps, i, j) ==> w.resetAt == p.upTo && v.lastReset <= v.resetAt == p.visibleFrom)
    ensures |At(steps, j, maxEntries).landed| < |Run(EMPTY, steps, maxEntries).landed|
    ensures Run(EMPTY, steps, maxEntries).landed[|At(steps, j, maxEntries).landed|].stale <==> !NoReset(steps, i, j)
  {
    hide Inv, At, PlanFor, NoReset, Run;
    StartedKeepsRunning(steps, i, j, maxEntries, p);
    AtNext(steps, j, maxEntries);
    StaleIffFlagged(At(steps, j, maxEntries));
    ViewIsOrdered(At(steps, j, maxEntries));
    ViewIsOrdered(At(steps, i, maxEntries));
    PlanIsWithin(At(steps, i, maxEntries).n, At(steps, i, maxEntries).resetAt, maxEntries);
    OnlyForward(steps, i, j, maxEntries);
    OnlyForward(steps, j + 1, |steps|, maxEntries);
    EndIsRun(steps, maxEntries);
  }

  /** Entries that arrive while the model writes the summary stay visible after it lands, unless reset. */
  lemma RecentEntriesStay(n: nat, resetAt: nat, maxEntries: int, more: nat)
    requires resetAt <= n && PlanFor(n, resetAt, maxEntries).Some?
    ensures var v := View(n + more, resetAt, 0, PlanFor(n, resetAt, maxEntries), []);
            var w := Next(v, Finish(true), maxEntries);
            w.n - w.resetAt == KEEP_RECENT + more + 1
  {
    var p := PlanFor(n, resetAt, maxEntries).value;
    assert p.upTo == n - KEEP_RECENT && p.upTo > resetAt;
  }
}
