/**
  Fitting a message list into the token budget: first old tool results are cut short,
  then the oldest messages are dropped, call-and-result pairs only as a whole.
  Token numbers are integers; the watermark `trigger` (budget times a float ratio)
  and the calibration of the estimates are parameters.
 */
module Compaction {
  import opened Basics
  import opened Messages

  datatype MsgMeta = MsgMeta(index: nat, tokens: int, isToolResult: bool, isToolDispatch: bool)

  datatype CompactCfg = CompactCfg(
    trigger: int,
    pruneToolToTokens: int,
    keepRecent: nat,
    enableSummary: bool)

  datatype CompactPlan = CompactPlan(
    pruneToolResults: seq<nat>,
    drop: seq<nat>,
    summarize: Option<(nat, nat)>,
    pruneToTokens: int)
  {
    predicate IsNoop() {
      pruneToolResults == [] && drop == [] && summarize == None
    }
  }

  /** What callers provide: `index` is the position, and only assistants dispatch calls. */
  ghost predicate Positional(metas: seq<MsgMeta>) {
    forall i :: 0 <= i < |metas| ==>
      metas[i].index == i && !(metas[i].isToolResult && metas[i].isToolDispatch)
  }

  // ----- Sizes -----

  predicate Prunable(m: MsgMeta, cfg: CompactCfg) {
    m.isToolResult && m.tokens > cfg.pruneToolToTokens
  }

  function SizeAt(metas: seq<MsgMeta>, cfg: CompactCfg, pruned: nat, i: nat): int
    requires i < |metas|
  {
    if i < pruned && Prunable(metas[i], cfg) then cfg.pruneToolToTokens else metas[i].tokens
  }

  /** The size of `metas[from..]` when the tool results before `pruned` are cut short. */
  function Remaining(metas: seq<MsgMeta>, cfg: CompactCfg, pruned: nat, from: nat): int
    requires from <= |metas|
    decreases |metas| - from
  {
    if from == |metas| then 0
    else SizeAt(metas, cfg, pruned, from) + Remaining(metas, cfg, pruned, from + 1)
  }

  function MovableEnd(metas: seq<MsgMeta>, cfg: CompactCfg): (end: nat)
    ensures end <= |metas|
  {
    if |metas| <= cfg.keepRecent then 0 else |metas| - cfg.keepRecent
  }

  // ----- The two cuts, as the loops find them -----

  function PruneStop(metas: seq<MsgMeta>, cfg: CompactCfg, p: nat): (stop: nat)
    requires p <= MovableEnd(metas, cfg)
    ensures p <= stop <= MovableEnd(metas, cfg)
    decreases MovableEnd(metas, cfg) - p
  {
    if p == MovableEnd(metas, cfg) || Remaining(metas, cfg, p, 0) <= cfg.trigger then p
    else PruneStop(metas, cfg, p + 1)
  }

  /** How many messages leave together when `i` leaves. */
  function UnitSize(metas: seq<MsgMeta>, i: nat): nat
    requires i < |metas|
  {
    if metas[i].isToolDispatch && i + 1 < |metas| && metas[i + 1].isToolResult then 2 else 1
  }

  function DropStop(metas: seq<MsgMeta>, cfg: CompactCfg, pruned: nat, k: nat): (stop: nat)
    requires k <= MovableEnd(metas, cfg)
    ensures k <= stop <= MovableEnd(metas, cfg)
    decreases MovableEnd(metas, cfg) - k
  {
    if k == MovableEnd(metas, cfg) || Remaining(metas, cfg, pruned, k) <= cfg.trigger then k
    else if k + UnitSize(metas, k) > MovableEnd(metas, cfg) then k
    else DropStop(metas, cfg, pruned, k + UnitSize(metas, k))
  }

  function PrunedBefore(metas: seq<MsgMeta>, cfg: CompactCfg, p: nat): seq<nat>
    requires p <= |metas|
  {
    if p == 0 then []
    else PrunedBefore(metas, cfg, p - 1) + if Prunable(metas[p - 1], cfg) then [p - 1] else []
  }

  function PlanFor(metas: seq<MsgMeta>, cfg: CompactCfg): CompactPlan {
    if Remaining(metas, cfg, 0, 0) <= cfg.trigger || MovableEnd(metas, cfg) == 0 then
      CompactPlan([], [], None, cfg.pruneToolToTokens)
    else
      var p := PruneStop(metas, cfg, 0);
      var k := DropStop(metas, cfg, p, 0);
      CompactPlan(
        PrunedBefore(metas, cfg, p),
        UpTo(k),
        if cfg.enableSummary && k > 0 then Some((0, k)) else None,
        cfg.pruneToolToTokens)
  }

  // ----- The planner -----

  lemma {:induction false} PruningOneMore(metas: seq<MsgMeta>, cfg: CompactCfg, p: nat, from: nat)
    requires from <= |metas| && p < |metas|
    ensures Remaining(metas, cfg, p + 1, from) == Remaining(metas, cfg, p, from)
              - if from <= p && Prunable(metas[p], cfg) then metas[p].tokens - cfg.pruneToolToTokens else 0
    decreases |metas| - from
  {
    if from < |metas| {
      PruningOneMore(metas, cfg, p, from + 1);
    }
  }

  lemma {:induction false} PrunedBeforeMembers(metas: seq<MsgMeta>, cfg: CompactCfg, p: nat)
    requires p <= |metas|
    ensures forall i :: i in PrunedBefore(metas, cfg, p) <==> 0 <= i < p && Prunable(metas[i], cfg)
  {
    if p > 0 {
      PrunedBeforeMembers(metas, cfg, p - 1);
    }
  }

  lemma {:induction false} TokenSum(metas: seq<MsgMeta>, cfg: CompactCfg, from: nat)
    requires from <= |metas|
    ensures Remaining(metas, cfg, 0, from) == SumTokens(metas[from..])
    decreases |metas| - from
  {
    if from < |metas| {
      TokenSum(metas, cfg, from + 1);
      assert metas[from..][1..] == metas[from + 1..];
    }
  }

  function SumTokens(metas: seq<MsgMeta>): int {
    if metas == [] then 0 else metas[0].tokens + SumTokens(metas[1..])
  }

  method PlanCompaction(metas: seq<MsgMeta>, cfg: CompactCfg) returns (plan: CompactPlan)
    requires Positional(metas)
    ensures plan == PlanFor(metas, cfg)
  {
    var total := SumTokens(metas);
    assert metas[0..] == metas;
    TokenSum(metas, cfg, 0);
    plan := CompactPlan([], [], None, cfg.pruneToolToTokens);
    if total <= cfg.trigger {
      return;
    }
    var movableEnd := MovableEnd(metas, cfg);
    if movableEnd == 0 {
      return;
    }

    // Step 1: cut old tool results short, oldest first.
    var projected := total;
    ghost var p := 0;
    for i := 0 to movableEnd
      invariant p == i
      invariant plan == CompactPlan(PrunedBefore(metas, cfg, i), [], None, cfg.pruneToolToTokens)
      invariant projected == Remaining(metas, cfg, i, 0)
      invariant PruneStop(metas, cfg, 0) == PruneStop(metas, cfg, i)
    {
      if projected <= cfg.trigger {
        break;
      }
      PruningOneMore(metas, cfg, i, 0);
      var m := metas[i];
      if m.isToolResult && m.tokens > cfg.pruneToolToTokens {
        plan := plan.(pruneToolResults := plan.pruneToolResults + [m.index]);
        projected := projected - (m.tokens - cfg.pruneToolToTokens);
      }
      p := i + 1;
    }

    // Step 2: still too large, so drop the oldest messages, pairs as a whole.
    if projected > cfg.trigger {
      plan := DropOldest(metas, cfg, plan, projected, p);
    }

    // Step 3: mark the dropped range for a summary.
    if cfg.enableSummary && plan.drop != [] {
      var start, end := plan.drop[0], plan.drop[|plan.drop| - 1] + 1;
      plan := plan.(summarize := Some((start, end)));
    }
  }

  /** No call is parted from its result by cutting at `k`. */
  predicate PairClosed(metas: seq<MsgMeta>, k: nat)
    requires k <= |metas|
  {
    0 < k < |metas| ==> !(metas[k - 1].isToolDispatch && metas[k].isToolResult)
  }

  lemma DropOneUnit(metas: seq<MsgMeta>, cfg: CompactCfg, p: nat, k: nat)
    requires Positional(metas) && k <= |metas| && PairClosed(metas, k)
    requires k < MovableEnd(metas, cfg) && Remaining(metas, cfg, p, k) > cfg.trigger
    ensures var u := UnitSize(metas, k);
            if k + u > MovableEnd(metas, cfg) then DropStop(metas, cfg, p, k) == k
            else
              && PairClosed(metas, k + u)
              && DropStop(metas, cfg, p, k) == DropStop(metas, cfg, p, k + u)
              && Remaining(metas, cfg, p, k + u)
                 == Remaining(metas, cfg, p, k) - SizeAt(metas, cfg, p, k)
                    - if u == 2 then SizeAt(metas, cfg, p, k + 1) else 0
  {
  }

  /** The other half of a pair: a call looks at the next message, a result at the one before. */
  function MateOf(metas: seq<MsgMeta>, i: nat): (mate: Option<int>)
    requires i < |metas|
    ensures Positional(metas) && PairClosed(metas, i) ==>
              mate == if UnitSize(metas, i) == 2 then Some(i + 1) else None
    ensures mate.Some? ==> 0 <= mate.value < |metas|
  {
    if metas[i].isToolDispatch then
      if i + 1 < |metas| && metas[i + 1].isToolResult then Some(i + 1) else None
    else if metas[i].isToolResult then
      if i > 0 && metas[i - 1].isToolDispatch then Some(i - 1) else None
    else None
  }

  /** The dropping loop; the list it builds is ascending, so sorting it afterwards changes nothing. */
  method DropOldest(metas: seq<MsgMeta>, cfg: CompactCfg, prunePlan: CompactPlan, size: int, ghost p: nat)
    returns (plan: CompactPlan)
    requires Positional(metas) && p <= |metas| && MovableEnd(metas, cfg) > 0
    requires prunePlan.pruneToolResults == PrunedBefore(metas, cfg, p) && prunePlan.drop == []
    requires size == Remaining(metas, cfg, p, 0) > cfg.trigger
    ensures plan == prunePlan.(drop := UpTo(DropStop(metas, cfg, p, 0)))
  {
    hide Remaining, DropStop, PrunedBefore;
    PrunedBeforeMembers(metas, cfg, p);
    var movableEnd := MovableEnd(metas, cfg);
    var pruned := prunePlan.pruneToolResults;
    var drop, projected := [], size;
    ghost var k: nat := 0;
    for i := 0 to movableEnd
      invariant k <= movableEnd && drop == UpTo(k) && PairClosed(metas, k)
      invariant projected == Remaining(metas, cfg, p, k)
      invariant DropStop(metas, cfg, p, 0) == DropStop(metas, cfg, p, k)
      invariant i <= k <= i + 1 || (i == movableEnd && DropStop(metas, cfg, p, k) == k)
    {
      if projected <= cfg.trigger {
        DropStopHere(metas, cfg, p, k);
        break;
      }
      var m := metas[i];
      assert i < k ==> drop[i] == i;
      if m.index in drop {
        continue;
      }
      assert k == i;
      DropOneUnit(metas, cfg, p, k);
      var mate := MateOf(metas, i);
      if mate.Some? && mate.value >= movableEnd {
        continue;
      }
      drop := drop + [m.index];
      projected := projected - if m.index in pruned then cfg.pruneToolToTokens else m.tokens;
      if mate.Some? {
        var n := metas[mate.value];
        if n.index !in drop {
          drop := drop + [n.index];
          projected := projected - if n.index in pruned then cfg.pruneToolToTokens else n.tokens;
        }
      }
      k := k + UnitSize(metas, k);
      assert drop == UpTo(k);
    }
    if k == movableEnd {
      DropStopHere(metas, cfg, p, k);
    }
    plan := prunePlan.(drop := drop);
  }

  lemma DropStopHere(metas: seq<MsgMeta>, cfg: CompactCfg, p: nat, k: nat)
    requires k <= MovableEnd(metas, cfg)
    requires k == MovableEnd(metas, cfg) || Remaining(metas, cfg, p, k) <= cfg.trigger
    ensures DropStop(metas, cfg, p, k) == k
  {
  }

  // ----- What the plan guarantees -----

  /** Results are cut short up to the first point where the whole fits, or all movable ones are. */
  ghost predicate IsPruneCut(metas: seq<MsgMeta>, cfg: CompactCfg, p: nat) {
    && p <= MovableEnd(metas, cfg)
    && (Remaining(metas, cfg, p, 0) <= cfg.trigger || p == MovableEnd(metas, cfg))
    && forall q :: 0 <= q < p ==> Remaining(metas, cfg, q, 0) > cfg.trigger
  }

  /** The call at the end of the movable zone has its result in the protected zone. */
  predicate Straddles(metas: seq<MsgMeta>, end: nat)
    requires end <= |metas|
  {
    0 < end < |metas| && metas[end - 1].isToolDispatch && metas[end].isToolResult
  }

  /** The shortest pair-closed prefix whose removal makes the rest fit, or all that may move. */
  ghost predicate IsDropCut(metas: seq<MsgMeta>, cfg: CompactCfg, p: nat, k: nat) {
    var end := MovableEnd(metas, cfg);
    && k <= end
    && PairClosed(metas, k)
    && (|| Remaining(metas, cfg, p, k) <= cfg.trigger
        || k == end
        || (k + 1 == end && Straddles(metas, end)))
    && forall j :: 0 <= j < k && PairClosed(metas, j) ==> Remaining(metas, cfg, p, j) > cfg.trigger
  }

  lemma {:induction false} PruneStopIsCut(metas: seq<MsgMeta>, cfg: CompactCfg, p: nat)
    requires p <= MovableEnd(metas, cfg)
    requires forall q :: 0 <= q < p ==> Remaining(metas, cfg, q, 0) > cfg.trigger
    ensures IsPruneCut(metas, cfg, PruneStop(metas, cfg, p))
    decreases MovableEnd(metas, cfg) - p
  {
    if p < MovableEnd(metas, cfg) && Remaining(metas, cfg, p, 0) > cfg.trigger {
      PruneStopIsCut(metas, cfg, p + 1);
    }
  }

  lemma {:induction false} DropStopIsCut(metas: seq<MsgMeta>, cfg: CompactCfg, p: nat, k: nat)
    requires Positional(metas)
    requires k <= MovableEnd(metas, cfg) && PairClosed(metas, k)
    requires forall j :: 0 <= j < k && PairClosed(metas, j) ==> Remaining(metas, cfg, p, j) > cfg.trigger
    ensures IsDropCut(metas, cfg, p, DropStop(metas, cfg, p, k))
    decreases MovableEnd(metas, cfg) - k
  {
    var end := MovableEnd(metas, cfg);
    if k < end && Remaining(metas, cfg, p, k) > cfg.trigger && k + UnitSize(metas, k) <= end {
      DropStopIsCut(metas, cfg, p, k + UnitSize(metas, k));
    }
  }

  lemma DropCutIsUnique(metas: seq<MsgMeta>, cfg: CompactCfg, p: nat, a: nat, b: nat)
    requires IsDropCut(metas, cfg, p, a) && IsDropCut(metas, cfg, p, b)
    ensures a == b
  {
  }

  /** The size left once a plan is carried out, read off the plan itself. */
  function PlannedSize(metas: seq<MsgMeta>, plan: CompactPlan, from: nat): int
    requires from <= |metas|
    decreases |metas| - from
  {
    if from == |metas| then 0
    else
      (if from in plan.drop then 0
       else if from in plan.pruneToolResults then plan.pruneToTokens
       else metas[from].tokens) + PlannedSize(metas, plan, from + 1)
  }

  lemma {:induction false} PlannedSizeIsRemaining(metas: seq<MsgMeta>, cfg: CompactCfg, plan: CompactPlan, p: nat,
                                                  k: nat, from: nat)
    requires from <= |metas| && p <= |metas| && k <= |metas|
    requires plan.pruneToolResults == PrunedBefore(metas, cfg, p) && plan.drop == UpTo(k)
    requires plan.pruneToTokens == cfg.pruneToolToTokens
    ensures PlannedSize(metas, plan, from) == Remaining(metas, cfg, p, if from < k then k else from)
    decreases |metas| - from
  {
    PrunedBeforeMembers(metas, cfg, p);
    if from < |metas| {
      PlannedSizeIsRemaining(metas, cfg, plan, p, k, from + 1);
      assert from < k ==> UpTo(k)[from] == from;
    }
  }

  /**
    The plan cuts the list at the unique pair-closed place that is just far enough, never
    touches the protected tail, asks for a summary of exactly what it drops, and leaves
    at most `trigger` unless nothing more may move.
   */
  lemma PlanIsMinimalAndPairClosed(metas: seq<MsgMeta>, cfg: CompactCfg) returns (p: nat, k: nat)
    requires Positional(metas)
    ensures IsPruneCut(metas, cfg, p) && IsDropCut(metas, cfg, p, k)
    ensures var plan, end := PlanFor(metas, cfg), MovableEnd(metas, cfg);
            && plan.drop == UpTo(k)
            && plan.pruneToolResults == PrunedBefore(metas, cfg, p)
            && plan.summarize == (if cfg.enableSummary && k > 0 then Some((0, k)) else None)
            && PlannedSize(metas, plan, 0) == Remaining(metas, cfg, p, k)
            && (PlannedSize(metas, plan, 0) <= cfg.trigger || k == end || (k + 1 == end && Straddles(metas, end)))
  {
    PruneStopIsCut(metas, cfg, 0);
    p := PruneStop(metas, cfg, 0);
    DropStopIsCut(metas, cfg, p, 0);
    k := DropStop(metas, cfg, p, 0);
    PlannedSizeIsRemaining(metas, cfg, PlanFor(metas, cfg), p, k, 0);
  }

  /** How many messages from the end on are left alone: `keepRecent`, or all there are. */
  function Spared(n: nat, cfg: CompactCfg): nat {
    if n < cfg.keepRecent then n else cfg.keepRecent
  }

  /**
    The plan in the caller's terms: nothing is planned for a list that fits; none of the last
    `keepRecent` messages is ever touched; results are cut short only if too long; and if too
    much is left all the same, every other such result is cut short and all but the last
    `keepRecent` messages go, or all but those and a call whose result is among them.
   */
  lemma PlanSparesTheRecent(metas: seq<MsgMeta>, cfg: CompactCfg)
    requires Positional(metas)
    ensures var plan, movable := PlanFor(metas, cfg), |metas| - Spared(|metas|, cfg);
            && plan.pruneToTokens == cfg.pruneToolToTokens
            && (SumTokens(metas) <= cfg.trigger || |metas| <= cfg.keepRecent ==> plan.IsNoop())
            && (forall i :: i in plan.drop ==> 0 <= i && i + cfg.keepRecent < |metas|)
            && (forall i :: i in plan.pruneToolResults ==>
                  && 0 <= i && i + cfg.keepRecent < |metas|
                  && metas[i].isToolResult && metas[i].tokens > cfg.pruneToolToTokens)
            && (SumTokens(metas) > cfg.trigger && PlannedSize(metas, plan, 0) > cfg.trigger ==>
                  && (forall i ::
                        0 <= i < movable && metas[i].isToolResult && metas[i].tokens > cfg.pruneToolToTokens ==>
                          i in plan.pruneToolResults)
                  && (|| |plan.drop| == movable
                      || (|plan.drop| + 1 == movable < |metas|
                          && metas[movable - 1].isToolDispatch && metas[movable].isToolResult)))
  {
    hide Remaining, DropStop, PruneStop, PlannedSize, PrunedBefore, SumTokens;
    assert metas[0..] == metas;
    TokenSum(metas, cfg, 0);
    if SumTokens(metas) > cfg.trigger && |metas| > cfg.keepRecent {
      PruneStopIsCut(metas, cfg, 0);
      var p := PruneStop(metas, cfg, 0);
      PrunedBeforeMembers(metas, cfg, p);
      DropStopIsCut(metas, cfg, p, 0);
      var k := DropStop(metas, cfg, p, 0);
      PlannedSizeIsRemaining(metas, cfg, PlanFor(metas, cfg), p, k, 0);
      LessRemains(metas, cfg, p, k);
    }
  }

  /** If even the rest behind `k` is too large, so is the whole, and pruning went as far as it may. */
  lemma LessRemains(metas: seq<MsgMeta>, cfg: CompactCfg, p: nat, k: nat)
    requires Positional(metas) && k <= |metas| && IsPruneCut(metas, cfg, p) && IsDropCut(metas, cfg, p, k)
    ensures Remaining(metas, cfg, p, k) > cfg.trigger ==> p == MovableEnd(metas, cfg)
  {
    hide Remaining;
    assert k > 0 ==> PairClosed(metas, 0);
  }

  // ----- Carrying the plan out on messages -----

  const PRUNED_MARK := "\n…[旧工具输出已剪枝]"

  /** A token for every four characters, and one at least. */
  function EstimateTokens(content: string): (est: int)
    ensures est >= 1 && 4 * (est - 1) <= |content| < 4 * (est + 1)
    ensures |content| >= 4 ==> 4 * est <= |content|
  {
    if |content| / 4 < 1 then 1 else |content| / 4
  }

  function TotalEstimate(ms: seq<Message>): int {
    if ms == [] then 0 else EstimateTokens(ms[0].content) + TotalEstimate(ms[1..])
  }

  lemma {:induction false} EstimatesAdd(a: seq<Message>, b: seq<Message>)
    ensures TotalEstimate(a + b) == TotalEstimate(a) + TotalEstimate(b)
    ensures forall m :: m in a ==> EstimateTokens(m.content) <= TotalEstimate(a)
    ensures |a| == 1 ==> TotalEstimate(a) == EstimateTokens(a[0].content)
    ensures TotalEstimate(a) >= |a|
  {
    if a == [] {
      assert a + b == b;
    } else {
      EstimatesAdd(a[1..], b);
      assert (a + b)[1..] == a[1..] + b;
    }
  }

  /** Scales one estimate, given the last measured input size (if known) and the total estimate. */
  type Calibration = (Option<int>, int, int) -> int

  function MetaOf(m: Message, i: nat, size: int): MsgMeta {
    MsgMeta(i, if size < 1 then 1 else size, m.role == Tool, IsDispatch(m))
  }

  function MetasOf(ms: seq<Message>, measured: Option<int>, scale: Calibration): (metas: seq<MsgMeta>)
    ensures |metas| == |ms| && Positional(metas)
    ensures forall i :: 0 <= i < |ms| ==> Describes(metas[i], ms[i])
    ensures forall i :: 0 <= i < |ms| ==>
              metas[i].tokens == Max(1, scale(measured, TotalEstimate(ms), EstimateTokens(ms[i].content)))
  {
    MetasTo(ms, measured, scale, |ms|)
  }

  predicate Describes(meta: MsgMeta, m: Message) {
    meta.tokens >= 1 && meta.isToolResult == (m.role == Tool) && meta.isToolDispatch == IsDispatch(m)
  }

  function MetasTo(ms: seq<Message>, measured: Option<int>, scale: Calibration, n: nat): (metas: seq<MsgMeta>)
    requires n <= |ms|
    ensures |metas| == n && Positional(metas)
    ensures forall i :: 0 <= i < n ==> Describes(metas[i], ms[i])
    ensures forall i :: 0 <= i < n ==>
              metas[i].tokens == Max(1, scale(measured, TotalEstimate(ms), EstimateTokens(ms[i].content)))
  {
    if n == 0 then []
    else
      MetasTo(ms, measured, scale, n - 1) +
      [MetaOf(ms[n - 1], n - 1, scale(measured, TotalEstimate(ms), EstimateTokens(ms[n - 1].content)))]
  }

  function PruneChars(plan: CompactPlan): nat {
    if plan.pruneToTokens < 0 then 0 else plan.pruneToTokens * 4
  }

  function PrunedMessage(m: Message, i: nat, plan: CompactPlan): Message {
    if i in plan.pruneToolResults && |m.content| > PruneChars(plan) then
      m.(content := m.content[..PruneChars(plan)] + PRUNED_MARK)
    else m
  }

  function CarryOut(ms: seq<Message>, plan: CompactPlan, n: nat): seq<Message>
    requires n <= |ms|
  {
    if n == 0 then []
    else CarryOut(ms, plan, n - 1) + if n - 1 in plan.drop then [] else [PrunedMessage(ms[n - 1], n - 1, plan)]
  }

  function Compacted(ms: seq<Message>, cfg: CompactCfg, measured: Option<int>, scale: Calibration): seq<Message> {
    CarryOut(ms, PlanFor(MetasOf(ms, measured, scale), cfg), |ms|)
  }

  lemma {:induction false} NoopChangesNothing(ms: seq<Message>, plan: CompactPlan, n: nat)
    requires plan.IsNoop() && n <= |ms|
    ensures CarryOut(ms, plan, n) == ms[..n]
  {
    if n > 0 {
      NoopChangesNothing(ms, plan, n - 1);
    }
  }

  method ApplyCompaction(messages: seq<Message>, cfg: CompactCfg, measured: Option<int>, scale: Calibration)
    returns (out: seq<Message>)
    ensures out == Compacted(messages, cfg, measured, scale)
  {
    var metas := MetasOf(messages, measured, scale);
    var plan := PlanCompaction(metas, cfg);
    if plan.IsNoop() {
      NoopChangesNothing(messages, plan, |messages|);
      return messages;
    }
    var pruneChars := if plan.pruneToTokens < 0 then 0 else plan.pruneToTokens * 4;
    out := [];
    for i := 0 to |messages|
      invariant out == CarryOut(messages, plan, i)
    {
      var m := messages[i];
      if i in plan.drop {
        continue;
      }
      if i in plan.pruneToolResults && |m.content| > pruneChars {
        out := out + [m.(content := m.content[..pruneChars] + PRUNED_MARK)];
      } else {
        out := out + [m];
      }
    }
  }

  lemma {:induction false} CarryOutDropsPrefix(ms: seq<Message>, plan: CompactPlan, k: nat, n: nat)
    requires n <= |ms| && plan.drop == UpTo(k)
    ensures |CarryOut(ms, plan, n)| == if n < k then 0 else n - k
    ensures forall j :: 0 <= j < n - k ==> CarryOut(ms, plan, n)[j] == PrunedMessage(ms[k + j], k + j, plan)
  {
    if n > 0 {
      CarryOutDropsPrefix(ms, plan, k, n - 1);
      assert n - 1 < k ==> UpTo(k)[n - 1] == n - 1;
    }
  }

  /** `out` is `ms[k..]`, older results possibly cut short and the protected tail verbatim. */
  ghost predicate IsSuffixFrom(ms: seq<Message>, plan: CompactPlan, end: nat, k: nat, out: seq<Message>) {
    && k <= end <= |ms|
    && |out| == |ms| - k
    && (forall j :: 0 <= j < |out| ==> out[j] == PrunedMessage(ms[k + j], k + j, plan))
    && (forall j :: end - k <= j < |out| ==> out[j] == ms[k + j])
  }

  lemma TailIsVerbatim(metas: seq<MsgMeta>, cfg: CompactCfg, p: nat, plan: CompactPlan, m: Message, i: nat)
    requires p <= MovableEnd(metas, cfg) <= i && plan.pruneToolResults == PrunedBefore(metas, cfg, p)
    ensures PrunedMessage(m, i, plan) == m
  {
    PrunedBeforeMembers(metas, cfg, p);
  }

  /** What is sent is a suffix of the list, cut at a pair-closed place. */
  lemma CompactedIsSuffix(ms: seq<Message>, cfg: CompactCfg, measured: Option<int>, scale: Calibration) returns (k: nat)
    ensures var metas := MetasOf(ms, measured, scale);
            && k <= |metas|
            && PairClosed(metas, k)
            && IsSuffixFrom(ms, PlanFor(metas, cfg), MovableEnd(metas, cfg), k, Compacted(ms, cfg, measured, scale))
  {
    hide Remaining, PlanFor, MetasTo, CarryOut, PrunedBefore, UpTo, PrunedMessage, PairClosed, PlannedSize;
    var metas := MetasOf(ms, measured, scale);
    var plan := PlanFor(metas, cfg);
    var p, cut := PlanIsMinimalAndPairClosed(metas, cfg);
    CarryOutDropsPrefix(ms, plan, cut, |ms|);
    forall i | MovableEnd(metas, cfg) <= i < |ms| ensures PrunedMessage(ms[i], i, plan) == ms[i] {
      TailIsVerbatim(metas, cfg, p, plan, ms[i], i);
    }
    k := cut;
  }

  /** An old result that is too long is cut after four characters a token, and marked. */
  predicate IsCutShort(m: Message, was: Message, cfg: CompactCfg) {
    var kept := Max(0, cfg.pruneToolToTokens) * 4;
    && was.role == Tool && |was.content| > kept
    && m == was.(content := was.content[..kept] + PRUNED_MARK)
  }

  /**
    What is sent is a suffix of the list, its last `keepRecent` messages as they are and the
    others, too, but for results cut short; and a list that fits is sent as it is.
   */
  lemma RecentStayVerbatim(ms: seq<Message>, cfg: CompactCfg, measured: Option<int>, scale: Calibration)
    ensures var out, spared := Compacted(ms, cfg, measured, scale), Spared(|ms|, cfg);
            && spared <= |out| <= |ms| && out[|out| - spared..] == ms[|ms| - spared..]
            && (forall j :: 0 <= j < |out| ==>
                  var was := ms[|ms| - |out| + j]; out[j] == was || IsCutShort(out[j], was, cfg))
            && (SumTokens(MetasOf(ms, measured, scale)) <= cfg.trigger ==> out == ms)
  {
    hide Remaining, PlanFor, MetasTo, CarryOut, PrunedBefore, PairClosed, PlannedSize, SumTokens;
    var metas, out, spared := MetasOf(ms, measured, scale), Compacted(ms, cfg, measured, scale), Spared(|ms|, cfg);
    var plan := PlanFor(metas, cfg);
    PlanSparesTheRecent(metas, cfg);
    var k := CompactedIsSuffix(ms, cfg, measured, scale);
    forall j | 0 <= j < |out| ensures out[j] == ms[k + j] || IsCutShort(out[j], ms[k + j], cfg) {
      assert out[j] == PrunedMessage(ms[k + j], k + j, plan);
      assert Describes(metas[k + j], ms[k + j]);
    }
    if plan.IsNoop() {
      NoopChangesNothing(ms, plan, |ms|);
    }
  }

  predicate SameStructure(a: Message, b: Message) {
    a.(content := b.content) == b
  }

  /** Compaction never parts a call from its result. */
  lemma CompactedIsWellPaired(ms: seq<Message>, cfg: CompactCfg, measured: Option<int>, scale: Calibration)
    requires WellPaired(ms)
    ensures WellPaired(Compacted(ms, cfg, measured, scale))
  {
    var metas, out := MetasOf(ms, measured, scale), Compacted(ms, cfg, measured, scale);
    var k := CompactedIsSuffix(ms, cfg, measured, scale);
    assert forall j :: 0 <= j < |out| ==> SameStructure(out[j], ms[k + j]);
    if 0 < k < |ms| {
      assert Describes(metas[k - 1], ms[k - 1]) && Describes(metas[k], ms[k]);
    }
    PairClosedSuffixIsWellPaired(ms, k, out);
  }

  lemma PairClosedSuffixIsWellPaired(ms: seq<Message>, k: nat, out: seq<Message>)
    requires WellPaired(ms) && k <= |ms| && |out| == |ms| - k
    requires forall j :: 0 <= j < |out| ==> SameStructure(out[j], ms[k + j])
    requires 0 < k < |ms| ==> !(IsDispatch(ms[k - 1]) && ms[k].role == Tool)
    ensures WellPaired(out)
  {
    forall j | 0 <= j < |out| ensures ResultIsPlaced(out, j) && CallIsAnswered(out, j) {
      assert ResultIsPlaced(ms, k + j) && CallIsAnswered(ms, k + j);
      assert j > 0 ==> SameStructure(out[j - 1], ms[k + (j - 1)]);
      assert j + 1 < |out| ==> SameStructure(out[j + 1], ms[k + (j + 1)]);
    }
  }
}
