/**
  Scheduled reminders: heartbeat scans and precise timers work from snapshots of the cron
  table, users remove rows, the process may crash, and all of it interleaves. Deleting a
  one-shot row claims it; a repeating row is rescheduled only after its reminder was sent.
 */
module Cron {
  import opened Basics

  type CronId = nat

  /** Where one firing stands: chosen, claimed (or found to need no claim), sent. */
  datatype Phase = Chosen | Claimed | Sent

  /** A scan or a timer at work: the rows it still has to fire, the first of them in `phase`. */
  datatype Job = Job(todo: seq<CronId>, phase: Phase, now: int)

  /** `kinds` tells which rows are one-shot; `table` holds when a row fires next, None for never. */
  datatype State = State(
    kinds: map<CronId, bool>,
    table: map<CronId, Option<int>>,
    jobs: seq<Job>,
    pushes: map<CronId, nat>,
    removed: set<CronId>,
    lost: set<CronId>)

  datatype Step =
    | Add(id: CronId, once: bool, at: Option<int>)
    | Scan(now: int, due: seq<CronId>)
    | Timer(id: CronId, now: int)
    | Advance(job: nat)
    | UserRemoves(id: CronId)
    | Crash

  /** The schedule of a repeating row. */
  type Schedule = (CronId, int) -> Option<int>

  predicate IsDue(at: Option<int>, now: int) {
    at.Some? && at.value <= now
  }

  /** The rows of a snapshot that are due, in its order. */
  function DueOf(rows: seq<(CronId, Option<int>)>, now: int): seq<CronId> {
    if rows == [] then []
    else DueOf(rows[..|rows| - 1], now) + if IsDue(rows[|rows| - 1].1, now) then [rows[|rows| - 1].0] else []
  }

  /** Due are exactly the rows with a time that has come; a row without one never is. */
  lemma {:induction false} DueIsExact(rows: seq<(CronId, Option<int>)>, now: int, id: CronId)
    ensures id in DueOf(rows, now) <==>
              exists i :: 0 <= i < |rows| && rows[i].0 == id && rows[i].1.Some? && rows[i].1.value <= now
  {
    if rows != [] {
      var init := rows[..|rows| - 1];
      DueIsExact(init, now, id);
      if exists i :: 0 <= i < |rows| && rows[i].0 == id && IsDue(rows[i].1, now) {
        var i :| 0 <= i < |rows| && rows[i].0 == id && IsDue(rows[i].1, now);
        assert i < |init| ==> init[i] == rows[i];
      }
    }
  }

  // ----- Steps -----

  ghost predicate Enabled(s: State, step: Step) {
    match step
    case Add(id, _, _) => id !in s.kinds
    case Scan(_, due) => forall i :: 0 <= i < |due| ==> due[i] in s.table
    case Timer(id, _) => id in s.table
    case Advance(k) => k < |s.jobs| && s.jobs[k].todo != [] && s.jobs[k].todo[0] in s.kinds
    case UserRemoves(_) => true
    case Crash => true
  }

  function Pushes(s: State, id: CronId): nat {
    if id in s.pushes then s.pushes[id] else 0
  }

  function NextRow(t: Job): Job
    requires t.todo != []
  {
    t.(todo := t.todo[1..], phase := Chosen)
  }

  /** One move of the job `k`, on the row at its front. */
  function Move(s: State, k: nat, schedule: Schedule): State
    requires k < |s.jobs| && s.jobs[k].todo != [] && s.jobs[k].todo[0] in s.kinds
  {
    var t, id := s.jobs[k], s.jobs[k].todo[0];
    match t.phase
    case Chosen =>
      if !s.kinds[id] then s.(jobs := s.jobs[k := t.(phase := Claimed)])
      else if id in s.table then s.(table := s.table - {id}, jobs := s.jobs[k := t.(phase := Claimed)])
      else s.(jobs := s.jobs[k := NextRow(t)])
    case Claimed => s.(pushes := s.pushes[id := Pushes(s, id) + 1], jobs := s.jobs[k := t.(phase := Sent)])
    case Sent =>
      var done := s.(jobs := s.jobs[k := NextRow(t)]);
      if s.kinds[id] || id !in s.table then done else done.(table := s.table[id := schedule(id, t.now)])
  }

  ghost function Next(s: State, step: Step, schedule: Schedule): State
    requires Enabled(s, step)
  {
    match step
    case Add(id, once, at) => s.(kinds := s.kinds[id := once], table := s.table[id := at])
    case Scan(now, due) => s.(jobs := s.jobs + [Job(due, Chosen, now)])
    case Timer(id, now) => s.(jobs := s.jobs + [Job([id], Chosen, now)])
    case Advance(k) => Move(s, k, schedule)
    case UserRemoves(id) => if id in s.table then s.(table := s.table - {id}, removed := s.removed + {id}) else s
    case Crash => s.(jobs := [], lost := s.lost + set k | 0 <= k < |s.jobs| && HoldsClaim(s, k) :: s.jobs[k].todo[0])
  }

  /** The job has claimed a one-shot row and not sent its reminder yet. */
  predicate HoldsClaim(s: State, k: nat)
    requires k < |s.jobs|
  {
    var t := s.jobs[k];
    t.todo != [] && t.phase == Claimed && t.todo[0] in s.kinds && s.kinds[t.todo[0]]
  }

  // ----- The fate of a one-shot row -----

  /** How many jobs hold the claim of row `id`. */
  function Holders(jobs: seq<Job>, id: CronId): nat {
    if jobs == [] then 0 else Holders(jobs[..|jobs| - 1], id) + Holds(jobs[|jobs| - 1], id)
  }

  function Holds(t: Job, id: CronId): nat {
    if t.todo != [] && t.phase == Claimed && t.todo[0] == id then 1 else 0
  }

  lemma HoldersGrow(jobs: seq<Job>, t: Job, id: CronId)
    ensures Holders(jobs + [t], id) == Holders(jobs, id) + Holds(t, id)
  {
    assert (jobs + [t])[..|jobs|] == jobs;
  }

  lemma {:induction false} HoldersChange(jobs: seq<Job>, k: nat, t: Job, id: CronId)
    requires k < |jobs|
    ensures Holders(jobs[k := t], id) == Holders(jobs, id) - Holds(jobs[k], id) + Holds(t, id)
  {
    var init, after := jobs[..|jobs| - 1], jobs[k := t];
    if k == |jobs| - 1 {
      assert after[..|after| - 1] == init;
    } else {
      HoldersChange(init, k, t, id);
      assert after[..|after| - 1] == init[k := t];
    }
  }

  lemma {:induction false} HoldersAreSomewhere(jobs: seq<Job>, id: CronId)
    ensures Holders(jobs, id) > 0 <==> exists k :: 0 <= k < |jobs| && Holds(jobs[k], id) == 1
  {
    if jobs != [] {
      var init := jobs[..|jobs| - 1];
      HoldersAreSomewhere(init, id);
      assert Holds(jobs[|jobs| - 1], id) == 1 || Holds(jobs[|jobs| - 1], id) == 0;
      if Holders(init, id) > 0 {
        var k :| 0 <= k < |init| && Holds(init[k], id) == 1;
        assert Holds(jobs[k], id) == 1;
      }
      if exists k :: 0 <= k < |jobs| && Holds(jobs[k], id) == 1 {
        var k :| 0 <= k < |jobs| && Holds(jobs[k], id) == 1;
        assert k < |init| ==> Holds(init[k], id) == 1;
      }
    }
  }

  function One(b: bool): nat {
    if b then 1 else 0
  }

  /** A one-shot row is in exactly one of five places. */
  ghost predicate HasOneFate(s: State, id: CronId) {
    && One(id in s.table) + One(id in s.removed) + Holders(s.jobs, id) + Pushes(s, id) + One(id in s.lost) == 1
  }

  ghost predicate JobsAreKnown(s: State) {
    forall k, i :: 0 <= k < |s.jobs| && 0 <= i < |s.jobs[k].todo| ==> s.jobs[k].todo[i] in s.kinds
  }

  ghost predicate IsUntouched(s: State, id: CronId) {
    id !in s.table && id !in s.removed && id !in s.lost && Pushes(s, id) == 0
  }

  ghost predicate Inv(s: State) {
    && s.table.Keys <= s.kinds.Keys
    && JobsAreKnown(s)
    && (forall id :: id !in s.kinds ==> IsUntouched(s, id))
    && (forall id :: id in s.kinds && s.kinds[id] ==> HasOneFate(s, id))
  }

  const EMPTY := State(map[], map[], [], map[], {}, {})

  lemma EmptyIsInv()
    ensures Inv(EMPTY)
  {
  }

  lemma UnknownIsNotHeld(s: State, id: CronId)
    requires JobsAreKnown(s) && id !in s.kinds
    ensures Holders(s.jobs, id) == 0
  {
    HoldersAreSomewhere(s.jobs, id);
  }

  lemma AddKeepsFates(s: State, step: Step, schedule: Schedule, id: CronId)
    requires Inv(s) && Enabled(s, step) && step.Add?
    requires var t := Next(s, step, schedule); id in t.kinds && t.kinds[id]
    ensures HasOneFate(Next(s, step, schedule), id)
  {
    if id == step.id {
      UnknownIsNotHeld(s, id);
      assert IsUntouched(s, id);
    } else {
      assert HasOneFate(s, id);
    }
  }

  lemma JobKeepsFates(s: State, t: Job, id: CronId)
    requires HasOneFate(s, id) && t.phase == Chosen
    ensures HasOneFate(s.(jobs := s.jobs + [t]), id)
  {
    hide Holders;
    HoldersGrow(s.jobs, t, id);
    assert Pushes(s.(jobs := s.jobs + [t]), id) == Pushes(s, id);
  }

  lemma MoveKeepsFates(s: State, k: nat, schedule: Schedule, id: CronId)
    requires Inv(s) && Enabled(s, Advance(k)) && id in s.kinds && s.kinds[id]
    ensures HasOneFate(Move(s, k, schedule), id)
  {
    hide Holders;
    assert HasOneFate(s, id);
    HoldersChange(s.jobs, k, Move(s, k, schedule).jobs[k], id);
  }

  /** A crash loses a claimed row that was not sent, and only such a row. */
  lemma CrashKeepsFates(s: State, schedule: Schedule, id: CronId)
    requires Inv(s) && id in s.kinds && s.kinds[id]
    ensures HasOneFate(Next(s, Crash, schedule), id)
    ensures id in Next(s, Crash, schedule).lost <==> id in s.lost || Holders(s.jobs, id) == 1
  {
    assert HasOneFate(s, id);
    HoldersAreSomewhere(s.jobs, id);
    if Holders(s.jobs, id) > 0 {
      var k :| 0 <= k < |s.jobs| && Holds(s.jobs[k], id) == 1;
      assert HoldsClaim(s, k);
    }
  }

  lemma StepKeepsFates(s: State, step: Step, schedule: Schedule, id: CronId)
    requires Inv(s) && Enabled(s, step)
    requires var t := Next(s, step, schedule); id in t.kinds && t.kinds[id]
    ensures HasOneFate(Next(s, step, schedule), id)
  {
    hide Holders, Move;
    assert !step.Add? ==> id in s.kinds && s.kinds[id] by {
      KindsStay(s, step, schedule);
    }
    assert !step.Add? ==> HasOneFate(s, id);
    match step {
      case Add(_, _, _) => AddKeepsFates(s, step, schedule, id);
      case Scan(now, due) => JobKeepsFates(s, Job(due, Chosen, now), id);
      case Timer(row, now) => JobKeepsFates(s, Job([row], Chosen, now), id);
      case Advance(k) => MoveKeepsFates(s, k, schedule, id);
      case UserRemoves(_) =>
      case Crash => CrashKeepsFates(s, schedule, id);
    }
  }

  lemma KindsStay(s: State, step: Step, schedule: Schedule)
    requires Enabled(s, step)
    ensures !step.Add? ==> Next(s, step, schedule).kinds == s.kinds
    ensures forall id :: id in s.kinds ==>
              id in Next(s, step, schedule).kinds && Next(s, step, schedule).kinds[id] == s.kinds[id]
  {
  }

  lemma StepKeepsInv(s: State, step: Step, schedule: Schedule)
    requires Inv(s) && Enabled(s, step)
    ensures Inv(Next(s, step, schedule))
  {
    hide HasOneFate;
    var t := Next(s, step, schedule);
    KindsStay(s, step, schedule);
    JobsStayKnown(s, step, schedule);
    forall id | id !in t.kinds ensures IsUntouched(t, id) {
      assert IsUntouched(s, id);
      if step.Crash? {
        StrangersAreNotLost(s, schedule, id);
      }
    }
    forall id | id in t.kinds && t.kinds[id] ensures HasOneFate(t, id) {
      StepKeepsFates(s, step, schedule, id);
    }
  }

  lemma StrangersAreNotLost(s: State, schedule: Schedule, id: CronId)
    requires id !in s.kinds && id !in s.lost
    ensures id !in Next(s, Crash, schedule).lost
  {
  }

  lemma JobsStayKnown(s: State, step: Step, schedule: Schedule)
    requires Inv(s) && Enabled(s, step)
    ensures JobsAreKnown(Next(s, step, schedule))
  {
    hide HasOneFate, IsUntouched;
    var t := Next(s, step, schedule);
    KindsStay(s, step, schedule);
    forall k, i | 0 <= k < |t.jobs| && 0 <= i < |t.jobs[k].todo| ensures t.jobs[k].todo[i] in t.kinds {
      if k < |s.jobs| {
        assert t.jobs[k].todo[i] in s.jobs[k].todo;
      }
    }
  }

  ghost predicate IsRun(states: seq<State>, schedule: Schedule) {
    && states != [] && states[0] == EMPTY
    && forall i :: 0 <= i < |states| - 1 ==> Follows(states[i], states[i + 1], schedule)
  }

  ghost predicate Follows(s: State, t: State, schedule: Schedule) {
    exists step :: Enabled(s, step) && t == Next(s, step, schedule)
  }

  lemma {:induction false} EveryRunKeepsInv(states: seq<State>, schedule: Schedule, i: nat)
    requires IsRun(states, schedule) && i < |states|
    ensures Inv(states[i])
  {
    hide Inv, Enabled;
    if i == 0 {
      EmptyIsInv();
    } else {
      EveryRunKeepsInv(states, schedule, i - 1);
      assert Follows(states[i - 1], states[i], schedule);
      var step :| Enabled(states[i - 1], step) && states[i] == Next(states[i - 1], step, schedule);
      StepKeepsInv(states[i - 1], step, schedule);
    }
  }

  // ----- What that means -----

  /** A one-shot reminder is sent at most once, and never if a removal succeeded. */
  lemma OneShotsFireAtMostOnce(states: seq<State>, schedule: Schedule, i: nat, id: CronId)
    requires IsRun(states, schedule) && i < |states| && id in states[i].kinds && states[i].kinds[id]
    ensures Pushes(states[i], id) <= 1
    ensures id in states[i].removed ==> Pushes(states[i], id) == 0 && Holders(states[i].jobs, id) == 0
    ensures Holders(states[i].jobs, id) <= 1
  {
    hide Holders, Pushes, IsRun;
    EveryRunKeepsInv(states, schedule, i);
    assert HasOneFate(states[i], id);
  }

  /** A one-shot that is gone without having been sent, removed or claimed was lost to a crash. */
  lemma UnsentIffLost(states: seq<State>, schedule: Schedule, i: nat, id: CronId)
    requires IsRun(states, schedule) && i < |states| && id in states[i].kinds && states[i].kinds[id]
    requires id !in states[i].table && id !in states[i].removed && Holders(states[i].jobs, id) == 0
    ensures Pushes(states[i], id) == 0 <==> id in states[i].lost
  {
    hide Holders, Pushes, IsRun;
    EveryRunKeepsInv(states, schedule, i);
    assert HasOneFate(states[i], id);
  }

  /** A reminder is added, its timer claims it, the process crashes: nothing was ever sent. */
  lemma CrashLosesClaimed(schedule: Schedule, id: CronId, now: int) returns (states: seq<State>)
    ensures IsRun(states, schedule) && |states| == 5
    ensures var s := states[4];
            && id in s.kinds && s.kinds[id] && id !in s.table && id !in s.removed && s.jobs == []
            && id in s.lost && Pushes(s, id) == 0
  {
    hide Holders;
    var s1 := Next(EMPTY, Add(id, true, Some(now)), schedule);
    var s2 := Next(s1, Timer(id, now), schedule);
    var s3 := Next(s2, Advance(0), schedule);
    assert Enabled(s3, Crash);
    var s4 := Next(s3, Crash, schedule);
    assert HoldsClaim(s3, 0);
    states := [EMPTY, s1, s2, s3, s4];
    assert Follows(EMPTY, s1, schedule);
    assert Follows(s1, s2, schedule);
    assert Follows(s2, s3, schedule);
    assert Follows(s3, s4, schedule);
  }

  /**
    Whatever happens, crash included, a repeating row that no user removes stays, and its
    time changes only to the newly computed one, and only after its reminder was sent.
   */
  lemma RepeatingRowsSurvive(s: State, step: Step, schedule: Schedule, id: CronId)
    requires Inv(s) && Enabled(s, step)
    requires id in s.table && !s.kinds[id] && step != UserRemoves(id)
    ensures var t := Next(s, step, schedule);
            && id in t.table
            && (t.table[id] != s.table[id] ==>
                  && step.Advance? && s.jobs[step.job].phase == Sent && s.jobs[step.job].todo[0] == id
                  && t.table[id] == schedule(id, s.jobs[step.job].now))
  {
  }

  /** A job reaches `Sent` for a row only by sending that row's reminder. */
  lemma SentWasPushed(s: State, k: nat, schedule: Schedule)
    requires Inv(s) && Enabled(s, Advance(k))
    ensures var t, id := Move(s, k, schedule), s.jobs[k].todo[0];
            t.jobs[k].phase == Sent ==> Pushes(t, id) == Pushes(s, id) + 1 && s.jobs[k].phase == Claimed
  {
  }

  // ----- What a firing brings about -----

  /** Each move of a job, by what it finds: claim, send, reschedule, go on; and all else stays. */
  lemma MovesDoTheirPart(s: State, k: nat, schedule: Schedule)
    requires Inv(s) && Enabled(s, Advance(k))
    ensures var t, was := Next(s, Advance(k), schedule), s.jobs[k];
            var now, id := t.jobs[k], was.todo[0];
            && |t.jobs| == |s.jobs| && (forall i :: 0 <= i < |s.jobs| && i != k ==> t.jobs[i] == s.jobs[i])
            && now.now == was.now && t.kinds == s.kinds && t.removed == s.removed && t.lost == s.lost
            && (forall other :: other != id ==>
                  && (other in t.table <==> other in s.table) && (other in s.table ==> t.table[other] == s.table[other])
                  && Pushes(t, other) == Pushes(s, other))
            && Pushes(t, id) == Pushes(s, id) + One(was.phase == Claimed)
            && (id in t.table <==> id in s.table && !(was.phase == Chosen && s.kinds[id]))
            && (id in t.table ==>
                  t.table[id] == if was.phase == Sent && !s.kinds[id] then schedule(id, was.now) else s.table[id])
            && (was.phase == Chosen && (id in s.table || !s.kinds[id]) ==> now.todo == was.todo && now.phase == Claimed)
            && (was.phase == Claimed ==> now.todo == was.todo && now.phase == Sent)
            && (was.phase == Sent || (was.phase == Chosen && s.kinds[id] && id !in s.table) ==>
                  now.todo == was.todo[1..] && now.phase == Chosen)
  {
  }

  /** A removal that finds the row takes it away, and only that row. */
  lemma RemovalTakesEffect(s: State, id: CronId, schedule: Schedule)
    ensures var t := Next(s, UserRemoves(id), schedule);
            && id !in t.table && (id in t.removed <==> id in s.removed || id in s.table)
            && (forall other :: other != id ==>
                  && (other in t.table <==> other in s.table) && (other in s.table ==> t.table[other] == s.table[other])
                  && (other in t.removed <==> other in s.removed))
            && t.jobs == s.jobs && t.pushes == s.pushes && t.kinds == s.kinds && t.lost == s.lost
  {
  }

  /** A scan may pick any rows there are, a timer any one, and a crash or a removal needs nothing. */
  lemma StepsMayHappen(s: State, id: CronId, now: int, due: seq<CronId>)
    ensures Enabled(s, Scan(now, due)) <==> forall i :: 0 <= i < |due| ==> due[i] in s.table
    ensures Enabled(s, Timer(id, now)) <==> id in s.table
    ensures Enabled(s, UserRemoves(id)) && Enabled(s, Crash)
  {
  }

  /** A scan and a timer bring a job with just their rows; a new row is waiting from then on. */
  lemma ArrivalsTakeEffect(s: State, step: Step, schedule: Schedule)
    requires Enabled(s, step) && (step.Add? || step.Scan? || step.Timer?)
    ensures var t := Next(s, step, schedule);
            && t.pushes == s.pushes && t.removed == s.removed && t.lost == s.lost
            && (step.Add? ==>
                  && t.jobs == s.jobs && step.id in t.table && t.table[step.id] == step.at
                  && t.kinds[step.id] == step.once
                  && (forall other :: other != step.id ==>
                        && (other in t.table <==> other in s.table)
                        && (other in s.table ==> t.table[other] == s.table[other])))
            && (!step.Add? ==>
                  && t.table == s.table && |t.jobs| == |s.jobs| + 1 && s.jobs <= t.jobs
                  && t.jobs[|s.jobs|].todo == (if step.Scan? then step.due else [step.id])
                  && t.jobs[|s.jobs|].phase == Chosen && t.jobs[|s.jobs|].now == step.now)
  {
  }

  /**
    A timer that nothing comes between: the reminder is sent once, a one-shot row is gone,
    and a repeating one stands at its recomputed time.
   */
  lemma TimerFires(s: State, id: CronId, now: int, schedule: Schedule)
    requires Inv(s) && id in s.table
    ensures var k := |s.jobs|;
            var s1 := Next(s, Timer(id, now), schedule);
            && Enabled(s1, Advance(k))
            && var s2 := Next(s1, Advance(k), schedule);
            && Enabled(s2, Advance(k))
            && var s3 := Next(s2, Advance(k), schedule);
            && Enabled(s3, Advance(k))
            && var t := Next(s3, Advance(k), schedule);
            && Pushes(t, id) == Pushes(s, id) + 1 && t.jobs[k].todo == []
            && (s.kinds[id] ==> id !in t.table)
            && (!s.kinds[id] ==> id in t.table && t.table[id] == schedule(id, now))
  {
    hide Inv, Move, Pushes;
    var k := |s.jobs|;
    assert id in s.kinds by {
      RowsAreKnown(s, id);
    }
    ArrivalsTakeEffect(s, Timer(id, now), schedule);
    StepKeepsInv(s, Timer(id, now), schedule);
    var s1 := Next(s, Timer(id, now), schedule);
    SamePushes(s, s1, id);
    MovesDoTheirPart(s1, k, schedule);
    StepKeepsInv(s1, Advance(k), schedule);
    var s2 := Next(s1, Advance(k), schedule);
    MovesDoTheirPart(s2, k, schedule);
    StepKeepsInv(s2, Advance(k), schedule);
    var s3 := Next(s2, Advance(k), schedule);
    MovesDoTheirPart(s3, k, schedule);
  }

  lemma RowsAreKnown(s: State, id: CronId)
    requires Inv(s) && id in s.table
    ensures id in s.kinds
  {
  }

  lemma SamePushes(s: State, t: State, id: CronId)
    requires s.pushes == t.pushes
    ensures Pushes(s, id) == Pushes(t, id)
  {
  }

  /** A run with its steps, from anywhere. */
  ghost predicate IsTrace(states: seq<State>, steps: seq<Step>, schedule: Schedule) {
    && |states| == |steps| + 1
    && forall i :: 0 <= i < |steps| ==>
         Enabled(states[i], steps[i]) && states[i + 1] == Next(states[i], steps[i], schedule)
  }

  /** The job `k` sent the reminder of `id` at step `p`. */
  ghost predicate SentAt(states: seq<State>, steps: seq<Step>, k: nat, id: CronId, p: nat) {
    && p < |steps| && |states| == |steps| + 1 && steps[p] == Advance(k)
    && Pushes(states[p + 1], id) == Pushes(states[p], id) + 1
  }

  /** The job `k` left the row `id` at step `q`, with its new time unless the row was gone by then. */
  ghost predicate LeftAt(states: seq<State>, steps: seq<Step>, k: nat, id: CronId, at: Option<int>, q: nat) {
    && q < |steps| && |states| == |steps| + 1 && steps[q] == Advance(k)
    && (id in states[q].table ==> id in states[q + 1].table && states[q + 1].table[id] == at)
  }

  /** How far a job has come with the row it began with. */
  ghost predicate HasComeTo(job: Job, began: Job, states: seq<State>, steps: seq<Step>, at: Option<int>,
                            i: nat, j: nat, k: nat, p: nat, q: nat)
    requires began.todo != []
  {
    && job.now == began.now
    && (|| (job.todo == began.todo && job.phase != Sent)
        || (job.todo == began.todo && job.phase == Sent && i <= p < j && SentAt(states, steps, k, began.todo[0], p))
        || (|job.todo| < |began.todo| && i <= p < q < j
            && SentAt(states, steps, k, began.todo[0], p) && LeftAt(states, steps, k, began.todo[0], at, q)))
  }

  lemma {:induction false} FollowJob(states: seq<State>, steps: seq<Step>, schedule: Schedule, i: nat, j: nat, k: nat)
    returns (p: nat, q: nat)
    requires IsTrace(states, steps, schedule) && i <= j < |states| && Inv(states[i]) && k < |states[i].jobs|
    requires var job := states[i].jobs[k]; job.todo != [] && job.phase == Chosen && job.todo[0] in states[i].kinds
    requires !states[i].kinds[states[i].jobs[k].todo[0]]
    requires forall m :: i <= m < j ==> !steps[m].Crash?
    ensures Inv(states[j]) && k < |states[j].jobs|
    ensures var began := states[i].jobs[k];
            && began.todo[0] in states[j].kinds && !states[j].kinds[began.todo[0]]
            && HasComeTo(states[j].jobs[k], began, states, steps, schedule(began.todo[0], began.now), i, j, k, p, q)
    decreases j
  {
    hide Inv, Move, Pushes;
    p, q := 0, 0;
    if j > i {
      p, q := FollowJob(states, steps, schedule, i, j - 1, k);
      var s, step, began := states[j - 1], steps[j - 1], states[i].jobs[k];
      StepKeepsInv(s, step, schedule);
      KindsStay(s, step, schedule);
      JobsOnlyMove(s, step, schedule, k);
      if step == Advance(k) {
        MovesDoTheirPart(s, k, schedule);
        if s.jobs[k].todo == began.todo && s.jobs[k].phase == Claimed {
          p := j - 1;
        } else if s.jobs[k].todo == began.todo && s.jobs[k].phase == Sent {
          q := j - 1;
        }
      }
    }
  }

  /** But for a crash, a job changes by its own moves only. */
  lemma JobsOnlyMove(s: State, step: Step, schedule: Schedule, k: nat)
    requires Enabled(s, step) && k < |s.jobs| && !step.Crash?
    ensures var t := Next(s, step, schedule); k < |t.jobs| && (step != Advance(k) ==> t.jobs[k] == s.jobs[k])
  {
  }

  /**
    Whatever goes on meanwhile short of a crash: a job that began with a repeating row and has
    left it had sent its reminder, and after that had written the recomputed time, unless the
    row was removed before.
   */
  lemma FiringIsWhole(states: seq<State>, steps: seq<Step>, schedule: Schedule, i: nat, j: nat, k: nat)
    returns (p: nat, q: nat)
    requires IsTrace(states, steps, schedule) && i <= j < |states| && Inv(states[i]) && k < |states[i].jobs|
    requires var job := states[i].jobs[k]; job.todo != [] && job.phase == Chosen && job.todo[0] in states[i].kinds
    requires !states[i].kinds[states[i].jobs[k].todo[0]]
    requires forall m :: i <= m < j ==> !steps[m].Crash?
    ensures k < |states[j].jobs|
    ensures |states[j].jobs[k].todo| < |states[i].jobs[k].todo| ==>
              var id := states[i].jobs[k].todo[0];
              && i <= p < q < j && SentAt(states, steps, k, id, p)
              && LeftAt(states, steps, k, id, schedule(id, states[i].jobs[k].now), q)
  {
    hide Inv, Enabled, Next, SentAt, LeftAt;
    p, q := FollowJob(states, steps, schedule, i, j, k);
  }
}
