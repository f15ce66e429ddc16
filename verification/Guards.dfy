/**
  Each actor of a session has its own compaction guard, and an eviction brings a new actor
  with a fresh one. A compaction ends long before an idle actor is evicted, so no two of a
  session ever overlap: with its clocks, the session takes the steps of `Summaries`.
 */
module Guards {
  import opened Basics
  import opened Summaries

  type ActorId = nat

  /** An idle actor is evicted after 24 hours; the model gets 120 seconds to write a summary. */
  const SESSION_IDLE_TIMEOUT := 24 * 3600

  /** A compaction that has been asked for and does not hold its actor's guard yet. */
  datatype Errand = Errand(actor: ActorId, deadline: nat)

  /** The guard of an actor is held: the compaction works by `plan` and is over by `deadline`. */
  datatype Held = Held(plan: Plan, deadline: nat)

  /** `table` is the session without any compaction; `actor` serves it at present. */
  datatype State = State(
    table: View,
    actor: ActorId,
    errands: seq<Errand>,
    guards: map<ActorId, Held>,
    lastActivity: nat,
    now: nat)

  datatype TimedStep =
    | Write
    | Clear
    | Ask
    | Begin(errand: nat)
    | Land(owner: ActorId, success: bool)
    | Touch
    | Tick
    | Evict

  /** What the guard of actor `a` admits: the session with that actor's compaction only. */
  function SeenBy(t: State, a: ActorId): View {
    t.table.(running := if a in t.guards then Some(t.guards[a].plan) else None)
  }

  /** Time passes only while nothing is overdue; a compaction is over at most `lasts` seconds after it was asked for. */
  ghost predicate Enabled(t: State, step: TimedStep) {
    match step
    case Begin(k) => k < |t.errands|
    case Land(a, _) => a in t.guards
    case Tick =>
      && (forall e :: e in t.errands ==> t.now < e.deadline)
      && (forall a :: a in t.guards ==> t.now < t.guards[a].deadline)
    case Evict => t.now - t.lastActivity >= SESSION_IDLE_TIMEOUT
    case _ => true
  }

  function Cleared(guards: map<ActorId, Held>): map<ActorId, Held> {
    map a | a in guards :: guards[a].(plan := guards[a].plan.(resetSince := true))
  }

  function Without(errands: seq<Errand>, k: nat): seq<Errand>
    requires k < |errands|
  {
    errands[..k] + errands[k + 1..]
  }

  ghost function Then(t: State, step: TimedStep, lasts: nat, maxEntries: int): State
    requires t.table.resetAt <= t.table.n && Enabled(t, step)
  {
    match step
    case Write => t.(table := Next(t.table, Append, maxEntries))
    case Clear => t.(table := Next(t.table, Reset, maxEntries), guards := Cleared(t.guards))
    case Ask => t.(errands := t.errands + [Errand(t.actor, t.now + lasts)], lastActivity := t.now)
    case Begin(k) =>
      var e := t.errands[k];
      var rest := t.(errands := Without(t.errands, k));
      if e.actor in t.guards then rest
      else
        var plan := Next(SeenBy(t, e.actor), Start, maxEntries).running;
        if plan == None then rest else rest.(guards := t.guards[e.actor := Held(plan.value, e.deadline)])
    case Land(a, success) =>
      t.(table := Next(SeenBy(t, a), Finish(success), maxEntries), guards := t.guards - {a})
    case Touch => t.(lastActivity := t.now)
    case Tick => t.(now := t.now + 1)
    case Evict => t.(actor := t.actor + 1, lastActivity := t.now)
  }

  /** In time: asked for at the last activity at the latest, and by the actor at present. */
  predicate InTime(t: State, a: ActorId, deadline: nat, lasts: nat) {
    a == t.actor && t.now <= deadline <= t.lastActivity + lasts
  }

  ghost predicate Inv(t: State, lasts: nat) {
    && Summaries.Inv(SeenBy(t, t.actor)) && t.table.running == None
    && t.lastActivity <= t.now
    && (forall e :: e in t.errands ==> InTime(t, e.actor, e.deadline, lasts))
    && (forall a :: a in t.guards ==> InTime(t, a, t.guards[a].deadline, lasts))
  }

  /** What a step is for the session as a whole; None where the session does not notice. */
  function Untimed(t: State, step: TimedStep): Option<Step> {
    match step
    case Write => Some(Append)
    case Clear => Some(Reset)
    case Begin(k) => Some(Start)
    case Land(_, success) => Some(Finish(success))
    case _ => None
  }

  lemma SomeErrandOrNone(errands: seq<Errand>)
    ensures errands == [] || exists e :: e in errands
  {
    if errands != [] {
      assert errands[0] in errands;
    }
  }

  /** An actor is evicted only when none of its compactions is left. */
  lemma NothingIsLeft(t: State, lasts: nat)
    requires Inv(t, lasts) && Enabled(t, Evict) && lasts < SESSION_IDLE_TIMEOUT
    ensures t.errands == [] && t.guards == map[]
  {
    SomeErrandOrNone(t.errands);
    assert forall a :: a !in t.guards;
  }

  lemma StartChangesNothingElse(t: State, a: ActorId, maxEntries: int)
    requires a !in t.guards && t.table.running == None && t.table.resetAt <= t.table.n
    ensures Next(SeenBy(t, a), Start, maxEntries)
            == t.table.(running := Next(SeenBy(t, a), Start, maxEntries).running)
  {
  }

  lemma TakingAnErrandIsInTime(t: State, k: nat, lasts: nat)
    requires Inv(t, lasts) && k < |t.errands|
    ensures InTime(t, t.errands[k].actor, t.errands[k].deadline, lasts)
    ensures forall e :: e in Without(t.errands, k) ==> e in t.errands
  {
    assert t.errands[k] in t.errands;
  }

  /** What each timed step does to the session as its present actor's guard shows it. */
  lemma StepIsSeen(t: State, step: TimedStep, lasts: nat, maxEntries: int)
    requires Inv(t, lasts) && Enabled(t, step) && lasts < SESSION_IDLE_TIMEOUT
    ensures t.table.resetAt <= t.table.n
    ensures var u := Then(t, step, lasts, maxEntries);
            u.table.running == None
            && SeenBy(u, u.actor) == match Untimed(t, step)
                                     case None => SeenBy(t, t.actor)
                                     case Some(s) => Next(SeenBy(t, t.actor), s, maxEntries)
  {
    hide LandedIsSound, PlanIsSound, Accounted, PlanFor;
    match step {
      case Evict => NothingIsLeft(t, lasts);
      case Begin(k) =>
        TakingAnErrandIsInTime(t, k, lasts);
        if t.actor !in t.guards {
          StartChangesNothingElse(t, t.actor, maxEntries);
        }
      case _ =>
    }
  }

  lemma StepIsInTime(t: State, step: TimedStep, lasts: nat, maxEntries: int)
    requires Inv(t, lasts) && Enabled(t, step) && lasts < SESSION_IDLE_TIMEOUT
    requires t.table.resetAt <= t.table.n
    ensures var u := Then(t, step, lasts, maxEntries);
            && u.lastActivity <= u.now
            && (forall e :: e in u.errands ==> InTime(u, e.actor, e.deadline, lasts))
            && (forall a :: a in u.guards ==> InTime(u, a, u.guards[a].deadline, lasts))
  {
    hide Summaries.Inv, Next, SeenBy;
    if step.Evict? {
      NothingIsLeft(t, lasts);
    } else if step.Begin? {
      TakingAnErrandIsInTime(t, step.errand, lasts);
    }
  }

  /**
    With one guard per actor, the session still goes by the steps of one guard: each timed
    step is a step of the protocol, or none at all.
   */
  lemma TimedStepRefines(t: State, step: TimedStep, lasts: nat, maxEntries: int)
    requires Inv(t, lasts) && Enabled(t, step) && lasts < SESSION_IDLE_TIMEOUT
    ensures t.table.resetAt <= t.table.n
    ensures var u := Then(t, step, lasts, maxEntries);
            && Inv(u, lasts)
            && SeenBy(u, u.actor) == match Untimed(t, step)
                                     case None => SeenBy(t, t.actor)
                                     case Some(s) => Next(SeenBy(t, t.actor), s, maxEntries)
  {
    hide Summaries.Inv, Next, SeenBy, InTime, Then;
    StepIsSeen(t, step, lasts, maxEntries);
    StepIsInTime(t, step, lasts, maxEntries);
    if Untimed(t, step).Some? {
      StepKeepsInv(SeenBy(t, t.actor), Untimed(t, step).value, maxEntries);
    }
  }

  /** The clock goes on, activity is noted, and an eviction brings the next actor. */
  lemma ClocksGoOn(t: State, step: TimedStep, lasts: nat, maxEntries: int)
    requires t.table.resetAt <= t.table.n && Enabled(t, step)
    ensures var u := Then(t, step, lasts, maxEntries);
            && u.now == t.now + (if step.Tick? then 1 else 0)
            && u.actor == t.actor + (if step.Evict? then 1 else 0)
            && u.lastActivity == (if step.Ask? || step.Touch? || step.Evict? then t.now else t.lastActivity)
            && (step.Ask? ==> u.errands == t.errands + [Errand(t.actor, t.now + lasts)])
            && (!step.Ask? && !step.Begin? ==> u.errands == t.errands)
  {
  }

  // ----- Every run -----

  const NEW := State(Summaries.EMPTY, 0, [], map[], 0, 0)

  ghost predicate IsRun(states: seq<State>, steps: seq<TimedStep>, lasts: nat, maxEntries: int) {
    && |states| == |steps| + 1 && states[0] == NEW
    && forall i :: 0 <= i < |steps| ==> Follows(states[i], steps[i], states[i + 1], lasts, maxEntries)
  }

  ghost predicate Follows(t: State, step: TimedStep, u: State, lasts: nat, maxEntries: int) {
    t.table.resetAt <= t.table.n && Enabled(t, step) && u == Then(t, step, lasts, maxEntries)
  }

  /** The steps of the protocol that a run of timed steps amounts to. */
  function UntimedAll(states: seq<State>, steps: seq<TimedStep>): seq<Step>
    requires |states| == |steps| + 1
  {
    if steps == [] then []
    else
      var n := |steps| - 1;
      UntimedAll(states[..n + 1], steps[..n])
      + match Untimed(states[n], steps[n])
        case None => []
        case Some(s) => [s]
  }

  /**
    So every run with actors coming and going is a run of the protocol with its one guard,
    and only the present actor's guard is ever held.
   */
  lemma {:induction false} TimedRunRefines(states: seq<State>, steps: seq<TimedStep>, lasts: nat, maxEntries: int)
    requires IsRun(states, steps, lasts, maxEntries) && lasts < SESSION_IDLE_TIMEOUT
    ensures Inv(states[|steps|], lasts) && Summaries.Inv(Summaries.EMPTY)
    ensures forall a :: a in states[|steps|].guards ==> a == states[|steps|].actor
    ensures SeenBy(states[|steps|], states[|steps|].actor)
            == Run(Summaries.EMPTY, UntimedAll(states, steps), maxEntries)
  {
    hide Then, Summaries.Inv, Next, Enabled, Untimed;
    EmptyIsInv();
    if steps == [] {
      NewIsInv(lasts);
    } else {
      var n := |steps| - 1;
      TimedRunRefines(states[..n + 1], steps[..n], lasts, maxEntries);
      assert Follows(states[n], steps[n], states[n + 1], lasts, maxEntries);
      TimedStepRefines(states[n], steps[n], lasts, maxEntries);
      var before := UntimedAll(states[..n + 1], steps[..n]);
      if Untimed(states[n], steps[n]).Some? {
        OneStepMore(Summaries.EMPTY, before, Untimed(states[n], steps[n]).value, maxEntries);
      } else {
        assert before + [] == before;
      }
    }
  }

  lemma NewIsInv(lasts: nat)
    ensures Inv(NEW, lasts) && SeenBy(NEW, 0) == Summaries.EMPTY
  {
    EmptyIsInv();
  }
}
