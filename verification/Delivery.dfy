/**
  What each step of the registry brings about: submits are delivered and answered, sessions
  are found again after an eviction, and a client is never left without an answer.
 */
module Delivery {
  import opened Basics
  import opened Registry

  // ----- Clients -----

  /** Whoever asks for a session, first or again, then holds an open actor of it. */
  ghost predicate HoldsOpenActor(s: State, c: ClientId, sid: SessionId, again: bool) {
    && c < |s.clients| && s.clients[c].Holding? && s.clients[c].sid == sid && s.clients[c].retried == again
    && IsOpen(s, s.clients[c].actor) && s.actors[s.clients[c].actor].sid == sid
    && sid in s.sessions && s.sessions[sid] == s.clients[c].actor
  }

  ghost predicate OtherClientsStay(s: State, t: State, c: ClientId) {
    |t.clients| == |s.clients| && forall d :: 0 <= d < |s.clients| && d != c ==> t.clients[d] == s.clients[d]
  }

  ghost predicate OtherActorsStay(s: State, t: State, a: ActorId) {
    |t.actors| == |s.actors| && forall b :: 0 <= b < |s.actors| && b != a ==> t.actors[b] == s.actors[b]
  }

  lemma ArrivalFindsActor(s: State, c: ClientId, sid: SessionId)
    requires Inv(s) && Enabled(s, Arrive(c, sid))
    ensures var t := Next(s, Arrive(c, sid)); HoldsOpenActor(t, c, sid, false) && OtherClientsStay(s, t, c)
    ensures s.actors <= Next(s, Arrive(c, sid)).actors
  {
    hide Inv, LaneIsSound, Places;
    LookupKeepsInv(s, sid);
  }

  /** A submit reaches the end of the mailbox, unless the actor has closed meanwhile: then it is refused. */
  lemma SubmitIsDelivered(s: State, c: ClientId)
    requires Inv(s) && Enabled(s, Post(c))
    ensures var t, a := Next(s, Post(c)), s.clients[c].actor;
            && a < |s.actors| && OtherClientsStay(s, t, c) && OtherActorsStay(s, t, a) && t.sessions == s.sessions
            && (t.clients[c].Refused? <==> !s.actors[a].open)
            && (s.actors[a].open ==>
                  && t.clients[c].Waiting? && t.clients[c].actor == a
                  && t.actors[a].mailbox == s.actors[a].mailbox + [Submit(c)]
                  && multiset(t.actors[a].mailbox)[Submit(c)] == 1)
            && (!s.actors[a].open ==> t.actors == s.actors)
            && (t.clients[c].Waiting? || t.clients[c].Refused?)
            && t.clients[c].sid == s.clients[c].sid && t.clients[c].retried == s.clients[c].retried
  {
    hide LaneIsSound, Places, IsRegistered, PointsToOwn;
    var a := s.clients[c].actor;
    assert HandleFits(s.actors, s.clients[c]);
    assert Agree(s.actors[a], a, s.clients, c);
  }

  /** A refused client whose actor has closed gets another one, once; any other gives up. */
  lemma RetryFindsActor(s: State, c: ClientId)
    requires Inv(s) && Enabled(s, Retry(c))
    ensures var t, client := Next(s, Retry(c)), s.clients[c];
            && OtherClientsStay(s, t, c) && s.actors <= t.actors
            && client.actor < |s.actors|
            && (!client.retried && !s.actors[client.actor].open ==> HoldsOpenActor(t, c, client.sid, true))
            && (client.retried || s.actors[client.actor].open ==> t.clients[c] == Failed && t.actors == s.actors)
  {
    hide LaneIsSound, Places, IsRegistered, PointsToOwn, Agree;
    assert HandleFits(s.actors, s.clients[c]);
    LookupKeepsInv(s, s.clients[c].sid);
  }

  // ----- Actors -----

  /** Probes, aborts and the notices of runs that ended reach the end of the mailbox, too. */
  lemma NoticesAreDelivered(s: State, step: Step)
    requires Enabled(s, step) && (step.SendProbe? || step.SendAbort? || step.RunEnds?)
    ensures var t, a := Next(s, step), step.actor;
            && OtherActorsStay(s, t, a) && t.clients == s.clients && t.sessions == s.sessions
            && |t.actors[a].mailbox| == |s.actors[a].mailbox| + 1 && s.actors[a].mailbox <= t.actors[a].mailbox
            && t.actors[a].mailbox[|s.actors[a].mailbox|]
               == (if step.SendProbe? then Probe else if step.SendAbort? then HardAbort else RunFinished)
            && t.actors[a].alive == (s.actors[a].alive && !step.RunEnds?)
            && t.actors[a].active == s.actors[a].active && t.actors[a].pending == s.actors[a].pending
            && t.actors[a].open
  {
  }

  /** Where the registry points to a closed actor it forgets the session, and nothing else. */
  lemma RemovalForgetsClosed(s: State, sid: SessionId)
    requires Inv(s) && Enabled(s, Remove(sid))
    ensures var t := Next(s, Remove(sid));
            && t.actors == s.actors && t.clients == s.clients
            && (sid in t.sessions <==> IsOpen(s, s.sessions[sid]))
            && (forall other :: other in t.sessions ==> other in s.sessions && t.sessions[other] == s.sessions[other])
            && (forall other :: other in s.sessions && other != sid ==> other in t.sessions)
  {
  }

  /** A submit that is handled is accepted iff the lane was free or fewer than `cap` turns waited. */
  lemma SubmitIsAnswered(s: State, a: ActorId, quiet: bool, c: ClientId)
    requires Inv(s) && Enabled(s, Handle(a, quiet)) && s.actors[a].mailbox[0] == Submit(c)
    ensures c < |s.clients|
    ensures var t, was := Next(s, Handle(a, quiet)), s.actors[a];
            var now := t.actors[a];
            && OtherClientsStay(s, t, c) && OtherActorsStay(s, t, a) && t.sessions == s.sessions
            && now.mailbox == was.mailbox[1..] && now.open && now.finished == was.finished && now.drained == was.drained
            && (t.clients[c] == Accepted(a) <==> was.active == None || |was.pending| < s.cap)
            && (t.clients[c] == Accepted(a) || (t.clients[c].Refused? && t.clients[c].actor == a))
            && now.active == Some(if was.active == None then c else was.active.value)
            && now.pending == was.pending + (if was.active.Some? && |was.pending| < s.cap then [c] else [])
            && now.alive == (was.active == None || was.alive)
  {
    hide Places, IsRegistered, PointsToOwn, HandleFits, LaneIsSound;
    MailboxAfter(s, a, quiet, c);
    ClientsAreAsMany(s, a, quiet);
    forall d | 0 <= d < |s.clients| ensures ClientsAfter(s, a, quiet)[d] == ClientAfter(s, a, quiet, d) {
      ClientsChangeOneByOne(s, a, quiet, d);
    }
  }

  /** A probe closes the actor iff it has no work and was quiet; all who still wait for it are refused. */
  lemma ProbeIsAnswered(s: State, a: ActorId, quiet: bool, c: ClientId)
    requires Inv(s) && Enabled(s, Handle(a, quiet)) && s.actors[a].mailbox[0] == Probe && c < |s.clients|
    ensures var t, was := Next(s, Handle(a, quiet)), s.actors[a];
            && OtherActorsStay(s, t, a) && t.sessions == s.sessions && |t.clients| == |s.clients|
            && t.actors[a].open == !(was.active == None && was.pending == [] && quiet)
            && (t.actors[a].open ==> t.actors[a] == was.(mailbox := was.mailbox[1..]) && t.clients[c] == s.clients[c])
            && (!t.actors[a].open ==>
                  && t.actors[a] == was.(mailbox := [], open := false)
                  && t.clients[c] == if s.clients[c].Waiting? && s.clients[c].actor == a
                                     then Refused(s.clients[c].sid, a, s.clients[c].retried) else s.clients[c])
  {
    hide Places, IsRegistered, PointsToOwn, HandleFits, LaneIsSound, Agree;
    ClientsAreAsMany(s, a, quiet);
    ClientsChangeOneByOne(s, a, quiet, c);
  }

  /** The end of a run settles its turn and begins the oldest one waiting; no client hears of it here. */
  lemma EndIsHandled(s: State, a: ActorId, quiet: bool)
    requires Inv(s) && Enabled(s, Handle(a, quiet)) && s.actors[a].mailbox[0] == RunFinished
    ensures var t, was := Next(s, Handle(a, quiet)), s.actors[a];
            var now := t.actors[a];
            && OtherActorsStay(s, t, a) && t.sessions == s.sessions && t.clients == s.clients
            && was.active.Some? && now.finished == was.finished + {was.active.value} && now.drained == was.drained
            && now.active == (if was.pending == [] then None else Some(was.pending[0]))
            && now.pending == (if was.pending == [] then [] else was.pending[1..])
            && now.alive == (was.pending != []) && now.open && now.mailbox == was.mailbox[1..]
  {
    hide Places, IsRegistered, PointsToOwn, HandleFits, Agree;
    assert LaneIsSound(s.actors[a]);
    assert RunFinished in multiset(s.actors[a].mailbox);
    ClientsAreAsMany(s, a, quiet);
    forall c | 0 <= c < |s.clients| ensures ClientsAfter(s, a, quiet)[c] == s.clients[c] {
      ClientsChangeOneByOne(s, a, quiet, c);
    }
  }

  /** A hard abort takes all waiting turns and only those. */
  lemma AbortIsHandled(s: State, a: ActorId, quiet: bool)
    requires Inv(s) && Enabled(s, Handle(a, quiet)) && s.actors[a].mailbox[0] == HardAbort
    ensures var t, was := Next(s, Handle(a, quiet)), s.actors[a];
            var now := t.actors[a];
            && OtherActorsStay(s, t, a) && t.sessions == s.sessions && t.clients == s.clients
            && now.active == was.active && now.alive == was.alive && now.finished == was.finished && now.open
            && now.pending == [] && (forall c :: c in now.drained <==> c in was.drained || c in was.pending)
            && now.mailbox == was.mailbox[1..]
  {
    hide IsRegistered, PointsToOwn, HandleFits, Agree, LaneIsSound;
    ClientsAreAsMany(s, a, quiet);
    forall c | 0 <= c < |s.clients| ensures ClientsAfter(s, a, quiet)[c] == s.clients[c] {
      ClientsChangeOneByOne(s, a, quiet, c);
    }
  }

  /** When steps may happen: nobody but a closed actor keeps a client or an abort waiting. */
  lemma StepsMayHappen(s: State, c: ClientId, sid: SessionId, a: ActorId, quiet: bool)
    requires c < |s.clients| && a < |s.actors|
    ensures Enabled(s, Arrive(c, sid)) <==> s.clients[c] == Away
    ensures Enabled(s, Post(c)) <==> s.clients[c].Holding?
    ensures Enabled(s, Retry(c)) <==> s.clients[c].Refused?
    ensures Enabled(s, SendAbort(a)) <==> s.actors[a].open
    ensures Enabled(s, SendProbe(a)) <==> s.actors[a].open && s.actors[a].sid != 0
    ensures Enabled(s, Handle(a, quiet)) <==> s.actors[a].open && s.actors[a].mailbox != []
  {
  }

  // ----- No client is left without an answer -----

  /** The actor works through its mailbox, as long as it is open and there is something in it. */
  ghost function Work(s: State, a: ActorId, quiets: seq<bool>): State
    decreases |quiets|
  {
    if quiets == [] || !Enabled(s, Handle(a, quiets[0])) then s
    else Work(Next(s, Handle(a, quiets[0])), a, quiets[1..])
  }

  predicate IsAnswered(client: Client, was: Client)
    requires was.Waiting?
  {
    || client == Accepted(was.actor)
    || (client.Refused? && client.actor == was.actor && client.sid == was.sid && client.retried == was.retried)
  }

  /** One command is handled: the client behind it has moved up, or has its answer. */
  lemma WaitingMovesUp(s: State, a: ActorId, quiet: bool, c: ClientId, k: nat)
    requires Inv(s) && Enabled(s, Handle(a, quiet)) && c < |s.clients|
    requires s.clients[c].Waiting? && s.clients[c].actor == a
    requires k < |s.actors[a].mailbox| && s.actors[a].mailbox[k] == Submit(c)
    ensures var t := Next(s, Handle(a, quiet));
            && Inv(t) && c < |t.clients| && a < |t.actors|
            && (k == 0 ==> IsAnswered(t.clients[c], s.clients[c]))
            && (k > 0 ==>
                  || IsAnswered(t.clients[c], s.clients[c])
                  || (t.clients[c] == s.clients[c] && t.actors[a].open
                      && t.actors[a].mailbox == s.actors[a].mailbox[1..]))
  {
    hide Places, IsRegistered, PointsToOwn, HandleFits, LaneIsSound;
    HandleKeepsInv(s, a, quiet);
    ClientsAreAsMany(s, a, quiet);
    ClientsChangeOneByOne(s, a, quiet, c);
    var mailbox := s.actors[a].mailbox;
    assert Agree(s.actors[a], a, s.clients, c);
    CountInFront(mailbox, Submit(c));
    if k > 0 {
      assert mailbox[1..][k - 1] == Submit(c);
      assert Submit(c) in multiset(mailbox[1..]);
    }
  }

  lemma AnsweredStays(s: State, a: ActorId, quiet: bool, c: ClientId)
    requires Inv(s) && Enabled(s, Handle(a, quiet)) && c < |s.clients| && !s.clients[c].Waiting?
    ensures var t := Next(s, Handle(a, quiet)); Inv(t) && c < |t.clients| && t.clients[c] == s.clients[c]
  {
    hide Places, IsRegistered, PointsToOwn, HandleFits, LaneIsSound, Agree;
    HandleKeepsInv(s, a, quiet);
    ClientsAreAsMany(s, a, quiet);
    ClientsChangeOneByOne(s, a, quiet, c);
  }

  lemma {:induction false} AnsweredStaysAnswered(s: State, a: ActorId, quiets: seq<bool>, c: ClientId)
    requires Inv(s) && c < |s.clients| && !s.clients[c].Waiting?
    ensures c < |Work(s, a, quiets).clients| && Work(s, a, quiets).clients[c] == s.clients[c]
    decreases |quiets|
  {
    hide Inv, Next;
    if quiets != [] && Enabled(s, Handle(a, quiets[0])) {
      AnsweredStays(s, a, quiets[0], c);
      AnsweredStaysAnswered(Next(s, Handle(a, quiets[0])), a, quiets[1..], c);
    }
  }

  /** After its actor has handled as many commands as stand up to the client's submit, the client has its answer. */
  lemma {:induction false} WaitingIsAnswered(s: State, a: ActorId, quiets: seq<bool>, c: ClientId, k: nat)
    requires Inv(s) && c < |s.clients| && s.clients[c].Waiting? && s.clients[c].actor == a
    requires a < |s.actors| && k < |s.actors[a].mailbox| && s.actors[a].mailbox[k] == Submit(c) && |quiets| > k
    ensures c < |Work(s, a, quiets).clients| && IsAnswered(Work(s, a, quiets).clients[c], s.clients[c])
    decreases |quiets|
  {
    hide Inv, Next;
    NoClientWaitsForever(s, c);
    var t := Next(s, Handle(a, quiets[0]));
    WaitingMovesUp(s, a, quiets[0], c, k);
    if IsAnswered(t.clients[c], s.clients[c]) {
      AnsweredStaysAnswered(t, a, quiets[1..], c);
    } else {
      assert t.actors[a].mailbox[k - 1] == s.actors[a].mailbox[1..][k - 1];
      WaitingIsAnswered(t, a, quiets[1..], c, k - 1);
    }
  }

  // ----- A session that is evicted and comes back -----

  /**
    A reachable history: a client is served, its session falls idle and is evicted while a
    second client holds the old handle; that one is refused, asks again, and is served by a
    new actor.
   */
  lemma EvictedSessionServesAgain() returns (states: seq<State>)
    ensures IsRun(states, 2, 1) && |states| == 14
    ensures var s := states[13];
            && |s.actors| == 3 && !s.actors[1].open && s.actors[2].open && s.actors[1].sid == s.actors[2].sid == 1
            && s.clients == [Accepted(1), Accepted(2)]
            && 0 in s.actors[1].finished && s.actors[2].active == Some(1)
  {
    hide Follows, Next, Enabled;
    var main, x := NewActor(MAIN), NewActor(1);
    var at := map[MAIN := 0, 1 := 1];
    var done := x.(finished := {0});
    var closed := done.(open := false);
    var s0 := Init(2, 1);
    var s1 := State([main, x], at, [Holding(1, 1, false), Away], 1);
    var s2 := State([main, x.(mailbox := [Submit(0)])], at, [Waiting(1, 1, false), Away], 1);
    var s3 := State([main, x.(active := Some(0), alive := true)], at, [Accepted(1), Away], 1);
    var s4 := State([main, x.(active := Some(0), mailbox := [RunFinished])], at, [Accepted(1), Away], 1);
    var s5 := State([main, done], at, [Accepted(1), Away], 1);
    var s6 := s5.(clients := [Accepted(1), Holding(1, 1, false)]);
    var s7 := s6.(actors := [main, done.(mailbox := [Probe])]);
    var s8 := s6.(actors := [main, closed]);
    var s9 := s8.(clients := [Accepted(1), Refused(1, 1, false)]);
    var s10 := s9.(sessions := map[MAIN := 0]);
    var s11 := State([main, closed, x], map[MAIN := 0, 1 := 2], [Accepted(1), Holding(1, 2, true)], 1);
    var s12 := s11.(actors := [main, closed, x.(mailbox := [Submit(1)])],
                    clients := [Accepted(1), Waiting(1, 2, true)]);
    var s13 := s11.(actors := [main, closed, x.(active := Some(1), alive := true)],
                    clients := [Accepted(1), Accepted(2)]);
    FirstIsAccepted(s0, s1, s2, s3);
    FirstFinishes(s3, s4, s5);
    SessionCloses(s5, s6, s7, s8, s9);
    SecondIsServed(s9, s10, s11, s12, s13);
    states := [s0];
    states := OneStepMore(states, s1, 2, 1);
    states := OneStepMore(states, s2, 2, 1);
    states := OneStepMore(states, s3, 2, 1);
    states := OneStepMore(states, s4, 2, 1);
    states := OneStepMore(states, s5, 2, 1);
    states := OneStepMore(states, s6, 2, 1);
    states := OneStepMore(states, s7, 2, 1);
    states := OneStepMore(states, s8, 2, 1);
    states := OneStepMore(states, s9, 2, 1);
    states := OneStepMore(states, s10, 2, 1);
    states := OneStepMore(states, s11, 2, 1);
    states := OneStepMore(states, s12, 2, 1);
    states := OneStepMore(states, s13, 2, 1);
  }

  lemma OneStepMore(states: seq<State>, t: State, clients: nat, cap: nat) returns (more: seq<State>)
    requires IsRun(states, clients, cap) && Follows(states[|states| - 1], t)
    ensures IsRun(more, clients, cap) && more == states + [t]
  {
    hide Follows;
    more := states + [t];
  }

  lemma FirstMail(a: Actor, cmd: Cmd)
    requires a.mailbox == []
    ensures Mailed(a, cmd) == a.(mailbox := [cmd])
  {
  }

  lemma FirstIsAccepted(s0: State, s1: State, s2: State, s3: State)
    requires s0 == Init(2, 1)
    requires s1 == State([NewActor(MAIN), NewActor(1)], map[MAIN := 0, 1 := 1], [Holding(1, 1, false), Away], 1)
    requires s2 == s1.(actors := [NewActor(MAIN), NewActor(1).(mailbox := [Submit(0)])],
                       clients := [Waiting(1, 1, false), Away])
    requires s3 == s1.(actors := [NewActor(MAIN), NewActor(1).(active := Some(0), alive := true)],
                       clients := [Accepted(1), Away])
    ensures Follows(s0, s1) && Follows(s1, s2) && Follows(s2, s3)
  {
    assert Enabled(s0, Arrive(0, 1)) && Next(s0, Arrive(0, 1)) == s1;
    FirstMail(NewActor(1), Submit(0));
    assert Enabled(s1, Post(0)) && Next(s1, Post(0)) == s2;
    assert [Submit(0)][1..] == [];
    assert Enabled(s2, Handle(1, false)) && Next(s2, Handle(1, false)) == s3;
  }

  lemma FirstFinishes(s3: State, s4: State, s5: State)
    requires s3.actors == [NewActor(MAIN), NewActor(1).(active := Some(0), alive := true)]
    requires s3.clients == [Accepted(1), Away]
    requires s4 == s3.(actors := [NewActor(MAIN), NewActor(1).(active := Some(0), mailbox := [RunFinished])])
    requires s5 == s3.(actors := [NewActor(MAIN), NewActor(1).(finished := {0})])
    ensures Follows(s3, s4) && Follows(s4, s5)
  {
    FirstMail(NewActor(1).(active := Some(0)), RunFinished);
    assert Enabled(s3, RunEnds(1)) && Next(s3, RunEnds(1)) == s4;
    assert [RunFinished][1..] == [] && {} + {0} == {0};
    assert Enabled(s4, Handle(1, false)) && Next(s4, Handle(1, false)) == s5;
  }

  lemma SessionCloses(s5: State, s6: State, s7: State, s8: State, s9: State)
    requires s5.actors == [NewActor(MAIN), NewActor(1).(finished := {0})]
    requires s5.sessions == map[MAIN := 0, 1 := 1] && s5.clients == [Accepted(1), Away]
    requires s6 == s5.(clients := [Accepted(1), Holding(1, 1, false)])
    requires s7 == s6.(actors := [NewActor(MAIN), NewActor(1).(finished := {0}, mailbox := [Probe])])
    requires s8 == s6.(actors := [NewActor(MAIN), NewActor(1).(finished := {0}, open := false)])
    requires s9 == s8.(clients := [Accepted(1), Refused(1, 1, false)])
    ensures Follows(s5, s6) && Follows(s6, s7) && Follows(s7, s8) && Follows(s8, s9)
  {
    assert Enabled(s5, Arrive(1, 1)) && Next(s5, Arrive(1, 1)) == s6;
    FirstMail(NewActor(1).(finished := {0}), Probe);
    assert Enabled(s6, SendProbe(1)) && Next(s6, SendProbe(1)) == s7;
    assert Enabled(s7, Handle(1, true)) && Next(s7, Handle(1, true)) == s8;
    assert Enabled(s8, Post(1)) && Next(s8, Post(1)) == s9;
  }

  lemma SecondIsServed(s9: State, s10: State, s11: State, s12: State, s13: State)
    requires s9.actors == [NewActor(MAIN), NewActor(1).(finished := {0}, open := false)]
    requires s9.sessions == map[MAIN := 0, 1 := 1] && s9.clients == [Accepted(1), Refused(1, 1, false)]
    requires s10 == s9.(sessions := map[MAIN := 0])
    requires s11 == s9.(actors := s9.actors + [NewActor(1)], sessions := map[MAIN := 0, 1 := 2],
                        clients := [Accepted(1), Holding(1, 2, true)])
    requires s12 == s11.(actors := s9.actors + [NewActor(1).(mailbox := [Submit(1)])],
                         clients := [Accepted(1), Waiting(1, 2, true)])
    requires s13 == s11.(actors := s9.actors + [NewActor(1).(active := Some(1), alive := true)],
                         clients := [Accepted(1), Accepted(2)])
    ensures Follows(s9, s10) && Follows(s10, s11) && Follows(s11, s12) && Follows(s12, s13)
  {
    assert Enabled(s9, Remove(1)) && Next(s9, Remove(1)) == s10;
    assert Enabled(s10, Retry(1)) && Next(s10, Retry(1)) == s11;
    FirstMail(NewActor(1), Submit(1));
    assert Enabled(s11, Post(1)) && Next(s11, Post(1)) == s12;
    assert [Submit(1)][1..] == [];
    assert Enabled(s12, Handle(2, false)) && Next(s12, Handle(2, false)) == s13;
  }
}
