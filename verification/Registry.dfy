/**
  The registry of sessions under concurrency: clients that look up a session and submit to
  it, actors that work through their mailboxes and close themselves when idle, and probes
  that evict. Every step is atomic; any interleaving of steps is a run.
 */
module Registry {
  import opened Basics

  type SessionId = nat
  type ActorId = nat
  type ClientId = nat

  const MAIN: SessionId := 0

  datatype Cmd = Submit(client: ClientId) | Probe | RunFinished | HardAbort

  /** An actor's lane; a turn is named by the client that submitted it. */
  datatype Actor = Actor(
    sid: SessionId,
    open: bool,
    mailbox: seq<Cmd>,
    active: Option<ClientId>,
    alive: bool,
    pending: seq<ClientId>,
    finished: set<ClientId>,
    drained: set<ClientId>)

  /** Where a client's request stands; `retried` after the second lookup. */
  datatype Client =
    | Away
    | Holding(sid: SessionId, actor: ActorId, retried: bool)
    | Waiting(sid: SessionId, actor: ActorId, retried: bool)
    | Refused(sid: SessionId, actor: ActorId, retried: bool)
    | Accepted(actor: ActorId)
    | Failed

  datatype State = State(actors: seq<Actor>, sessions: map<SessionId, ActorId>, clients: seq<Client>, cap: nat)

  datatype Step =
    | Arrive(client: ClientId, sid: SessionId)
    | Post(client: ClientId)
    | Retry(client: ClientId)
    | SendProbe(actor: ActorId)
    | SendAbort(actor: ActorId)
    | RunEnds(actor: ActorId)
    | Handle(actor: ActorId, quiet: bool)
    | Remove(sid: SessionId)

  function NewActor(sid: SessionId): Actor {
    Actor(sid, true, [], None, false, [], {}, {})
  }

  // ----- The registry -----

  ghost predicate IsOpen(s: State, a: ActorId) {
    a < |s.actors| && s.actors[a].open
  }

  /** The handle of a session: the registered one if its actor still lives, or else a new one. */
  ghost function GetOrSpawn(s: State, sid: SessionId): (State, ActorId) {
    if sid in s.sessions && IsOpen(s, s.sessions[sid]) then (s, s.sessions[sid])
    else (s.(actors := s.actors + [NewActor(sid)], sessions := s.sessions[sid := |s.actors|]), |s.actors|)
  }

  // ----- One command of one actor -----

  /** What a command does to its actor, and what a submitting client is told. */
  function HandleCmd(a: Actor, cmd: Cmd, cap: nat, quiet: bool): Actor {
    match cmd
    case Submit(c) =>
      if a.active == None then a.(active := Some(c), alive := true)
      else if |a.pending| >= cap then a
      else a.(pending := a.pending + [c])
    case Probe =>
      if a.active.Some? || a.pending != [] || !quiet then a else a.(open := false, mailbox := [])
    case RunFinished =>
      if a.active == None then a
      else
        var done := a.(finished := a.finished + {a.active.value});
        if a.pending == [] then done.(active := None, alive := false)
        else done.(active := Some(a.pending[0]), alive := true, pending := a.pending[1..])
    case HardAbort => a.(pending := [], drained := a.drained + SetOf(a.pending))
  }

  predicate Takes(a: Actor, cap: nat) {
    a.active == None || |a.pending| < cap
  }

  /** The clients after `actor` closed: whoever still waited for it is refused. */
  function Reply(client: Client, actor: ActorId, closed: bool): Client {
    if client.Waiting? && client.actor == actor && closed then Refused(client.sid, actor, client.retried) else client
  }

  function Replies(clients: seq<Client>, actor: ActorId, closed: bool): seq<Client> {
    seq(|clients|, c requires 0 <= c < |clients| => Reply(clients[c], actor, closed))
  }

  function Answer(client: Client, actor: ActorId, taken: bool): Client {
    if !client.Waiting? then client
    else if taken then Accepted(actor)
    else Refused(client.sid, actor, client.retried)
  }

  function Answered(clients: seq<Client>, cmd: Cmd, actor: ActorId, taken: bool): seq<Client> {
    if cmd.Submit? && cmd.client < |clients| then
      clients[cmd.client := Answer(clients[cmd.client], actor, taken)]
    else clients
  }

  // ----- Steps -----

  ghost predicate Enabled(s: State, step: Step) {
    match step
    case Arrive(c, _) => c < |s.clients| && s.clients[c] == Away
    case Post(c) => c < |s.clients| && s.clients[c].Holding?
    case Retry(c) => c < |s.clients| && s.clients[c].Refused?
    case SendProbe(a) => IsOpen(s, a) && s.actors[a].sid != MAIN
    case SendAbort(a) => IsOpen(s, a)
    case RunEnds(a) => IsOpen(s, a) && s.actors[a].alive
    case Handle(a, _) => IsOpen(s, a) && s.actors[a].mailbox != []
    case Remove(sid) => sid != MAIN && sid in s.sessions
  }

  function Mailed(a: Actor, cmd: Cmd): Actor {
    a.(mailbox := a.mailbox + [cmd])
  }

  ghost function Next(s: State, step: Step): State
    requires Enabled(s, step)
  {
    match step
    case Arrive(c, sid) =>
      var (t, a) := GetOrSpawn(s, sid);
      t.(clients := t.clients[c := Holding(sid, a, false)])
    case Post(c) =>
      var a := s.clients[c].actor;
      if IsOpen(s, a) then
        s.(actors := s.actors[a := Mailed(s.actors[a], Submit(c))],
           clients := s.clients[c := Waiting(s.clients[c].sid, a, s.clients[c].retried)])
      else s.(clients := s.clients[c := Refused(s.clients[c].sid, a, s.clients[c].retried)])
    case Retry(c) =>
      var client := s.clients[c];
      if !client.retried && !IsOpen(s, client.actor) then
        var (t, a) := GetOrSpawn(s, client.sid);
        t.(clients := t.clients[c := Holding(client.sid, a, true)])
      else s.(clients := s.clients[c := Failed])
    case SendProbe(a) => s.(actors := s.actors[a := Mailed(s.actors[a], Probe)])
    case SendAbort(a) => s.(actors := s.actors[a := Mailed(s.actors[a], HardAbort)])
    case RunEnds(a) => s.(actors := s.actors[a := Mailed(s.actors[a].(alive := false), RunFinished)])
    case Handle(a, quiet) =>
      var cmd, rest := s.actors[a].mailbox[0], s.actors[a].(mailbox := s.actors[a].mailbox[1..]);
      var after := HandleCmd(rest, cmd, s.cap, quiet);
      s.(actors := s.actors[a := after],
         clients := Replies(Answered(s.clients, cmd, a, Takes(rest, s.cap)), a, !after.open))
    case Remove(sid) =>
      if IsOpen(s, s.sessions[sid]) then s else s.(sessions := s.sessions - {sid})
  }

  // ----- What every reachable state satisfies -----

  /** The turns an actor has taken on, by what became of them. */
  function Places(a: Actor): set<ClientId> {
    (if a.active.Some? then {a.active.value} else {}) + SetOf(a.pending) + a.finished + a.drained
  }

  /** A closed actor has nothing left to do; a run that ended has posted exactly one notice. */
  ghost predicate LaneIsSound(a: Actor) {
    && (!a.open ==> a.active == None && a.mailbox == [])
    && (a.active == None ==> a.pending == [] && !a.alive)
    && multiset(a.mailbox)[RunFinished] == (if a.active.Some? && !a.alive then 1 else 0)
    && (a.sid == MAIN ==> a.open && Probe !in a.mailbox)
  }

  /** An open actor is the registered one of its session. */
  ghost predicate IsRegistered(s: State, a: ActorId)
    requires a < |s.actors|
  {
    s.actors[a].open ==> s.actors[a].sid in s.sessions && s.sessions[s.actors[a].sid] == a
  }

  ghost predicate PointsToOwn(s: State, sid: SessionId)
    requires sid in s.sessions
  {
    s.sessions[sid] < |s.actors| && s.actors[s.sessions[sid]].sid == sid
  }

  /** Client `c` waits for `a` iff its submit is in that mailbox, once, and is accepted iff `a` has its turn. */
  ghost predicate Agree(a: Actor, id: ActorId, clients: seq<Client>, c: ClientId) {
    && multiset(a.mailbox)[Submit(c)]
       == (if c < |clients| && clients[c].Waiting? && clients[c].actor == id then 1 else 0)
    && (c in Places(a) <==> c < |clients| && clients[c] == Accepted(id))
  }

  /** A client's handle is for the session it asked for. */
  ghost predicate HandleFits(actors: seq<Actor>, client: Client) {
    && (client.Holding? || client.Waiting? || client.Refused? ==>
          client.actor < |actors| && actors[client.actor].sid == client.sid)
    && (client.Accepted? ==> client.actor < |actors|)
    && (client.Waiting? ==> client.actor < |actors| && actors[client.actor].open)
  }

  ghost predicate LanesAreSound(s: State) {
    forall a :: 0 <= a < |s.actors| ==> LaneIsSound(s.actors[a])
  }

  ghost predicate OpenAreRegistered(s: State) {
    forall a :: 0 <= a < |s.actors| ==> IsRegistered(s, a)
  }

  ghost predicate SessionsPointToOwn(s: State) {
    forall sid :: sid in s.sessions ==> PointsToOwn(s, sid)
  }

  ghost predicate AllAgree(s: State) {
    forall a, c: ClientId :: 0 <= a < |s.actors| ==> Agree(s.actors[a], a, s.clients, c)
  }

  ghost predicate HandlesFit(s: State) {
    forall c :: 0 <= c < |s.clients| ==> HandleFits(s.actors, s.clients[c])
  }

  ghost predicate Inv(s: State) {
    && LanesAreSound(s) && OpenAreRegistered(s) && SessionsPointToOwn(s) && AllAgree(s) && HandlesFit(s)
    && MAIN in s.sessions
  }

  function Init(clients: nat, cap: nat): State {
    State([NewActor(MAIN)], map[MAIN := 0], seq(clients, _ => Away), cap)
  }

  lemma InitIsInv(clients: nat, cap: nat)
    ensures Inv(Init(clients, cap))
  {
    var s := Init(clients, cap);
    forall a, c: ClientId | 0 <= a < |s.actors| ensures Agree(s.actors[a], a, s.clients, c) {
    }
  }

  // ----- Looking up a session -----

  lemma LookupKeepsInv(s: State, sid: SessionId)
    requires Inv(s)
    ensures var (t, a) := GetOrSpawn(s, sid);
            && Inv(t) && t.clients == s.clients && t.cap == s.cap
            && IsOpen(t, a) && t.actors[a].sid == sid && t.sessions[sid] == a
            && (t == s <==> sid in s.sessions && IsOpen(s, s.sessions[sid]))
            && (t != s ==> a == |s.actors| && t.actors == s.actors + [NewActor(sid)])
            && (forall other :: other != sid ==>
                  && (other in t.sessions <==> other in s.sessions)
                  && (other in s.sessions ==> t.sessions[other] == s.sessions[other]))
            && (forall b :: 0 <= b < |s.actors| && s.actors[b].open && s.actors[b].sid == sid ==> a == b)
  {
    hide Places;
    var (t, a) := GetOrSpawn(s, sid);
    forall b | 0 <= b < |s.actors| && s.actors[b].open && s.actors[b].sid == sid ensures a == b {
      assert IsRegistered(s, b);
    }
    if t != s {
      assert t.actors[..|s.actors|] == s.actors;
      forall i | 0 <= i < |t.actors| ensures LaneIsSound(t.actors[i]) && IsRegistered(t, i) {
        assert i < |s.actors| ==> LaneIsSound(s.actors[i]) && IsRegistered(s, i);
      }
      forall other | other in t.sessions ensures PointsToOwn(t, other) {
        assert other in s.sessions ==> PointsToOwn(s, other);
      }
      forall i, c: ClientId | 0 <= i < |t.actors| ensures Agree(t.actors[i], i, t.clients, c) {
        if i < |s.actors| {
          assert Agree(s.actors[i], i, s.clients, c);
        } else {
          NewActorAgrees(s, sid, c);
        }
      }
      forall c | 0 <= c < |t.clients| ensures HandleFits(t.actors, t.clients[c]) {
        assert HandleFits(s.actors, s.clients[c]);
      }
    } else {
      assert PointsToOwn(s, sid);
    }
  }

  lemma NewActorAgrees(s: State, sid: SessionId, c: ClientId)
    requires HandlesFit(s)
    ensures Agree(NewActor(sid), |s.actors|, s.clients, c)
  {
    assert c < |s.clients| ==> HandleFits(s.actors, s.clients[c]);
  }

  // ----- Steps that change one client only -----

  /** A client that neither waits nor was accepted may move on freely. */
  lemma ClientMoves(s: State, c: ClientId, client: Client)
    requires Inv(s) && c < |s.clients|
    requires !s.clients[c].Waiting? && !s.clients[c].Accepted? && !client.Waiting? && !client.Accepted?
    requires HandleFits(s.actors, client)
    ensures Inv(s.(clients := s.clients[c := client]))
  {
    hide Places, LaneIsSound, IsRegistered, PointsToOwn;
    var t := s.(clients := s.clients[c := client]);
    assert LanesAreSound(t) && OpenAreRegistered(t) && SessionsPointToOwn(t) by {
      SameRegistry(s, t);
    }
    forall a, d: ClientId | 0 <= a < |t.actors| ensures Agree(t.actors[a], a, t.clients, d) {
      assert Agree(s.actors[a], a, s.clients, d);
    }
    forall d | 0 <= d < |t.clients| ensures HandleFits(t.actors, t.clients[d]) {
      assert HandleFits(s.actors, s.clients[d]);
    }
  }

  lemma SameRegistry(s: State, t: State)
    requires LanesAreSound(s) && OpenAreRegistered(s) && SessionsPointToOwn(s)
    requires t.actors == s.actors && t.sessions == s.sessions
    ensures LanesAreSound(t) && OpenAreRegistered(t) && SessionsPointToOwn(t)
  {
    forall a | 0 <= a < |t.actors| ensures IsRegistered(t, a) {
      assert IsRegistered(s, a);
    }
    forall sid | sid in t.sessions ensures PointsToOwn(t, sid) {
      assert PointsToOwn(s, sid);
    }
  }

  // ----- Steps that change one actor -----

  /** Replacing one actor, and the clients' answers with it, keeps all, if it agrees with them. */
  lemma ActorMoves(s: State, a: ActorId, actor: Actor, clients: seq<Client>)
    requires Inv(s) && a < |s.actors| && |clients| == |s.clients|
    requires LaneIsSound(actor) && actor.sid == s.actors[a].sid && (actor.open ==> s.actors[a].open)
    requires forall c: ClientId :: Agree(actor, a, clients, c)
    requires forall c :: 0 <= c < |clients| ==> Elsewhere(s.clients[c], clients[c], a)
    requires !actor.open ==> forall c :: 0 <= c < |clients| ==> !(clients[c].Waiting? && clients[c].actor == a)
    ensures Inv(s.(actors := s.actors[a := actor], clients := clients))
  {
    hide Places, LaneIsSound;
    var t := s.(actors := s.actors[a := actor], clients := clients);
    forall i | 0 <= i < |t.actors| ensures LaneIsSound(t.actors[i]) && IsRegistered(t, i) {
      assert LaneIsSound(s.actors[i]) && IsRegistered(s, i);
    }
    forall sid | sid in t.sessions ensures PointsToOwn(t, sid) {
      assert PointsToOwn(s, sid);
    }
    forall i, c: ClientId | 0 <= i < |t.actors| ensures Agree(t.actors[i], i, t.clients, c) {
      assert Agree(s.actors[i], i, s.clients, c);
      assert c < |clients| ==> Elsewhere(s.clients[c], clients[c], a);
    }
    forall c | 0 <= c < |t.clients| ensures HandleFits(t.actors, t.clients[c]) {
      assert HandleFits(s.actors, s.clients[c]) && Elsewhere(s.clients[c], clients[c], a);
    }
  }

  /** How a step of actor `a` may change a client: not at all, or between states about `a`. */
  predicate Elsewhere(before: Client, after: Client, a: ActorId) {
    || after == before
    || (&& (before.Waiting? || before.Holding?) && before.actor == a
        && (after.Waiting? || after.Accepted? || after.Refused?) && after.actor == a
        && (!after.Accepted? ==> after.sid == before.sid)
        && (after.Waiting? ==> before.Holding?))
  }

  lemma CountInFront(mailbox: seq<Cmd>, cmd: Cmd)
    requires mailbox != []
    ensures multiset(mailbox)[cmd] == multiset(mailbox[1..])[cmd] + if mailbox[0] == cmd then 1 else 0
    ensures cmd in mailbox[1..] ==> cmd in mailbox
  {
    assert mailbox == [mailbox[0]] + mailbox[1..];
  }

  lemma MailKeepsInv(s: State, a: ActorId, actor: Actor, cmd: Cmd)
    requires Inv(s) && a < |s.actors| && s.actors[a].open && !cmd.Submit?
    requires actor == s.actors[a].(alive := actor.alive)
    requires LaneIsSound(Mailed(actor, cmd))
    ensures Inv(s.(actors := s.actors[a := Mailed(actor, cmd)]))
  {
    hide LaneIsSound, HandleFits;
    forall c: ClientId ensures Agree(Mailed(actor, cmd), a, s.clients, c) {
      assert Agree(s.actors[a], a, s.clients, c);
    }
    ActorMoves(s, a, Mailed(actor, cmd), s.clients);
  }

  lemma PostKeepsInv(s: State, c: ClientId)
    requires Inv(s) && c < |s.clients| && s.clients[c].Holding? && IsOpen(s, s.clients[c].actor)
    ensures Inv(Next(s, Post(c)))
  {
    hide HandleFits, Places;
    var a := s.clients[c].actor;
    var actor := Mailed(s.actors[a], Submit(c));
    var clients := s.clients[c := Waiting(s.clients[c].sid, a, s.clients[c].retried)];
    assert LaneIsSound(s.actors[a]);
    forall d: ClientId ensures Agree(actor, a, clients, d) {
      assert Agree(s.actors[a], a, s.clients, d);
      assert Places(actor) == Places(s.actors[a]) by {
        MailIsNoPlace(s.actors[a], Submit(c));
      }
    }
    ActorMoves(s, a, actor, clients);
  }

  lemma MailIsNoPlace(a: Actor, cmd: Cmd)
    ensures Places(Mailed(a, cmd)) == Places(a)
  {
  }

  /** The actor after taking the first command out of its mailbox. */
  function Opened(a: Actor): Actor
    requires a.mailbox != []
  {
    a.(mailbox := a.mailbox[1..])
  }

  lemma SetOfConcat(x: seq<ClientId>, y: seq<ClientId>)
    ensures SetOf(x + y) == SetOf(x) + SetOf(y)
  {
    forall c ensures c in SetOf(x + y) <==> c in SetOf(x) + SetOf(y) {
      assert c in x + y <==> c in x || c in y;
    }
  }

  lemma SetOfOne(c: ClientId)
    ensures SetOf([c]) == {c}
  {
    assert c in [c];
  }

  /** Only a submit that is taken adds a turn; no command loses one. */
  lemma HandlingKeepsPlaces(a: Actor, cmd: Cmd, cap: nat, quiet: bool)
    ensures Places(HandleCmd(a, cmd, cap, quiet))
            == Places(a) + if cmd.Submit? && Takes(a, cap) then {cmd.client} else {}
  {
    match cmd {
      case Submit(c) =>
        SetOfConcat(a.pending, [c]);
        SetOfOne(c);
      case RunFinished =>
        if a.pending != [] {
          assert a.pending == [a.pending[0]] + a.pending[1..];
          SetOfConcat([a.pending[0]], a.pending[1..]);
          SetOfOne(a.pending[0]);
        }
      case Probe =>
      case HardAbort => assert SetOf<ClientId>([]) == {};
    }
  }

  lemma HandlingKeepsLaneSound(a: Actor, cap: nat, quiet: bool)
    requires LaneIsSound(a) && a.open && a.mailbox != []
    ensures LaneIsSound(HandleCmd(Opened(a), a.mailbox[0], cap, quiet))
  {
    CountInFront(a.mailbox, RunFinished);
    CountInFront(a.mailbox, Probe);
  }

  function AfterHandling(s: State, a: ActorId, quiet: bool): Actor
    requires a < |s.actors| && s.actors[a].mailbox != []
  {
    HandleCmd(Opened(s.actors[a]), s.actors[a].mailbox[0], s.cap, quiet)
  }

  function ClientsAfter(s: State, a: ActorId, quiet: bool): seq<Client>
    requires a < |s.actors| && s.actors[a].mailbox != []
  {
    Replies(Answered(s.clients, s.actors[a].mailbox[0], a, Takes(Opened(s.actors[a]), s.cap)), a,
            !AfterHandling(s, a, quiet).open)
  }

  /** What the step makes of client `c`. */
  function ClientAfter(s: State, a: ActorId, quiet: bool, c: ClientId): Client
    requires a < |s.actors| && s.actors[a].mailbox != [] && c < |s.clients|
  {
    var answered :=
      if s.actors[a].mailbox[0] == Submit(c) then Answer(s.clients[c], a, Takes(Opened(s.actors[a]), s.cap))
      else s.clients[c];
    Reply(answered, a, !AfterHandling(s, a, quiet).open)
  }

  lemma ClientsChangeOneByOne(s: State, a: ActorId, quiet: bool, c: ClientId)
    requires a < |s.actors| && s.actors[a].mailbox != [] && c < |s.clients|
    ensures |ClientsAfter(s, a, quiet)| == |s.clients| && ClientsAfter(s, a, quiet)[c] == ClientAfter(s, a, quiet, c)
  {
    hide HandleCmd, Takes;
  }

  /** The first command's client was waiting for this actor; the mailbox holds one submit less. */
  lemma MailboxAfter(s: State, a: ActorId, quiet: bool, c: ClientId)
    requires Inv(s) && IsOpen(s, a) && s.actors[a].mailbox != []
    ensures var actor, after := s.actors[a], AfterHandling(s, a, quiet);
            && multiset(after.mailbox)[Submit(c)]
               == (if !after.open then 0
                   else multiset(actor.mailbox)[Submit(c)] - if actor.mailbox[0] == Submit(c) then 1 else 0)
            && (!after.open ==> actor.mailbox[0] == Probe)
    ensures s.actors[a].mailbox[0] == Submit(c) ==> c < |s.clients| && s.clients[c].Waiting? && s.clients[c].actor == a
  {
    hide LaneIsSound, HandleFits, Places;
    InvAgrees(s);
    assert Agree(s.actors[a], a, s.clients, c);
    CountInFront(s.actors[a].mailbox, Submit(c));
  }

  lemma HandleAgrees(s: State, a: ActorId, quiet: bool, c: ClientId)
    requires Inv(s) && IsOpen(s, a) && s.actors[a].mailbox != []
    ensures Agree(AfterHandling(s, a, quiet), a, ClientsAfter(s, a, quiet), c)
  {
    hide Inv, LaneIsSound, HandleFits, Places, Takes, HandleCmd, AfterHandling, ClientsAfter;
    var actor, cmd := s.actors[a], s.actors[a].mailbox[0];
    InvAgrees(s);
    assert Agree(actor, a, s.clients, c);
    MailboxAfter(s, a, quiet, c);
    PlacesAfter(s, a, quiet);
    if c < |s.clients| {
      ClientsChangeOneByOne(s, a, quiet, c);
    } else {
      ClientsAreMany(s, a, quiet);
    }
  }

  lemma ClientsAreMany(s: State, a: ActorId, quiet: bool)
    requires a < |s.actors| && s.actors[a].mailbox != []
    ensures |ClientsAfter(s, a, quiet)| == |s.clients|
  {
  }

  lemma PlacesAfter(s: State, a: ActorId, quiet: bool)
    requires a < |s.actors| && s.actors[a].mailbox != []
    ensures var cmd := s.actors[a].mailbox[0];
            Places(AfterHandling(s, a, quiet))
            == Places(s.actors[a]) + if cmd.Submit? && Takes(Opened(s.actors[a]), s.cap) then {cmd.client} else {}
  {
    hide Places, Takes, HandleCmd;
    HandlingKeepsPlaces(Opened(s.actors[a]), s.actors[a].mailbox[0], s.cap, quiet);
    OpeningKeepsPlaces(s.actors[a]);
  }

  lemma InvAgrees(s: State)
    requires Inv(s)
    ensures AllAgree(s)
  {
  }

  lemma OpeningKeepsPlaces(a: Actor)
    requires a.mailbox != []
    ensures Places(Opened(a)) == Places(a)
  {
  }

  lemma HandleStaysElsewhere(s: State, a: ActorId, quiet: bool, c: ClientId)
    requires Inv(s) && IsOpen(s, a) && s.actors[a].mailbox != [] && c < |s.clients|
    ensures Elsewhere(s.clients[c], ClientsAfter(s, a, quiet)[c], a)
    ensures !AfterHandling(s, a, quiet).open
            ==> !(ClientsAfter(s, a, quiet)[c].Waiting? && ClientsAfter(s, a, quiet)[c].actor == a)
  {
    hide LaneIsSound, HandleFits, Places;
    var cmd := s.actors[a].mailbox[0];
    if cmd.Submit? {
      assert Agree(s.actors[a], a, s.clients, cmd.client);
      CountInFront(s.actors[a].mailbox, cmd);
    }
  }

  lemma HandleKeepsInv(s: State, a: ActorId, quiet: bool)
    requires Inv(s) && Enabled(s, Handle(a, quiet))
    ensures Inv(Next(s, Handle(a, quiet)))
  {
    hide Agree, LaneIsSound, HandleFits, Elsewhere, ClientsAfter;
    var actor, clients := AfterHandling(s, a, quiet), ClientsAfter(s, a, quiet);
    HandlingKeepsLaneSound(s.actors[a], s.cap, quiet);
    ClientsAreAsMany(s, a, quiet);
    forall c: ClientId ensures Agree(actor, a, clients, c) {
      HandleAgrees(s, a, quiet, c);
    }
    forall c | 0 <= c < |clients|
      ensures Elsewhere(s.clients[c], clients[c], a)
              && (!actor.open ==> !(clients[c].Waiting? && clients[c].actor == a))
    {
      HandleStaysElsewhere(s, a, quiet, c);
    }
    ActorMoves(s, a, actor, clients);
  }

  lemma ClientsAreAsMany(s: State, a: ActorId, quiet: bool)
    requires Enabled(s, Handle(a, quiet))
    ensures |ClientsAfter(s, a, quiet)| == |s.clients|
    ensures Next(s, Handle(a, quiet))
            == s.(actors := s.actors[a := AfterHandling(s, a, quiet)], clients := ClientsAfter(s, a, quiet))
  {
  }

  // ----- Every step, every run -----

  lemma RemoveKeepsInv(s: State, sid: SessionId)
    requires Inv(s) && Enabled(s, Remove(sid))
    ensures Inv(Next(s, Remove(sid)))
    ensures forall a :: 0 <= a < |s.actors| && s.actors[a].open ==> IsRegistered(Next(s, Remove(sid)), a)
  {
    hide Agree, HandleFits;
    var t := Next(s, Remove(sid));
    assert PointsToOwn(s, sid) && PointsToOwn(s, MAIN);
    assert LaneIsSound(s.actors[s.sessions[MAIN]]);
    forall a | 0 <= a < |t.actors| ensures IsRegistered(t, a) {
      assert IsRegistered(s, a);
    }
    forall other | other in t.sessions ensures PointsToOwn(t, other) {
      assert PointsToOwn(s, other);
    }
    assert AllAgree(t) && HandlesFit(t) by {
      SameClients(s, t);
    }
  }

  lemma SameClients(s: State, t: State)
    requires AllAgree(s) && HandlesFit(s) && t.actors == s.actors && t.clients == s.clients
    ensures AllAgree(t) && HandlesFit(t)
  {
    hide Agree, HandleFits;
    forall a, c: ClientId | 0 <= a < |t.actors| ensures Agree(t.actors[a], a, t.clients, c) {
      assert Agree(s.actors[a], a, s.clients, c);
    }
  }

  lemma EndKeepsInv(s: State, a: ActorId)
    requires Inv(s) && Enabled(s, RunEnds(a))
    ensures Inv(Next(s, RunEnds(a)))
  {
    hide Agree, HandleFits, IsRegistered, PointsToOwn;
    assert LaneIsSound(s.actors[a]);
    MailKeepsInv(s, a, s.actors[a].(alive := false), RunFinished);
  }

  lemma SendKeepsInv(s: State, a: ActorId, cmd: Cmd)
    requires Inv(s) && IsOpen(s, a) && (cmd == HardAbort || (cmd == Probe && s.actors[a].sid != MAIN))
    ensures Inv(s.(actors := s.actors[a := Mailed(s.actors[a], cmd)]))
  {
    hide Agree, HandleFits, IsRegistered, PointsToOwn;
    assert LaneIsSound(s.actors[a]);
    MailKeepsInv(s, a, s.actors[a], cmd);
  }

  lemma ClientStepKeepsInv(s: State, step: Step)
    requires Inv(s) && Enabled(s, step) && (step.Arrive? || step.Post? || step.Retry?)
    ensures Inv(Next(s, step))
  {
    hide AllAgree, LanesAreSound, OpenAreRegistered, SessionsPointToOwn;
    var c := step.client;
    assert HandleFits(s.actors, s.clients[c]);
    match step {
      case Arrive(_, sid) =>
        LookupKeepsInv(s, sid);
        var (t, a) := GetOrSpawn(s, sid);
        ClientMoves(t, c, Holding(sid, a, false));
      case Post(_) =>
        if IsOpen(s, s.clients[c].actor) {
          PostKeepsInv(s, c);
        } else {
          ClientMoves(s, c, Refused(s.clients[c].sid, s.clients[c].actor, s.clients[c].retried));
        }
      case Retry(_) =>
        LookupKeepsInv(s, s.clients[c].sid);
        var (t, a) := GetOrSpawn(s, s.clients[c].sid);
        ClientMoves(t, c, Holding(s.clients[c].sid, a, true));
        ClientMoves(s, c, Failed);
    }
  }

  lemma StepKeepsInv(s: State, step: Step)
    requires Inv(s) && Enabled(s, step)
    ensures Inv(Next(s, step))
  {
    hide Inv;
    match step {
      case Arrive(_, _) => ClientStepKeepsInv(s, step);
      case Post(_) => ClientStepKeepsInv(s, step);
      case Retry(_) => ClientStepKeepsInv(s, step);
      case SendProbe(a) => SendKeepsInv(s, a, Probe);
      case SendAbort(a) => SendKeepsInv(s, a, HardAbort);
      case RunEnds(a) => EndKeepsInv(s, a);
      case Handle(a, quiet) => HandleKeepsInv(s, a, quiet);
      case Remove(sid) => RemoveKeepsInv(s, sid);
    }
  }

  /** `states` is a run of the system: it starts empty, and every state follows by some step. */
  ghost predicate IsRun(states: seq<State>, clients: nat, cap: nat) {
    && states != [] && states[0] == Init(clients, cap)
    && forall i :: 0 <= i < |states| - 1 ==> Follows(states[i], states[i + 1])
  }

  ghost predicate Follows(s: State, t: State) {
    exists step :: Enabled(s, step) && t == Next(s, step)
  }

  lemma {:induction false} EveryRunKeepsInv(states: seq<State>, clients: nat, cap: nat, i: nat)
    requires IsRun(states, clients, cap) && i < |states|
    ensures Inv(states[i])
  {
    hide Inv, Enabled;
    if i == 0 {
      InitIsInv(clients, cap);
    } else {
      EveryRunKeepsInv(states, clients, cap, i - 1);
      assert Follows(states[i - 1], states[i]);
      var step :| Enabled(states[i - 1], step) && states[i] == Next(states[i - 1], step);
      StepKeepsInv(states[i - 1], step);
    }
  }

  // ----- What that means -----

  /** A session has at most one open actor, so at most one live run, however many actors it has had. */
  lemma OneOpenActorPerSession(s: State, a: ActorId, b: ActorId)
    requires Inv(s) && a < |s.actors| && b < |s.actors| && s.actors[a].sid == s.actors[b].sid
    ensures s.actors[a].open && s.actors[b].open ==> a == b
    ensures s.actors[a].active.Some? && s.actors[b].active.Some? ==> a == b
    ensures s.actors[a].alive && s.actors[b].alive ==> a == b
  {
    hide Agree, HandleFits, PointsToOwn;
    assert IsRegistered(s, a) && IsRegistered(s, b) && LaneIsSound(s.actors[a]) && LaneIsSound(s.actors[b]);
  }

  /** An open actor can be found, and no eviction takes that away from it; `main` is always open. */
  lemma OpenActorsStayRegistered(s: State, a: ActorId, sid: SessionId)
    requires Inv(s) && a < |s.actors| && s.actors[a].open && Enabled(s, Remove(sid))
    ensures var t := Next(s, Remove(sid));
            s.actors[a].sid in t.sessions && t.sessions[s.actors[a].sid] == a
    ensures MAIN in s.sessions && IsOpen(s, s.sessions[MAIN])
  {
    RemoveKeepsInv(s, sid);
    assert IsRegistered(Next(s, Remove(sid)), a);
    assert PointsToOwn(s, MAIN);
    assert LaneIsSound(s.actors[s.sessions[MAIN]]);
  }

  /**
    No accepted turn is lost to an eviction: if its actor has closed, the turn has run to its
    end or a hard abort took it. And it was accepted once: no other actor has it.
   */
  lemma AcceptedTurnsSurvive(s: State, c: ClientId, b: ActorId)
    requires Inv(s) && c < |s.clients| && s.clients[c].Accepted?
    ensures var a := s.clients[c].actor;
            && a < |s.actors| && c in Places(s.actors[a])
            && (!s.actors[a].open ==> c in s.actors[a].finished + s.actors[a].drained)
            && (b < |s.actors| && c in Places(s.actors[b]) ==> b == a)
  {
    hide IsRegistered, PointsToOwn;
    var a := s.clients[c].actor;
    assert HandleFits(s.actors, s.clients[c]);
    assert Agree(s.actors[a], a, s.clients, c) && LaneIsSound(s.actors[a]);
    if b < |s.actors| {
      assert Agree(s.actors[b], b, s.clients, c);
    }
  }

  /** No step takes an acceptance back. */
  lemma AcceptanceIsFinal(s: State, step: Step, c: ClientId)
    requires Inv(s) && Enabled(s, step) && c < |s.clients| && s.clients[c].Accepted?
    ensures var t := Next(s, step); c < |t.clients| && t.clients[c] == s.clients[c]
  {
    hide Inv, HandleCmd, Places, SetOf;
    if step.Handle? {
      MailboxAfter(s, step.actor, step.quiet, c);
      ClientsAreAsMany(s, step.actor, step.quiet);
      ClientsChangeOneByOne(s, step.actor, step.quiet, c);
    }
  }

  /** A turn of a client that was told no, or not told yet, is in no actor's hands. */
  lemma RefusedTurnsNeverRun(s: State, c: ClientId, a: ActorId)
    requires Inv(s) && c < |s.clients| && !s.clients[c].Accepted? && a < |s.actors|
    ensures c !in Places(s.actors[a])
  {
    hide Places, IsRegistered, PointsToOwn, LaneIsSound;
    assert Agree(s.actors[a], a, s.clients, c);
  }

  /** A client is kept waiting only by an actor that is open and still has its submit. */
  lemma NoClientWaitsForever(s: State, c: ClientId)
    requires Inv(s) && c < |s.clients| && s.clients[c].Waiting?
    ensures var a := s.clients[c].actor; IsOpen(s, a) && Submit(c) in s.actors[a].mailbox
  {
    hide Places, IsRegistered, PointsToOwn, LaneIsSound;
    var a := s.clients[c].actor;
    assert HandleFits(s.actors, s.clients[c]);
    assert Agree(s.actors[a], a, s.clients, c);
  }
}
