/**
  The actors of the registry are abstractions of the lane: each command does to the actor
  what the session does to its lane.
 */
module Refinement {
  import opened Basics
  import Lane
  import Registry

  /** Which client submitted the turn of a run. */
  type Submitter = Lane.RunId -> Registry.ClientId

  function Clients(ts: seq<Lane.QueuedTurn>, who: Submitter): (cs: seq<Registry.ClientId>)
    ensures |cs| == |ts| && forall i :: 0 <= i < |ts| ==> cs[i] == who(ts[i].id)
  {
    if ts == [] then [] else Clients(ts[..|ts| - 1], who) + [who(ts[|ts| - 1].id)]
  }

  function ClientsOf(ids: set<Lane.RunId>, who: Submitter): set<Registry.ClientId> {
    set id | id in ids :: who(id)
  }

  /** A lane as the registry sees it; session, mailbox and openness are those of `a`. */
  function Abstract(s: Lane.State, who: Submitter, a: Registry.Actor): Registry.Actor {
    a.(active := if s.active.Some? then Some(who(s.active.value)) else None,
       alive := s.books.alive != {},
       pending := Clients(s.pending, who),
       finished := ClientsOf(SetOf(s.books.finished), who),
       drained := ClientsOf(s.books.drained, who))
  }

  lemma ClientsGrow(ts: seq<Lane.QueuedTurn>, t: Lane.QueuedTurn, who: Submitter)
    ensures Clients(ts + [t], who) == Clients(ts, who) + [who(t.id)]
  {
  }

  lemma UnionOfClients(x: set<Lane.RunId>, y: set<Lane.RunId>, who: Submitter)
    ensures ClientsOf(x + y, who) == ClientsOf(x, who) + ClientsOf(y, who)
  {
  }

  lemma ClientsAreOfIds(ts: seq<Lane.QueuedTurn>, who: Submitter)
    ensures SetOf(Clients(ts, who)) == ClientsOf(Lane.Ids(ts), who)
  {
    forall t | t in ts ensures who(t.id) in Clients(ts, who) {
      var i :| 0 <= i < |ts| && ts[i] == t;
      assert Clients(ts, who)[i] == who(t.id);
    }
    forall c | c in Clients(ts, who) ensures c in ClientsOf(Lane.Ids(ts), who) {
      var i :| 0 <= i < |ts| && Clients(ts, who)[i] == c;
      assert ts[i] in ts && ts[i].id in Lane.Ids(ts);
    }
  }

  lemma OneMoreFinished(ids: seq<Lane.RunId>, id: Lane.RunId, who: Submitter)
    ensures ClientsOf(SetOf(ids + [id]), who) == ClientsOf(SetOf(ids), who) + {who(id)}
  {
    assert (ids + [id])[|ids|] == id;
    forall x ensures x in SetOf(ids + [id]) <==> x in SetOf(ids) + {id} {
      assert x in ids + [id] <==> x in ids || x == id;
    }
    assert SetOf(ids + [id]) == SetOf(ids) + {id};
    UnionOfClients(SetOf(ids), {id}, who);
    assert ClientsOf({id}, who) == {who(id)};
  }

  /** Submitting a turn does to the lane what the submit command does to the actor. */
  lemma SubmitRefines(s: Lane.State, t: Lane.QueuedTurn, sink: Lane.Sink, cap: nat,
                      who: Submitter, a: Registry.Actor, quiet: bool)
    requires Lane.Sound(s) && t.id == s.nextId
    ensures Abstract(Lane.Submitted(s, t, sink, cap), who, a)
            == Registry.HandleCmd(Abstract(s, who, a), Registry.Submit(who(t.id)), cap, quiet)
  {
    hide Lane.Sound;
    ClientsGrow(s.pending, t, who);
    if s.active == None {
      Lane.OneRunAtATime(s, t.id, t.id);
      assert t.id in Lane.Begun(Lane.Accepted(s.books, t), t).alive;
    }
  }

  /** The end of a run, and the start of the next one. */
  lemma FinishRefines(s: Lane.State, id: Lane.RunId, cap: nat, who: Submitter, a: Registry.Actor, quiet: bool)
    requires Lane.Sound(s) && s.active == Some(id) && id in s.books.posted
    ensures Abstract(Lane.Finishes(s, id), who, a)
            == Registry.HandleCmd(Abstract(s, who, a), Registry.RunFinished, cap, quiet)
  {
    hide Lane.Sound, SetOf, ClientsOf;
    Lane.HeadLeaves(s, id);
    PostedIsNotAlive(s, id);
    OneMoreFinished(s.books.finished, id, who);
    if s.pending != [] {
      var head := s.pending[0];
      assert Clients(s.pending, who)[1..] == Clients(s.pending[1..], who);
      assert head.id in Lane.Begun(Lane.Ended(s.books, id), head).alive;
    }
  }

  lemma PostedIsNotAlive(s: Lane.State, id: Lane.RunId)
    requires Lane.Sound(s) && s.active == Some(id) && id in s.books.posted
    ensures s.books.alive == {}
  {
    forall x ensures x !in s.books.alive {
      assert x in s.books.alive ==> x in Lane.Active(s.active);
    }
  }

  /** A hard abort. */
  lemma DrainRefines(s: Lane.State, cap: nat, who: Submitter, a: Registry.Actor, quiet: bool)
    ensures Abstract(Lane.Drains(s), who, a) == Registry.HandleCmd(Abstract(s, who, a), Registry.HardAbort, cap, quiet)
  {
    ClientsAreOfIds(s.pending, who);
    UnionOfClients(s.books.drained, Lane.Ids(s.pending), who);
    assert Clients([], who) == [];
  }

  /** A run ending by itself, before its notice is handled. */
  lemma EndRefines(s: Lane.State, id: Lane.RunId, who: Submitter, a: Registry.Actor)
    requires Lane.Sound(s) && id in s.books.alive
    ensures Abstract(Lane.Ends(s, id), who, a) == Abstract(s, who, a).(alive := false)
  {
    forall x ensures x !in s.books.alive - {id} {
      Lane.OneRunAtATime(s, x, id);
    }
  }

  /** A probe closes the actor exactly where the session closes its mailbox. */
  lemma ProbeRefines(s: Lane.State, now: nat, lastActivity: nat, idleAfter: nat, cap: nat, who: Submitter,
                     a: Registry.Actor)
    requires lastActivity <= now && a.open
    ensures var idle := s.active == None && s.pending == [] && now - lastActivity >= idleAfter;
            var after := Registry.HandleCmd(Abstract(s, who, a), Registry.Probe, cap, now - lastActivity >= idleAfter);
            after == if idle then Abstract(s, who, a).(open := false, mailbox := []) else Abstract(s, who, a)
  {
    assert Clients(s.pending, who) == [] <==> s.pending == [];
  }

  /** An accepted turn of the lane is in the actor's hands. */
  lemma AcceptedTurnsAreHeld(s: Lane.State, who: Submitter, a: Registry.Actor, t: Lane.QueuedTurn)
    requires Lane.Sound(s) && t in s.books.accepted
    ensures who(t.id) in Registry.Places(Abstract(s, who, a))
  {
    Lane.EveryTurnIsSomewhere(s.books, s.active, s.pending, s.nextId);
    ClientsAreOfIds(s.pending, who);
    assert t.id in Lane.Ids(s.books.accepted);
  }
}
