/**
  The event log of a detached run: a bounded ring of recent events, marks of how far the
  transcript reaches, and subscribers who replay the tail and then follow live.
 */
module RunLog {
  import opened Basics
  import opened Events

  const CAP := 1024

  /** What a client skips when it does not want thoughts replayed. */
  function Visible(evs: seq<Event>, thoughts: bool): seq<Event> {
    if evs == [] then []
    else
      Visible(evs[..|evs| - 1], thoughts) +
      if !thoughts && evs[|evs| - 1].ReasoningDelta? then [] else [evs[|evs| - 1]]
  }

  lemma VisibleStep(evs: seq<Event>, thoughts: bool, i: nat)
    requires i < |evs|
    ensures Visible(evs[..i + 1], thoughts)
            == Visible(evs[..i], thoughts) + if !thoughts && evs[i].ReasoningDelta? then [] else [evs[i]]
  {
    assert evs[..i + 1][..i] == evs[..i];
  }

  lemma {:induction false} AllIsVisible(evs: seq<Event>)
    ensures Visible(evs, true) == evs
  {
    if evs != [] {
      AllIsVisible(evs[..|evs| - 1]);
    }
  }

  /** A row number, and how many events had been pushed when that row was written. */
  datatype Landmark = Landmark(seqNo: int, pushed: nat)

  /** The last mark a client that has rows up to `since` is past; 0 when there is none. */
  function LastMark(marks: seq<Landmark>, since: int): nat {
    if marks == [] then 0
    else if marks[|marks| - 1].seqNo <= since then marks[|marks| - 1].pushed
    else LastMark(marks[..|marks| - 1], since)
  }

  /** When a subscriber joined, where its replay began, and whether it took thoughts. */
  datatype Join = Join(start: nat, at: nat, thoughts: bool)

  /** The replayed slice of the history, then every event since. */
  function Delivered(history: seq<Event>, j: Join): seq<Event>
    requires j.start <= j.at <= |history|
  {
    Visible(history[j.start..j.at], j.thoughts) + history[j.at..]
  }

  /** A subscriber that still listens is on the list and has received its due. */
  predicate Serves(history: seq<Event>, j: Join, open: bool, listed: bool, received: seq<Event>) {
    && j.start <= j.at <= |history|
    && (open ==> listed && received == Delivered(history, j))
  }

  lemma ServiceGoesOn(history: seq<Event>, j: Join, open: bool, listed: bool, stillListed: bool, received: seq<Event>,
                      ev: Event)
    requires Serves(history, j, open, listed, received)
    requires open && listed ==> stillListed
    ensures open ==> listed
    ensures Serves(history + [ev], j, open, stillListed, if open then received + [ev] else received)
  {
    DeliveredGrows(history, j, ev);
  }

  /** The ring holds the last events, and all of them until it is full. */
  predicate IsWindow(history: seq<Event>, buf: seq<Event>) {
    && |buf| == (if |history| < CAP then |history| else CAP)
    && buf == history[|history| - |buf|..]
  }

  lemma WindowSlides(history: seq<Event>, buf: seq<Event>, ev: Event)
    requires IsWindow(history, buf)
    ensures IsWindow(history + [ev], (if |buf| == CAP then buf[1..] else buf) + [ev])
  {
  }

  /** The two ends of an unbounded channel; the receiver may hang up at any time. */
  class Channel {
    var received: seq<Event>
    var open: bool

    constructor ()
      ensures received == [] && open
    {
      received, open := [], true;
    }

    method Send(ev: Event) returns (ok: bool)
      modifies this`received
      ensures ok == open
      ensures received == if open then old(received) + [ev] else old(received)
    {
      ok := open;
      if open {
        received := received + [ev];
      }
    }

    method HangUp()
      modifies this`open
      ensures !open
    {
      open := false;
    }
  }

  class EventLog {
    var buf: seq<Event>
    var pushed: nat
    var marks: seq<Landmark>
    var subs: seq<Channel>

    // Everything ever pushed, and how every subscriber joined.
    ghost var history: seq<Event>
    ghost var joins: map<Channel, Join>

    ghost predicate HoldsTail()
      reads this`pushed, this`buf, this`history
    {
      pushed == |history| && IsWindow(history, buf)
    }

    ghost predicate MarksAreReal()
      reads this`marks, this`history
    {
      forall i :: 0 <= i < |marks| ==> marks[i].pushed <= |history|
    }

    ghost predicate IsServed(c: Channel)
      requires c in joins
      reads this`subs, this`joins, this`history, c
    {
      Serves(history, joins[c], c.open, c in subs, c.received)
    }

    ghost predicate SubsAreKnown()
      reads this`subs, this`joins
    {
      && (forall i :: 0 <= i < |subs| ==> subs[i] in joins)
      && (forall i, k :: 0 <= i < k < |subs| ==> subs[i] != subs[k])
    }

    /** Every subscriber that still listens has its slice of the history, up to now. */
    ghost predicate AllServed()
      reads this`subs, this`joins, this`history, joins.Keys
    {
      SubsAreKnown() && forall c :: c in joins ==> IsServed(c)
    }

    ghost predicate Valid()
      reads this, joins.Keys
    {
      HoldsTail() && MarksAreReal() && AllServed()
    }

    constructor ()
      ensures Valid() && history == [] && marks == [] && joins == map[]
    {
      buf, pushed, marks, subs := [], 0, [], [];
      history, joins := [], map[];
    }

    /** Into the ring, and on to everyone who still listens. */
    method Push(ev: Event)
      requires Valid()
      modifies this`buf, this`pushed, this`subs, this`history, set c | c in joins :: c`received
      ensures Valid()
      ensures history == old(history) + [ev] && marks == old(marks) && joins == old(joins)
      ensures forall c :: c in joins ==> c.received == if c.open then old(c.received) + [ev] else old(c.received)
    {
      hide Visible, Delivered, IsWindow, Serves, AllServed;
      Keep(ev);
      Forward(ev);
    }

    /** Into the ring, dropping the oldest if full. */
    method Keep(ev: Event)
      requires HoldsTail()
      modifies this`buf, this`pushed
      ensures IsWindow(history + [ev], buf) && pushed == |history| + 1
    {
      WindowSlides(history, buf, ev);
      if |buf| == CAP {
        buf := buf[1..];
      }
      buf := buf + [ev];
      pushed := pushed + 1;
    }

    /** Sends to all; everyone is served the longer history. */
    method Forward(ev: Event)
      requires AllServed()
      modifies this`subs, this`history, set c | c in joins :: c`received
      ensures AllServed()
      ensures history == old(history) + [ev]
      ensures forall c :: c in joins ==> c.received == if c.open then old(c.received) + [ev] else old(c.received)
    {
      hide Visible, Delivered, Serves;
      subs := Broadcast(ev);
      history := history + [ev];
      forall c | c in joins
        ensures IsServed(c) && c.received == if c.open then old(c.received) + [ev] else old(c.received)
      {
        assert old(IsServed(c));
        ServiceGoesOn(old(history), joins[c], c.open, c in old(subs), c in subs, old(c.received), ev);
      }
    }

    /** Sends to all subscribers and keeps those whose receiver is still there. */
    method Broadcast(ev: Event) returns (kept: seq<Channel>)
      requires SubsAreKnown()
      modifies set c | c in joins :: c`received
      ensures forall c :: c in joins ==>
                c.received == if c.open && c in subs then old(c.received) + [ev] else old(c.received)
      ensures forall i :: 0 <= i < |kept| ==> kept[i] in joins
      ensures forall c :: c in subs && c.open ==> c in kept
      ensures forall i, k :: 0 <= i < k < |kept| ==> kept[i] != kept[k]
    {
      kept := [];
      for i := 0 to |subs|
        invariant forall k :: 0 <= k < |subs| ==>
                    subs[k].received
                    == if k < i && subs[k].open then old(subs[k].received) + [ev] else old(subs[k].received)
        invariant forall c :: c in joins && c !in subs ==> c.received == old(c.received)
        invariant forall a :: 0 <= a < |kept| ==> kept[a] in joins
        invariant forall a, k :: 0 <= a < |kept| && i <= k < |subs| ==> kept[a] != subs[k]
        invariant forall a, b :: 0 <= a < b < |kept| ==> kept[a] != kept[b]
        invariant forall k :: 0 <= k < i && subs[k].open ==> subs[k] in kept
      {
        var ok := subs[i].Send(ev);
        if ok {
          kept := kept + [subs[i]];
        }
      }
    }

    /** The rows up to `seqNo` hold the content of all events pushed so far. */
    method MarkPersisted(seqNo: int)
      requires Valid()
      modifies this`marks
      ensures Valid()
      ensures marks == old(marks) + [Landmark(seqNo, |history|)]
    {
      marks := marks + [Landmark(seqNo, pushed)];
      forall c | c in joins ensures IsServed(c) {
        assert old(IsServed(c));
      }
    }

    /** The global number of the first event a client with rows up to `since` is replayed. */
    ghost function ReplayStart(since: int): nat
      reads this
    {
      if |buf| <= pushed then Max(LastMark(marks, since), pushed - |buf|) else 0
    }

    /** Replays what a client with rows up to `since` has not seen, and registers it. */
    method SubscribeFrom(since: int, thoughts: bool) returns (c: Channel)
      requires Valid()
      modifies this`subs, this`joins
      ensures Valid() && fresh(c) && c.open
      ensures joins == old(joins)[c := Join(ReplayStart(since), |history|, thoughts)]
      ensures ReplayStart(since) <= |history| && c.received == Visible(history[ReplayStart(since)..], thoughts)
      ensures forall d :: d in old(joins) ==> d.received == old(d.received)
    {
      hide Visible, Delivered, IsWindow, LastMark, AllServed;
      var from := FindMark(since);
      LastMarkIsReal(marks, since, |history|);
      WindowFits(history, buf);
      var bufStart := pushed - |buf|;
      var skip := if from < bufStart then 0 else from - bufStart;
      TailIsReplay(history, buf, skip, ReplayStart(since));
      FreshJoin(history, ReplayStart(since), thoughts);
      c := Replay(buf[skip..], thoughts);
      Enlist(c, Join(ReplayStart(since), |history|, thoughts));
    }

    method Enlist(c: Channel, ghost j: Join)
      requires AllServed() && c !in joins && c.open
      requires j.start <= j.at <= |history| && c.received == Delivered(history, j)
      modifies this`subs, this`joins
      ensures AllServed() && joins == old(joins)[c := j]
    {
      hide Visible, Delivered;
      subs := subs + [c];
      joins := joins[c := j];
      forall d | d in old(joins) ensures IsServed(d) {
        assert old(IsServed(d));
      }
    }

    /** A new channel that already holds what is to be replayed. */
    static method Replay(replayed: seq<Event>, thoughts: bool) returns (c: Channel)
      ensures fresh(c) && c.open && c.received == Visible(replayed, thoughts)
    {
      c := new Channel();
      for i := 0 to |replayed|
        invariant c.open && c.received == Visible(replayed[..i], thoughts)
      {
        VisibleStep(replayed, thoughts, i);
        if thoughts || !replayed[i].ReasoningDelta? {
          var _ := c.Send(replayed[i]);
        }
      }
      assert replayed[..|replayed|] == replayed;
    }

    /** A receiver goes away at a moment of its own choosing. */
    method LoseReceiver(c: Channel)
      requires Valid() && c in joins
      modifies c`open
      ensures Valid() && !c.open
    {
      c.HangUp();
      forall d | d in joins ensures IsServed(d) {
        assert old(IsServed(d));
      }
    }

    /** Looks from the newest mark back, as marks grow with the rows. */
    method FindMark(since: int) returns (from: nat)
      ensures from == LastMark(marks, since)
    {
      var i := |marks|;
      assert marks[..i] == marks;
      while i > 0
        invariant 0 <= i <= |marks| && LastMark(marks[..i], since) == LastMark(marks, since)
      {
        if marks[i - 1].seqNo <= since {
          return marks[i - 1].pushed;
        }
        assert marks[..i][..i - 1] == marks[..i - 1];
        i := i - 1;
      }
      return 0;
    }
  }

  lemma WindowFits(history: seq<Event>, buf: seq<Event>)
    requires IsWindow(history, buf)
    ensures |buf| <= |history|
  {
  }

  lemma TailIsReplay(history: seq<Event>, buf: seq<Event>, skip: nat, start: nat)
    requires IsWindow(history, buf) && skip <= |buf| && start == |history| - |buf| + skip
    ensures start <= |history| && buf[skip..] == history[start..] == history[start..|history|]
    ensures history[|history|..] == []
  {
  }

  lemma FreshJoin(history: seq<Event>, start: nat, thoughts: bool)
    requires start <= |history|
    ensures Delivered(history, Join(start, |history|, thoughts)) == Visible(history[start..|history|], thoughts)
  {
  }

  lemma DeliveredGrows(history: seq<Event>, j: Join, ev: Event)
    requires j.start <= j.at <= |history|
    ensures Delivered(history + [ev], j) == Delivered(history, j) + [ev]
  {
    assert (history + [ev])[j.start..j.at] == history[j.start..j.at];
  }

  lemma {:induction false} LastMarkIsReal(marks: seq<Landmark>, since: int, bound: nat)
    requires forall i :: 0 <= i < |marks| ==> marks[i].pushed <= bound
    ensures LastMark(marks, since) <= bound
  {
    if marks != [] {
      LastMarkIsReal(marks[..|marks| - 1], since, bound);
    }
  }
}
