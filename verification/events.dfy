/**
 The event bus (slipwright/events.py): a bounded history with ids, and a bounded queue for
 each reader, against a log that forgets nothing. Events are published one after another.
 */
module Events {
  import opened Wrappers

  datatype Event = Event(body: nat, owner: Option<nat>)

  const MAX_QUEUE := 1000

  const HISTORY := 500

  /** `visible_to`: no owner on either side is seen by everybody. */
  predicate Visible(e: Event, reader: Option<nat>)
  {
    e.owner.None? || reader.None? || e.owner == reader
  }

  /** An event under its id: ids count from 1. */
  datatype Numbered = Numbered(id: nat, event: Event)

  // -- the log that forgets nothing -----------------------------------------------------

  /** What a reader sees of the log after event `from`, up to event `to`. */
  function Shown(log: seq<Event>, reader: Option<nat>, from: nat, to: nat): seq<Numbered>
    requires to <= |log|
  {
    if to <= from then []
    else Shown(log, reader, from, to - 1) + if Visible(log[to - 1], reader) then [Numbered(to, log[to - 1])] else []
  }

  function EventsOf(shown: seq<Numbered>): seq<Event>
  {
    seq(|shown|, i requires 0 <= i < |shown| => shown[i].event)
  }

  /** Reading up to one event and from there on is reading it all: nothing missed, nothing twice. */
  lemma {:induction false} ShownInTwo(log: seq<Event>, reader: Option<nat>, from: nat, middle: nat, to: nat)
    requires from <= middle <= to <= |log|
    ensures Shown(log, reader, from, middle) + Shown(log, reader, middle, to) == Shown(log, reader, from, to)
  {
    if middle < to {
      ShownInTwo(log, reader, from, middle, to - 1);
    }
  }

  lemma {:induction false} ShownStill(log: seq<Event>, e: Event, reader: Option<nat>, from: nat, to: nat)
    requires to <= |log|
    ensures Shown(log + [e], reader, from, to) == Shown(log, reader, from, to)
  {
    if from < to {
      ShownStill(log, e, reader, from, to - 1);
    }
  }

  /** Exactly the visible ones are shown, each under its own id, in order. */
  lemma {:induction false} ShownAre(log: seq<Event>, reader: Option<nat>, from: nat, to: nat)
    requires to <= |log|
    ensures var s := Shown(log, reader, from, to);
      && (forall n: Numbered :: n in s <==> from < n.id <= to && n.event == log[n.id - 1] && Visible(n.event, reader))
      && (forall i, k :: 0 <= i < k < |s| ==> s[i].id < s[k].id)
  {
    if from < to {
      ShownAre(log, reader, from, to - 1);
      var before := Shown(log, reader, from, to - 1);
      forall i | 0 <= i < |before| ensures before[i].id < to {
        assert before[i] in before;
      }
    }
  }

  /** Who is shown an event: everybody where it has no owner, who reads for nobody, and its owner;
      no reader gets what is another's. */
  lemma {:induction false} ShownToWhom(log: seq<Event>, reader: Option<nat>, from: nat, to: nat, k: nat)
    requires from < k <= to <= |log|
    ensures Numbered(k, log[k - 1]) in Shown(log, reader, from, to)
      <==> log[k - 1].owner.None? || reader.None? || log[k - 1].owner.value == reader.value
  {
    ShownAre(log, reader, from, to);
  }

  // -- a queue that may have lost some --------------------------------------------------

  /** `some` is `all` with events left out. */
  predicate LeftOut(some: seq<Event>, all: seq<Event>)
  {
    if all == [] then some == []
    else
      || (some != [] && some[|some| - 1] == all[|all| - 1] && LeftOut(some[..|some| - 1], all[..|all| - 1]))
      || LeftOut(some, all[..|all| - 1])
  }

  lemma {:induction false} AllLeftIn(all: seq<Event>)
    ensures LeftOut(all, all)
  {
    if all != [] {
      AllLeftIn(all[..|all| - 1]);
    }
  }

  lemma {:induction false} OneMore(some: seq<Event>, all: seq<Event>, e: Event)
    requires LeftOut(some, all)
    ensures LeftOut(some + [e], all + [e]) && LeftOut(some, all + [e])
  {
    assert (some + [e])[..|some + [e]| - 1] == some && (all + [e])[..|all + [e]| - 1] == all;
  }

  // -- the bus --------------------------------------------------------------------------

  /** The history is the end of the log. */
  ghost predicate HistoryRight(limit: nat, log: seq<Event>, lastId: nat, history: seq<Numbered>)
  {
    && lastId == |log|
    && |history| == (if |log| < limit then |log| else limit)
    && forall i :: 0 <= i < |history| ==> history[i] == Numbered(|log| - |history| + i + 1, log[|log| - |history| + i])
  }

  /** A reader got what it may see, in order, and all of it while its queue never overran. */
  ghost predicate ReaderRight(log: seq<Event>, owner: Option<nat>, joined: nat, taken: seq<Event>, queue: seq<Event>, overran: bool)
  {
    && |queue| <= MAX_QUEUE && joined <= |log|
    && LeftOut(taken + queue, EventsOf(Shown(log, owner, joined, |log|)))
    && (!overran ==> taken + queue == EventsOf(Shown(log, owner, joined, |log|)))
  }

  class EventBus {
    const limit: nat
    var lastId: nat
    var history: seq<Numbered>
    var owners: map<nat, Option<nat>>
    var queues: map<nat, seq<Event>>
    ghost var log: seq<Event>
    ghost var joined: map<nat, nat>
    ghost var taken: map<nat, seq<Event>>
    ghost var overran: set<nat>

    ghost predicate ReaderKnown(r: nat)
      reads this
    {
      r in owners && r in queues && r in joined && r in taken
    }

    ghost predicate Valid()
      reads this
    {
      && HistoryRight(limit, log, lastId, history)
      && forall r :: r in owners ==> ReaderKnown(r) && ReaderRight(log, owners[r], joined[r], taken[r], queues[r], r in overran)
    }

    constructor (limit: nat := HISTORY)
      ensures Valid() && this.limit == limit && log == [] && owners == map[]
    {
      this.limit := limit;
      lastId, history, owners, queues := 0, [], map[], map[];
      log, joined, taken, overran := [], map[], map[], {};
    }

    /** `since`: filtered out of what is still remembered. */
    method Since(eventId: nat, reader: Option<nat>) returns (found: seq<Numbered>)
      requires Valid()
      ensures var forgotten := if |log| <= limit then 0 else |log| - limit;
        found == Shown(log, reader, if eventId < forgotten then forgotten else eventId, |log|)
    {
      found := [];
      ghost var start := |log| - |history|;
      ghost var from := if eventId < start then start else eventId;
      for i := 0 to |history|
        invariant found == Shown(log, reader, from, start + i)
      {
        if eventId < history[i].id && Visible(history[i].event, reader) {
          found := found + [history[i]];
        }
      }
    }

    /** A reader no more than the history behind gets all it missed, and nothing it had. */
    method CatchUp(lastSeen: nat, reader: Option<nat>) returns (missed: seq<Numbered>)
      requires Valid() && lastSeen <= |log| <= lastSeen + limit
      ensures Shown(log, reader, 0, lastSeen) + missed == Shown(log, reader, 0, |log|)
    {
      missed := Since(lastSeen, reader);
      ShownInTwo(log, reader, 0, lastSeen, |log|);
    }

    /** `publish`. */
    method Publish(e: Event)
      requires Valid()
      modifies this
      ensures Valid() && log == old(log) + [e] && owners == old(owners) && joined == old(joined) && taken == old(taken)
      ensures forall r :: r in owners ==> queues[r] == Delivered(old(queues)[r], e, owners[r])
      ensures forall r :: r in overran ==> r in old(overran) || (r in owners && |old(queues)[r]| == MAX_QUEUE)
    {
      Remember(e);
      queues := map r | r in queues :: if r in owners then Delivered(queues[r], e, owners[r]) else queues[r];
      overran := overran + set r | r in owners && r in old(queues) && Overruns(old(queues)[r], e, owners[r]);
      forall r | r in owners
        ensures ReaderKnown(r) && ReaderRight(log, owners[r], joined[r], taken[r], queues[r], r in overran)
      {
        DeliveredRight(old(log), e, owners[r], joined[r], taken[r], old(queues)[r], r in old(overran));
      }
    }

    /** The event gets its id, and the oldest one is forgotten when there are too many. */
    method Remember(e: Event)
      requires HistoryRight(limit, log, lastId, history)
      modifies this`lastId, this`history, this`log
      ensures HistoryRight(limit, log, lastId, history) && log == old(log) + [e]
    {
      lastId := lastId + 1;
      history := history + [Numbered(lastId, e)];
      if limit < |history| {
        history := history[1..];
      }
      log := log + [e];
    }

    /** `subscribe`. */
    method Subscribe(r: nat, owner: Option<nat>)
      requires Valid() && r !in owners
      modifies this`owners, this`queues, this`joined, this`taken, this`overran
      ensures Valid() && owners == old(owners)[r := owner] && queues == old(queues)[r := []]
      ensures joined == old(joined)[r := |log|] && taken == old(taken)[r := []] && r !in overran
    {
      owners, queues := owners[r := owner], queues[r := []];
      joined, taken, overran := joined[r := |log|], taken[r := []], overran - {r};
    }

    /** A reader takes the next event of its queue. */
    method Read(r: nat) returns (e: Option<Event>)
      requires Valid() && r in owners
      modifies this`queues, this`taken
      ensures Valid() && taken.Keys == old(taken).Keys
      ensures e == if old(queues)[r] == [] then None else Some(old(queues)[r][0])
      ensures taken[r] == old(taken)[r] + if e.Some? then [e.value] else []
    {
      if queues[r] == [] {
        return None;
      }
      e := Some(queues[r][0]);
      ghost var all := taken[r] + queues[r];
      taken := taken[r := taken[r] + [queues[r][0]]];
      queues := queues[r := queues[r][1..]];
      assert taken[r] + queues[r] == all;
    }

    /** The reader leaves. */
    method Unsubscribe(r: nat)
      requires Valid() && r in owners
      modifies this`owners, this`queues
      ensures Valid() && owners == old(owners) - {r}
    {
      owners, queues := owners - {r}, queues - {r};
    }
  }

  /** A queue after an event: a full one loses it. */
  function Delivered(queue: seq<Event>, e: Event, owner: Option<nat>): seq<Event>
  {
    if Visible(e, owner) && |queue| < MAX_QUEUE then queue + [e] else queue
  }

  predicate Overruns(queue: seq<Event>, e: Event, owner: Option<nat>)
  {
    Visible(e, owner) && MAX_QUEUE <= |queue|
  }

  lemma {:induction false} DeliveredRight(log: seq<Event>, e: Event, owner: Option<nat>, joined: nat, taken: seq<Event>, queue: seq<Event>, overran: bool)
    requires ReaderRight(log, owner, joined, taken, queue, overran)
    ensures ReaderRight(log + [e], owner, joined, taken, Delivered(queue, e, owner), overran || Overruns(queue, e, owner))
  {
    DueGrows(log, e, owner, joined);
    GotRight(taken, queue, EventsOf(Shown(log, owner, joined, |log|)), e, owner, overran);
    assert |log + [e]| == |log| + 1;
  }

  lemma {:induction false} GotRight(taken: seq<Event>, queue: seq<Event>, was: seq<Event>, e: Event, owner: Option<nat>, overran: bool)
    requires LeftOut(taken + queue, was) && (!overran ==> taken + queue == was)
    ensures var due := was + if Visible(e, owner) then [e] else []; var now := taken + Delivered(queue, e, owner);
      LeftOut(now, due) && (!overran && !Overruns(queue, e, owner) ==> now == due)
  {
    if Visible(e, owner) {
      OneMore(taken + queue, was, e);
      assert taken + (queue + [e]) == (taken + queue) + [e];
    } else {
      assert was + [] == was;
    }
  }

  lemma {:induction false} DueGrows(log: seq<Event>, e: Event, owner: Option<nat>, joined: nat)
    requires joined <= |log|
    ensures EventsOf(Shown(log + [e], owner, joined, |log| + 1))
      == EventsOf(Shown(log, owner, joined, |log|)) + if Visible(e, owner) then [e] else []
  {
    ShownStill(log, e, owner, joined, |log|);
    assert (log + [e])[|log|] == e;
    var was, now := Shown(log, owner, joined, |log|), Shown(log + [e], owner, joined, |log| + 1);
    assert now == was + if Visible(e, owner) then [Numbered(|log| + 1, e)] else [];
  }
}
