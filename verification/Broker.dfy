/** What one subscriber is sent, against what is broadcast. */
module Broker {
  import opened LiveMirror
  import opened Sessions

  // ---- what passes through one subscriber's queue and socket ----

  /** The broadcasts made, all of them; of these, the messages taken from the queue and
      written to the socket, and the number of those that found the queue full; and what
      the page has processed. */
  datatype Traffic = Traffic(aired: seq<Msg>, sent: seq<Msg>, missed: nat, received: seq<Msg>)

  const QUIET := Traffic([], [], 0, [])

  /** If this step broadcasts, it finds room in `c`'s queue. */
  ghost predicate Fits(s: State, e: Event, c: ConnId) {
    Live(s, c) && Broadcast(s, e).Broadcasts? ==> |s.conns[c].queue| < QUEUE_SIZE
  }

  ghost function Pass(t: Traffic, s: State, e: Event, c: ConnId): Traffic
    requires Enabled(s, e) && Live(s, c)
  {
    match Broadcast(s, e)
    case Broadcasts(m) => t.(aired := t.aired + [m], missed := t.missed + if Fits(s, e, c) then 0 else 1)
    case Nothing =>
      if e == Send(c) then t.(sent := t.sent + [s.conns[c].queue[0]])
      else if e == Receive(c) then t.(received := t.received + [s.conns[c].wire[0]])
      else t
  }

  /** The traffic of subscriber `c` in steps `i` to `j`. */
  ghost function Between(b: Behavior, c: ConnId, i: nat, j: nat): Traffic
    requires IsBehavior(b) && i <= j <= |b.events| && StaysSubscribed(b, c, i, j)
    decreases j
  {
    if i == j then QUIET
    else
      StepOf(b, c, i, j);
      Pass(Between(b, c, i, j - 1), b.states[j - 1], b.events[j - 1], c)
  }

  lemma StepOf(b: Behavior, c: ConnId, i: nat, j: nat)
    requires IsBehavior(b) && i < j <= |b.events| && StaysSubscribed(b, c, i, j)
    ensures Enabled(b.states[j - 1], b.events[j - 1]) && b.states[j] == Next(b.states[j - 1], b.events[j - 1])
    ensures Live(b.states[j - 1], c) && Live(b.states[j], c)
  {
    assert StepAt(b, j - 1);
  }

  lemma {:induction false} MissedNone(b: Behavior, c: ConnId, i: nat, j: nat)
    requires IsBehavior(b) && i <= j <= |b.events| && StaysSubscribed(b, c, i, j)
    ensures Between(b, c, i, j).missed == 0 <==> forall k | i <= k < j :: Fits(b.states[k], b.events[k], c)
    decreases j
  {
    if i < j {
      MissedNone(b, c, i, j - 1);
      StepOf(b, c, i, j);
    }
  }

  /** `a` is `b` with some elements left out: it picks its own at ascending places. */
  ghost predicate Picks(a: seq<Msg>, b: seq<Msg>, at: seq<int>) {
    && |at| == |a|
    && (forall k | 0 <= k < |a| :: 0 <= at[k] < |b| && a[k] == b[at[k]])
    && (forall k, l | 0 <= k < l < |at| :: at[k] < at[l])
  }

  ghost predicate Subsequence(a: seq<Msg>, b: seq<Msg>) {
    exists at :: Picks(a, b, at)
  }

  lemma SubsequenceSkip(a: seq<Msg>, b: seq<Msg>, m: Msg)
    requires Subsequence(a, b)
    ensures Subsequence(a, b + [m])
  {
    var at :| Picks(a, b, at);
    assert Picks(a, b + [m], at);
  }

  lemma SubsequenceBoth(a: seq<Msg>, b: seq<Msg>, m: Msg)
    requires Subsequence(a, b)
    ensures Subsequence(a + [m], b + [m])
  {
    var at :| Picks(a, b, at);
    forall k | 0 <= k < |at| ensures at[k] < |b| {}
    assert Picks(a + [m], b + [m], at + [|b|]);
  }

  // ---- the queue ----

  /** Sent and queued are the broadcasts in order, less the missed ones. */
  ghost predicate Conserved(t: Traffic, queue: seq<Msg>) {
    && Subsequence(t.sent + queue, t.aired)
    && |t.sent| + |queue| + t.missed == |t.aired|
    && |queue| <= QUEUE_SIZE
    && (t.missed == 0 ==> t.sent + queue == t.aired)
  }

  /** A broadcast is appended to sent and queued together if it fits, and to neither if it
      does not. */
  lemma BroadcastStep(s: State, e: Event, c: ConnId, t: Traffic)
    requires Enabled(s, e) && Live(s, c) && Broadcast(s, e).Broadcasts? && Conserved(t, s.conns[c].queue)
    ensures Live(Next(s, e), c) && Conserved(Pass(t, s, e, c), Next(s, e).conns[c].queue)
  {
    var queue, m := s.conns[c].queue, Broadcast(s, e).m;
    assert Next(s, e).conns[c].queue == Offer(queue, m);
    assert t.sent + (queue + [m]) == (t.sent + queue) + [m];
    SubsequenceBoth(t.sent + queue, t.aired, m);
    SubsequenceSkip(t.sent + queue, t.aired, m);
  }

  /** Every other step leaves the two together as they are. */
  lemma QuietStep(s: State, e: Event, c: ConnId, t: Traffic)
    requires Enabled(s, e) && Live(s, c) && Live(Next(s, e), c) && Broadcast(s, e).Nothing? && Conserved(t, s.conns[c].queue)
    ensures Conserved(Pass(t, s, e, c), Next(s, e).conns[c].queue)
  {
    var queue := s.conns[c].queue;
    if e == Send(c) {
      assert Next(s, e).conns[c].queue == queue[1..];
      assert (t.sent + [queue[0]]) + queue[1..] == t.sent + queue;
    } else {
      assert Next(s, e).conns[c].queue == queue;
    }
  }

  lemma {:induction false} QueueConserves(b: Behavior, c: ConnId, i: nat, j: nat)
    requires IsBehavior(b) && i <= j <= |b.events| && StaysSubscribed(b, c, i, j) && b.states[i].conns[c].queue == []
    ensures Conserved(Between(b, c, i, j), b.states[j].conns[c].queue)
    decreases j
  {
    if i == j {
      assert QUIET.sent + b.states[i].conns[c].queue == [];
      assert Picks([], [], []);
    } else {
      QueueConserves(b, c, i, j - 1);
      StepOf(b, c, i, j);
      match Broadcast(b.states[j - 1], b.events[j - 1])
      case Broadcasts(_) => BroadcastStep(b.states[j - 1], b.events[j - 1], c, Between(b, c, i, j - 1));
      case Nothing => QuietStep(b.states[j - 1], b.events[j - 1], c, Between(b, c, i, j - 1));
    }
  }

  // ---- the socket ----

  /** From `before` on the socket is first in, first out, and the page is what its
      messages make of it. */
  ghost predicate Delivered(before: Conn, now: Conn, t: Traffic) {
    && before.wire + t.sent == t.received + now.wire
    && now.page == Replay(before.page, t.received)
  }

  lemma DeliveredStep(s: State, e: Event, c: ConnId, before: Conn, t: Traffic)
    requires Enabled(s, e) && Live(s, c) && Live(Next(s, e), c) && Delivered(before, s.conns[c], t)
    ensures Delivered(before, Next(s, e).conns[c], Pass(t, s, e, c))
  {
    var wire := s.conns[c].wire;
    if e == Send(c) {
      var m := s.conns[c].queue[0];
      assert before.wire + (t.sent + [m]) == (before.wire + t.sent) + [m];
      assert (t.received + wire) + [m] == t.received + (wire + [m]);
    } else if e == Receive(c) {
      ReplayAppend(before.page, t.received, [wire[0]]);
      assert [wire[0]][1..] == [];
      assert (t.received + [wire[0]]) + wire[1..] == t.received + wire;
    }
  }

  lemma {:induction false} SocketKeepsOrder(b: Behavior, c: ConnId, i: nat, j: nat)
    requires IsBehavior(b) && i <= j <= |b.events| && StaysSubscribed(b, c, i, j)
    ensures Delivered(b.states[i].conns[c], b.states[j].conns[c], Between(b, c, i, j))
    decreases j
  {
    if i == j {
      assert b.states[i].conns[c].wire + [] == [] + b.states[i].conns[c].wire;
    } else {
      SocketKeepsOrder(b, c, i, j - 1);
      StepOf(b, c, i, j);
      DeliveredStep(b.states[j - 1], b.events[j - 1], c, b.states[i].conns[c], Between(b, c, i, j - 1));
    }
  }

  /** Every subscriber, from its subscription on: what was on its socket and what it was
      sent since is what its page has processed and what is still on the socket, in that
      order; what it was sent followed by what is queued is a subsequence of the broadcasts
      in order; sent, queued and the broadcasts that found its queue full add up to all of
      them; the queue never exceeds 8; and nothing at all is missing exactly when no
      broadcast found it full. */
  lemma {:induction false} BrokerConserves(b: Behavior, c: ConnId, i: nat, j: nat)
    requires IsBehavior(b) && i < j <= |b.events| && b.events[i] == Subscribe(c) && StaysSubscribed(b, c, i + 1, j)
    ensures var t, before, now := Between(b, c, i + 1, j), b.states[i + 1].conns[c], b.states[j].conns[c];
            && before.wire + t.sent == t.received + now.wire && now.page == Replay(before.page, t.received)
            && Subsequence(t.sent + now.queue, t.aired)
            && |t.sent| + |now.queue| + t.missed == |t.aired|
            && |now.queue| <= 8
            && (t.sent + now.queue == t.aired <==> forall k | i < k < j :: Fits(b.states[k], b.events[k], c))
  {
    var r, q := SubscriptionHasSession(b, c, i);
    SubscribedWithSnapshot(b, c, r, q, i);
    SocketKeepsOrder(b, c, i + 1, j);
    QueueConserves(b, c, i + 1, j);
    MissedNone(b, c, i + 1, j);
  }

  // ---- the server's objects ----

  /** A buffered Go channel as the broker uses it. */
  class Chan {
    var queue: seq<Msg>

    constructor ()
      ensures queue == []
    {
      queue := [];
    }

    /** A send that never waits: a full channel loses the message. */
    method TrySend(m: Msg) returns (ok: bool)
      modifies this
      ensures queue == Offer(old(queue), m)
      ensures ok == (|old(queue)| < 8) && queue == old(queue) + if ok then [m] else []
    {
      ok := |queue| < QUEUE_SIZE;
      if ok {
        queue := queue + [m];
      }
    }

    method Take() returns (m: Msg)
      requires queue != []
      modifies this
      ensures [m] + queue == old(queue)
    {
      m := queue[0];
      queue := queue[1..];
    }
  }

  class Hub {
    var clients: set<Chan>

    constructor ()
      ensures clients == {}
    {
      clients := {};
    }

    method AddClient() returns (ch: Chan)
      modifies this
      ensures fresh(ch) && ch.queue == [] && clients == old(clients) + {ch}
    {
      ch := new Chan();
      clients := clients + {ch};
    }

    method RemoveClient(ch: Chan)
      modifies this
      ensures clients == old(clients) - {ch}
    {
      clients := clients - {ch};
    }

    /** Every subscribed queue is offered the message once; no other queue is touched. */
    method Publish(m: Msg)
      modifies clients
      ensures forall ch | ch in clients :: ch.queue == Offer(old(ch.queue), m)
    {
      var todo := clients;
      while todo != {}
        invariant todo <= clients
        invariant forall ch | ch in clients :: ch.queue == if ch in todo then old(ch.queue) else Offer(old(ch.queue), m)
        decreases todo
      {
        var ch :| ch in todo;
        var ok := ch.TrySend(m);
        todo := todo - {ch};
      }
    }
  }

  class Store {
    var entries: seq<Entry>

    constructor ()
      ensures entries == []
    {
      entries := [];
    }

    /** Newest first, at most 100. */
    method Add(e: Entry)
      modifies this
      ensures entries == Newest([e] + old(entries))
      ensures 0 < |entries| <= 100 && entries[0] == e
      ensures forall k | 0 < k < |entries| :: k <= |old(entries)| && entries[k] == old(entries)[k - 1]
      ensures |entries| < 100 ==> |entries| == |old(entries)| + 1
    {
      entries := [e] + entries;
      if |entries| > MAX_ENTRIES {
        entries := entries[..MAX_ENTRIES];
      }
    }

    method GetAll() returns (out: seq<Entry>)
      ensures out == entries
    {
      var copy := new Entry[|entries|](i requires 0 <= i < |entries| reads this => entries[i]);
      out := copy[..];
    }

    method Clear()
      modifies this
      ensures entries == []
    {
      entries := [];
    }
  }

  class SlowStore {
    var entries: map<string, SlowEntry>

    constructor ()
      ensures entries == map[]
    {
      entries := map[];
    }

    method Add(e: SlowEntry)
      modifies this
      ensures entries == old(entries)[e.id := e]
    {
      entries := entries[e.id := e];
    }

    method Remove(id: string)
      modifies this
      ensures entries == old(entries) - {id}
    {
      entries := entries - {id};
    }

    /** Map iteration: every value, in no promised order. */
    method GetAll() returns (out: seq<SlowEntry>)
      requires forall id | id in entries :: entries[id].id == id
      ensures Lists(out, entries) && |out| == |entries|
    {
      out := [];
      var todo := entries.Keys;
      while todo != {}
        invariant todo <= entries.Keys
        invariant |out| + |todo| == |entries.Keys|
        invariant forall k | 0 <= k < |out| :: out[k].id in entries && entries[out[k].id] == out[k]
        invariant forall id | id in entries && id !in todo :: entries[id] in out
        decreases todo
      {
        var id :| id in todo;
        out := out + [entries[id]];
        todo := todo - {id};
      }
    }
  }

  /** The page's two variables and its onmessage handler. */
  class Page {
    var requests: seq<Entry>
    var activeSlows: map<string, Slow>

    function View(): Browser
      reads this
    {
      Browser(requests, activeSlows)
    }

    constructor ()
      ensures View() == Browser([], map[])
    {
      requests, activeSlows := [], map[];
    }

    method OnMessage(m: Msg)
      modifies this
      ensures View() == LiveMirror.OnMessage(old(View()), m)
      ensures match m
              case Init(entries, slows) => requests == entries && forall all | Lists(slows, all) :: Agrees(activeSlows, all)
              case Request(entry) => requests == [entry] + old(requests) && activeSlows == old(activeSlows)
              case Clear => requests == [] && activeSlows == old(activeSlows)
              case SlowStart(s) =>
                && requests == old(requests) && activeSlows.Keys == old(activeSlows).Keys + {s.id}
                && activeSlows[s.id].delaySec == s.delaySec && activeSlows[s.id].startedAt == s.startedAt
                && forall id | id in activeSlows && id != s.id :: activeSlows[id] == old(activeSlows)[id]
              case SlowEnd(id, _, _) => requests == old(requests) && activeSlows == old(activeSlows) - {id}
    {
      match m {
        case Init(entries, slows) =>
          requests := entries;
          activeSlows := map[];
          for k := 0 to |slows|
            invariant requests == entries && activeSlows == Fill(slows[..k])
          {
            activeSlows := activeSlows[slows[k].id := Shown(slows[k])];
            assert slows[..k + 1][..k] == slows[..k];
          }
          assert slows[..|slows|] == slows;
          forall all | Lists(slows, all) ensures Agrees(activeSlows, all) { FillIsListing(slows, all); }
        case Request(entry) =>
          requests := [entry] + requests;
        case Clear =>
          requests := [];
        case SlowStart(s) =>
          activeSlows := activeSlows[s.id := Shown(s)];
        case SlowEnd(id, _, _) =>
          activeSlows := activeSlows - {id};
      }
    }
  }
}
