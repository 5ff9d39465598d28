/** cron-webhook: a bounded newest-first store of captured requests, the map of slow
    jobs under way, a broker with one bounded lossy queue per browser, and the browser
    that rebuilds the server's state from a snapshot and an event log. */
module LiveMirror {

  const MAX_ENTRIES: nat := 100
  const QUEUE_SIZE: nat := 8

  datatype Entry = Entry(id: string, verb: string, path: string, query: map<string, string>, headers: map<string, string>,
                         body: string, timestamp: nat, respondedWith: int)

  datatype SlowEntry = SlowEntry(id: string, delaySec: int, startedAt: nat)

  datatype Msg =
    | Init(requests: seq<Entry>, activeSlows: seq<SlowEntry>)
    | Request(entry: Entry)
    | Clear
    | SlowStart(slow: SlowEntry)
    | SlowEnd(id: string, durationMs: int, cancelled: bool)

  // ---- the server's pieces, on values ----

  function Newest(entries: seq<Entry>): seq<Entry> {
    if |entries| > MAX_ENTRIES then entries[..MAX_ENTRIES] else entries
  }

  function Offer(queue: seq<Msg>, m: Msg): seq<Msg> {
    if |queue| < QUEUE_SIZE then queue + [m] else queue
  }

  /** A listing of the map's values, in any order. */
  ghost predicate Lists(slows: seq<SlowEntry>, m: map<string, SlowEntry>) {
    && (forall k | 0 <= k < |slows| :: slows[k].id in m && m[slows[k].id] == slows[k])
    && (forall id | id in m :: m[id] in slows && m[id].id == id)
  }

  // ---- the browser, on values ----

  datatype Slow = Slow(delaySec: int, startedAt: nat)

  datatype Browser = Browser(requests: seq<Entry>, activeSlows: map<string, Slow>)

  function Shown(s: SlowEntry): Slow { Slow(s.delaySec, s.startedAt) }

  function Fill(slows: seq<SlowEntry>): map<string, Slow> {
    if slows == [] then map[]
    else Fill(slows[..|slows| - 1])[slows[|slows| - 1].id := Shown(slows[|slows| - 1])]
  }

  /** The onmessage reducer. */
  function OnMessage(c: Browser, m: Msg): Browser {
    match m
    case Init(requests, slows) => Browser(requests, Fill(slows))
    case Request(entry) => c.(requests := [entry] + c.requests)
    case Clear => c.(requests := [])
    case SlowStart(s) => c.(activeSlows := c.activeSlows[s.id := Shown(s)])
    case SlowEnd(id, _, _) => c.(activeSlows := c.activeSlows - {id})
  }

  function Replay(c: Browser, log: seq<Msg>): Browser
    decreases log
  {
    if log == [] then c else Replay(OnMessage(c, log[0]), log[1..])
  }

  lemma {:induction false} ReplayAppend(c: Browser, a: seq<Msg>, b: seq<Msg>)
    ensures Replay(c, a + b) == Replay(Replay(c, a), b)
    decreases a
  {
    if a == [] {
      assert a + b == b;
    } else {
      assert (a + b)[1..] == a[1..] + b;
      ReplayAppend(OnMessage(c, a[0]), a[1..], b);
    }
  }

  /** A page shows exactly the server's jobs, each with its own delay and start. */
  ghost predicate Agrees(page: map<string, Slow>, m: map<string, SlowEntry>) {
    && (forall id :: id in page <==> id in m)
    && (forall id | id in m :: page[id].delaySec == m[id].delaySec && page[id].startedAt == m[id].startedAt)
  }

  lemma AgreesIsShown(page: map<string, Slow>, m: map<string, SlowEntry>)
    ensures Agrees(page, m) <==> page == map id | id in m :: Shown(m[id])
  {
    if Agrees(page, m) {
      forall id | id in page ensures page[id] == Shown(m[id]) {}
      assert page == map id | id in m :: Shown(m[id]);
    }
  }

  /** The snapshot restores the server's state from any state of the browser. */
  lemma {:induction false} FillIsListing(slows: seq<SlowEntry>, m: map<string, SlowEntry>)
    requires Lists(slows, m)
    ensures Fill(slows) == map id | id in m :: Shown(m[id])
    ensures Agrees(Fill(slows), m)
  {
    FillSound(slows, m);
    forall id | id in m ensures id in Fill(slows) { FillHas(slows, m[id]); }
    assert Fill(slows) == map id | id in m :: Shown(m[id]);
    AgreesIsShown(Fill(slows), m);
  }

  lemma {:induction false} FillSound(slows: seq<SlowEntry>, m: map<string, SlowEntry>)
    requires forall k | 0 <= k < |slows| :: slows[k].id in m && m[slows[k].id] == slows[k]
    ensures forall id | id in Fill(slows) :: id in m && Fill(slows)[id] == Shown(m[id])
  {
    if slows != [] { FillSound(slows[..|slows| - 1], m); }
  }

  lemma {:induction false} FillHas(slows: seq<SlowEntry>, s: SlowEntry)
    requires s in slows
    ensures s.id in Fill(slows)
  {
    var n := |slows| - 1;
    if s != slows[n] {
      assert s in slows[..n] by { var k :| 0 <= k < |slows| && slows[k] == s; assert slows[..n][k] == s; }
      FillHas(slows[..n], s);
    }
  }

  // ---- the server as a transition system ----

  type HandlerId = nat
  type ConnId = nat

  /** A request handler between its steps. */
  datatype Handler =
    | Capturing(entry: Entry)     // stored, broadcast to come
    | Clearing                    // store cleared, broadcast to come
    | Answered
    | SlowAdded(slow: SlowEntry)  // in the map, slow_start to come
    | SlowRunning(slow: SlowEntry)
    | SlowRemoved(slow: SlowEntry)  // out of the map, slow_end to come
    | SlowDone(slow: SlowEntry)

  /** /__events reads the store, then the slow map, writes the init message, and only
      then subscribes. */
  datatype Phase = Reading(requests: seq<Entry>) | Greeted | Subscribed

  /** One browser's connection: its queue in the broker, what is written to the socket
      and not yet processed, and the page's state. */
  datatype Conn = Conn(phase: Phase, queue: seq<Msg>, wire: seq<Msg>, page: Browser)

  datatype State = State(store: seq<Entry>, slows: map<string, SlowEntry>, conns: map<ConnId, Conn>,
                         handlers: map<HandlerId, Handler>)

  datatype Event =
    | Capture(h: HandlerId, entry: Entry)
    | CaptureBroadcast(h: HandlerId)
    | Erase(h: HandlerId)
    | EraseBroadcast(h: HandlerId)
    | SlowAdd(h: HandlerId, slow: SlowEntry)
    | SlowStartBroadcast(h: HandlerId)
    | SlowRemove(h: HandlerId)
    | SlowEndBroadcast(h: HandlerId, durationMs: int, cancelled: bool)
    | ReadStore(c: ConnId, page: Browser)            // the page keeps its state when it reconnects
    | ReadSlows(c: ConnId, listing: seq<SlowEntry>)  // and write the init message
    | Subscribe(c: ConnId)
    | Send(c: ConnId)
    | Receive(c: ConnId)
    | Close(c: ConnId)

  predicate IsSlow(h: Handler) {
    h.SlowAdded? || h.SlowRunning? || h.SlowRemoved? || h.SlowDone?
  }

  const START := State([], map[], map[], map[])

  ghost predicate Enabled(s: State, e: Event) {
    match e
    case Capture(h, _) => h !in s.handlers
    case CaptureBroadcast(h) => h in s.handlers && s.handlers[h].Capturing?
    case Erase(h) => h !in s.handlers
    case EraseBroadcast(h) => h in s.handlers && s.handlers[h].Clearing?
    case SlowAdd(h, slow) =>  // newID never repeats
      h !in s.handlers && forall g | g in s.handlers && IsSlow(s.handlers[g]) :: s.handlers[g].slow.id != slow.id
    case SlowStartBroadcast(h) => h in s.handlers && s.handlers[h].SlowAdded?
    case SlowRemove(h) => h in s.handlers && s.handlers[h].SlowRunning?
    case SlowEndBroadcast(h, _, _) => h in s.handlers && s.handlers[h].SlowRemoved?
    case ReadStore(c, _) => c !in s.conns
    case ReadSlows(c, listing) => c in s.conns && s.conns[c].phase.Reading? && Lists(listing, s.slows)
    case Subscribe(c) => c in s.conns && s.conns[c].phase.Greeted?
    case Send(c) => c in s.conns && s.conns[c].phase.Subscribed? && s.conns[c].queue != []
    case Receive(c) => c in s.conns && s.conns[c].wire != []
    case Close(c) => c in s.conns
  }

  /** The message a step broadcasts, if it does. */
  datatype Sent = Nothing | Broadcasts(m: Msg)

  function Broadcast(s: State, e: Event): Sent {
    match e
    case CaptureBroadcast(h) => if h in s.handlers && s.handlers[h].Capturing? then Broadcasts(Request(s.handlers[h].entry)) else Nothing
    case EraseBroadcast(_) => Broadcasts(Clear)
    case SlowStartBroadcast(h) => if h in s.handlers && s.handlers[h].SlowAdded? then Broadcasts(SlowStart(s.handlers[h].slow)) else Nothing
    case SlowEndBroadcast(h, d, x) => if h in s.handlers && s.handlers[h].SlowRemoved? then Broadcasts(SlowEnd(s.handlers[h].slow.id, d, x)) else Nothing
    case _ => Nothing
  }

  function OfferAll(s: State, m: Msg): State {
    s.(conns := map c | c in s.conns ::
      if s.conns[c].phase.Subscribed? then s.conns[c].(queue := Offer(s.conns[c].queue, m)) else s.conns[c])
  }

  function SetHandler(s: State, h: HandlerId, to: Handler): State {
    s.(handlers := s.handlers[h := to])
  }

  function SetConn(s: State, c: ConnId, to: Conn): State {
    s.(conns := s.conns[c := to])
  }

  function Next(s: State, e: Event): State
    requires Enabled(s, e)
  {
    match e
    case Capture(h, entry) => SetHandler(s.(store := Newest([entry] + s.store)), h, Capturing(entry))
    case CaptureBroadcast(h) => SetHandler(OfferAll(s, Request(s.handlers[h].entry)), h, Answered)
    case Erase(h) => SetHandler(s.(store := []), h, Clearing)
    case EraseBroadcast(h) => SetHandler(OfferAll(s, Clear), h, Answered)
    case SlowAdd(h, slow) => SetHandler(s.(slows := s.slows[slow.id := slow]), h, SlowAdded(slow))
    case SlowStartBroadcast(h) => SetHandler(OfferAll(s, SlowStart(s.handlers[h].slow)), h, SlowRunning(s.handlers[h].slow))
    case SlowRemove(h) => SetHandler(s.(slows := s.slows - {s.handlers[h].slow.id}), h, SlowRemoved(s.handlers[h].slow))
    case SlowEndBroadcast(h, d, x) =>
      SetHandler(OfferAll(s, SlowEnd(s.handlers[h].slow.id, d, x)), h, SlowDone(s.handlers[h].slow))
    case ReadStore(c, page) => SetConn(s, c, Conn(Reading(s.store), [], [], page))
    case ReadSlows(c, listing) =>
      SetConn(s, c, s.conns[c].(phase := Greeted, wire := [Init(s.conns[c].phase.requests, listing)]))
    case Subscribe(c) => SetConn(s, c, s.conns[c].(phase := Subscribed))
    case Send(c) => SetConn(s, c, s.conns[c].(queue := s.conns[c].queue[1..], wire := s.conns[c].wire + [s.conns[c].queue[0]]))
    case Receive(c) => SetConn(s, c, s.conns[c].(wire := s.conns[c].wire[1..], page := OnMessage(s.conns[c].page, s.conns[c].wire[0])))
    case Close(c) => s.(conns := s.conns - {c})
  }

  datatype Behavior = Behavior(states: seq<State>, events: seq<Event>)

  ghost predicate StepAt(b: Behavior, i: nat)
    requires i < |b.events| && |b.states| == |b.events| + 1
  {
    Enabled(b.states[i], b.events[i]) && b.states[i + 1] == Next(b.states[i], b.events[i])
  }

  ghost predicate IsBehavior(b: Behavior) {
    && |b.states| == |b.events| + 1
    && b.states[0] == START
    && forall i | 0 <= i < |b.events| :: StepAt(b, i)
  }

  ghost function Last(b: Behavior): State
    requires |b.states| == |b.events| + 1
  {
    b.states[|b.events|]
  }

  /** One more step at the end of a behaviour. */
  lemma Extend(b: Behavior, e: Event) returns (c: Behavior)
    requires IsBehavior(b) && Enabled(Last(b), e)
    ensures IsBehavior(c) && c.events == b.events + [e] && c.states == b.states + [Next(Last(b), e)]
  {
    c := Behavior(b.states + [Next(Last(b), e)], b.events + [e]);
    forall i | 0 <= i < |c.events|
      ensures StepAt(c, i)
    {
      if i < |b.events| { assert StepAt(b, i); }
    }
  }

  /** What the page will show once it has processed everything sent to it. */
  function Pending(s: State, c: ConnId): Browser
    requires c in s.conns
  {
    Replay(s.conns[c].page, s.conns[c].wire + s.conns[c].queue)
  }

  ghost predicate Live(s: State, c: ConnId) {
    c in s.conns && s.conns[c].phase.Subscribed?
  }

  /** What the step adds to a subscriber's queue: its broadcast, unless the queue is full. */
  function Heard(s: State, e: Event, c: ConnId): Sent
    requires c in s.conns
  {
    if |s.conns[c].queue| < QUEUE_SIZE then Broadcast(s, e) else Nothing
  }

  lemma PendingHeard(s: State, e: Event, c: ConnId)
    requires Enabled(s, e) && Live(s, c) && Heard(s, e, c).Broadcasts?
    ensures Live(Next(s, e), c) && Pending(Next(s, e), c) == OnMessage(Pending(s, c), Heard(s, e, c).m)
  {
    var conn, conn', m := s.conns[c], Next(s, e).conns[c], Heard(s, e, c).m;
    assert conn' == conn.(queue := conn.queue + [m]);
    assert conn'.wire + conn'.queue == (conn.wire + conn.queue) + [m];
    ReplayAppend(conn.page, conn.wire + conn.queue, [m]);
    assert [m][1..] == [];
  }

  lemma PendingQuiet(s: State, e: Event, c: ConnId)
    requires Enabled(s, e) && Live(s, c) && Heard(s, e, c).Nothing? && Live(Next(s, e), c)
    ensures Pending(Next(s, e), c) == Pending(s, c)
  {
    var conn, conn' := s.conns[c], Next(s, e).conns[c];
    if e.Send? && e.c == c {
      assert conn'.wire + conn'.queue == conn.wire + conn.queue;
    } else if e.Receive? && e.c == c {
      assert (conn.wire + conn.queue)[1..] == conn'.wire + conn'.queue;
    }
  }

  /** A step adds at most one message to the end of a subscribed page's future: its
      broadcast, if it has one and the page's own queue has room. */
  lemma PendingStep(s: State, e: Event, c: ConnId)
    requires Enabled(s, e) && Live(s, c) && Live(Next(s, e), c)
    ensures Pending(Next(s, e), c)
         == match Heard(s, e, c) case Broadcasts(m) => OnMessage(Pending(s, c), m) case Nothing => Pending(s, c)
  {
    match Heard(s, e, c)
    case Broadcasts(_) => PendingHeard(s, e, c);
    case Nothing => PendingQuiet(s, e, c);
  }
}
