/** One browser's connection to /__events, from its snapshot to its subscription. Every
    subscription of every behaviour has exactly this past, and starts with an empty queue
    and a page whose future is its snapshot. */
module Sessions {
  import opened LiveMirror

  /** Connection `c` began with step `r`, its reading of the store, and is there until state `i`. */
  ghost predicate Open(b: Behavior, c: ConnId, r: nat, i: nat) {
    && |b.states| == |b.events| + 1 && r < i <= |b.events|
    && b.events[r].ReadStore? && b.events[r].c == c
    && forall k | r < k <= i :: c in b.states[k].conns
  }

  /** It read the store at `r` and the slow jobs at `q`, and subscribes at `i`. */
  ghost predicate Session(b: Behavior, c: ConnId, r: nat, q: nat, i: nat) {
    && Open(b, c, r, i) && r < q < i < |b.events|
    && b.events[q].ReadSlows? && b.events[q].c == c
    && b.events[i] == Subscribe(c)
  }

  ghost predicate StaysSubscribed(b: Behavior, c: ConnId, i: nat, j: nat) {
    j < |b.states| && forall k | i <= k <= j :: Live(b.states[k], c)
  }

  lemma {:induction false} Opened(b: Behavior, c: ConnId, i: nat) returns (r: nat)
    requires IsBehavior(b) && i <= |b.events| && c in b.states[i].conns
    ensures Open(b, c, r, i)
  {
    assert StepAt(b, i - 1);
    if c in b.states[i - 1].conns {
      r := Opened(b, c, i - 1);
    } else {
      r := i - 1;
    }
  }

  lemma {:induction false} Listed(b: Behavior, c: ConnId, r: nat, i: nat) returns (q: nat)
    requires IsBehavior(b) && Open(b, c, r, i) && !b.states[i].conns[c].phase.Reading?
    ensures r < q < i && b.events[q].ReadSlows? && b.events[q].c == c
    decreases i
  {
    assert StepAt(b, i - 1);
    if b.events[i - 1].ReadSlows? && b.events[i - 1].c == c {
      q := i - 1;
    } else {
      assert StepAt(b, r);
      q := Listed(b, c, r, i - 1);
    }
  }

  lemma SubscriptionHasSession(b: Behavior, c: ConnId, i: nat) returns (r: nat, q: nat)
    requires IsBehavior(b) && i < |b.events| && b.events[i] == Subscribe(c)
    ensures Session(b, c, r, q, i)
  {
    assert StepAt(b, i);
    r := Opened(b, c, i);
    q := Listed(b, c, r, i);
  }

  // ---- before the subscription ----

  ghost predicate HoldsStore(conn: Conn, snapshot: seq<Entry>) {
    match conn.phase
    case Reading(requests) => requests == snapshot && conn.wire == [] && conn.queue == []
    case Greeted => Replay(conn.page, conn.wire).requests == snapshot && conn.queue == []
    case Subscribed => true
  }

  ghost predicate HoldsSlows(conn: Conn, listing: seq<SlowEntry>) {
    !conn.phase.Reading? && (conn.phase.Greeted? ==> Replay(conn.page, conn.wire).activeSlows == Fill(listing))
  }

  lemma InitReplayed(page: Browser, requests: seq<Entry>, listing: seq<SlowEntry>)
    ensures Replay(page, [Init(requests, listing)]) == Browser(requests, Fill(listing))
  {
    assert [Init(requests, listing)][1..] == [];
  }

  lemma HoldsStep(s: State, e: Event, c: ConnId, snapshot: seq<Entry>, listing: seq<SlowEntry>)
    requires Enabled(s, e) && c in s.conns && c in Next(s, e).conns
    ensures HoldsStore(s.conns[c], snapshot) ==> HoldsStore(Next(s, e).conns[c], snapshot)
    ensures HoldsSlows(s.conns[c], listing) ==> HoldsSlows(Next(s, e).conns[c], listing)
  {
    if e.ReadSlows? && e.c == c { InitReplayed(s.conns[c].page, s.conns[c].phase.requests, e.listing); }
  }

  lemma {:induction false} StoreHeld(b: Behavior, c: ConnId, r: nat, k: nat)
    requires IsBehavior(b) && Open(b, c, r, k)
    ensures HoldsStore(b.states[k].conns[c], b.states[r].store)
    decreases k
  {
    assert StepAt(b, k - 1);
    if r < k - 1 {
      StoreHeld(b, c, r, k - 1);
      HoldsStep(b.states[k - 1], b.events[k - 1], c, b.states[r].store, []);
    }
  }

  lemma {:induction false} SlowsHeld(b: Behavior, c: ConnId, r: nat, q: nat, k: nat)
    requires IsBehavior(b) && Open(b, c, r, k) && r < q < k && b.events[q].ReadSlows? && b.events[q].c == c
    ensures HoldsSlows(b.states[k].conns[c], b.events[q].listing)
    decreases k
  {
    assert StepAt(b, k - 1);
    if q < k - 1 {
      SlowsHeld(b, c, r, q, k - 1);
      HoldsStep(b.states[k - 1], b.events[k - 1], c, [], b.events[q].listing);
    } else {
      var s := b.states[q];
      InitReplayed(s.conns[c].page, s.conns[c].phase.requests, b.events[q].listing);
    }
  }

  /** A page that has just subscribed has an empty queue, and once it has processed its
      init shows its snapshot and nothing else, whatever it showed before. */
  lemma SubscribedWithSnapshot(b: Behavior, c: ConnId, r: nat, q: nat, i: nat)
    requires IsBehavior(b) && Session(b, c, r, q, i)
    ensures Live(b.states[i + 1], c) && b.states[i + 1].conns[c].queue == []
    ensures Pending(b.states[i + 1], c) == Browser(b.states[r].store, Fill(b.events[q].listing))
    ensures Lists(b.events[q].listing, b.states[q].slows)
  {
    assert StepAt(b, i) && StepAt(b, q);
    StoreHeld(b, c, r, i);
    SlowsHeld(b, c, r, q, i);
    var conn := b.states[i].conns[c];
    assert conn.wire + [] == conn.wire;
  }
}
