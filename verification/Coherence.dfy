/** The browser's request list against the server's store, one connection at a time:
    exactly when a page that has caught up agrees with the server. */
module Coherence {
  import opened LiveMirror
  import opened Sessions

  // ---- store changes and their broadcasts ----

  predicate ListBroadcast(e: Event) {
    e.CaptureBroadcast? || e.EraseBroadcast?
  }

  /** A store change whose broadcast is still to come. */
  datatype Debt = Debt(h: HandlerId, m: Msg)

  function Without(owed: seq<Debt>, h: HandlerId): seq<Debt> {
    if owed == [] then [] else if owed[0].h == h then owed[1..] else [owed[0]] + Without(owed[1..], h)
  }

  function Tally(owed: seq<Debt>, e: Event): seq<Debt> {
    match e
    case Capture(h, entry) => owed + [Debt(h, Request(entry))]
    case Erase(h) => owed + [Debt(h, Clear)]
    case CaptureBroadcast(h) => Without(owed, h)
    case EraseBroadcast(h) => Without(owed, h)
    case _ => owed
  }

  /** The changes made but not yet broadcast before step `i`, in the order they were made. */
  ghost function Owed(b: Behavior, i: nat): seq<Debt>
    requires i <= |b.events|
  {
    if i == 0 then [] else Tally(Owed(b, i - 1), b.events[i - 1])
  }

  /** Step `i`, if it broadcasts a change, broadcasts the oldest one owed. */
  ghost predicate Oldest(b: Behavior, i: nat) {
    i < |b.events| && (ListBroadcast(b.events[i]) ==> Owed(b, i) != [] && Owed(b, i)[0].h == b.events[i].h)
  }

  /** From step `i` on changes are broadcast in the order they are made: no two cross. */
  ghost predicate InOrder(b: Behavior, i: nat, j: nat) {
    forall k | i <= k < j :: Oldest(b, k)
  }

  /** No change of the store is waiting for its broadcast. */
  ghost predicate Settled(s: State) {
    forall h | h in s.handlers :: !s.handlers[h].Capturing? && !s.handlers[h].Clearing?
  }

  /** A store broadcast finds room in the queue of `c`. */
  ghost predicate Hears(s: State, e: Event, c: ConnId) {
    ListBroadcast(e) ==> c in s.conns && |s.conns[c].queue| < QUEUE_SIZE
  }

  ghost predicate Hearing(b: Behavior, c: ConnId, i: nat, j: nat) {
    j <= |b.events| < |b.states| && forall k | i <= k < j :: Hears(b.states[k], b.events[k], c)
  }

  // ---- what is owed is what the handlers still hold ----

  ghost predicate Due(s: State, d: Debt) {
    d.h in s.handlers
    && match s.handlers[d.h]
       case Capturing(entry) => d.m == Request(entry)
       case Clearing => d.m == Clear
       case _ => false
  }

  ghost predicate OwedOk(s: State, owed: seq<Debt>) {
    && (forall k | 0 <= k < |owed| :: Due(s, owed[k]))
    && (forall k, l | 0 <= k < l < |owed| :: owed[k].h != owed[l].h)
  }

  lemma {:induction false} WithoutIs(owed: seq<Debt>, h: HandlerId)
    requires forall k, l | 0 <= k < l < |owed| :: owed[k].h != owed[l].h
    ensures forall k | 0 <= k < |Without(owed, h)| :: Without(owed, h)[k] in owed && Without(owed, h)[k].h != h
    ensures forall k, l | 0 <= k < l < |Without(owed, h)| :: Without(owed, h)[k].h != Without(owed, h)[l].h
  {
    if owed != [] && owed[0].h != h {
      WithoutIs(owed[1..], h);
      var rest := Without(owed[1..], h);
      forall k | 0 <= k < |rest| ensures rest[k] in owed && rest[k].h != owed[0].h { assert rest[k] in owed[1..]; }
    }
  }

  lemma OwedStep(s: State, e: Event, owed: seq<Debt>)
    requires Enabled(s, e) && OwedOk(s, owed)
    ensures OwedOk(Next(s, e), Tally(owed, e))
  {
    if ListBroadcast(e) { WithoutIs(owed, e.h); }
    var s', owed' := Next(s, e), Tally(owed, e);
    forall k | 0 <= k < |owed'|
      ensures Due(s', owed'[k])
    {
      if ListBroadcast(e) {
        var l :| 0 <= l < |owed| && owed[l] == owed'[k];
        assert Due(s, owed[l]);
      } else if k < |owed| {
        assert Due(s, owed[k]);
      }
    }
    forall k, l | 0 <= k < l < |owed'| && !ListBroadcast(e)
      ensures owed'[k].h != owed'[l].h
    {
      assert Due(s, owed[k]);
    }
  }

  lemma {:induction false} OwedAlways(b: Behavior, i: nat)
    requires IsBehavior(b) && i <= |b.events|
    ensures OwedOk(b.states[i], Owed(b, i))
  {
    if i != 0 {
      OwedAlways(b, i - 1);
      assert StepAt(b, i - 1);
      OwedStep(b.states[i - 1], b.events[i - 1], Owed(b, i - 1));
    }
  }

  lemma NothingOwed(b: Behavior, i: nat)
    requires IsBehavior(b) && i <= |b.events| && Settled(b.states[i])
    ensures Owed(b, i) == []
  {
    OwedAlways(b, i);
    assert Owed(b, i) == [] || !Due(b.states[i], Owed(b, i)[0]);
  }

  // ---- lists and the messages about them ----

  function OnList(l: seq<Entry>, m: Msg): seq<Entry> {
    match m case Request(entry) => [entry] + l case Clear => [] case _ => l
  }

  /** The list once all that is owed has reached it. */
  function Paid(l: seq<Entry>, owed: seq<Debt>): seq<Entry>
    decreases |owed|
  {
    if owed == [] then l else Paid(OnList(l, owed[0].m), owed[1..])
  }

  lemma {:induction false} PaidSnoc(l: seq<Entry>, owed: seq<Debt>, d: Debt)
    ensures Paid(l, owed + [d]) == OnList(Paid(l, owed), d.m)
    decreases |owed|
  {
    if owed == [] {
      assert [d][1..] == [];
      assert owed + [d] == [d];
    } else {
      assert (owed + [d])[1..] == owed[1..] + [d];
      PaidSnoc(OnList(l, owed[0].m), owed[1..], d);
    }
  }

  function Keep(l: seq<Entry>, n: nat): seq<Entry> {
    if |l| <= n then l else l[..n]
  }

  /** A list after the store changes of a step, and of steps `i` to `j`. */
  function Change(l: seq<Entry>, e: Event): seq<Entry> {
    match e case Capture(_, entry) => [entry] + l case Erase(_) => [] case _ => l
  }

  ghost function Changed(l: seq<Entry>, b: Behavior, i: nat, j: nat): seq<Entry>
    requires i <= j <= |b.events|
    decreases j
  {
    if i == j then l else Change(Changed(l, b, i, j - 1), b.events[j - 1])
  }

  lemma {:induction false} StoreBounded(b: Behavior, i: nat)
    requires IsBehavior(b) && i <= |b.events|
    ensures |b.states[i].store| <= MAX_ENTRIES
  {
    if i != 0 {
      StoreBounded(b, i - 1);
      assert StepAt(b, i - 1);
    }
  }

  lemma {:induction false} StoreChanged(b: Behavior, i: nat, j: nat)
    requires IsBehavior(b) && i <= j <= |b.events|
    ensures b.states[j].store == Newest(Changed(b.states[i].store, b, i, j))
    decreases j
  {
    StoreBounded(b, i);
    if i < j {
      StoreChanged(b, i, j - 1);
      assert StepAt(b, j - 1);
      var e := b.events[j - 1];
    }
  }

  /** The page's list once everything on its way and everything owed has reached it. */
  ghost function Expected(b: Behavior, c: ConnId, i: nat): seq<Entry>
    requires |b.states| == |b.events| + 1 && i <= |b.events| && c in b.states[i].conns
  {
    Paid(Pending(b.states[i], c).requests, Owed(b, i))
  }

  lemma PendingList(s: State, e: Event, c: ConnId)
    requires Enabled(s, e) && Live(s, c) && Live(Next(s, e), c) && Hears(s, e, c)
    ensures Pending(Next(s, e), c).requests
         == match Broadcast(s, e) case Broadcasts(m) => OnList(Pending(s, c).requests, m) case Nothing => Pending(s, c).requests
  {
    PendingStep(s, e, c);
  }

  lemma ExpectedStep(b: Behavior, c: ConnId, i: nat)
    requires IsBehavior(b) && i < |b.events| && Live(b.states[i], c) && Live(b.states[i + 1], c)
    requires Oldest(b, i) && Hears(b.states[i], b.events[i], c)
    ensures Expected(b, c, i + 1) == Change(Expected(b, c, i), b.events[i])
  {
    assert StepAt(b, i);
    var s, e, owed := b.states[i], b.events[i], Owed(b, i);
    var l := Pending(s, c).requests;
    OwedAlways(b, i);
    PendingList(s, e, c);
    if ListBroadcast(e) {
      assert Due(s, owed[0]);
      assert Pending(Next(s, e), c).requests == OnList(l, owed[0].m);
    } else if e.Capture? {
      PaidSnoc(l, owed, Debt(e.h, Request(e.entry)));
    } else if e.Erase? {
      PaidSnoc(l, owed, Debt(e.h, Clear));
    }
  }

  lemma ExpectedInto(b: Behavior, c: ConnId, i: nat, j: nat)
    requires IsBehavior(b) && i < j <= |b.events| && StaysSubscribed(b, c, i, j)
    requires InOrder(b, i, j) && Hearing(b, c, i, j)
    ensures Expected(b, c, j) == Change(Expected(b, c, j - 1), b.events[j - 1])
  {
    assert Live(b.states[j - 1], c) && Live(b.states[j], c) && Oldest(b, j - 1);
    assert Hears(b.states[j - 1], b.events[j - 1], c);
    ExpectedStep(b, c, j - 1);
  }

  lemma {:induction false} ExpectedChanged(b: Behavior, c: ConnId, i: nat, j: nat)
    requires IsBehavior(b) && i <= j <= |b.events| && StaysSubscribed(b, c, i, j)
    requires InOrder(b, i, j) && Hearing(b, c, i, j)
    ensures Expected(b, c, j) == Changed(Expected(b, c, i), b, i, j)
    decreases j
  {
    if i < j {
      ExpectedChanged(b, c, i, j - 1);
      ExpectedInto(b, c, i, j);
    }
  }

  // ---- how much of the past still shows ----

  ghost predicate Erased(b: Behavior, i: nat, j: nat) {
    exists k :: i <= k < j && k < |b.events| && b.events[k].Erase?
  }

  ghost function Captures(b: Behavior, i: nat, j: nat): nat
    requires i <= j <= |b.events|
    decreases j
  {
    if i == j then 0 else Captures(b, i, j - 1) + if b.events[j - 1].Capture? then 1 else 0
  }

  /** How many of the requests stored before step `i` the store can still hold at `j`: none
      after an erase, one less after each capture. */
  ghost function Room(b: Behavior, i: nat, j: nat): nat
    requires i <= j <= |b.events|
  {
    if Erased(b, i, j) || Captures(b, i, j) > MAX_ENTRIES then 0 else MAX_ENTRIES - Captures(b, i, j)
  }

  lemma {:induction false} ChangedIs(l: seq<Entry>, b: Behavior, i: nat, j: nat)
    requires i <= j <= |b.events|
    ensures Changed(l, b, i, j) == if Erased(b, i, j) then Changed([], b, i, j) else Changed([], b, i, j) + l
    ensures !Erased(b, i, j) ==> |Changed([], b, i, j)| == Captures(b, i, j)
    decreases j
  {
    if i < j {
      ChangedIs(l, b, i, j - 1);
      assert Erased(b, i, j) <==> Erased(b, i, j - 1) || b.events[j - 1].Erase?;
      if b.events[j - 1].Capture? {
        var e := b.events[j - 1].entry;
        assert [e] + (Changed([], b, i, j - 1) + l) == ([e] + Changed([], b, i, j - 1)) + l;
      }
    } else {
      assert [] + l == l;
    }
  }

  lemma NewestPrefixed(a: seq<Entry>, l: seq<Entry>, m: seq<Entry>)
    ensures |a| <= MAX_ENTRIES ==>
              (Newest(a + l) == Newest(a + m) <==> Keep(l, MAX_ENTRIES - |a|) == Keep(m, MAX_ENTRIES - |a|))
    ensures |a| > MAX_ENTRIES ==> Newest(a + l) == Newest(a + m)
  {
    if |a| <= MAX_ENTRIES {
      var n := MAX_ENTRIES - |a|;
      assert Newest(a + l) == a + Keep(l, n) && Newest(a + m) == a + Keep(m, n);
      assert (a + Keep(l, n))[|a|..] == Keep(l, n) && (a + Keep(m, n))[|a|..] == Keep(m, n);
    } else {
      assert (a + l)[..MAX_ENTRIES] == a[..MAX_ENTRIES] && (a + m)[..MAX_ENTRIES] == a[..MAX_ENTRIES];
    }
  }

  /** Two lists agree after the same changes exactly on what still shows of them. */
  lemma ChangedAgree(l: seq<Entry>, m: seq<Entry>, b: Behavior, i: nat, j: nat)
    requires i <= j <= |b.events|
    ensures Newest(Changed(l, b, i, j)) == Newest(Changed(m, b, i, j)) <==> Keep(l, Room(b, i, j)) == Keep(m, Room(b, i, j))
  {
    ChangedIs(l, b, i, j);
    ChangedIs(m, b, i, j);
    NewestPrefixed(Changed([], b, i, j), l, m);
  }

  // ---- coherence ----

  /** The first 100 requests of page `c`, once it has caught up, are the server's store. */
  ghost predicate Coherent(s: State, c: ConnId) {
    Live(s, c) && Newest(Pending(s, c).requests) == s.store
  }

  /** Exactly when a page is right. Take any connection, whatever others do and whatever
      happened before it: from its subscription on store changes are broadcast in their
      order and no store broadcast finds this page's queue full.
      Then at every moment with nothing left to broadcast the page agrees with the store if
      and only if the snapshot, plus what was owed at the subscription, agrees with the
      store of that moment on as many requests as the store can still hold of it. */
  lemma RequestListExact(b: Behavior, c: ConnId, r: nat, q: nat, i: nat, j: nat)
    requires IsBehavior(b) && Session(b, c, r, q, i) && i < j <= |b.events| && StaysSubscribed(b, c, i + 1, j)
    requires InOrder(b, i + 1, j) && Hearing(b, c, i + 1, j) && Settled(b.states[j])
    ensures Coherent(b.states[j], c)
       <==> Keep(Paid(b.states[r].store, Owed(b, i)), Room(b, i + 1, j)) == Keep(b.states[i].store, Room(b, i + 1, j))
  {
    assert StepAt(b, i);
    SubscribedWithSnapshot(b, c, r, q, i);
    ExpectedChanged(b, c, i + 1, j);
    NothingOwed(b, j);
    StoreChanged(b, i + 1, j);
    assert Live(b.states[j], c);
    assert Owed(b, i + 1) == Owed(b, i);
    ChangedAgree(Paid(b.states[r].store, Owed(b, i)), b.states[i].store, b, i + 1, j);
  }

  /** A page that subscribes while nothing is owed is right at every settled moment from
      then on if and only if its snapshot is the store of its subscription. */
  lemma RequestListCoherent(b: Behavior, c: ConnId, r: nat, q: nat, i: nat, n: nat)
    requires IsBehavior(b) && Session(b, c, r, q, i) && i < n <= |b.events| && StaysSubscribed(b, c, i + 1, n)
    requires InOrder(b, i + 1, n) && Hearing(b, c, i + 1, n) && Settled(b.states[i])
    ensures (forall j | i < j <= n && Settled(b.states[j]) :: Coherent(b.states[j], c)) <==> b.states[r].store == b.states[i].store
  {
    NothingOwed(b, i);
    StoreBounded(b, r);
    StoreBounded(b, i);
    assert StepAt(b, i);
    assert Settled(b.states[i + 1]);
    forall j | i < j <= n && Settled(b.states[j])
      ensures Coherent(b.states[j], c)
         <==> Keep(b.states[r].store, Room(b, i + 1, j)) == Keep(b.states[i].store, Room(b, i + 1, j))
    {
      RequestListExact(b, c, r, q, i, j);
    }
    assert Room(b, i + 1, i + 1) == MAX_ENTRIES;
  }

  /** In particular when the store does not change between snapshot and subscription. */
  lemma QuietGap(b: Behavior, r: nat, i: nat)
    requires IsBehavior(b) && r <= i <= |b.events|
    requires forall k | r <= k < i :: !b.events[k].Capture? && !b.events[k].Erase?
    ensures b.states[r].store == b.states[i].store
  {
    StoreBounded(b, r);
    StoreChanged(b, r, i);
    NoChange(b.states[r].store, b, r, i);
  }

  lemma {:induction false} NoChange(l: seq<Entry>, b: Behavior, i: nat, j: nat)
    requires i <= j <= |b.events| && forall k | i <= k < j :: !b.events[k].Capture? && !b.events[k].Erase?
    ensures Changed(l, b, i, j) == l
    decreases j
  {
    if i < j { NoChange(l, b, i, j - 1); }
  }

  // ---- a request captured in the gap ----

  lemma {:induction false} CapturedBefore(b: Behavior, i: nat, h: HandlerId) returns (k: nat)
    requires IsBehavior(b) && i <= |b.events| && h in b.states[i].handlers && b.states[i].handlers[h].Capturing?
    ensures k < i && b.events[k] == Capture(h, b.states[i].handlers[h].entry)
  {
    assert StepAt(b, i - 1);
    if b.events[i - 1].Capture? && b.events[i - 1].h == h {
      k := i - 1;
    } else {
      k := CapturedBefore(b, i - 1, h);
    }
  }

  lemma {:induction false} AnsweredStays(b: Behavior, i: nat, j: nat, h: HandlerId)
    requires IsBehavior(b) && i <= j <= |b.events| && h in b.states[i].handlers && b.states[i].handlers[h].Answered?
    ensures h in b.states[j].handlers && b.states[j].handlers[h].Answered?
    decreases j
  {
    if i < j {
      AnsweredStays(b, i, j - 1, h);
      assert StepAt(b, j - 1);
    }
  }

  /** What the snapshot lacks and no broadcast brings never shows. */
  lemma {:induction false} NeverShown(b: Behavior, c: ConnId, e: Entry, i: nat, j: nat)
    requires IsBehavior(b) && i <= j <= |b.events| && StaysSubscribed(b, c, i, j)
    requires e !in Pending(b.states[i], c).requests
    requires forall k | i <= k < j :: Broadcast(b.states[k], b.events[k]) != Broadcasts(Request(e))
    ensures e !in Pending(b.states[j], c).requests
    decreases j
  {
    if i < j {
      NeverShown(b, c, e, i, j - 1);
      assert StepAt(b, j - 1) && Live(b.states[j - 1], c) && Live(b.states[j], c);
      PendingStep(b.states[j - 1], b.events[j - 1], c);
    }
  }

  /** A request captured and broadcast between snapshot and subscription is missing for
      good: as long as the connection lasts, whatever else happens, the page never shows it
      and has nothing on its way that would. */
  lemma CaptureInTheGapIsLost(b: Behavior, c: ConnId, r: nat, q: nat, i: nat, k: nat, l: nat, j: nat)
    requires IsBehavior(b) && Session(b, c, r, q, i) && i < j <= |b.events| && StaysSubscribed(b, c, i + 1, j)
    requires r < k < l < i && b.events[k].Capture? && b.events[l] == CaptureBroadcast(b.events[k].h)
    requires b.events[k].entry !in b.states[r].store  // newID never repeats
    requires forall m | 0 <= m < |b.events| && b.events[m].Capture? && b.events[m].entry == b.events[k].entry :: m == k
    ensures b.events[k].entry !in Pending(b.states[j], c).requests
  {
    var h, e := b.events[k].h, b.events[k].entry;
    assert StepAt(b, l);
    forall m | i < m < j
      ensures Broadcast(b.states[m], b.events[m]) != Broadcasts(Request(e))
    {
      if Broadcast(b.states[m], b.events[m]) == Broadcasts(Request(e)) {
        var g := b.events[m].h;
        var k' := CapturedBefore(b, m, g);
        AnsweredStays(b, l + 1, m, h);
        assert false;
      }
    }
    SubscribedWithSnapshot(b, c, r, q, i);
    NeverShown(b, c, e, i + 1, j);
  }

  // ---- both failures happen ----

  /** A page on an empty server, its snapshot just taken. */
  lemma Snapshotted(page: Browser) returns (b: Behavior)
    ensures IsBehavior(b) && b.events == [ReadStore(0, page), ReadSlows(0, [])]
    ensures b.states == [START, START.(conns := map[0 := Conn(Reading([]), [], [], page)]),
                         START.(conns := map[0 := Conn(Greeted, [], [Init([], [])], page)])]
  {
    b := Behavior([START], []);
    b := Extend(b, ReadStore(0, page));
    assert b.states == [START, START.(conns := map[0 := Conn(Reading([]), [], [], page)])];
    b := Extend(b, ReadSlows(0, []));
    assert Last(b) == START.(conns := map[0 := Conn(Greeted, [], [Init([], [])], page)]);
  }

  /** The gap is real: one request captured and broadcast in it, and from the subscription
      on nothing amiss. */
  lemma GapIsReachable(e: Entry, page: Browser) returns (b: Behavior)
    ensures IsBehavior(b) && |b.events| == 5 && Session(b, 0, 0, 1, 4)
    ensures b.events[2] == Capture(0, e) && b.events[3] == CaptureBroadcast(0)
    ensures Settled(b.states[4]) && Settled(b.states[5]) && Live(b.states[5], 0) && !Coherent(b.states[5], 0)
  {
    b := Snapshotted(page);
    b := Extend(b, Capture(0, e));
    b := Extend(b, CaptureBroadcast(0));
    b := Extend(b, Subscribe(0));
    SubscribedWithSnapshot(b, 0, 0, 1, 4);
  }

  lemma Connected(page: Browser) returns (b: Behavior)
    ensures IsBehavior(b) && |b.events| == 3 && Session(b, 0, 0, 1, 2) && b.states[0].store == b.states[2].store
    ensures Settled(b.states[2])
    ensures Live(Last(b), 0) && Last(b) == START.(conns := Last(b).conns)
    ensures Last(b).conns.Keys == {0} && Last(b).conns[0].queue == [] && Pending(Last(b), 0).requests == []
  {
    b := Snapshotted(page);
    b := Extend(b, Subscribe(0));
    SubscribedWithSnapshot(b, 0, 0, 1, 2);
  }

  lemma OneCaptured(e: Entry, page: Browser) returns (b: Behavior)
    ensures IsBehavior(b) && |b.events| == 4 && Session(b, 0, 0, 1, 2) && b.states[0].store == b.states[2].store
    ensures StaysSubscribed(b, 0, 3, 4) && Hearing(b, 0, 3, 4) && Settled(b.states[2])
    ensures Last(b).store == [e] && Last(b).handlers == map[0 := Capturing(e)]
    ensures Last(b).conns.Keys == {0} && Last(b).conns[0].queue == [] && Pending(Last(b), 0).requests == []
  {
    b := Connected(page);
    PendingStep(Last(b), Capture(0, e), 0);
    b := Extend(b, Capture(0, e));
    assert Last(b).store == [e];
  }

  /** Two captures in the store, neither broadcast yet. */
  lemma TwoCaptured(e: Entry, f: Entry, page: Browser) returns (b: Behavior)
    ensures IsBehavior(b) && |b.events| == 5 && Session(b, 0, 0, 1, 2) && b.states[0].store == b.states[2].store
    ensures StaysSubscribed(b, 0, 3, 5) && Hearing(b, 0, 3, 5) && Settled(b.states[2])
    ensures Last(b).store == [f, e]
    ensures Last(b).handlers == map[0 := Capturing(e), 1 := Capturing(f)]
    ensures Last(b).conns.Keys == {0} && Last(b).conns[0].queue == [] && Pending(Last(b), 0).requests == []
  {
    b := OneCaptured(e, page);
    PendingStep(Last(b), Capture(1, f), 0);
    b := Extend(b, Capture(1, f));
    assert [f] + [e] == [f, e];
  }

  /** The later of the two is broadcast first. */
  lemma OvertakenOnce(e: Entry, f: Entry, page: Browser) returns (b: Behavior)
    ensures IsBehavior(b) && |b.events| == 6 && Session(b, 0, 0, 1, 2) && b.states[0].store == b.states[2].store
    ensures StaysSubscribed(b, 0, 3, 6) && Hearing(b, 0, 3, 6)
    ensures Settled(b.states[2]) && Last(b).store == [f, e]
    ensures Last(b).handlers == map[0 := Capturing(e), 1 := Answered]
    ensures Last(b).conns.Keys == {0} && |Last(b).conns[0].queue| == 1 && Pending(Last(b), 0).requests == [f]
  {
    b := TwoCaptured(e, f, page);
    PendingStep(Last(b), CaptureBroadcast(1), 0);
    b := Extend(b, CaptureBroadcast(1));
    assert [f] + [] == [f];
  }

  /** Order matters: with no gap and no full queue, two captures whose broadcasts cross
      leave the page in the other order. */
  lemma CrossedBroadcastsReorder(e: Entry, f: Entry, page: Browser) returns (b: Behavior)
    requires e != f
    ensures IsBehavior(b) && |b.events| == 7 && Session(b, 0, 0, 1, 2) && b.states[0].store == b.states[2].store
    ensures StaysSubscribed(b, 0, 3, 7) && Hearing(b, 0, 3, 7) && Settled(b.states[2]) && Settled(b.states[7])
    ensures b.states[7].store == [f, e] && Pending(b.states[7], 0).requests == [e, f] && !Coherent(b.states[7], 0)
  {
    b := OvertakenOnce(e, f, page);
    PendingStep(Last(b), CaptureBroadcast(0), 0);
    b := Extend(b, CaptureBroadcast(0));
    assert [e] + [f] == [e, f];
    assert [e, f][0] != [f, e][0];
  }
}
