/** The browser's slow jobs against the server's map, one connection at a time, while
    additions, removals and their broadcasts interleave freely between handlers. */
module SlowJobs {
  import opened LiveMirror
  import opened Sessions

  // ---- handlers and the map ----

  predicate InMap(h: Handler) { h.SlowAdded? || h.SlowRunning? }

  /** The job's start has been broadcast. */
  predicate Announced(h: Handler) { h.SlowRunning? || h.SlowRemoved? || h.SlowDone? }

  ghost predicate IsJob(s: State, h: HandlerId) {
    h in s.handlers && IsSlow(s.handlers[h])
  }

  ghost predicate IdsDistinct(s: State) {
    forall h, g | IsJob(s, h) && IsJob(s, g) && h != g :: s.handlers[h].slow.id != s.handlers[g].slow.id
  }

  ghost predicate Holds(s: State, h: HandlerId, id: string) {
    IsJob(s, h) && InMap(s.handlers[h]) && s.handlers[h].slow.id == id
  }

  /** The map holds exactly the jobs of handlers between add and remove. */
  ghost predicate MapOk(s: State) {
    && (forall h | IsJob(s, h) && InMap(s.handlers[h]) ::
          s.handlers[h].slow.id in s.slows && s.slows[s.handlers[h].slow.id] == s.handlers[h].slow)
    && (forall id | id in s.slows :: exists h :: Holds(s, h, id))
  }

  ghost predicate SlowsOk(s: State) {
    IdsDistinct(s) && MapOk(s)
  }

  lemma IdsStep(s: State, e: Event)
    requires Enabled(s, e) && IdsDistinct(s)
    ensures IdsDistinct(Next(s, e))
  {
    forall h | IsJob(Next(s, e), h)
      ensures (e.SlowAdd? && e.h == h) || (IsJob(s, h) && s.handlers[h].slow == Next(s, e).handlers[h].slow)
    {
    }
  }

  lemma HolderStep(s: State, e: Event, id: string)
    requires Enabled(s, e) && SlowsOk(s) && id in Next(s, e).slows
    ensures exists h :: Holds(Next(s, e), h, id)
  {
    if id in s.slows {
      var h :| Holds(s, h, id);
      assert Holds(Next(s, e), h, id);
    } else {
      assert Holds(Next(s, e), e.h, id);
    }
  }

  lemma SlowsStep(s: State, e: Event)
    requires Enabled(s, e) && SlowsOk(s)
    ensures SlowsOk(Next(s, e))
  {
    var s' := Next(s, e);
    IdsStep(s, e);
    forall id | id in s'.slows ensures exists h :: Holds(s', h, id) { HolderStep(s, e, id); }
  }

  lemma {:induction false} SlowsAlways(b: Behavior, i: nat)
    requires IsBehavior(b) && i <= |b.events|
    ensures SlowsOk(b.states[i])
  {
    if i != 0 {
      SlowsAlways(b, i - 1);
      assert StepAt(b, i - 1);
      SlowsStep(b.states[i - 1], b.events[i - 1]);
    }
  }

  /** A job goes through its four stages in order and keeps its identity. */
  ghost predicate Follows(s: State, s': State, h: HandlerId) {
    IsJob(s, h) ==>
      && IsJob(s', h) && s'.handlers[h].slow == s.handlers[h].slow
      && (Announced(s.handlers[h]) ==> Announced(s'.handlers[h]))
      && (s.handlers[h].SlowRemoved? ==> !s'.handlers[h].SlowRunning?)
      && (s.handlers[h].SlowDone? ==> s'.handlers[h].SlowDone?)
  }

  lemma {:induction false} JobsProgress(b: Behavior, i: nat, j: nat, h: HandlerId)
    requires IsBehavior(b) && i <= j <= |b.events|
    ensures Follows(b.states[i], b.states[j], h)
    decreases j
  {
    if i < j {
      JobsProgress(b, i, j - 1, h);
      assert StepAt(b, j - 1);
    }
  }

  // ---- what a page shows ----

  function Ids(listing: seq<SlowEntry>): set<string> {
    set k | 0 <= k < |listing| :: listing[k].id
  }

  /** Whether job `h` shows on a page whose snapshot listed `listed` and whose subscription
      was made in state `at`: from its start, if the page heard of it by the listing or the
      broadcast, to its end, if the page hears of that. */
  ghost predicate OnPage(at: State, listed: set<string>, s: State, h: HandlerId)
    requires IsJob(s, h)
  {
    match s.handlers[h]
    case SlowAdded(slow) => slow.id in listed
    case SlowDone(slow) => slow.id in listed && IsJob(at, h) && at.handlers[h].SlowDone?
    case _ => s.handlers[h].slow.id in listed || !(IsJob(at, h) && Announced(at.handlers[h]))
  }

  ghost predicate Shows(s: State, h: HandlerId, id: string) {
    IsJob(s, h) && s.handlers[h].slow.id == id
  }

  ghost predicate PageIs(at: State, listed: set<string>, s: State, m: map<string, Slow>) {
    && (forall h | IsJob(s, h) :: JobShown(at, listed, s, m, h))
    && (forall id | id in m :: exists h :: Shows(s, h, id))
  }

  ghost predicate JobShown(at: State, listed: set<string>, s: State, m: map<string, Slow>, h: HandlerId)
    requires IsJob(s, h)
  {
    var slow := s.handlers[h].slow;
    && (slow.id in m <==> OnPage(at, listed, s, h))
    && (slow.id in m ==> m[slow.id] == Shown(slow))
  }

  /** A page's map after a step, given the message the step adds to its future. */
  function WithSent(m: map<string, Slow>, sent: Sent): map<string, Slow> {
    match sent
    case Broadcasts(SlowStart(slow)) => m[slow.id := Shown(slow)]
    case Broadcasts(SlowEnd(id, _, _)) => m - {id}
    case _ => m
  }

  ghost predicate Hears(s: State, e: Event, c: ConnId) {
    e.SlowStartBroadcast? || e.SlowEndBroadcast? ==> c in s.conns && |s.conns[c].queue| < QUEUE_SIZE
  }

  ghost predicate Hearing(b: Behavior, c: ConnId, i: nat, j: nat) {
    j <= |b.events| < |b.states| && forall k | i <= k < j :: Hears(b.states[k], b.events[k], c)
  }

  lemma OtherStep(at: State, listed: set<string>, s: State, e: Event, m: map<string, Slow>, h: HandlerId)
    requires Enabled(s, e) && IdsDistinct(s) && IsJob(s, h) && JobShown(at, listed, s, m, h)
    requires !((e.SlowStartBroadcast? || e.SlowEndBroadcast?) && e.h == h)
    ensures JobShown(at, listed, Next(s, e), WithSent(m, Broadcast(s, e)), h)
  {
    if e.SlowStartBroadcast? || e.SlowEndBroadcast? {
      assert IsJob(s, e.h) && s.handlers[e.h].slow.id != s.handlers[h].slow.id;
    }
  }

  lemma JobStep(at: State, listed: set<string>, s: State, e: Event, m: map<string, Slow>, h: HandlerId)
    requires Enabled(s, e) && IdsDistinct(s) && PageIs(at, listed, s, m) && Follows(at, s, h)
    requires forall id | id in listed :: exists g :: Shows(s, g, id)
    requires IsJob(Next(s, e), h)
    ensures JobShown(at, listed, Next(s, e), WithSent(m, Broadcast(s, e)), h)
  {
    if IsJob(s, h) {
      assert JobShown(at, listed, s, m, h);
      if !((e.SlowStartBroadcast? || e.SlowEndBroadcast?) && e.h == h) { OtherStep(at, listed, s, e, m, h); }
    }
  }

  lemma PageStep(at: State, listed: set<string>, s: State, e: Event, m: map<string, Slow>)
    requires Enabled(s, e) && IdsDistinct(s) && PageIs(at, listed, s, m) && forall h :: Follows(at, s, h)
    requires forall id | id in listed :: exists g :: Shows(s, g, id)
    ensures PageIs(at, listed, Next(s, e), WithSent(m, Broadcast(s, e)))
  {
    var s', m' := Next(s, e), WithSent(m, Broadcast(s, e));
    forall h | IsJob(s', h) ensures JobShown(at, listed, s', m', h) { JobStep(at, listed, s, e, m, h); }
    forall id | id in m'
      ensures exists h :: Shows(s', h, id)
    {
      if id in m {
        var h :| Shows(s, h, id);
        assert Shows(s', h, id);
      } else {
        assert Shows(s', e.h, id);
      }
    }
  }

  lemma PendingSlows(s: State, e: Event, c: ConnId)
    requires Enabled(s, e) && Live(s, c) && Live(Next(s, e), c) && Hears(s, e, c)
    ensures Pending(Next(s, e), c).activeSlows == WithSent(Pending(s, c).activeSlows, Broadcast(s, e))
  {
    PendingStep(s, e, c);
  }

  /** Every listed job is still somebody's. */
  lemma ListedJobs(b: Behavior, q: nat, j: nat, listing: seq<SlowEntry>)
    requires IsBehavior(b) && q <= j <= |b.events| && Lists(listing, b.states[q].slows)
    ensures forall id | id in Ids(listing) ::
              exists h :: Shows(b.states[j], h, id) && b.states[q].slows[id] == b.states[j].handlers[h].slow
  {
    SlowsAlways(b, q);
    forall id | id in Ids(listing)
      ensures exists h :: Shows(b.states[j], h, id) && b.states[q].slows[id] == b.states[j].handlers[h].slow
    {
      var h :| Holds(b.states[q], h, id);
      JobsProgress(b, q, j, h);
      assert Shows(b.states[j], h, id);
    }
  }

  lemma FirstPage(b: Behavior, c: ConnId, r: nat, q: nat, i: nat)
    requires IsBehavior(b) && Session(b, c, r, q, i)
    ensures Live(b.states[i + 1], c)
    ensures PageIs(b.states[i], Ids(b.events[q].listing), b.states[i + 1], Pending(b.states[i + 1], c).activeSlows)
  {
    SubscribedWithSnapshot(b, c, r, q, i);
    var listing := b.events[q].listing;
    var m := Fill(listing);
    var s := b.states[i];
    FillIsListing(listing, b.states[q].slows);
    ListedJobs(b, q, i, listing);
    SlowsAlways(b, i);
    assert StepAt(b, i) && b.states[i + 1].handlers == s.handlers;
    assert forall id :: id in m <==> id in Ids(listing);
    forall h | IsJob(s, h)
      ensures s.handlers[h].slow.id in m ==> m[s.handlers[h].slow.id] == Shown(s.handlers[h].slow)
    {
      var id := s.handlers[h].slow.id;
      if id in m {
        var g :| Shows(s, g, id) && b.states[q].slows[id] == s.handlers[g].slow;
        assert g == h;
      }
    }
    var s' := b.states[i + 1];
    forall id | id in m
      ensures exists h :: Shows(s', h, id)
    {
      var h :| Shows(s, h, id) && b.states[q].slows[id] == s.handlers[h].slow;
      assert Shows(s', h, id);
    }
  }

  lemma {:induction false} PageAlways(b: Behavior, c: ConnId, r: nat, q: nat, i: nat, j: nat)
    requires IsBehavior(b) && Session(b, c, r, q, i) && i < j <= |b.events|
    requires StaysSubscribed(b, c, i + 1, j) && Hearing(b, c, i + 1, j)
    ensures Live(b.states[j], c)
    ensures PageIs(b.states[i], Ids(b.events[q].listing), b.states[j], Pending(b.states[j], c).activeSlows)
    decreases j
  {
    if j == i + 1 {
      FirstPage(b, c, r, q, i);
    } else {
      PageAlways(b, c, r, q, i, j - 1);
      PageInto(b, c, r, q, i, j);
    }
  }

  lemma PageInto(b: Behavior, c: ConnId, r: nat, q: nat, i: nat, j: nat)
    requires IsBehavior(b) && Session(b, c, r, q, i) && i + 1 < j <= |b.events|
    requires StaysSubscribed(b, c, i + 1, j) && Hearing(b, c, i + 1, j)
    requires Live(b.states[j - 1], c)
    requires PageIs(b.states[i], Ids(b.events[q].listing), b.states[j - 1], Pending(b.states[j - 1], c).activeSlows)
    ensures Live(b.states[j], c)
    ensures PageIs(b.states[i], Ids(b.events[q].listing), b.states[j], Pending(b.states[j], c).activeSlows)
  {
    var s, e, listing := b.states[j - 1], b.events[j - 1], b.events[q].listing;
    assert StepAt(b, j - 1) && Live(b.states[j], c) && Hears(s, e, c);
    SubscribedWithSnapshot(b, c, r, q, i);
    SlowsAlways(b, j - 1);
    forall h ensures Follows(b.states[i], s, h) { JobsProgress(b, i, j - 1, h); }
    ListedJobs(b, q, j - 1, listing);
    forall id | id in Ids(listing)
      ensures exists g :: Shows(s, g, id)
    {
      var g :| Shows(s, g, id) && b.states[q].slows[id] == s.handlers[g].slow;
    }
    PageStep(b.states[i], Ids(listing), s, e, Pending(s, c).activeSlows);
    PendingSlows(s, e, c);
  }

  // ---- coherence ----

  /** No /slow handler is between a change of the map and its broadcast. */
  ghost predicate Quiescent(s: State) {
    forall h | h in s.handlers :: !s.handlers[h].SlowAdded? && !s.handlers[h].SlowRemoved?
  }

  ghost predicate Coherent(s: State, c: ConnId) {
    Live(s, c) && Agrees(Pending(s, c).activeSlows, s.slows)
  }

  /** A job was listed and its end broadcast before the subscription. */
  ghost predicate NoneStale(at: State, listed: set<string>) {
    forall h | IsJob(at, h) && at.handlers[h].SlowDone? :: at.handlers[h].slow.id !in listed
  }

  /** No job whose start was broadcast after the listing and before the subscription is
      still running. */
  ghost predicate NoneMissed(at: State, listed: set<string>, s: State) {
    forall h | IsJob(at, h) && at.handlers[h].SlowRunning? && IsJob(s, h) && s.handlers[h].SlowRunning? ::
      at.handlers[h].slow.id in listed
  }

  /** Exactly when a page is right. Take any connection, whatever others do, as long as no
      slow_start or slow_end finds this page's queue full. At every moment at which no
      handler is between a change and its broadcast, the page shows exactly the server's
      active jobs, each with its own delay and start, if and only if no listed job ended
      before the subscription and every job running since before it was listed. */
  lemma SlowJobsCoherent(b: Behavior, c: ConnId, r: nat, q: nat, i: nat, j: nat)
    requires IsBehavior(b) && Session(b, c, r, q, i) && i < j <= |b.events| && StaysSubscribed(b, c, i + 1, j)
    requires Hearing(b, c, i + 1, j) && Quiescent(b.states[j])
    ensures Coherent(b.states[j], c)
       <==> NoneStale(b.states[i], Ids(b.events[q].listing)) && NoneMissed(b.states[i], Ids(b.events[q].listing), b.states[j])
  {
    PageAlways(b, c, r, q, i, j);
    SlowsAlways(b, j);
    forall h ensures Follows(b.states[i], b.states[j], h) { JobsProgress(b, i, j, h); }
    ShownIff(b.states[i], Ids(b.events[q].listing), b.states[j], Pending(b.states[j], c).activeSlows);
    AgreesIsShown(Pending(b.states[j], c).activeSlows, b.states[j].slows);
  }

  ghost predicate Right(s: State, m: map<string, Slow>, h: HandlerId)
    requires IsJob(s, h)
  {
    s.handlers[h].slow.id in m <==> s.handlers[h].SlowRunning?
  }

  lemma ShownIff(at: State, listed: set<string>, s: State, m: map<string, Slow>)
    requires SlowsOk(s) && Quiescent(s) && PageIs(at, listed, s, m) && forall h :: Follows(at, s, h)
    ensures m == (map id | id in s.slows :: Shown(s.slows[id])) <==> NoneStale(at, listed) && NoneMissed(at, listed, s)
  {
    var goal := map id | id in s.slows :: Shown(s.slows[id]);
    RightIff(at, listed, s, m);
    if forall h | IsJob(s, h) :: Right(s, m, h) {
      forall id | id in m
        ensures id in s.slows && m[id] == Shown(s.slows[id])
      {
        var h :| Shows(s, h, id);
        assert Right(s, m, h) && JobShown(at, listed, s, m, h);
      }
      forall id | id in s.slows
        ensures id in m
      {
        var h :| Holds(s, h, id);
        assert Right(s, m, h);
      }
      assert m == goal;
    }
    if m == goal {
      forall h | IsJob(s, h)
        ensures Right(s, m, h)
      {
        var id := s.handlers[h].slow.id;
        if id in m {
          var g :| Holds(s, g, id);
          assert g == h;
        }
      }
    }
  }

  lemma RightIff(at: State, listed: set<string>, s: State, m: map<string, Slow>)
    requires Quiescent(s) && PageIs(at, listed, s, m) && forall h :: Follows(at, s, h)
    ensures (forall h | IsJob(s, h) :: Right(s, m, h)) <==> NoneStale(at, listed) && NoneMissed(at, listed, s)
  {
    forall h | IsJob(s, h)
      ensures Right(s, m, h)
         <==> if s.handlers[h].SlowDone? then !(IsJob(at, h) && at.handlers[h].SlowDone? && s.handlers[h].slow.id in listed)
              else IsJob(at, h) && at.handlers[h].SlowRunning? ==> s.handlers[h].slow.id in listed
    {
      assert JobShown(at, listed, s, m, h) && Follows(at, s, h);
    }
    if forall h | IsJob(s, h) :: Right(s, m, h) {
      forall h | IsJob(at, h)
        ensures at.handlers[h].SlowDone? ==> at.handlers[h].slow.id !in listed
        ensures at.handlers[h].SlowRunning? && IsJob(s, h) && s.handlers[h].SlowRunning? ==> at.handlers[h].slow.id in listed
      {
        assert Follows(at, s, h) && Right(s, m, h);
      }
    }
    if NoneStale(at, listed) && NoneMissed(at, listed, s) {
      forall h | IsJob(s, h) ensures Right(s, m, h) { assert Follows(at, s, h); }
    }
  }

  /** In particular when no start or end is broadcast between listing and subscription. */
  lemma QuietGap(b: Behavior, q: nat, i: nat, j: nat, listing: seq<SlowEntry>)
    requires IsBehavior(b) && q <= i <= j <= |b.events| && Lists(listing, b.states[q].slows)
    requires forall k | q <= k < i :: !b.events[k].SlowStartBroadcast? && !b.events[k].SlowEndBroadcast?
    ensures NoneStale(b.states[i], Ids(listing)) && NoneMissed(b.states[i], Ids(listing), b.states[j])
  {
    SlowsAlways(b, q);
    forall h | IsJob(b.states[i], h)
      ensures b.states[i].handlers[h].SlowDone? ==> b.states[i].handlers[h].slow.id !in Ids(listing)
      ensures b.states[i].handlers[h].SlowRunning? ==> b.states[i].handlers[h].slow.id in Ids(listing)
    {
      StageStays(b, q, i, h);
      JobsProgress(b, q, i, h);
      if b.states[i].handlers[h].SlowRunning? {
        assert Holds(b.states[q], h, b.states[i].handlers[h].slow.id);
      }
    }
  }

  lemma {:induction false} StageStays(b: Behavior, q: nat, i: nat, h: HandlerId)
    requires IsBehavior(b) && q <= i <= |b.events| && IsJob(b.states[i], h)
    requires forall k | q <= k < i :: !b.events[k].SlowStartBroadcast? && !b.events[k].SlowEndBroadcast?
    ensures b.states[i].handlers[h].SlowDone? ==> IsJob(b.states[q], h) && b.states[q].handlers[h].SlowDone?
    ensures b.states[i].handlers[h].SlowRunning? ==> IsJob(b.states[q], h) && b.states[q].handlers[h].SlowRunning?
    decreases i
  {
    if q < i {
      assert StepAt(b, i - 1);
      if IsJob(b.states[i - 1], h) { StageStays(b, q, i - 1, h); }
    }
  }

  /** A listed job whose end was broadcast before the subscription shows for as long as the
      connection lasts, though it is over. */
  lemma EndInTheGapIsLost(b: Behavior, c: ConnId, r: nat, q: nat, i: nat, j: nat, h: HandlerId)
    requires IsBehavior(b) && Session(b, c, r, q, i) && i < j <= |b.events|
    requires StaysSubscribed(b, c, i + 1, j) && Hearing(b, c, i + 1, j)
    requires IsJob(b.states[i], h) && b.states[i].handlers[h].SlowDone? && b.states[i].handlers[h].slow.id in Ids(b.events[q].listing)
    ensures b.states[i].handlers[h].slow.id in Pending(b.states[j], c).activeSlows
    ensures b.states[i].handlers[h].slow.id !in b.states[j].slows
  {
    PageAlways(b, c, r, q, i, j);
    JobsProgress(b, i, j, h);
    SlowsAlways(b, j);
    assert JobShown(b.states[i], Ids(b.events[q].listing), b.states[j], Pending(b.states[j], c).activeSlows, h);
  }

  // ---- the gap is real ----

  /** One job under way, its start broadcast. */
  lemma OneJob(slow: SlowEntry) returns (b: Behavior)
    ensures IsBehavior(b) && |b.events| == 2
    ensures Last(b) == START.(slows := map[slow.id := slow], handlers := map[0 := SlowRunning(slow)])
  {
    b := Behavior([START], []);
    b := Extend(b, SlowAdd(0, slow));
    b := Extend(b, SlowStartBroadcast(0));
    assert Last(b).conns == map[];
    assert Last(b).handlers == map[0 := SlowRunning(slow)];
  }

  /** A connection that lists it just before it ends, and subscribes just after. */
  lemma EndInTheGapIsReachable(slow: SlowEntry, page: Browser) returns (b: Behavior)
    ensures IsBehavior(b) && |b.events| == 7 && Session(b, 0, 2, 3, 6) && Quiescent(b.states[7])
    ensures Live(b.states[7], 0) && b.states[7].slows == map[]
    ensures slow.id in Pending(b.states[7], 0).activeSlows && !Coherent(b.states[7], 0)
  {
    b := OneJob(slow);
    b := Extend(b, ReadStore(0, page));
    assert Lists([slow], Last(b).slows);
    b := Extend(b, ReadSlows(0, [slow]));
    b := Extend(b, SlowRemove(0));
    assert Last(b).slows == map[];
    b := Extend(b, SlowEndBroadcast(0, 0, false));
    b := Extend(b, Subscribe(0));
    SubscribedWithSnapshot(b, 0, 2, 3, 6);
    FillHas([slow], slow);
  }
}
