/**
  Every interleaving of arrivals, cancellations, claims, aborts and permit drops on the allocator:
  capacity safety, work conservation, bounded bypass, starvation freedom, and what an aborted
  grant costs.
*/
module FairScheduling {
  import opened Wrappers
  import opened FairCapacity
  import opened Sets

  /**
    `live`: waiting futures whose receiver exists. `granted`: futures whose sender has fired and
    that have not built their permit. `permits`: permits in existence. `leaked`: fired senders
    whose future is gone. `used`: every waiter identity so far.
  */
  datatype System = System(
    book: Book, live: set<Waiter>, granted: set<Waiter>, permits: set<Waiter>, leaked: nat, used: set<Waiter>)

  datatype Event =
    | Arrive(waiter: Waiter, campaign: Campaign)
    | Cancel(waiter: Waiter)
    | Claim(waiter: Waiter)
    | Abort(waiter: Waiter)
    | DropPermit(waiter: Waiter)

  function Init(capacity: nat): System {
    System(Book(capacity, 0, None, map[]), {}, {}, {}, 0, {})
  }

  predicate Enabled(s: System, e: Event) {
    match e
    case Arrive(w, _) => w !in s.used
    case Cancel(w) => w in s.live
    case Claim(w) => w in s.granted
    case Abort(w) => w in s.granted
    case DropPermit(w) => w in s.permits
  }

  function Winners(grants: seq<Grant>): set<Waiter> {
    set g | g in grants :: g.waiter
  }

  function Step(s: System, e: Event): System {
    match e
    case Arrive(w, c) =>
      var (book, immediate) := Acquired(s.book, c, w);
      if immediate then s.(book := book, permits := s.permits + {w}, used := s.used + {w})
      else s.(book := book, live := s.live + {w}, used := s.used + {w})
    case Cancel(w) => s.(live := s.live - {w})
    case Claim(w) => s.(granted := s.granted - {w}, permits := s.permits + {w})
    case Abort(w) => s.(granted := s.granted - {w}, leaked := s.leaked + 1)
    case DropPermit(w) =>
      var (book, grants) := Released(s.book, s.live);
      s.(book := book, live := s.live - Winners(grants),
         granted := s.granted + Winners(grants), permits := s.permits - {w})
  }

  function GrantsOf(s: System, e: Event): seq<Grant> {
    if e.DropPermit? then Released(s.book, s.live).1 else []
  }

  predicate Run(s: System, events: seq<Event>)
    decreases |events|
  {
    events == [] || (Enabled(s, events[0]) && Run(Step(s, events[0]), events[1..]))
  }

  function After(s: System, events: seq<Event>): System
    decreases |events|
  {
    if events == [] then s else After(Step(s, events[0]), events[1..])
  }

  // ---------------------------------------------------------------------------------------------
  // The invariant
  // ---------------------------------------------------------------------------------------------

  ghost predicate Queued(waiting: Queues, w: Waiter) {
    exists c :: c in waiting && w in waiting[c]
  }

  ghost predicate QueuesOk(waiting: Queues) {
    && (forall c :: c in waiting ==> waiting[c] != [])
    && (forall c, i, j :: c in waiting && 0 <= i < j < |waiting[c]| ==> waiting[c][i] != waiting[c][j])
    && (forall c, d, w :: c in waiting && d in waiting && w in waiting[c] && w in waiting[d] ==> c == d)
  }

  ghost predicate Inv(s: System) {
    && s.book.capacity > 0
    && s.book.active == |s.permits| + |s.granted| + s.leaked
    && s.book.active <= s.book.capacity
    && (s.book.waiting != map[] ==> s.book.active == s.book.capacity)
    && QueuesOk(s.book.waiting)
    && (forall w :: w in s.live ==> Queued(s.book.waiting, w))
    && (forall w :: Queued(s.book.waiting, w) ==> w in s.used && w !in s.permits && w !in s.granted)
    && s.permits <= s.used && s.granted <= s.used && s.permits !! s.granted
  }

  lemma PopKeepsQueues(waiting: Queues, c: Campaign)
    requires QueuesOk(waiting) && c in waiting
    ensures QueuesOk(Pop(waiting, c))
    ensures forall w :: Queued(waiting, w) <==> Queued(Pop(waiting, c), w) || w == waiting[c][0]
    ensures !Queued(Pop(waiting, c), waiting[c][0])
  {
    var popped := Pop(waiting, c);
    var head := waiting[c][0];
    assert waiting[c] == [head] + waiting[c][1..];
    forall d, w | d in popped && w in popped[d] ensures d in waiting && w in waiting[d] && w != head {
    }
    forall d, w | d in waiting && w in waiting[d] && w != head ensures d in popped && w in popped[d] {
    }
  }

  /** With one free slot the loop grants at most once, and exactly once if a live waiter is queued. */
  lemma {:induction false} ServeOnce(b: Book, live: set<Waiter>)
    requires QueuesOk(b.waiting)
    requires b.waiting != map[] ==> b.active + 1 == b.capacity
    requires b.active <= b.capacity
    ensures var (b', grants) := Serve(b, live);
            && |grants| <= 1 && b'.active == b.active + |grants| && b'.capacity == b.capacity
            && QueuesOk(b'.waiting)
            && (b'.waiting != map[] ==> b'.active == b'.capacity)
            && (forall w :: w in Winners(grants) ==> w in live && Queued(b.waiting, w) && !Queued(b'.waiting, w))
            && (forall w :: Queued(b'.waiting, w) ==> Queued(b.waiting, w))
            && (forall w :: w in live && Queued(b.waiting, w) ==> w in Winners(grants) || Queued(b'.waiting, w))
    decreases Slots(b.waiting)
  {
    if Serving(b) {
      var next := NextCampaign(b.waiting.Keys, b.last);
      PopShrinks(b.waiting, next);
      PopKeepsQueues(b.waiting, next);
      var turn := Turn(b, live);
      if turn.1 == [] {
        ServeOnce(turn.0, live);
        assert Serve(b, live) == Serve(turn.0, live) by {
          assert turn.1 + Serve(turn.0, live).1 == Serve(turn.0, live).1;
        }
      } else {
        assert turn.1 + Serve(turn.0, live).1 == turn.1;
      }
    }
  }

  lemma EnqueueKeepsQueues(waiting: Queues, c: Campaign, w: Waiter)
    requires QueuesOk(waiting) && !Queued(waiting, w)
    ensures QueuesOk(Enqueue(waiting, c, w))
    ensures forall x :: Queued(Enqueue(waiting, c, w), x) <==> Queued(waiting, x) || x == w
  {
    var waiting' := Enqueue(waiting, c, w);
    assert waiting'[c][|waiting'[c]| - 1] == w;
    forall d, x | d in waiting' && x in waiting'[d] ensures x == w || (d in waiting && x in waiting[d]) {
    }
    forall d, x | d in waiting && x in waiting[d] ensures d in waiting' && x in waiting'[d] {
    }
  }

  lemma ArriveKeepsInv(s: System, w: Waiter, c: Campaign)
    requires Inv(s) && w !in s.used
    ensures Inv(Step(s, Arrive(w, c)))
  {
    if !Acquired(s.book, c, w).1 {
      EnqueueKeepsQueues(s.book.waiting, c, w);
    }
  }

  lemma WinnersAtMostOne(grants: seq<Grant>)
    requires |grants| <= 1
    ensures |Winners(grants)| == |grants|
  {
    if grants != [] {
      assert grants == [grants[0]];
      assert grants[0] in grants;
      assert Winners(grants) == {grants[0].waiter};
    }
  }

  lemma DropKeepsInv(s: System, w: Waiter)
    requires Inv(s) && w in s.permits
    ensures Inv(Step(s, DropPermit(w)))
  {
    var b := s.book.(active := SaturatingDecrement(s.book.active));
    assert |s.permits - {w}| == |s.permits| - 1;
    ServeOnce(b, s.live);
    var grants := Serve(b, s.live).1;
    WinnersAtMostOne(grants);
    assert s.granted !! Winners(grants);
    assert |s.granted + Winners(grants)| == |s.granted| + |Winners(grants)|;
  }

  lemma StepKeepsInv(s: System, e: Event)
    requires Inv(s) && Enabled(s, e)
    ensures Inv(Step(s, e))
  {
    match e
    case Arrive(w, c) => ArriveKeepsInv(s, w, c);
    case Cancel(w) =>
    case Claim(w) =>
    case Abort(w) =>
    case DropPermit(w) => DropKeepsInv(s, w);
  }

  lemma InitInv(capacity: nat)
    requires capacity > 0
    ensures Inv(Init(capacity))
  {
  }

  /**
    Capacity safety and work conservation in every reachable state. The last clause says that no
    live receiver has lost its sender, so the receive error that `acquire` ignores cannot occur;
    the one before it that `saturating_sub` never saturates.
  */
  lemma {:induction false} EveryReachableState(s: System, events: seq<Event>)
    requires Inv(s) && Run(s, events)
    ensures var t := After(s, events);
            && Inv(t)
            && |t.permits| <= t.book.active <= t.book.capacity == s.book.capacity
            && (t.book.waiting != map[] ==> t.book.active == t.book.capacity)
            && (forall c :: c in t.book.waiting ==> t.book.waiting[c] != [])
            && (t.permits != {} ==> t.book.active > 0)
            && (forall w :: w in t.live ==> Queued(t.book.waiting, w))
    decreases |events|
  {
    if events == [] {
      if s.permits != {} {
        var w :| w in s.permits;
        assert |s.permits - {w}| == |s.permits| - 1;
      }
    } else {
      StepKeepsInv(s, events[0]);
      if events[0].DropPermit? {
        DropServes(s, events[0].waiter);
      }
      EveryReachableState(Step(s, events[0]), events[1..]);
    }
  }

  /** The same from a new allocator: its permits never exceed its capacity, and nobody waits while a slot is free. */
  lemma EveryRunFromInit(capacity: nat, events: seq<Event>)
    requires capacity > 0 && Run(Init(capacity), events)
    ensures var t := After(Init(capacity), events);
            && Inv(t)
            && |t.permits| <= t.book.active <= t.book.capacity == capacity
            && (t.book.waiting != map[] ==> t.book.active == capacity)
            && (forall w :: w in t.live ==> Queued(t.book.waiting, w))
  {
    InitInv(capacity);
    EveryReachableState(Init(capacity), events);
  }

  /** A release hands out at most one grant, and exactly one whenever a live waiter is queued. */
  lemma DropServes(s: System, w: Waiter)
    requires Inv(s) && w in s.permits
    ensures var grants := GrantsOf(s, DropPermit(w));
            && |grants| <= 1
            && (s.live != {} ==> |grants| == 1)
            && Step(s, DropPermit(w)).book.capacity == s.book.capacity
  {
    var b := s.book.(active := SaturatingDecrement(s.book.active));
    assert |s.permits - {w}| == |s.permits| - 1;
    ServeOnce(b, s.live);
    if s.live != {} {
      var x :| x in s.live;
      assert x in Winners(Serve(b, s.live).1) || Queued(Serve(b, s.live).0.waiting, x);
    }
  }

  // ---------------------------------------------------------------------------------------------
  // Fairness
  // ---------------------------------------------------------------------------------------------

  /** Live waiters ahead of `w` in its own queue. */
  function Ahead(queue: seq<Waiter>, w: Waiter, live: set<Waiter>): nat {
    if queue == [] || queue[0] == w then 0
    else (if queue[0] in live then 1 else 0) + Ahead(queue[1..], w, live)
  }

  ghost predicate Waits(s: System, c: Campaign, w: Waiter) {
    w in s.live && c in s.book.waiting && w in s.book.waiting[c]
  }

  function AheadOf(s: System, c: Campaign, w: Waiter): nat
    requires c in s.book.waiting
  {
    Ahead(s.book.waiting[c], w, s.live)
  }

  /** What one grant may do to the queue of a waiter that keeps waiting. */
  ghost predicate FairGrant(b: Book, b': Book, g: Grant, live: set<Waiter>, c: Campaign, w: Waiter) {
    && b'.last == Some(g.campaign) && g.campaign in b.waiting
    && (g.waiter == w ==> g.campaign == c)
    && (g.campaign != c ==> Sooner(b.last, g.campaign, c))
    && (g.waiter != w ==>
          && c in b.waiting && w in b.waiting[c]
          && c in b'.waiting && w in b'.waiting[c]
          && Ahead(b'.waiting[c], w, live) == Ahead(b.waiting[c], w, live) - (if g.campaign == c then 1 else 0))
  }

  lemma {:induction false} ServeIsFair(b: Book, live: set<Waiter>, c: Campaign, w: Waiter)
    requires QueuesOk(b.waiting) && b.active + 1 == b.capacity
    requires c in b.waiting && w in b.waiting[c] && w in live
    ensures var (b', grants) := Serve(b, live);
            |grants| == 1 && FairGrant(b, b', grants[0], live, c, w)
    decreases Slots(b.waiting)
  {
    var next := NextCampaign(b.waiting.Keys, b.last);
    PopShrinks(b.waiting, next);
    PopKeepsQueues(b.waiting, next);
    var turn := Turn(b, live);
    if turn.1 == [] {
      ServeIsFair(turn.0, live, c, w);
      assert turn.1 + Serve(turn.0, live).1 == Serve(turn.0, live).1;
    } else {
      assert turn.1 + Serve(turn.0, live).1 == turn.1;
    }
  }

  lemma {:induction false} AheadOfRest(queue: seq<Waiter>, w: Waiter, live: set<Waiter>, live': set<Waiter>)
    requires live' <= live
    ensures Ahead(queue, w, live') <= Ahead(queue, w, live)
  {
    if queue == [] {
    } else {
      AheadOfRest(queue[1..], w, live, live');
    }
  }

  lemma {:induction false} AheadIgnoresOutsiders(
    queue: seq<Waiter>, w: Waiter, live: set<Waiter>, live': set<Waiter>, suffix: seq<Waiter>)
    requires w in queue
    requires forall x :: x in queue ==> (x in live <==> x in live')
    ensures Ahead(queue + suffix, w, live') == Ahead(queue, w, live)
  {
    if queue[0] != w {
      assert (queue + suffix)[1..] == queue[1..] + suffix;
      AheadIgnoresOutsiders(queue[1..], w, live, live', suffix);
    }
  }

  lemma ArriveIsFair(s: System, x: Waiter, d: Campaign, c: Campaign, w: Waiter)
    requires Inv(s) && x !in s.used && Waits(s, c, w)
    ensures var s' := Step(s, Arrive(x, d)); Waits(s', c, w) && AheadOf(s', c, w) == AheadOf(s, c, w)
  {
    var s' := Step(s, Arrive(x, d));
    var queue := s.book.waiting[c];
    assert forall y :: y in queue ==> Queued(s.book.waiting, y);
    AheadIgnoresOutsiders(queue, w, s.live, s'.live, if d == c then [x] else []);
    assert s'.book.waiting[c] == queue + (if d == c then [x] else []);
  }

  lemma DropIsFair(s: System, x: Waiter, c: Campaign, w: Waiter)
    requires Inv(s) && x in s.permits && Waits(s, c, w)
    ensures var grants := GrantsOf(s, DropPermit(x));
            |grants| == 1 && FairGrant(s.book, Step(s, DropPermit(x)).book, grants[0], s.live, c, w)
  {
    assert |s.permits - {x}| == |s.permits| - 1;
    ServeIsFair(s.book.(active := SaturatingDecrement(s.book.active)), s.live, c, w);
  }

  ghost predicate Progress(s: System, e: Event, s': System, c: Campaign, w: Waiter)
    requires Waits(s, c, w) && Waits(s', c, w)
  {
    if e.DropPermit? then
      var grants := GrantsOf(s, e);
      && |grants| == 1 && grants[0].campaign in s.book.waiting
      && s'.book.last == Some(grants[0].campaign)
      && (grants[0].campaign != c ==> Sooner(s.book.last, grants[0].campaign, c))
      && AheadOf(s', c, w) <= AheadOf(s, c, w) - (if grants[0].campaign == c then 1 else 0)
    else
      s'.book.last == s.book.last && AheadOf(s', c, w) <= AheadOf(s, c, w)
  }

  /** A step that leaves `w` waiting never lengthens its wait, and a grant always shortens it. */
  lemma StepIsFair(s: System, e: Event, c: Campaign, w: Waiter)
    requires Inv(s) && Enabled(s, e) && Waits(s, c, w) && w in Step(s, e).live
    ensures Waits(Step(s, e), c, w) && Progress(s, e, Step(s, e), c, w)
  {
    var s' := Step(s, e);
    match e
    case Arrive(x, d) => ArriveIsFair(s, x, d, c, w);
    case Cancel(x) => AheadOfRest(s.book.waiting[c], w, s.live, s'.live);
    case Claim(x) =>
    case Abort(x) =>
    case DropPermit(x) =>
      DropIsFair(s, x, c, w);
      var grants := GrantsOf(s, e);
      assert grants[0] in grants && grants[0].waiter in Winners(grants);
      AheadOfRest(s'.book.waiting[c], w, s.live, s'.live);
  }

  function GrantsTo(s: System, events: seq<Event>, d: Campaign): nat
    decreases |events|
  {
    if events == [] then 0 else
      var grants := GrantsOf(s, events[0]);
      |set i | 0 <= i < |grants| && grants[i].campaign == d| + GrantsTo(Step(s, events[0]), events[1..], d)
  }

  function Drops(events: seq<Event>): nat {
    if events == [] then 0 else (if events[0].DropPermit? then 1 else 0) + Drops(events[1..])
  }

  /** Once a waiter is cancelled or granted it never waits again. */
  lemma {:induction false} NeverWaitsAgain(s: System, events: seq<Event>, w: Waiter)
    requires Run(s, events) && w in s.used && w !in s.live
    ensures w !in After(s, events).live
    decreases |events|
  {
    if events == [] {
    } else {
      NeverWaitsAgain(Step(s, events[0]), events[1..], w);
    }
  }

  /** Waiters whose sender fires during the run. */
  function Served(s: System, events: seq<Event>): set<Waiter>
    decreases |events|
  {
    if events == [] then {} else Winners(GrantsOf(s, events[0])) + Served(Step(s, events[0]), events[1..])
  }

  lemma {:induction false} LeavesByGrant(s: System, events: seq<Event>, w: Waiter)
    requires w in s.live && w !in After(s, events).live && Cancel(w) !in events
    ensures w in Served(s, events)
    decreases |events|
  {
    if w in Step(s, events[0]).live {
      LeavesByGrant(Step(s, events[0]), events[1..], w);
    }
  }

  lemma StillWaits(s: System, events: seq<Event>, c: Campaign, w: Waiter)
    requires Inv(s) && Run(s, events) && events != [] && Waits(s, c, w) && w in After(s, events).live
    ensures Inv(Step(s, events[0])) && Waits(Step(s, events[0]), c, w)
    ensures Progress(s, events[0], Step(s, events[0]), c, w)
  {
    StepKeepsInv(s, events[0]);
    assert Queued(s.book.waiting, w);
    if w !in Step(s, events[0]).live {
      NeverWaitsAgain(Step(s, events[0]), events[1..], w);
    }
    StepIsFair(s, events[0], c, w);
  }

  /** Turns campaign `d` may still take before `w`: one per live waiter ahead, one more if `d` comes first. */
  function BypassBudget(s: System, c: Campaign, w: Waiter, d: Campaign): nat
    requires c in s.book.waiting
  {
    AheadOf(s, c, w) + (if Sooner(s.book.last, d, c) then 1 else 0)
  }

  lemma {:induction false} GrantsSpendTheBudget(s: System, events: seq<Event>, c: Campaign, w: Waiter, d: Campaign)
    requires Inv(s) && Run(s, events) && Waits(s, c, w) && d != c && w in After(s, events).live
    ensures GrantsTo(s, events, d) <= BypassBudget(s, c, w, d)
    decreases |events|
  {
    if events == [] {
    } else {
      var s' := Step(s, events[0]);
      StillWaits(s, events, c, w);
      GrantsSpendTheBudget(s', events[1..], c, w, d);
      HitCount(GrantsOf(s, events[0]), d);
    }
  }

  lemma HitCount(grants: seq<Grant>, d: Campaign)
    requires |grants| <= 1
    ensures |set i | 0 <= i < |grants| && grants[i].campaign == d| ==
            if grants != [] && grants[0].campaign == d then 1 else 0
  {
    var hits := set i | 0 <= i < |grants| && grants[i].campaign == d;
    if grants != [] && grants[0].campaign == d {
      assert hits == {0};
    } else {
      assert hits == {};
    }
  }

  /**
    Bounded bypass: while `w` waits behind `p` live waiters of its own campaign, no other campaign
    is granted more than `p + 1` times, whatever arrives, is cancelled, aborted or released meanwhile.
  */
  lemma BoundedBypass(s: System, events: seq<Event>, c: Campaign, w: Waiter, d: Campaign)
    requires Inv(s) && Run(s, events) && Waits(s, c, w) && d != c
    requires GrantsTo(s, events, d) > AheadOf(s, c, w) + 1 && Cancel(w) !in events
    ensures w in Served(s, events)
  {
    if w in After(s, events).live {
      GrantsSpendTheBudget(s, events, c, w, d);
    } else {
      LeavesByGrant(s, events, w);
    }
  }

  ghost predicate CampaignsWithin(s: System, events: seq<Event>, all: set<Campaign>) {
    && s.book.waiting.Keys <= all
    && forall i :: 0 <= i < |events| && events[i].Arrive? ==> events[i].campaign in all
  }

  lemma {:induction false} ServeKeepsKeys(b: Book, live: set<Waiter>)
    ensures Serve(b, live).0.waiting.Keys <= b.waiting.Keys
    decreases Slots(b.waiting)
  {
    if Serving(b) {
      PopShrinks(b.waiting, NextCampaign(b.waiting.Keys, b.last));
      ServeKeepsKeys(Turn(b, live).0, live);
    }
  }

  /** Releases that can pass before `w` is served: full rounds for those ahead, then the rest of this round. */
  ghost function WaitBound(s: System, c: Campaign, w: Waiter, all: set<Campaign>): nat
    requires c in s.book.waiting
  {
    AheadOf(s, c, w) * |all| + |SoonerThan(s.book.last, c, all)|
  }

  lemma WaitBoundIsSmall(s: System, c: Campaign, w: Waiter, all: set<Campaign>)
    requires c in s.book.waiting && c in all
    ensures WaitBound(s, c, w, all) < (AheadOf(s, c, w) + 1) * |all|
  {
    OwnTurn(s.book.last, c, all, AheadOf(s, c, w) + 1, AheadOf(s, c, w));
  }

  lemma OneMore(a: nat, n: nat)
    ensures (a + 1) * n == a * n + n
  {
  }

  /** The campaigns of `all` that come before `c` in the current round. */
  ghost function SoonerThan(last: Option<Campaign>, c: Campaign, all: set<Campaign>): set<Campaign> {
    set d | d in all && Sooner(last, d, c)
  }

  lemma OwnTurn(last: Option<Campaign>, c: Campaign, all: set<Campaign>, ahead: nat, ahead': nat)
    requires c in all && ahead' + 1 <= ahead
    ensures ahead' * |all| + |SoonerThan(last, c, all)| + 1 <= ahead * |all|
  {
    var sooner := SoonerThan(last, c, all);
    assert sooner <= all - {c};
    SubsetIsSmaller(sooner, all - {c});
    assert |all - {c}| == |all| - 1;
    OneMore(ahead', |all|);
    Product(ahead' + 1, ahead, |all|);
  }

  lemma OtherTurn(last: Option<Campaign>, last': Option<Campaign>, c: Campaign, d: Campaign, all: set<Campaign>,
                  ahead: nat, ahead': nat)
    requires ahead' <= ahead && d in SoonerThan(last, c, all)
    requires SoonerThan(last', c, all) <= SoonerThan(last, c, all) - {d}
    ensures ahead' * |all| + |SoonerThan(last', c, all)| + 1 <= ahead * |all| + |SoonerThan(last, c, all)|
  {
    SubsetIsSmaller(SoonerThan(last', c, all), SoonerThan(last, c, all) - {d});
    Product(ahead', ahead, |all|);
  }

  lemma WaitBoundDrops(s: System, e: Event, c: Campaign, w: Waiter, all: set<Campaign>)
    requires Inv(s) && Enabled(s, e) && Waits(s, c, w) && Waits(Step(s, e), c, w)
    requires s.book.waiting.Keys <= all
    requires Progress(s, e, Step(s, e), c, w)
    ensures WaitBound(Step(s, e), c, w, all) + (if e.DropPermit? then 1 else 0) <= WaitBound(s, c, w, all)
  {
    var s' := Step(s, e);
    var ahead, ahead' := AheadOf(s, c, w), AheadOf(s', c, w);
    if e.DropPermit? {
      var g := GrantsOf(s, e)[0];
      if g.campaign == c {
        OwnTurn(s'.book.last, c, all, ahead, ahead');
      } else {
        OtherTurn(s.book.last, s'.book.last, c, g.campaign, all, ahead, ahead');
      }
    } else {
      assert SoonerThan(s'.book.last, c, all) == SoonerThan(s.book.last, c, all);
      Product(ahead', ahead, |all|);
    }
  }

  lemma Product(a: nat, b: nat, n: nat)
    requires a <= b
    ensures a * n <= b * n
  {
  }

  lemma {:induction false} DropsSpendTheBound(
    s: System, events: seq<Event>, c: Campaign, w: Waiter, all: set<Campaign>)
    requires Inv(s) && Run(s, events) && Waits(s, c, w) && w in After(s, events).live
    requires CampaignsWithin(s, events, all)
    ensures Drops(events) <= WaitBound(s, c, w, all)
    decreases |events|
  {
    if events == [] {
    } else {
      var s' := Step(s, events[0]);
      StillWaits(s, events, c, w);
      WaitBoundDrops(s, events[0], c, w, all);
      ServeKeepsKeys(s.book.(active := SaturatingDecrement(s.book.active)), s.live);
      assert CampaignsWithin(s', events[1..], all);
      DropsSpendTheBound(s', events[1..], c, w, all);
    }
  }

  /**
    Starvation freedom: with campaigns drawn from `all`, a waiter that is never cancelled and has
    `p` live waiters ahead of it is granted by the `(p + 1) * |all|`-th permit release.
  */
  lemma StarvationFreedom(s: System, events: seq<Event>, c: Campaign, w: Waiter, all: set<Campaign>)
    requires Inv(s) && Run(s, events) && Waits(s, c, w) && CampaignsWithin(s, events, all)
    requires Drops(events) >= (AheadOf(s, c, w) + 1) * |all| && Cancel(w) !in events
    ensures w in Served(s, events)
  {
    WaitBoundIsSmall(s, c, w, all);
    if w in After(s, events).live {
      DropsSpendTheBound(s, events, c, w, all);
    } else {
      LeavesByGrant(s, events, w);
    }
  }

  // ---------------------------------------------------------------------------------------------
  // Aborted grants
  // ---------------------------------------------------------------------------------------------

  function Aborts(events: seq<Event>): nat {
    if events == [] then 0 else (if events[0].Abort? then 1 else 0) + Aborts(events[1..])
  }

  /**
    A future dropped between its grant and its permit takes one slot with it for good: the slots
    that can ever be used again shrink by exactly the number of such drops.
  */
  lemma {:induction false} AbortedGrantsNeverReturn(s: System, events: seq<Event>)
    requires Inv(s) && Run(s, events)
    ensures var t := After(s, events);
            && t.leaked == s.leaked + Aborts(events)
            && |t.permits| + |t.granted| <= s.book.capacity - t.leaked
    decreases |events|
  {
    if events == [] {
    } else {
      StepKeepsInv(s, events[0]);
      if events[0].DropPermit? {
        DropServes(s, events[0].waiter);
      }
      AbortedGrantsNeverReturn(Step(s, events[0]), events[1..]);
    }
  }

  /** The allocator is dead, in every continuation, exactly when as many grants were aborted as there are slots. */
  lemma DeadExactlyWhenAllSlotsLeaked(s: System)
    requires Inv(s)
    ensures s.leaked == s.book.capacity <==>
            (forall events :: Run(s, events) ==> After(s, events).permits == {} && After(s, events).granted == {})
  {
    if s.leaked == s.book.capacity {
      forall events | Run(s, events) ensures After(s, events).permits == {} && After(s, events).granted == {} {
        AbortedGrantsNeverReturn(s, events);
      }
    } else {
      var w := Fresh(s.used);
      var events := if s.permits == {} && s.granted == {} then [Arrive(w, 0)] else [];
      RunOfOne(s, Arrive(w, 0));
      assert Run(s, events) && !(After(s, events).permits == {} && After(s, events).granted == {});
    }
  }

  lemma RunOfOne(s: System, e: Event)
    ensures Enabled(s, e) ==> Run(s, [e])
    ensures After(s, [e]) == Step(s, e)
  {
    assert [e][1..] == [];
    assert Run(Step(s, e), []) && After(Step(s, e), []) == Step(s, e);
  }

  lemma {:induction false} Fresh(used: set<Waiter>) returns (w: Waiter)
    ensures forall x :: x in used ==> x < w
  {
    w := 0;
    if x :| x in used {
      var y := Fresh(used - {x});
      w := if y <= x then x + 1 else y;
      assert used == (used - {x}) + {x};
    }
  }

  lemma ReleaseToOnlyWaiter(c: Campaign, w: Waiter)
    ensures Released(Book(1, 1, None, map[c := [w]]), {w}) == (Book(1, 1, Some(c), map[]), [Grant(c, w)])
  {
    var b := Book(1, 0, None, map[c := [w]]);
    assert b.waiting.Keys == {c} && c in b.waiting && Pop(b.waiting, c) == map[];
    var turn := Turn(b, {w});
    assert Serve(turn.0, {w}) == (turn.0, []);
    assert turn.1 + [] == [Grant(c, w)];
  }

  /** Such a state is reachable with a single slot: one holder, one waiter aborted just after its grant. */
  lemma AllSlotsCanLeak()
    ensures var events := [Arrive(1, 7)] + ([Arrive(2, 7)] + ([DropPermit(1)] + [Abort(2)]));
            Inv(Init(1)) && Run(Init(1), events) && After(Init(1), events).leaked == 1
  {
    var s1 := System(Book(1, 1, None, map[]), {}, {}, {1}, 0, {1});
    var s2 := System(Book(1, 1, None, map[7 := [2]]), {2}, {}, {1}, 0, {1, 2});
    var s3 := System(Book(1, 1, Some(7), map[]), {}, {2}, {}, 0, {1, 2});
    assert Step(Init(1), Arrive(1, 7)) == s1;
    assert Step(s1, Arrive(2, 7)) == s2 by {
      assert Enqueue(map[], 7, 2)[7] == [2];
    }
    assert Step(s2, DropPermit(1)) == s3 by {
      ReleaseToOnlyWaiter(7, 2);
      assert Winners([Grant(7, 2)]) == {2} by { assert Grant(7, 2) in [Grant(7, 2)]; }
    }
    RunOfOne(s3, Abort(2));
    RunOfMore(s2, DropPermit(1), [Abort(2)]);
    RunOfMore(s1, Arrive(2, 7), [DropPermit(1)] + [Abort(2)]);
    RunOfMore(Init(1), Arrive(1, 7), [Arrive(2, 7)] + ([DropPermit(1)] + [Abort(2)]));
  }

  lemma RunOfMore(s: System, e: Event, rest: seq<Event>)
    ensures Enabled(s, e) && Run(Step(s, e), rest) ==> Run(s, [e] + rest)
    ensures After(s, [e] + rest) == After(Step(s, e), rest)
  {
    assert ([e] + rest)[1..] == rest;
  }
}
