/**
  The execution-capacity allocator: a counting permit pool whose waiters queue per campaign
  and whose campaigns are served in cyclic key order.

  `Allocator` is the mutex-protected state with its two critical sections. `System` puts it among
  the futures that use it: a future may be dropped while it waits (`Cancel`), after its sender has
  fired but before it builds its permit (`Abort`), or go on to hold and drop a permit. A receiver
  that is dropped while `Release` runs is a `Cancel` before or after that release, because the loop
  looks at each sender once.
*/
module FairCapacity {
  import opened Wrappers

  type Campaign = nat
  type Waiter = nat
  type Queues = map<Campaign, seq<Waiter>>

  datatype Grant = Grant(campaign: Campaign, waiter: Waiter)

  datatype Book = Book(capacity: nat, active: nat, last: Option<Campaign>, waiting: Queues)

  // ---------------------------------------------------------------------------------------------
  // Rotation order
  // ---------------------------------------------------------------------------------------------

  predicate Beyond(last: Option<Campaign>, k: Campaign) {
    last.None? || k > last.value
  }

  /** In the rotation that starts just after `last`, `a` is reached strictly before `b`. */
  predicate Sooner(last: Option<Campaign>, a: Campaign, b: Campaign) {
    if Beyond(last, a) == Beyond(last, b) then a < b else Beyond(last, a)
  }

  ghost predicate IsLeast(m: Campaign, keys: set<Campaign>) {
    m in keys && forall k :: k in keys ==> m <= k
  }

  lemma {:induction false} LeastExists(keys: set<Campaign>) returns (m: Campaign)
    requires keys != {}
    ensures IsLeast(m, keys)
  {
    m :| m in keys;
    var rest := keys - {m};
    assert keys == rest + {m};
    if rest != {} {
      var r := LeastExists(rest);
      m := if r <= m then r else m;
    }
  }

  function Least(keys: set<Campaign>): (m: Campaign)
    requires keys != {}
    ensures m in keys && forall k :: k in keys ==> m <= k
  {
    assert exists m :: IsLeast(m, keys) by { var m := LeastExists(keys); }
    var m :| m in keys && forall k :: k in keys ==> m <= k;
    m
  }

  /** First stored key after `last`, wrapping to the smallest key: the rotation's next campaign. */
  function NextCampaign(keys: set<Campaign>, last: Option<Campaign>): (next: Campaign)
    requires keys != {}
    ensures next in keys
    ensures forall k :: k in keys && k != next ==> Sooner(last, next, k)
  {
    var beyond := set k | k in keys && Beyond(last, k);
    assert forall k :: k in keys && Beyond(last, k) ==> k in beyond;
    if beyond != {} then Least(beyond) else Least(keys)
  }

  // ---------------------------------------------------------------------------------------------
  // The two critical sections, as functions of the protected state
  // ---------------------------------------------------------------------------------------------

  function Enqueue(waiting: Queues, c: Campaign, w: Waiter): Queues {
    waiting[c := (if c in waiting then waiting[c] else []) + [w]]
  }

  function Pop(waiting: Queues, c: Campaign): Queues
    requires c in waiting
  {
    var rest := if waiting[c] == [] then [] else waiting[c][1..];
    if rest == [] then waiting - {c} else waiting[c := rest]
  }

  /** A strictly shrinking set under `Pop`: one element per stored key and per queued sender. */
  ghost function Slots(waiting: Queues): set<(Campaign, nat)> {
    set c, i: nat | c in waiting && 0 <= i <= |waiting[c]| :: (c, i)
  }

  lemma PopShrinks(waiting: Queues, c: Campaign)
    requires c in waiting
    ensures Slots(Pop(waiting, c)) < Slots(waiting)
  {
    assert (c, |waiting[c]|) in Slots(waiting);
  }

  function SaturatingDecrement(n: nat): nat {
    if n == 0 then 0 else n - 1
  }

  /** One turn of the serving loop: `live` holds the waiters whose receiver still exists. */
  function Turn(b: Book, live: set<Waiter>): (Book, seq<Grant>)
    requires b.waiting != map[]
  {
    var next := NextCampaign(b.waiting.Keys, b.last);
    var queue := b.waiting[next];
    var popped := Pop(b.waiting, next);
    if queue != [] && queue[0] in live then
      (Book(b.capacity, b.active + 1, Some(next), popped), [Grant(next, queue[0])])
    else
      (b.(waiting := popped), [])
  }

  predicate Serving(b: Book) {
    b.active < b.capacity && b.waiting != map[]
  }

  function Serve(b: Book, live: set<Waiter>): (Book, seq<Grant>)
    decreases Slots(b.waiting)
  {
    if Serving(b) then
      PopShrinks(b.waiting, NextCampaign(b.waiting.Keys, b.last));
      var turn := Turn(b, live);
      var rest := Serve(turn.0, live);
      (rest.0, turn.1 + rest.1)
    else
      (b, [])
  }

  /** Serving is one turn and then serving. */
  lemma ServeByTurns(b: Book, live: set<Waiter>, grants: seq<Grant>)
    requires Serving(b)
    ensures Serve(b, live).0 == Serve(Turn(b, live).0, live).0
    ensures grants + Serve(b, live).1 == (grants + Turn(b, live).1) + Serve(Turn(b, live).0, live).1
  {
    var turn := Turn(b, live);
    var rest := Serve(turn.0, live).1;
    assert grants + (turn.1 + rest) == (grants + turn.1) + rest;
  }

  function Released(b: Book, live: set<Waiter>): (Book, seq<Grant>) {
    Serve(b.(active := SaturatingDecrement(b.active)), live)
  }

  function Acquired(b: Book, c: Campaign, w: Waiter): (Book, bool) {
    if b.active < b.capacity && b.waiting == map[] then
      (b.(active := b.active + 1), true)
    else
      (b.(waiting := Enqueue(b.waiting, c, w)), false)
  }

  class Allocator {
    const capacity: nat
    var active: nat
    var lastServed: Option<Campaign>
    var waiting: Queues

    ghost function View(): Book
      reads this
    {
      Book(capacity, active, lastServed, waiting)
    }

    constructor (capacity: nat)
      requires capacity > 0
      ensures View() == Book(capacity, 0, None, map[])
    {
      this.capacity, active, lastServed, waiting := capacity, 0, None, map[];
    }

    /** The locked part of `acquire`; false means that `w` now waits on its receiver. */
    method Acquire(campaign: Campaign, w: Waiter) returns (immediate: bool)
      modifies this
      ensures View() == Acquired(old(View()), campaign, w).0
      ensures immediate == Acquired(old(View()), campaign, w).1
      ensures immediate <==> old(active) < capacity && old(waiting) == map[]
    {
      if active < capacity && waiting == map[] {
        active := active + 1;
        return true;
      }
      waiting := Enqueue(waiting, campaign, w);
      immediate := false;
    }

    /** One turn of the release loop: the next campaign's first waiter is removed, and granted if it is alive. */
    method ServeTurn(live: set<Waiter>) returns (granted: seq<Grant>)
      requires Serving(View())
      modifies this
      ensures View() == Turn(old(View()), live).0 && granted == Turn(old(View()), live).1
      ensures Slots(waiting) < Slots(old(waiting))
    {
      var next := NextCampaign(waiting.Keys, lastServed);
      PopShrinks(waiting, next);
      var queue := waiting[next];
      waiting := Pop(waiting, next);
      granted := [];
      if queue != [] && queue[0] in live {
        lastServed := Some(next);
        active := active + 1;
        granted := [Grant(next, queue[0])];
      }
    }

    method Release(live: set<Waiter>) returns (grants: seq<Grant>)
      modifies this
      ensures View() == Released(old(View()), live).0
      ensures grants == Released(old(View()), live).1
    {
      active := SaturatingDecrement(active);
      grants := [];
      ghost var whole := Serve(View(), live);
      while active < capacity && waiting != map[]
        invariant whole.0 == Serve(View(), live).0
        invariant whole.1 == grants + Serve(View(), live).1
        decreases Slots(waiting)
      {
        ServeByTurns(View(), live, grants);
        var granted := ServeTurn(live);
        grants := grants + granted;
      }
    }
  }
}
