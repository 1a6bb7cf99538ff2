/**
  Routing between participants over an untrusted parent map: the map may be cyclic, or point at
  participants that are not in it.
*/
module Hierarchy {
  import opened Wrappers

  type ParticipantId = nat
  type SessionId = nat

  datatype Snapshot = Snapshot(id: ParticipantId, session: SessionId, parent: Option<ParticipantId>)

  type Topology = map<ParticipantId, Snapshot>

  datatype Route = SelfTarget | DirectParent | DirectChild | ViaCommonAncestor(ancestor: ParticipantId)

  datatype RouteError = CrossSession | InvalidTopology | DirectCrossTreeForbidden

  // ---------------------------------------------------------------------------------------------
  // Chains
  // ---------------------------------------------------------------------------------------------

  /** Each entry's parent is the next entry. */
  ghost predicate Walk(t: Topology, path: seq<ParticipantId>) {
    forall i :: 0 <= i < |path| - 1 ==> path[i] in t && t[path[i]].parent == Some(path[i + 1])
  }

  /** A walk that ends at a root of the topology. */
  ghost predicate Chain(t: Topology, p: ParticipantId, path: seq<ParticipantId>) {
    && path != [] && path[0] == p && Walk(t, path)
    && path[|path| - 1] in t && t[path[|path| - 1]].parent.None?
  }

  ghost predicate Rooted(t: Topology, p: ParticipantId) {
    exists path :: Chain(t, p, path)
  }

  /** `a` is `p` or one of its ancestors, on a chain that reaches a root. */
  ghost predicate Above(t: Topology, a: ParticipantId, p: ParticipantId) {
    exists path :: Chain(t, p, path) && a in path
  }

  /** A walk from the start of a chain stays on the chain. */
  lemma {:induction false} WalkFollowsChain(t: Topology, p: ParticipantId,
                                            walk: seq<ParticipantId>, path: seq<ParticipantId>)
    requires Walk(t, walk) && walk != [] && walk[0] == p && Chain(t, p, path)
    ensures walk <= path
  {
    if |walk| > 1 {
      var n := |walk| - 1;
      WalkFollowsChain(t, p, walk[..n], path);
      assert t[walk[n - 1]].parent == Some(walk[n]);
      assert path[n - 1] == walk[n - 1];
    }
  }

  lemma ChainIsUnique(t: Topology, p: ParticipantId, path: seq<ParticipantId>, path': seq<ParticipantId>)
    requires Chain(t, p, path) && Chain(t, p, path')
    ensures path == path'
  {
    WalkFollowsChain(t, p, path, path');
    WalkFollowsChain(t, p, path', path);
  }

  lemma ChainStep(t: Topology, p: ParticipantId, path: seq<ParticipantId>, i: nat)
    requires Chain(t, p, path) && i < |path|
    ensures path[i] in t
    ensures t[path[i]].parent == if i + 1 < |path| then Some(path[i + 1]) else None
  {
  }

  lemma ChainSuffix(t: Topology, p: ParticipantId, path: seq<ParticipantId>, i: nat)
    requires Chain(t, p, path) && i < |path|
    ensures Chain(t, path[i], path[i..])
  {
  }

  /** A chain never meets itself. */
  lemma ChainIsAcyclic(t: Topology, p: ParticipantId, path: seq<ParticipantId>, i: nat, j: nat)
    requires Chain(t, p, path) && i < j < |path|
    ensures path[i] != path[j]
  {
    if path[i] == path[j] {
      ChainSuffix(t, p, path, i);
      ChainSuffix(t, p, path, j);
      ChainIsUnique(t, path[i], path[i..], path[j..]);
    }
  }

  lemma WalkExtends(t: Topology, walk: seq<ParticipantId>, next: ParticipantId)
    requires Walk(t, walk) && walk != [] && walk[|walk| - 1] in t && t[walk[|walk| - 1]].parent == Some(next)
    ensures Walk(t, walk + [next])
  {
  }

  /** The walk of `ancestor_set`: everything from `participant` up to its root, if there is one. */
  method AncestorSet(participant: ParticipantId, t: Topology) returns (r: Result<set<ParticipantId>, RouteError>)
    ensures r.Success? <==> Rooted(t, participant)
    ensures r.Success? ==> forall a :: a in r.value <==> Above(t, a, participant)
    ensures r.Failure? ==> r.error == InvalidTopology
  {
    var result: set<ParticipantId> := {};
    var cursor := participant;
    ghost var walk := [participant];
    while true
      invariant Walk(t, walk) && walk != [] && walk[0] == participant && walk[|walk| - 1] == cursor
      invariant forall a :: a in result <==> a in walk[..|walk| - 1]
      invariant result <= t.Keys
      decreases t.Keys - result
    {
      if cursor in result {
        forall path | Chain(t, participant, path) ensures false {
          WalkFollowsChain(t, participant, walk, path);
          var i :| 0 <= i < |walk| - 1 && walk[i] == cursor;
          ChainIsAcyclic(t, participant, path, i, |walk| - 1);
        }
        return Failure(InvalidTopology);
      }
      if cursor !in t {
        forall path | Chain(t, participant, path) ensures false {
          WalkFollowsChain(t, participant, walk, path);
          ChainStep(t, participant, path, |walk| - 1);
        }
        return Failure(InvalidTopology);
      }
      result := result + {cursor};
      assert walk == walk[..|walk| - 1] + [cursor];
      if t[cursor].parent.None? {
        assert Chain(t, participant, walk);
        forall a ensures a in result <==> Above(t, a, participant) {
          if path :| Chain(t, participant, path) && a in path {
            ChainIsUnique(t, participant, path, walk);
          }
        }
        return Success(result);
      }
      WalkExtends(t, walk, t[cursor].parent.value);
      cursor := t[cursor].parent.value;
      walk := walk + [cursor];
      assert walk[..|walk| - 1] + [cursor] == walk;
    }
  }

  // ---------------------------------------------------------------------------------------------
  // Routes
  // ---------------------------------------------------------------------------------------------

  function Direct(caller: Snapshot, target: Snapshot): Result<Route, RouteError> {
    if caller.session != target.session then Failure(CrossSession)
    else if caller.id == target.id then Success(SelfTarget)
    else if caller.parent == Some(target.id) then Success(DirectParent)
    else if target.parent == Some(caller.id) then Success(DirectChild)
    else Failure(DirectCrossTreeForbidden)
  }

  /** Every participant is filed under its own identity, as in the map built from the snapshots. */
  predicate Indexed(t: Topology) {
    forall p :: p in t ==> t[p].id == p
  }

  ghost predicate Common(t: Topology, x: ParticipantId, a: ParticipantId, b: ParticipantId) {
    Above(t, x, a) && Above(t, x, b)
  }

  ghost predicate LowestCommonAncestor(t: Topology, x: ParticipantId, a: ParticipantId, b: ParticipantId) {
    Common(t, x, a, b) && forall y :: Common(t, y, a, b) ==> Above(t, y, x)
  }

  ghost predicate Related(t: Topology, a: ParticipantId, b: ParticipantId) {
    exists x :: Common(t, x, a, b)
  }

  /** What `policy_route` answers, in terms of chains only. */
  ghost predicate Routes(t: Topology, a: ParticipantId, b: ParticipantId, r: Result<Route, RouteError>) {
    if a !in t || b !in t || !Rooted(t, a) || !Rooted(t, b) then r == Failure(InvalidTopology)
    else if t[a].session != t[b].session then r == Failure(CrossSession)
    else if !Related(t, a, b) then r == Failure(InvalidTopology)
    else if a == b then r == Success(SelfTarget)
    else if t[a].parent == Some(b) then r == Success(DirectParent)
    else if t[b].parent == Some(a) then r == Success(DirectChild)
    else r.Success? && r.value.ViaCommonAncestor? && LowestCommonAncestor(t, r.value.ancestor, a, b)
  }

  lemma SelfIsAbove(t: Topology, p: ParticipantId)
    requires Rooted(t, p)
    ensures Above(t, p, p)
  {
    var path :| Chain(t, p, path);
    assert p in path;
  }

  lemma ParentIsAbove(t: Topology, p: ParticipantId, q: ParticipantId)
    requires Rooted(t, p) && p in t && t[p].parent == Some(q)
    ensures Above(t, q, p)
  {
    var path :| Chain(t, p, path);
    assert path[1] == q;
  }

  /** The first entry of a chain that is above `a` is the lowest common ancestor. */
  lemma FirstCommonIsLowest(t: Topology, a: ParticipantId, b: ParticipantId, path: seq<ParticipantId>, i: nat)
    requires Chain(t, b, path) && i < |path| && Above(t, path[i], a)
    requires forall j :: 0 <= j < i ==> !Above(t, path[j], a)
    ensures LowestCommonAncestor(t, path[i], a, b)
  {
    ChainSuffix(t, b, path, i);
    forall y | Common(t, y, a, b) ensures Above(t, y, path[i]) {
      var path' :| Chain(t, b, path') && y in path';
      ChainIsUnique(t, b, path, path');
      var k :| 0 <= k < |path| && path[k] == y;
      assert path[i..][k - i] == y;
    }
  }

  lemma DirectIsRelated(t: Topology, a: ParticipantId, b: ParticipantId)
    requires Rooted(t, a) && Rooted(t, b) && a in t && b in t
    requires a == b || t[a].parent == Some(b) || t[b].parent == Some(a)
    ensures Related(t, a, b)
  {
    SelfIsAbove(t, a);
    SelfIsAbove(t, b);
    if t[a].parent == Some(b) {
      ParentIsAbove(t, a, b);
      assert Common(t, b, a, b);
    } else if t[b].parent == Some(a) {
      ParentIsAbove(t, b, a);
      assert Common(t, a, a, b);
    } else {
      assert Common(t, a, a, b);
    }
  }

  /** The map that `collect` builds from the snapshots: a later duplicate replaces an earlier one. */
  function Index(participants: seq<Snapshot>): (t: Topology)
    ensures Indexed(t)
    ensures forall p :: p in t ==> t[p] in participants
    ensures forall i :: 0 <= i < |participants| ==> participants[i].id in t
  {
    if participants == [] then map[]
    else
      var n := |participants| - 1;
      Index(participants[..n])[participants[n].id := participants[n]]
  }

  method IndexById(participants: seq<Snapshot>) returns (t: Topology)
    ensures t == Index(participants)
  {
    t := map[];
    for n := 0 to |participants|
      invariant t == Index(participants[..n])
    {
      assert participants[..n + 1][..n] == participants[..n];
      t := t[participants[n].id := participants[n]];
    }
    assert participants[..|participants|] == participants;
  }

  /**
    The route, for any list of snapshots. The loop's own topology checks never fail: `ancestor_set`
    has already walked the target's chain to its root.
  */
  method PolicyRoute(caller: ParticipantId, target: ParticipantId, participants: seq<Snapshot>)
    returns (r: Result<Route, RouteError>)
    ensures Routes(Index(participants), caller, target, r)
  {
    var byId := IndexById(participants);
    if caller !in byId || target !in byId {
      return Failure(InvalidTopology);
    }
    var callerAncestors := AncestorSet(caller, byId);
    if callerAncestors.Failure? {
      return Failure(InvalidTopology);
    }
    var targetAncestors := AncestorSet(target, byId);
    if targetAncestors.Failure? {
      return Failure(InvalidTopology);
    }
    var direct := Direct(byId[caller], byId[target]);
    if direct.Success? {
      DirectIsRelated(byId, caller, target);
      return direct;
    }
    if byId[caller].session != byId[target].session {
      return Failure(CrossSession);
    }
    r := Climb(caller, target, byId, callerAncestors.value);
  }

  method Climb(caller: ParticipantId, target: ParticipantId, t: Topology, callerAncestors: set<ParticipantId>)
    returns (r: Result<Route, RouteError>)
    requires Rooted(t, target)
    requires forall a :: a in callerAncestors <==> Above(t, a, caller)
    ensures r.Failure? <==> !Related(t, caller, target)
    ensures r.Failure? ==> r.error == InvalidTopology
    ensures r.Success? ==> r.value.ViaCommonAncestor? && LowestCommonAncestor(t, r.value.ancestor, caller, target)
  {
    ghost var path: seq<ParticipantId> :| Chain(t, target, path);
    var cursor := target;
    var visited: set<ParticipantId> := {};
    ghost var i := 0;
    while true
      invariant 0 <= i < |path| && path[i] == cursor
      invariant visited == set k | 0 <= k < i :: path[k]
      invariant forall k :: 0 <= k < i ==> !Above(t, path[k], caller)
      decreases |path| - i
    {
      assert cursor !in visited by {
        forall k | 0 <= k < i ensures path[k] != cursor {
          ChainIsAcyclic(t, target, path, k, i);
        }
      }
      visited := visited + {cursor};
      if cursor in callerAncestors {
        FirstCommonIsLowest(t, caller, target, path, i);
        assert Common(t, cursor, caller, target);
        return Success(ViaCommonAncestor(cursor));
      }
      ChainStep(t, target, path, i);
      if t[cursor].parent.None? {
        forall x | Common(t, x, caller, target) ensures false {
          var path' :| Chain(t, target, path') && x in path';
          ChainIsUnique(t, target, path, path');
        }
        return Failure(InvalidTopology);
      }
      cursor := t[cursor].parent.value;
      i := i + 1;
    }
  }

  // ---------------------------------------------------------------------------------------------
  // What the contract determines
  // ---------------------------------------------------------------------------------------------

  lemma MutualAncestorsAreEqual(t: Topology, x: ParticipantId, y: ParticipantId)
    requires Above(t, x, y) && Above(t, y, x)
    ensures x == y
  {
    var px :| Chain(t, x, px) && y in px;
    var py :| Chain(t, y, py) && x in py;
    var i :| 0 <= i < |px| && px[i] == y;
    var j :| 0 <= j < |py| && py[j] == x;
    ChainSuffix(t, x, px, i);
    ChainIsUnique(t, y, px[i..], py);
    ChainSuffix(t, y, py, j);
    ChainIsUnique(t, x, py[j..], px);
  }

  /** There is one answer: the topology and the two identities determine it. */
  lemma RouteIsUnique(t: Topology, a: ParticipantId, b: ParticipantId,
                      r: Result<Route, RouteError>, r': Result<Route, RouteError>)
    requires Routes(t, a, b, r) && Routes(t, a, b, r')
    ensures r == r'
  {
    if r != r' {
      var x, y := r.value.ancestor, r'.value.ancestor;
      assert Common(t, x, a, b) && Common(t, y, a, b);
      MutualAncestorsAreEqual(t, x, y);
    }
  }

  function Reversed(r: Result<Route, RouteError>): Result<Route, RouteError> {
    match r
    case Success(DirectParent) => Success(DirectChild)
    case Success(DirectChild) => Success(DirectParent)
    case _ => r
  }

  lemma NeverParentsOfEachOther(t: Topology, a: ParticipantId, b: ParticipantId)
    requires Rooted(t, a) && Rooted(t, b) && a in t && b in t
    ensures !(t[a].parent == Some(b) && t[b].parent == Some(a))
  {
    var path :| Chain(t, a, path);
    ChainStep(t, a, path, 0);
    if |path| > 1 {
      ChainStep(t, a, path, 1);
    }
    if |path| > 2 {
      ChainIsAcyclic(t, a, path, 0, 2);
    }
  }

  /** Exchanging caller and target exchanges parent and child and changes nothing else. */
  lemma RouteIsSymmetric(t: Topology, a: ParticipantId, b: ParticipantId, r: Result<Route, RouteError>)
    requires Routes(t, a, b, r)
    ensures Routes(t, b, a, Reversed(r))
  {
    forall x ensures Common(t, x, a, b) <==> Common(t, x, b, a) {
    }
    if Related(t, a, b) {
      var x :| Common(t, x, a, b);
      assert Common(t, x, b, a);
    }
    if Related(t, b, a) {
      var x :| Common(t, x, b, a);
      assert Common(t, x, a, b);
    }
    if a in t && b in t && Rooted(t, a) && Rooted(t, b) {
      NeverParentsOfEachOther(t, a, b);
    }
  }
}
