/**
  The tool-provider stream validator: an online check with four mutually constrained indexes,
  against a predicate on the history of accepted frames alone.

  Byte-string identities are compared for equality only, so they are numbers here. The field checks
  that precede every frame are not modelled; their verdict arrives as `shape`.
*/
module ToolStream {
  import opened Wrappers

  type Id = nat

  datatype Triple = Triple(invocation: Id, dispatch: Id, sequence: nat)

  datatype Correlation = Correlation(session: Id, provider: Id, connection: Id, triple: Triple)

  datatype Frame =
    | Connect(session: Id, provider: Id, connection: Id, after: nat)
    | Started(c: Correlation)
    | ResultFrame(c: Correlation)
    | FailureFrame(c: Correlation)

  datatype ValidationError = MalformedRequest | InvalidIdentity | MissingField | BadField

  // ---------------------------------------------------------------------------------------------
  // Histories
  // ---------------------------------------------------------------------------------------------

  predicate IsTerminal(f: Frame) {
    f.ResultFrame? || f.FailureFrame?
  }

  /** The triples of the started frames. */
  function StartedIn(h: seq<Frame>): set<Triple> {
    set k | 0 <= k < |h| && h[k].Started? :: h[k].c.triple
  }

  /** The invocation and dispatch of the terminal frames. */
  function FinishedIn(h: seq<Frame>): set<(Id, Id)> {
    set k | 0 <= k < |h| && IsTerminal(h[k]) :: (h[k].c.triple.invocation, h[k].c.triple.dispatch)
  }

  /** Invocations and sequences correspond one to one, and an invocation has one dispatch. */
  predicate Compatible(a: Triple, b: Triple) {
    && (a.invocation == b.invocation <==> a.sequence == b.sequence)
    && (a.invocation == b.invocation ==> a.dispatch == b.dispatch)
  }

  predicate CompatibleWithAll(started: set<Triple>, t: Triple) {
    forall s :: s in started ==> Compatible(s, t)
  }

  predicate OnStream(connect: Frame, c: Correlation) {
    && connect.Connect?
    && c.session == connect.session && c.provider == connect.provider && c.connection == connect.connection
    && c.triple.sequence > connect.after
  }

  /** The verdict on the next frame, from the accepted frames alone. */
  function Verdict(h: seq<Frame>, f: Frame): Option<ValidationError> {
    if f.Connect? then (if h == [] then None else Some(MalformedRequest))
    else if h == [] then Some(MissingField)
    else if !OnStream(h[0], f.c) then Some(InvalidIdentity)
    else
      var t := f.c.triple;
      if f.Started? then
        if (t.invocation, t.dispatch) in FinishedIn(h) then Some(MalformedRequest)
        else if !CompatibleWithAll(StartedIn(h), t) then Some(InvalidIdentity)
        else None
      else if t !in StartedIn(h) then Some(MissingField)
      else None
  }

  predicate AlreadyFinished(h: seq<Frame>, t: Triple) {
    (t.invocation, t.dispatch) in FinishedIn(h)
  }

  /** Why a frame is refused, for every history. */
  lemma RefusalsAreExact(h: seq<Frame>, f: Frame)
    ensures Verdict(h, f) == Some(MalformedRequest) <==>
            if f.Connect? then h != []
            else h != [] && OnStream(h[0], f.c) && f.Started? && AlreadyFinished(h, f.c.triple)
    ensures Verdict(h, f) == Some(InvalidIdentity) <==>
            && !f.Connect? && h != []
            && (|| !OnStream(h[0], f.c)
                || (f.Started? && !AlreadyFinished(h, f.c.triple) && !CompatibleWithAll(StartedIn(h), f.c.triple)))
    ensures Verdict(h, f) == Some(MissingField) <==>
            && !f.Connect?
            && (h == [] || (OnStream(h[0], f.c) && IsTerminal(f) && f.c.triple !in StartedIn(h)))
  {
  }

  /** Every frame was admissible after the frames before it. */
  predicate Admitted(h: seq<Frame>) {
    forall k :: 0 <= k < |h| ==> Verdict(h[..k], h[k]).None?
  }

  lemma AdmittedExtends(h: seq<Frame>, f: Frame)
    requires Admitted(h) && Verdict(h, f).None?
    ensures Admitted(h + [f])
  {
    forall k | 0 <= k < |h + [f]| ensures Verdict((h + [f])[..k], (h + [f])[k]).None? {
      assert (h + [f])[..k] == h[..k];
      assert h[..|h|] == h;
    }
  }

  lemma HistoryGrows(h: seq<Frame>, f: Frame)
    ensures StartedIn(h + [f]) == StartedIn(h) + (if f.Started? then {f.c.triple} else {})
    ensures FinishedIn(h + [f]) ==
            FinishedIn(h) + (if IsTerminal(f) then {(f.c.triple.invocation, f.c.triple.dispatch)} else {})
  {
    var h' := h + [f];
    assert h'[|h|] == f;
    forall k | 0 <= k < |h| ensures h'[k] == h[k] {
    }
    assert StartedIn(h) <= StartedIn(h');
    assert FinishedIn(h) <= FinishedIn(h');
  }

  /**
    A stream as a whole: one connect, first; every later frame on that stream and past its
    watermark; started frames in one-to-one correspondence; every terminal frame after a started
    frame of the same triple; no started frame after its terminal frame.
  */
  ghost predicate ValidStream(h: seq<Frame>) {
    && (h != [] ==> h[0].Connect?)
    && (forall k :: 1 <= k < |h| ==> !h[k].Connect? && OnStream(h[0], h[k].c))
    && (forall s, t :: s in StartedIn(h) && t in StartedIn(h) ==> Compatible(s, t))
    && (forall k :: 0 <= k < |h| && IsTerminal(h[k]) ==> h[k].c.triple in StartedIn(h[..k]))
    && (forall i, j :: 0 <= i < j < |h| && IsTerminal(h[i]) && h[j].Started? ==> !SameDispatch(h[i], h[j]))
  }

  predicate SameDispatch(f: Frame, g: Frame)
    requires !f.Connect? && !g.Connect?
  {
    f.c.triple.invocation == g.c.triple.invocation && f.c.triple.dispatch == g.c.triple.dispatch
  }

  lemma AdmittedIsValid(h: seq<Frame>)
    requires Admitted(h)
    ensures ValidStream(h)
  {
    if h != [] {
      assert Verdict(h[..0], h[0]).None?;
    }
    forall k | 1 <= k < |h| ensures !h[k].Connect? && OnStream(h[0], h[k].c) {
      assert Verdict(h[..k], h[k]).None? && h[..k][0] == h[0];
    }
    forall i, j | 0 <= i < j < |h| && h[i].Started? && h[j].Started? ensures Compatible(h[i].c.triple, h[j].c.triple) {
      assert Verdict(h[..j], h[j]).None? && h[..j][i] == h[i];
    }
    forall s, t | s in StartedIn(h) && t in StartedIn(h) ensures Compatible(s, t) {
      var i :| 0 <= i < |h| && h[i].Started? && h[i].c.triple == s;
      var j :| 0 <= j < |h| && h[j].Started? && h[j].c.triple == t;
      if j < i {
        assert Compatible(h[j].c.triple, h[i].c.triple);
      }
    }
    forall i, j | 0 <= i < j < |h| && IsTerminal(h[i]) && h[j].Started?
      ensures !SameDispatch(h[i], h[j])
    {
      assert Verdict(h[..j], h[j]).None? && h[..j][i] == h[i];
    }
  }

  lemma ValidIsAdmitted(h: seq<Frame>)
    requires ValidStream(h)
    ensures Admitted(h)
  {
    forall k | 0 <= k < |h| ensures Verdict(h[..k], h[k]).None? {
      var past := h[..k];
      assert k > 0 ==> past[0] == h[0];
      assert StartedIn(past) <= StartedIn(h);
      if k > 0 && h[k].Started? {
        var t := h[k].c.triple;
        assert t in StartedIn(h);
        forall i | 0 <= i < k && IsTerminal(past[i])
          ensures (past[i].c.triple.invocation, past[i].c.triple.dispatch) != (t.invocation, t.dispatch)
        {
          assert !SameDispatch(h[i], h[k]);
        }
      }
    }
  }

  /** Accepting frame by frame is accepting the stream: the online verdict and the whole-stream predicate agree. */
  lemma AdmittedStream(h: seq<Frame>)
    ensures Admitted(h) <==> ValidStream(h)
  {
    if Admitted(h) {
      AdmittedIsValid(h);
    }
    if ValidStream(h) {
      ValidIsAdmitted(h);
    }
  }

  // ---------------------------------------------------------------------------------------------
  // The indexes
  // ---------------------------------------------------------------------------------------------

  datatype Indexes = Indexes(
    dispatchSequences: map<(Id, Id), nat>, invocationDispatches: map<Id, Id>, sequenceDispatches: map<nat, (Id, Id)>)

  /** `t` is filed under its dispatch, its invocation and its sequence. */
  predicate Filed(ix: Indexes, t: Triple) {
    && (t.invocation, t.dispatch) in ix.dispatchSequences
    && ix.dispatchSequences[(t.invocation, t.dispatch)] == t.sequence
    && t.invocation in ix.invocationDispatches && ix.invocationDispatches[t.invocation] == t.dispatch
    && t.sequence in ix.sequenceDispatches && ix.sequenceDispatches[t.sequence] == (t.invocation, t.dispatch)
  }

  /** The three indexes agree with each other and hold exactly the started triples. */
  ghost predicate Mirrors(ix: Indexes, started: set<Triple>) {
    && (forall t :: t in started ==> Filed(ix, t))
    && (forall key :: key in ix.dispatchSequences ==> Triple(key.0, key.1, ix.dispatchSequences[key]) in started)
    && (forall i :: i in ix.invocationDispatches ==> (i, ix.invocationDispatches[i]) in ix.dispatchSequences)
    && (forall q :: q in ix.sequenceDispatches ==>
          ix.sequenceDispatches[q] in ix.dispatchSequences && ix.dispatchSequences[ix.sequenceDispatches[q]] == q)
  }

  /** No index contradicts `t`. */
  predicate Fits(ix: Indexes, t: Triple) {
    var key := (t.invocation, t.dispatch);
    && (t.invocation in ix.invocationDispatches ==> ix.invocationDispatches[t.invocation] == t.dispatch)
    && (key in ix.dispatchSequences ==> ix.dispatchSequences[key] == t.sequence)
    && (t.sequence in ix.sequenceDispatches ==> ix.sequenceDispatches[t.sequence] == key)
  }

  function File(ix: Indexes, t: Triple): Indexes {
    Indexes(ix.dispatchSequences[(t.invocation, t.dispatch) := t.sequence],
            ix.invocationDispatches[t.invocation := t.dispatch],
            ix.sequenceDispatches[t.sequence := (t.invocation, t.dispatch)])
  }

  /** The three lookups decide compatibility with every started frame. */
  lemma LookupsDecide(ix: Indexes, started: set<Triple>, t: Triple)
    requires Mirrors(ix, started)
    ensures Fits(ix, t) <==> CompatibleWithAll(started, t)
    ensures Filed(ix, t) <==> t in started
  {
    var key := (t.invocation, t.dispatch);
    if CompatibleWithAll(started, t) {
      if key in ix.dispatchSequences {
        assert Triple(key.0, key.1, ix.dispatchSequences[key]) in started;
      }
      if t.invocation in ix.invocationDispatches {
        var other := (t.invocation, ix.invocationDispatches[t.invocation]);
        assert Triple(other.0, other.1, ix.dispatchSequences[other]) in started;
      }
      if t.sequence in ix.sequenceDispatches {
        var other := ix.sequenceDispatches[t.sequence];
        assert Triple(other.0, other.1, ix.dispatchSequences[other]) in started;
      }
    }
    if Fits(ix, t) {
      forall s | s in started ensures Compatible(s, t) {
        assert Filed(ix, s);
      }
    }
  }

  lemma FileKeepsMirror(ix: Indexes, started: set<Triple>, t: Triple)
    requires Mirrors(ix, started) && Fits(ix, t)
    ensures Mirrors(File(ix, t), started + {t})
  {
    LookupsDecide(ix, started, t);
    var ix' := File(ix, t);
    forall s | s in started + {t} ensures Filed(ix', s) {
      if s != t {
        assert Filed(ix, s) && Compatible(s, t);
      }
    }
  }

  // ---------------------------------------------------------------------------------------------
  // The online validator
  // ---------------------------------------------------------------------------------------------

  lemma StartedExtends(ix: Indexes, h: seq<Frame>, c: Correlation)
    requires Admitted(h) && Verdict(h, Started(c)).None? && Mirrors(ix, StartedIn(h))
    ensures Admitted(h + [Started(c)]) && FinishedIn(h + [Started(c)]) == FinishedIn(h)
    ensures Mirrors(File(ix, c.triple), StartedIn(h + [Started(c)]))
    ensures (h + [Started(c)])[0] == h[0]
  {
    LookupsDecide(ix, StartedIn(h), c.triple);
    FileKeepsMirror(ix, StartedIn(h), c.triple);
    HistoryGrows(h, Started(c));
    AdmittedExtends(h, Started(c));
  }

  class ToolProviderStreamValidator {
    var connected: bool
    var sessionId: Id
    var providerId: Id
    var connectionId: Id
    var afterServerSequence: nat
    var dispatchSequences: map<(Id, Id), nat>
    var invocationDispatches: map<Id, Id>
    var sequenceDispatches: map<nat, (Id, Id)>
    var terminalDispatches: set<(Id, Id)>

    /** The frames accepted so far. */
    ghost var accepted: seq<Frame>

    function Index(): Indexes
      reads this
    {
      Indexes(dispatchSequences, invocationDispatches, sequenceDispatches)
    }

    ghost predicate Valid()
      reads this
    {
      && Admitted(accepted)
      && (connected <==> accepted != [])
      && (connected ==> accepted[0] == Connect(sessionId, providerId, connectionId, afterServerSequence))
      && Mirrors(Index(), StartedIn(accepted))
      && terminalDispatches == FinishedIn(accepted)
    }

    constructor ()
      ensures Valid() && accepted == []
    {
      connected, sessionId, providerId, connectionId, afterServerSequence := false, 0, 0, 0, 0;
      dispatchSequences, invocationDispatches, sequenceDispatches, terminalDispatches := map[], map[], map[], {};
      accepted := [];
    }

    function AcceptCorrelated(c: Correlation): (error: Option<ValidationError>)
      requires Valid()
      reads this
      ensures error ==
        if accepted == [] then Some(MissingField)
        else if OnStream(accepted[0], c) then None
        else Some(InvalidIdentity)
    {
      if !connected then Some(MissingField)
      else if c.session != sessionId || c.provider != providerId || c.connection != connectionId
              || c.triple.sequence <= afterServerSequence then Some(InvalidIdentity)
      else None
    }

    /** The validator's verdict is the history's, and a rejected frame changes nothing. */
    method Accept(frame: Frame, shape: Option<ValidationError>) returns (error: Option<ValidationError>)
      requires Valid()
      modifies this
      ensures Valid()
      ensures error == if shape.Some? then shape else Verdict(old(accepted), frame)
      ensures accepted == if error.None? then old(accepted) + [frame] else old(accepted)
      ensures error.Some? ==> unchanged(this)
    {
      if shape.Some? {
        return shape;
      }
      HistoryGrows(accepted, frame);
      if Verdict(accepted, frame).None? {
        AdmittedExtends(accepted, frame);
      }
      match frame {
        case Connect(session, provider, connection, after) =>
          if connected {
            return Some(MalformedRequest);
          }
          connected, afterServerSequence := true, after;
          sessionId, providerId, connectionId := session, provider, connection;
          accepted := accepted + [frame];
          error := None;
        case Started(c) =>
          error := AcceptStarted(c);
        case ResultFrame(c) =>
          error := AcceptTerminal(frame);
        case FailureFrame(c) =>
          error := AcceptTerminal(frame);
      }
    }

    method AcceptStarted(c: Correlation) returns (error: Option<ValidationError>)
      requires Valid()
      modifies this
      ensures Valid()
      ensures error == Verdict(old(accepted), Started(c))
      ensures accepted == if error.None? then old(accepted) + [Started(c)] else old(accepted)
      ensures error.Some? ==> unchanged(this)
    {
      error := AcceptCorrelated(c);
      if error.Some? {
        return;
      }
      var t := c.triple;
      if (t.invocation, t.dispatch) in terminalDispatches {
        return Some(MalformedRequest);
      }
      LookupsDecide(Index(), StartedIn(accepted), t);
      if !Fits(Index(), t) {
        return Some(InvalidIdentity);
      }
      FileStarted(c);
    }

    /** A Started frame that the history admits enters the three maps together. */
    method FileStarted(c: Correlation)
      requires Valid() && connected && Verdict(accepted, Started(c)).None?
      modifies this`invocationDispatches, this`dispatchSequences, this`sequenceDispatches, this`accepted
      ensures Valid()
      ensures accepted == old(accepted) + [Started(c)]
    {
      var t := c.triple;
      StartedExtends(Index(), accepted, c);
      ghost var filed := File(Index(), t);
      invocationDispatches := invocationDispatches[t.invocation := t.dispatch];
      dispatchSequences := dispatchSequences[(t.invocation, t.dispatch) := t.sequence];
      sequenceDispatches := sequenceDispatches[t.sequence := (t.invocation, t.dispatch)];
      accepted := accepted + [Started(c)];
      assert Index() == filed;
    }

    method AcceptTerminal(frame: Frame) returns (error: Option<ValidationError>)
      requires Valid() && IsTerminal(frame)
      modifies this`terminalDispatches, this`accepted
      ensures Valid()
      ensures error == Verdict(old(accepted), frame)
      ensures accepted == if error.None? then old(accepted) + [frame] else old(accepted)
      ensures error.Some? ==> unchanged(this)
    {
      error := AcceptCorrelated(frame.c);
      if error.Some? {
        return;
      }
      var t := frame.c.triple;
      LookupsDecide(Index(), StartedIn(accepted), t);
      if !Filed(Index(), t) {
        return Some(MissingField);
      }
      HistoryGrows(accepted, frame);
      AdmittedExtends(accepted, frame);
      terminalDispatches := terminalDispatches + {(t.invocation, t.dispatch)};
      accepted := accepted + [frame];
    }
  }
}
