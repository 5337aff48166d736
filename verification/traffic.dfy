/**
  A sequence of requests served one after another by the same application.
  The view keeps no state between calls, so each request's outcome is the one
  it would get on its own, and processing happens once per accepted POST, in
  arrival order. The collaborators are allowed to answer differently on each
  request; only the view itself is stateless.
*/
module Traffic {
  import opened Wrappers
  import opened Views

  /** The outcomes of a run of requests, one per request, and the collaborator
      calls they made, concatenated in order. */
  datatype Run<P> = Run(outcomes: seq<Outcome>, trace: seq<Effect<P>>)

  /** Serve `reqs` in order, the last request after all the others. Request
      `reqs[i]` is served in environment `envs[i]`: the collaborators may answer
      the same payload differently from one request to the next (a transient
      failure, or state of their own), so each request gets its own view of them. */
  function Serve<P>(reqs: seq<Request<P>>, envs: seq<Env<P>>): (r: Run<P>)
    requires |envs| == |reqs|
    ensures |r.outcomes| == |reqs|
    ensures |r.trace| <= 2 * |reqs|
    decreases |reqs|
  {
    if |reqs| == 0 then Run([], [])
    else
      var prev := Serve(reqs[..|reqs| - 1], envs[..|envs| - 1]);
      var s := Handle(reqs[|reqs| - 1], envs[|envs| - 1]);
      Run(prev.outcomes + [s.outcome], prev.trace + s.trace)
  }

  /** The payloads handed to the processor, in the order of the calls. */
  function ProcessedPayloads<P>(trace: seq<Effect<P>>): (ps: seq<Option<P>>)
    ensures |ps| <= |trace|
    ensures forall k :: 0 <= k < |ps| ==> Processed(ps[k]) in trace
    decreases |trace|
  {
    if |trace| == 0 then []
    else
      var rest := ProcessedPayloads(trace[..|trace| - 1]);
      match trace[|trace| - 1]
      case Processed(p) => rest + [p]
      case Validated(_) => rest
  }

  /** The payloads of the POSTs in `reqs` that the validator accepts when it is
      called for that request, in order: the reference for what the processor
      should see. */
  ghost function AcceptedPayloads<P>(reqs: seq<Request<P>>, envs: seq<Env<P>>): seq<Option<P>>
    requires |envs| == |reqs|
    decreases |reqs|
  {
    if |reqs| == 0 then []
    else
      var rest := AcceptedPayloads(reqs[..|reqs| - 1], envs[..|envs| - 1]);
      match reqs[|reqs| - 1]
      case Post(data) => if Accepted(envs[|envs| - 1], data) then rest + [data] else rest
      case Get(_, _, _) => rest
  }

  /** Collecting processed payloads distributes over concatenation of traces. */
  lemma {:induction false} ProcessedPayloadsAppend<P>(a: seq<Effect<P>>, b: seq<Effect<P>>)
    ensures ProcessedPayloads(a + b) == ProcessedPayloads(a) + ProcessedPayloads(b)
    decreases |b|
  {
    if |b| == 0 {
      assert a + b == a;
    } else {
      var b' := b[..|b| - 1];
      assert (a + b)[..|a + b| - 1] == a + b';
      assert (a + b)[|a + b| - 1] == b[|b| - 1];
      ProcessedPayloadsAppend(a, b');
    }
  }

  /** The processor is called exactly on the payloads of the accepted POSTs,
      once each and in arrival order: no accepted event is skipped or processed
      twice, and nothing else reaches the processor. */
  lemma {:induction false} ProcessedExactlyAccepted<P>(reqs: seq<Request<P>>, envs: seq<Env<P>>)
    requires |envs| == |reqs|
    ensures ProcessedPayloads(Serve(reqs, envs).trace) == AcceptedPayloads(reqs, envs)
    decreases |reqs|
  {
    if |reqs| > 0 {
      var prefix, envs' := reqs[..|reqs| - 1], envs[..|envs| - 1];
      var env := envs[|envs| - 1];
      var s := Handle(reqs[|reqs| - 1], env);
      ProcessedExactlyAccepted(prefix, envs');
      ProcessedPayloadsAppend(Serve(prefix, envs').trace, s.trace);
      match reqs[|reqs| - 1]
      case Get(_, _, _) =>
        assert ProcessedPayloads(s.trace) == [];
      case Post(data) =>
        if Accepted(env, data) {
          assert s.trace == [Validated(data), Processed(data)];
          assert [Validated(data), Processed(data)][..1] == [Validated(data)];
          assert ProcessedPayloads(s.trace) == [data];
        } else {
          assert s.trace == [Validated(data)];
          assert ProcessedPayloads(s.trace) == [];
        }
    }
  }

  /** The view is stateless: in any run, each request gets exactly the outcome it
      gets when served alone against the same collaborator answers, whatever
      came before it. */
  lemma {:induction false} OutcomesIndependentOfHistory<P>(reqs: seq<Request<P>>, envs: seq<Env<P>>)
    requires |envs| == |reqs|
    ensures forall i :: 0 <= i < |reqs| ==> Serve(reqs, envs).outcomes[i] == Handle(reqs[i], envs[i]).outcome
    decreases |reqs|
  {
    if |reqs| > 0 {
      var prefix, envs' := reqs[..|reqs| - 1], envs[..|envs| - 1];
      OutcomesIndependentOfHistory(prefix, envs');
      forall i | 0 <= i < |reqs|
        ensures Serve(reqs, envs).outcomes[i] == Handle(reqs[i], envs[i]).outcome
      {
        if i < |reqs| - 1 {
          assert reqs[i] == prefix[i] && envs[i] == envs'[i];
        }
      }
    }
  }

  /** Serving two batches one after the other is the same as serving each batch
      on its own and concatenating the results. */
  lemma {:induction false} ServeAppend<P>(a: seq<Request<P>>, b: seq<Request<P>>,
                                         ea: seq<Env<P>>, eb: seq<Env<P>>)
    requires |ea| == |a| && |eb| == |b|
    ensures Serve(a + b, ea + eb)
            == Run(Serve(a, ea).outcomes + Serve(b, eb).outcomes, Serve(a, ea).trace + Serve(b, eb).trace)
    decreases |b|
  {
    if |b| == 0 {
      assert a + b == a && ea + eb == ea;
    } else {
      var b', eb' := b[..|b| - 1], eb[..|eb| - 1];
      assert (a + b)[..|a + b| - 1] == a + b';
      assert (a + b)[|a + b| - 1] == b[|b| - 1];
      assert (ea + eb)[..|ea + eb| - 1] == ea + eb';
      assert (ea + eb)[|ea + eb| - 1] == eb[|eb| - 1];
      ServeAppend(a, b', ea, eb');
    }
  }

  /** The two environments give the same answers to everything `req` makes the
      view look at: the configuration for a GET, the validator's and the
      processor's answers on the payload for a POST. */
  ghost predicate AnswerAlike<P>(req: Request<P>, e1: Env<P>, e2: Env<P>) {
    match req
    case Get(_, _, _) => e1.config == e2.config
    case Post(data) => e1.validate(data) == e2.validate(data) && e1.process(data) == e2.process(data)
  }

  /** Repeating a request whose collaborators answer alike both times gives the
      same outcome and the same collaborator calls the second time as the first. */
  lemma RepeatedRequestRepeatsResult<P>(req: Request<P>, e1: Env<P>, e2: Env<P>)
    requires AnswerAlike(req, e1, e2)
    ensures Serve([req, req], [e1, e2]).outcomes == [Handle(req, e1).outcome, Handle(req, e1).outcome]
    ensures Serve([req, req], [e1, e2]).trace == Handle(req, e1).trace + Handle(req, e1).trace
  {
  }

  /** The view does not retry and does not remember: when the processor raises on
      one request and returns on an identical later one, the first request gets
      the exception and the second the acknowledgement. */
  lemma TransientFailureThenAcknowledged<P>(data: Option<P>, e1: Env<P>, e2: Env<P>)
    requires Accepted(e1, data) && Accepted(e2, data)
    requires e1.process(data) == Throws && e2.process(data).Returns?
    ensures Serve([Post(data), Post(data)], [e1, e2]).outcomes == [Raised(CollaboratorError), Acknowledged]
    ensures Serve([Post(data), Post(data)], [e1, e2]).trace
            == [Validated(data), Processed(data), Validated(data), Processed(data)]
  {
  }

  /** A run made only of handshakes never calls the validator or the processor. */
  lemma {:induction false} HandshakesHaveNoEffects<P>(reqs: seq<Request<P>>, envs: seq<Env<P>>)
    requires |envs| == |reqs|
    requires forall i :: 0 <= i < |reqs| ==> reqs[i].Get?
    ensures Serve(reqs, envs).trace == []
    decreases |reqs|
  {
    if |reqs| > 0 {
      HandshakesHaveNoEffects(reqs[..|reqs| - 1], envs[..|envs| - 1]);
    }
  }
}
