/**
  The webhook view of the WhatsApp Cloud API integration: one handler bound to
  `/webhook` that answers the platform's subscription-verification handshake on
  GET and acknowledges event notifications on POST.

  The handler is modelled as a pure function from an already-extracted request
  and an environment (the application's configuration and the two collaborators
  it calls) to the value the view returns, together with a trace of the calls
  it made into the collaborators.
*/
module Views {
  import opened Wrappers

  /** The only `hub.mode` value the handshake accepts. */
  const Subscribe: string := "subscribe"
  /** The configuration key holding the expected verification token. */
  const VerifyTokenKey: string := "VERIFY_TOKEN"
  /** The fixed body of a failed handshake. */
  const MismatchBody: string := "Verification token mismatch"
  /** The fixed acknowledgement body of every completed POST. */
  const AckBody: string := "EVENT_RECEIVED"

  const StatusOk: int := 200
  const StatusForbidden: int := 403

  /** The application's configuration mapping. A key that is present may still be
      bound to `None`, for instance when it was filled from an unset
      environment variable. Configured values are limited to strings and `None`;
      a value of any other type would never equal a query parameter. */
  type Config = map<string, Option<string>>

  /** A request after the framework has extracted what the view reads from it.
      A GET carries the three `hub.*` query parameters, each `None` when absent.
      A POST carries the JSON body as the framework parsed it; it is `None` only
      for a JSON `null` body. A POST whose body is missing, unparsable or not
      declared as JSON makes the parsing call raise before the validator runs;
      that path belongs to the framework and is not part of this model. */
  datatype Request<P> =
    | Get(mode: Option<string>, token: Option<string>, challenge: Option<string>)
    | Post(data: Option<P>)

  /** The exceptions that can escape the view. */
  datatype Exception =
    | KeyError(key: string)   // the configuration has no entry for the key
    | CollaboratorError       // the validator or the processor raised

  /** What the view produces: the `(body, status)` pair it returns, or the
      exception it lets propagate. The body is an `Option` because the view
      returns the `hub.challenge` argument as it found it, which may be `None`. */
  datatype Outcome =
    | Returned(body: Option<string>, status: int)
    | Raised(error: Exception)

  /** The reply to a failed handshake. */
  const Forbidden: Outcome := Returned(Some(MismatchBody), StatusForbidden)
  /** The reply to a POST whose collaborators returned normally. */
  const Acknowledged: Outcome := Returned(Some(AckBody), StatusOk)

  /** One call into a collaborator, with the payload it was given. */
  datatype Effect<P> = Validated(input: Option<P>) | Processed(input: Option<P>)

  /** Everything the view reads besides the request: the configuration, the
      message validator and the message processor. The collaborators are left
      uninterpreted; each call either returns or raises. The view tests the
      truthiness of whatever the validator returns, and `Call<bool>` records that
      truthiness rather than the returned value itself. */
  datatype Env<!P> = Env(
    config: Config,
    validate: Option<P> -> Call<bool>,
    process: Option<P> -> Call<()>)

  /** The result of one call of the view: its outcome and the collaborator calls
      it made, in order. */
  datatype Step<P> = Step(outcome: Outcome, trace: seq<Effect<P>>)

  /** The presented token equals the configured one under Python's `==`: a
      missing parameter (`None`) equals only a configured `None`. */
  ghost predicate TokenMatches(token: Option<string>, config: Config) {
    VerifyTokenKey in config && token == config[VerifyTokenKey]
  }

  /** The validator accepted the payload and returned normally. */
  ghost predicate Accepted<P>(env: Env<P>, data: Option<P>) {
    env.validate(data) == Returns(true)
  }

  /** Both collaborators return normally on `data` (the processor only needs to
      when it is reached). */
  ghost predicate CollaboratorsReturn<P>(env: Env<P>, data: Option<P>) {
    env.validate(data).Returns? && (Accepted(env, data) ==> env.process(data).Returns?)
  }

  /** The handshake. The mode is compared first and the configuration is read
      only when the mode is `"subscribe"`, so a missing configuration key raises
      only on that path. */
  function Verify(mode: Option<string>, token: Option<string>, challenge: Option<string>,
                  config: Config): (o: Outcome)
    ensures o.Returned? && o.status == StatusOk <==> mode == Some(Subscribe) && TokenMatches(token, config)
    ensures o.Returned? && o.status == StatusOk ==> o.body == challenge
    ensures o.Returned? && o.status != StatusOk ==> o == Forbidden
    ensures o.Raised? <==> mode == Some(Subscribe) && VerifyTokenKey !in config
    ensures o.Raised? ==> o.error == KeyError(VerifyTokenKey)
  {
    if mode != Some(Subscribe) then Forbidden
    else if VerifyTokenKey !in config then Raised(KeyError(VerifyTokenKey))
    else if token == config[VerifyTokenKey] then Returned(challenge, StatusOk)
    else Forbidden
  }

  /** Event intake. The validator is called once on the payload; the processor
      is called, synchronously and before the acknowledgement, only when the
      validator returned true. Nothing catches an exception from either. */
  function Intake<P>(data: Option<P>, env: Env<P>): (s: Step<P>)
    ensures 1 <= |s.trace| <= 2 && s.trace[0] == Validated(data)
    ensures |s.trace| == 2 <==> Accepted(env, data)
    ensures |s.trace| == 2 ==> s.trace[1] == Processed(data)
    ensures s.outcome.Raised? <==> !CollaboratorsReturn(env, data)
    ensures s.outcome.Raised? ==> s.outcome.error == CollaboratorError
    ensures s.outcome.Returned? ==> s.outcome == Acknowledged
  {
    match env.validate(data)
    case Throws => Step(Raised(CollaboratorError), [Validated(data)])
    case Returns(false) => Step(Acknowledged, [Validated(data)])
    case Returns(true) =>
      var trace := [Validated(data), Processed(data)];
      match env.process(data)
      case Throws => Step(Raised(CollaboratorError), trace)
      case Returns(_) => Step(Acknowledged, trace)
  }

  /** The view: dispatch on the request method. */
  function Handle<P>(req: Request<P>, env: Env<P>): (s: Step<P>)
    ensures |s.trace| <= 2
    ensures req.Get? ==> s.trace == []
    ensures req.Post? ==> s.outcome.Raised? || s.outcome == Acknowledged
    ensures s.outcome.Returned? && s.outcome.status == StatusForbidden ==> req.Get?
  {
    match req
    case Get(mode, token, challenge) => Step(Verify(mode, token, challenge, env.config), [])
    case Post(data) => Intake(data, env)
  }

  /** The handshake succeeds exactly when the mode is `"subscribe"` and the token
      matches, and then echoes the challenge unchanged with status 200. */
  lemma HandshakeSucceedsIff<P>(mode: Option<string>, token: Option<string>, challenge: Option<string>,
                                env: Env<P>)
    ensures Handle(Get(mode, token, challenge), env).outcome == Returned(challenge, StatusOk)
            <==> mode == Some(Subscribe) && TokenMatches(token, env.config)
  {
  }

  /** A mode other than `"subscribe"`, including an absent one, is refused
      whatever the token and whether or not the token is configured. */
  lemma WrongModeRefused(mode: Option<string>, token: Option<string>, challenge: Option<string>,
                         config: Config)
    requires mode != Some(Subscribe)
    ensures Verify(mode, token, challenge, config) == Forbidden
  {
  }

  /** With mode `"subscribe"`, a token that differs from the configured one,
      including an absent token against a configured string, is refused. */
  lemma WrongTokenRefused(token: Option<string>, challenge: Option<string>, config: Config)
    requires VerifyTokenKey in config && token != config[VerifyTokenKey]
    ensures Verify(Some(Subscribe), token, challenge, config) == Forbidden
  {
  }

  /** Absent parameters are compared as values: an absent mode never equals
      `"subscribe"`, and an absent token matches exactly when the configured
      token is itself `None`. */
  lemma AbsentParametersCompareAsValues(token: Option<string>, challenge: Option<string>,
                                        config: Config)
    requires VerifyTokenKey in config
    ensures Verify(None, token, challenge, config) == Forbidden
    ensures Verify(Some(Subscribe), None, challenge, config) == Returned(challenge, StatusOk)
            <==> config[VerifyTokenKey] == None
    ensures config[VerifyTokenKey] != None ==> Verify(Some(Subscribe), None, challenge, config) == Forbidden
  {
  }

  /** A missing configuration key raises `KeyError`, but only for a request whose
      mode is `"subscribe"`; any other mode is refused before the lookup. */
  lemma MissingKeyRaisesOnlyWhenReached(mode: Option<string>, token: Option<string>,
                                        challenge: Option<string>, config: Config)
    requires VerifyTokenKey !in config
    ensures mode == Some(Subscribe) ==> Verify(mode, token, challenge, config) == Raised(KeyError(VerifyTokenKey))
    ensures mode != Some(Subscribe) ==> Verify(mode, token, challenge, config) == Forbidden
  {
  }

  /** A GET never calls the validator or the processor, and its outcome does not
      depend on them. */
  lemma GetHasNoEffects<P>(mode: Option<string>, token: Option<string>, challenge: Option<string>,
                           env: Env<P>, env': Env<P>)
    requires env.config == env'.config
    ensures Handle(Get(mode, token, challenge), env).trace == []
    ensures Handle(Get(mode, token, challenge), env).outcome
            == Handle(Get(mode, token, challenge), env').outcome
  {
  }

  /** Every POST whose collaborators return normally is acknowledged with 200 and
      `"EVENT_RECEIVED"`, whatever the payload and whatever the validator decided. */
  lemma PostAcknowledged<P>(data: Option<P>, env: Env<P>)
    requires CollaboratorsReturn(env, data)
    ensures Handle(Post(data), env).outcome == Acknowledged
  {
  }

  /** On POST the processor is called exactly once, on the payload itself, when
      the validator returns true, and not at all otherwise. */
  lemma ProcessorCalledIffAccepted<P>(data: Option<P>, env: Env<P>)
    ensures Accepted(env, data) ==> Handle(Post(data), env).trace == [Validated(data), Processed(data)]
    ensures !Accepted(env, data) ==> Handle(Post(data), env).trace == [Validated(data)]
  {
  }
}
