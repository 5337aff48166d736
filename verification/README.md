# Webhook handler of a WhatsApp Cloud API integration, in Dafny

The service exposes one HTTP endpoint, `/webhook`, to the Meta Graph API. A GET
is the platform's subscription-verification handshake. It carries the
`hub.mode`, `hub.verify_token` and `hub.challenge` query parameters, and the
handler echoes the challenge only when the mode is `"subscribe"` and the token
equals the application's `VERIFY_TOKEN` setting. A POST is an event
notification. The handler passes its JSON payload to a validator and, when the
validator accepts it, to a message processor. It then acknowledges with
`"EVENT_RECEIVED"`.

The model is three modules:

- `Wrappers`: `Option` for Python's `None`, and `Call`, the result of a
  collaborator call that either returns or raises.
- `Views`: the view itself, as pure functions. `Verify` is the handshake,
  `Intake` the POST path and `Handle` dispatches on the request method.
  Each returns the view's outcome, either the `(body, status)` pair it returns
  or the exception it lets escape. It also returns a trace of the collaborator
  calls, in order.
- `Traffic`: a sequence of requests served one after another by the same
  application. It states statelessness and "processed once per accepted event"
  over whole runs.

Inputs the model takes as parameters instead of reading them:

- The request arrives with its parameters already extracted. Each query
  parameter is `Option<string>`, `None` when absent. The POST body is an
  already-parsed `Option<P>` for an arbitrary payload type `P`; `None` is a
  JSON `null` body.
- The configuration is a `map<string, Option<string>>`. The key may be missing,
  or present and bound to `None`.
- The validator `is_valid_whatsapp_message` and the processor
  `process_whatsapp_message` live in `app/utils/whatsapp_utils`, which is not
  part of this model. They are uninterpreted function parameters.

How the view behaves, as the model states it:

- Processing runs synchronously, inside the view, before the
  acknowledgement. There is no background task and no fallback path.
- Nothing catches an exception from the validator or the processor. Such an
  exception escapes the view and no acknowledgement is returned. `Intake`
  yields `Raised(CollaboratorError)` in that case, and the "always 200"
  property is proved for POSTs whose collaborators return normally.
- The comparison `mode == "subscribe" and token == config["VERIFY_TOKEN"]`
  short-circuits. The configuration is looked up only when the mode is
  `"subscribe"`. A missing key then raises `KeyError`; with any other mode the
  request is refused with 403 before the lookup.
- On success the view returns the `hub.challenge` argument as it found it,
  which is `None` when the parameter is absent. The model keeps the body as
  `Option<string>`.
- The validator's result is used for its truthiness; `Call<bool>` records
  that truthiness. Configured values are limited to strings and `None`.
- The view keeps no state between requests, but its collaborators may answer
  the same payload differently from one request to the next. A run therefore
  gives each request its own environment, and statelessness is stated
  relative to the answers the collaborators give on that request.

## Model

| member | source | states |
|---|---|---|
| Views.Verify | app/views.py:16-26 | The handshake returns status 200 exactly when the mode is `"subscribe"` and the token equals the configured one, with the challenge as body, unchanged. Every other returned value is the fixed 403 `"Verification token mismatch"`. A `KeyError` is raised exactly when the mode is `"subscribe"` and the key is not configured. |
| Views.Intake | app/views.py:29-38 | The validator is called first, on the payload. The processor is called second, on the same payload, exactly when the validator returned a truthy value. The view raises exactly when a collaborator it reached raised. Any value it does return is 200 `"EVENT_RECEIVED"`. |
| Views.Handle | app/views.py:14-38 | A GET makes no collaborator calls. A POST either raises or is acknowledged with 200 `"EVENT_RECEIVED"`. A 403 is only ever the answer to a GET. One request makes at most two collaborator calls. |
| Views.HandshakeSucceedsIff | app/views.py:21-23 | Both directions: a GET gets `(challenge, 200)` if and only if the mode is `"subscribe"` and the token matches the configured one. |
| Views.WrongModeRefused | app/views.py:21-26 | A mode other than `"subscribe"`, including an absent one, gets the fixed 403 whatever the token, even when no token is configured. |
| Views.WrongTokenRefused | app/views.py:21-26 | With mode `"subscribe"`, a token different from the configured one, including an absent token, gets the fixed 403. |
| Views.AbsentParametersCompareAsValues | app/views.py:17-21 | An absent mode gets 403. An absent token is accepted if and only if the configured token is itself `None` (Python's `None == None`). Otherwise it gets 403. |
| Views.MissingKeyRaisesOnlyWhenReached | app/views.py:21 | With no `VERIFY_TOKEN` key, a `"subscribe"` request raises `KeyError`. Any other mode is refused with 403 without the lookup. |
| Views.GetHasNoEffects | app/views.py:16-26 | A GET's trace is empty, and its outcome is the same for any validator and processor. |
| Views.PostAcknowledged | app/views.py:29-38 | Every POST whose collaborators return normally gets 200 `"EVENT_RECEIVED"`, whatever the payload and whatever the validator decided. |
| Views.ProcessorCalledIffAccepted | app/views.py:34-35 | When the validator returns a truthy value, the trace is exactly one validation and then one processing of the payload. Otherwise it is the validation alone. |
| Traffic.Serve | app/views.py:14-38 | Serving n requests in a row, each with its own collaborator answers, gives exactly n outcomes and at most 2n collaborator calls. |
| Traffic.ProcessedExactlyAccepted | app/views.py:34-35 | Over any run, the payloads handed to the processor are exactly the payloads of the POSTs the validator accepted on their own request, in arrival order. None is skipped, none is processed twice and nothing else is processed. |
| Traffic.OutcomesIndependentOfHistory | app/views.py:14-38 | The view is stateless. In any run, every request gets the outcome it gets when served alone against the same collaborator answers, whatever came before it. |
| Traffic.ServeAppend | app/views.py:14-38 | Serving two batches in a row equals serving each batch alone and concatenating both the outcomes and the traces. |
| Traffic.RepeatedRequestRepeatsResult | app/views.py:14-38 | Sending the same request twice, with the collaborators answering alike both times, gives the same outcome twice, and the second call repeats the first one's collaborator calls. |
| Traffic.TransientFailureThenAcknowledged | app/views.py:34-38 | The view neither retries nor remembers. If the processor raises on one accepted POST and returns on an identical later one, the first gets the exception and the second the acknowledgement, and each call is validated and processed once. |
| Traffic.HandshakesHaveNoEffects | app/views.py:16-26 | A run made only of GETs never calls the validator or the processor. |

## Left out

- Flask routing and plumbing (`app/views.py:10-13`): the blueprint, route registration and method dispatch. Requests with a method other than GET or POST are also left out; the view has no branch for them.
- What the framework does with the value the view returns: turning the tuple into an HTTP response, turning a `None` body into an error, and turning an escaped exception into a server error.
- `request.get_json()` (`app/views.py:30`): the body is parsed by the framework, and the parsed payload is an input. The call is made without `silent=True`, so a POST whose body is missing, unparsable or not declared as JSON raises before the validator runs. Such a POST gets an error and is not acknowledged. The model has no request for it; `None` stands only for a JSON `null` body.
- Logging (`app/views.py:22`, `25`, `31`): diagnostic output only, with no effect on the outcome.
- `is_valid_whatsapp_message` and `process_whatsapp_message`: their code is not part of this model. They are uninterpreted, and each call may return or raise.
- Concurrency and detached dispatch: the view contains none. Processing runs inline before the acknowledgement.
