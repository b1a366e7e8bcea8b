# Weather skill for a voice assistant: request dispatch and answers

This project models the two skill files of the Weather Tool skill. `lambda.py`
is the live skill and `stage.py` is a stub of it. A request from the voice
platform (a launch, an intent, the end of a session, or some other event) is
passed to eleven request handlers in the order they were registered. The
first one whose `can_handle` holds builds the response. An exception raised
by that handler, or the absence of any matching handler, goes to the single
exception handler. That handler accepts everything and apologises.

Modules:

- `Wrappers`: `Option` and `Result`.
- `Alexa`: the request and response algebra the handlers use.
  - A request is a launch, an intent with a name, a session end, or another
    type.
  - `is_request_type` and `is_intent_name` are predicates.
  - A response holds the speech and the reprompt.
  - The Python exceptions that can leave a handler are listed.
- `Dispatch`: the dispatch rule the SDK applies, written generically over a
  handler type.
  - `FirstMatch`/`Select` is the first-match scan.
  - `Invoke` is one request through the request-handler chain and then the
    exception-handler chain.
  - The `SkillBuilder` class holds the two ordered lists that
    `add_request_handler` and `add_exception_handler` append to in place.
- `Decimal`: how an f-string renders a non-negative integer, and the reading
  back of that rendering.
- `Live` is `lambda.py` and `Stage` is `stage.py`. Each has:
  - the handler table as `CanHandle`/`Handle` over a `Handler` enumeration;
  - the registration order as `RequestHandlers()`, with `BuildSkill` running
    the registration statements against a `SkillBuilder`;
  - `LambdaHandler`, which is the skill's answer to one request.

`get_weather_info()` is the one call to the outside world. It becomes an input
of type `Option`, and `None` means it failed.

- In `Live` the input is the decoded JSON answer of the weather service,
  limited to the keys the handlers read. A missing key is `None`.
- The temperatures and precipitation amounts are kept as the text the
  f-string interpolates. Each precipitation amount also carries its Python
  truthiness.
- `if api_response:` is Python truthiness of a dict: an empty JSON object is
  falsy. `WeatherData.otherKeys` stands for keys the handlers never read.
- In `Stage` the input is the HTTP response itself, of which only
  `status_code` is read.

Each file's dispatch is checked against a reference routing, `Route`:

- launch and session end go to their own handlers;
- each named intent goes to its handler;
- every other intent goes to the reflector;
- every other request type goes nowhere.

Each file also has a reference answer, `Respond`: the routed handler's
response, or the apology when nothing is routed or the handler raises.
`SelectFollowsRoute` and `LambdaHandlerAnswers` prove that the registered
order and the SDK's first-match rule produce exactly these. Together they
also prove that no error escapes `lambda_handler`. The per-handler lemmas
then state, end to end, what `LambdaHandler` answers to each kind of request.

Edge cases, modelled as the code behaves:

- In `lambda.py`, `api_response["weather"][0]` on an empty `weather` list
  raises `IndexError`. That is not the `KeyError` the handler catches, so the
  request ends in the catch-all apology (`Live.WeatherEmptyListApologises`).
  It does not get the processing-error text.
- A missing `cod` in the greeting is not caught by its handler. It ends in
  the apology with a reprompt (`Live.HelloWorldWithoutCodeApologises`).
- The stub's specific intent names are capitalised (`WeatherIntent` and so
  on). So the live file's `weatherIntent` reaches the reflector there and is
  echoed (`Stage.LowerCaseWeatherIntentReflected`).

## Model

| member | source | states |
|---|---|---|
| Alexa.RequestType | lambda.py:37 | the declared type is LaunchRequest, IntentRequest or SessionEndedRequest exactly for those requests, and a known type exactly when the request is not of another type |
| Dispatch.FirstMatchSpec | lambda.py:254-256 | the top-to-bottom scan returns an index whose handler accepts, with no earlier handler accepting; it returns nothing exactly when no handler accepts |
| Dispatch.SelectSpec | lambda.py:254-256 | the selected handler is registered and accepts; nothing is selected exactly when no registered handler accepts |
| Dispatch.FirstMatchAt | lambda.py:254-256 | when handler i accepts and none before it does, the scan picks i |
| Dispatch.SelectNone | lambda.py:254-256 | when no handler accepts, nothing is selected |
| Dispatch.Shadowed | lambda.py:270 | a handler that accepts no more than an earlier one, and occurs once, is never selected |
| Dispatch.InvokeEscapes | lambda.py:272 | an error leaves the chains only if no exception handler accepts it, and it is either "no handler found" or one a request handler raised |
| Dispatch.InvokeTotal | lambda.py:239-240 | with an exception handler first that accepts every error, every request gets an answer: the selected handler's response, or that handler's answer to the error raised or to "no handler found" |
| Dispatch.SkillBuilder.constructor | lambda.py:258 | a new builder holds no handlers |
| Dispatch.SkillBuilder.AddRequestHandler | lambda.py:260-270 | appends one request handler at the end and leaves the exception handlers alone |
| Dispatch.SkillBuilder.AddExceptionHandler | lambda.py:272 | appends one exception handler at the end and leaves the request handlers alone |
| Decimal.DigitChar | stage.py:59 | the character is a decimal digit whose value is d |
| Decimal.NatToString | stage.py:59 | the rendering is non-empty, all digits, and has no leading zero |
| Decimal.StringToNatOfNatToString | stage.py:59 | reading the rendering back gives the number |
| Decimal.NatToStringInjective | stage.py:59 | distinct status codes are rendered differently |
| Live.BuildSkill | lambda.py:258-272 | the registration statements leave the builder holding the eleven handlers in the order Launch, HelloWorld, weather, temperature, clothing, misc, Help, CancelOrStop, Fallback, SessionEnded, Reflector, and the one catch-all |
| Live.Position | lambda.py:260-270 | the place of each handler in the registration order |
| Live.SelectAtPosition | lambda.py:254-270 | a handler that accepts the request, with none registered before it accepting, is the one dispatched to |
| Live.SelectFollowsRoute | lambda.py:254-270 | first-match dispatch over the registered order picks exactly the reference routing for every request |
| Live.SelectFollowsRouteForIntent | lambda.py:260-270 | the same for intent requests |
| Live.LambdaHandlerAnswers | lambda.py:234-274 | every request is answered, with nothing escaping, and the answer is the routed handler's response or the catch-all apology when nothing matches or the handler raises |
| Live.KnownRequestsMatched | lambda.py:260-270 | a handler is found exactly for launch, intent and session-end requests |
| Live.RouteKnown | lambda.py:34-221 | the reference routing sends a request somewhere exactly when its type is one of the three known ones |
| Live.ReflectorOnlyForUnknownIntents | lambda.py:214-231 | the reflector is dispatched to exactly for intents no specific handler names |
| Live.RouteToReflector | lambda.py:220-221 | the reference routing reaches the reflector exactly for unnamed intents |
| Live.RouteToCancelOrStop | lambda.py:177-179 | the reference routing reaches CancelOrStop exactly for AMAZON.CancelIntent and AMAZON.StopIntent |
| Live.UnknownIntentEchoed | lambda.py:223-231 | an intent without its own handler is answered "You just triggered " + name + "." with no reprompt |
| Live.EveryHandlerReachable | lambda.py:260-270 | every registered handler is dispatched to by some request, so none is shadowed |
| Live.ReflectorFirstShadowsIntents | lambda.py:270 | with the reflector registered first, the weather handler would never be dispatched to |
| Live.GoodbyeExactlyForCancelOrStop | lambda.py:175-188 | "Goodbye!" without a reprompt is the answer exactly to a cancel or stop intent |
| Live.RespondGoodbye | lambda.py:181-188 | the reference answer is "Goodbye!" exactly when CancelOrStop is routed to |
| Live.OnlyCancelOrStopSaysGoodbye | lambda.py:34-231 | no other handler answers "Goodbye!" |
| Live.NamedIntentAnswer | lambda.py:50-201 | a named intent gets its handler's response, or the apology when that handler raises |
| Live.WeatherFetchFailed | lambda.py:75-99 | a failed or empty fetch gives "There was an error fetching the weather information." |
| Live.WeatherProcessingFailed | lambda.py:77-97 | with a non-empty answer, the processing-error text is given exactly when `weather` or the first entry's `description` is missing; rain and snow never cause it |
| Live.WeatherOutcomeOfAnswer | lambda.py:77-97 | the same at the level of the handler's outcome |
| Live.ReportIsNoError | lambda.py:79-121 | a report ("The current ...") is never an error text ("There was an error ...") |
| Live.WeatherEmptyListApologises | lambda.py:77-97 | an empty `weather` list raises IndexError, which is not caught, and ends in the catch-all apology |
| Live.WeatherReported | lambda.py:78-94 | with a description, the speech starts "The current weather is " + description, followed by the rain clause and then the snow clause, with no reprompt |
| Live.PrecipitationClauseShape | lambda.py:81-94 | a rain or snow clause is empty exactly when the 1h amount is missing or zero, and otherwise starts ", with <amount> mm of <kind>" |
| Live.NoRainSaysNothing | lambda.py:81-92 | a missing `rain` key, a missing `1h` and a zero amount give the same answer |
| Live.NoSnowSaysNothing | lambda.py:86-94 | the same for snow |
| Live.TemperatureFetchFailed | lambda.py:113-123 | a failed or empty fetch gives the fetch-error text |
| Live.TemperatureProcessingFailed | lambda.py:114-121 | with a non-empty answer, the temperature processing-error text is given exactly when `main`, `temp` or `feels_like` is missing |
| Live.TemperatureOutcomeOfAnswer | lambda.py:114-121 | the handler never raises on a non-empty answer, and gives the processing-error text exactly when one of the three keys is missing |
| Live.TemperatureReported | lambda.py:116-118 | with both readings, the speech names the temperature first and the felt temperature second, with no reprompt |
| Live.HelloWorldReportsCode | lambda.py:57-59 | a non-empty answer with `cod` gives "Hello World!, The API status code is " + cod + "." |
| Live.HelloWorldFetchFailed | lambda.py:57-61 | a failed or empty fetch gives the greeting's fetch-error text |
| Live.HelloWorldWithoutCodeApologises | lambda.py:55-67 | a non-empty answer without `cod` ends in the apology, which keeps the session open with a reprompt |
| Live.ClothingIntentFixed | lambda.py:131-143 | clothingIntent answers its fixed text whatever the fetch returned |
| Live.MiscIntentFixed | lambda.py:145-157 | miscIntent answers its fixed text whatever the fetch returned |
| Live.RepromptOnlyFromLaunchHelpFallback | lambda.py:34-211 | a request handler's response has a reprompt exactly when it is Launch, Help or Fallback |
| Stage.BuildSkill | stage.py:224-238 | the registration statements leave the builder holding the eleven handlers in order, and the catch-all |
| Stage.SameRegistrationOrder | stage.py:224-238 | the handler order and the exception chain are those of the live file |
| Stage.SelectAtPosition | stage.py:220-236 | a handler that accepts, with none before it accepting, is dispatched to |
| Stage.SelectFollowsRoute | stage.py:220-236 | first-match dispatch picks exactly the reference routing, with the capitalised names |
| Stage.SelectFollowsRouteForIntent | stage.py:226-236 | the same for intent requests |
| Stage.LambdaHandlerAnswers | stage.py:200-240 | every request is answered, and the answer is the routed handler's response or the apology |
| Stage.RouteToReflector | stage.py:186-187 | the reflector is routed to exactly for unnamed intents |
| Stage.UnknownIntentEchoed | stage.py:189-197 | an unnamed intent is echoed back verbatim |
| Stage.LowerCaseWeatherIntentReflected | stage.py:69-72 | the live file's `weatherIntent` is echoed by the reflector here |
| Stage.OnlyHelloWorldReadsFetch | stage.py:34-197 | every request except the greeting gets the same answer whatever the fetch returned |
| Stage.NamedIntentAnswer | stage.py:50-167 | a named intent gets its handler's response |
| Stage.WeatherIntentStub | stage.py:69-81 | WeatherIntent answers "You triggered weather intent." |
| Stage.TemperatureIntentStub | stage.py:83-95 | TemperatureIntent answers "You triggered temperature intent." |
| Stage.ClothingIntentStub | stage.py:97-109 | ClothingIntent answers "You triggered clothing intent." |
| Stage.MiscIntentStub | stage.py:111-123 | MiscIntent answers "You triggered miscellaneous intent." |
| Stage.HelloWorldReportsStatus | stage.py:56-59 | with a response, the greeting speaks "Hello World!, The API status code is " + the canonical decimal of the status code + ".", with no reprompt: the digits are non-empty, have no leading zero, and read back as the code |
| Stage.HelloWorldDistinguishesStatus | stage.py:56-59 | distinct status codes give distinct greetings |
| Stage.HelloWorldFetchFailed | stage.py:57-61 | without a response, the greeting speaks its fetch-error text |
| Stage.LaunchRepromptsWelcome | stage.py:39-47 | launch speaks and reprompts the same text |
| Stage.HelpRepromptsHelp | stage.py:130-138 | Help speaks and reprompts the same text |
| Stage.FallbackRepromptDiffers | stage.py:162-167 | Fallback reprompts with a text different from its speech |
| Stage.SessionEndedSilent | stage.py:170-177 | the end of a session is answered with no speech and no reprompt |
| Stage.UnknownRequestTypeApologises | stage.py:205-218 | a request of another type matches nothing and gets the apology, spoken and reprompted |
| Stage.AgreesWithLive | stage.py:34-238 | apart from the greeting and the four intents whose names differ in case, the stub answers every request as the live skill does |
| Stage.SameAnswerOutsideNames | stage.py:34-218 | the same for the reference answers |
| Stage.SameRouteOutsideNames | stage.py:226-236 | outside those names both files route alike, and never to the five differing handlers |

## Left out

- `get_weather_info` (`lambda.py:24-32`, `stage.py:24-32`) is not modelled. It does the HTTP GET and `raise_for_status`, which is network I/O. In `lambda.py` it also decodes the JSON body; in `stage.py` it returns the response undecoded. Its result is an input of type `Option`.
- The `constants` module (API key, latitude, longitude) is not part of this model. It is only used to build the URL.
- The SDK itself is not modelled. This covers request deserialisation, `response_builder` chaining, and `lambda_handler`'s serialisation of the response envelope. `Dispatch` states the dispatch rule the skill relies on, as the comment at `lambda.py:254-256` describes it. `Response` holds only the speech and the reprompt.
- `shouldEndSession` is not modelled. The SDK derives it from whether a reprompt was set.
- Logging calls (`logger.error`, `logger.info`) are left out. They have no effect on the answer.
- Float rendering of `temp`, `feels_like` and the rain and snow amounts is not modelled. The values are opaque strings, and only the truthiness of the amounts is kept.
- The stub's `if api_response:` on a `requests.Response` is not modelled. Its truthiness is defined by the library, and once `raise_for_status` has passed, a present response is taken as truthy.
- `cod` is kept as the text the f-string interpolates. The service's integer `cod` (200) is covered through that rendering; how Python renders it is not modelled.
- Live.WeatherData assumes the decoded answer is well-typed: `weather` a list of objects, `main`, `rain` and `snow` objects. An ill-typed value (`"rain": null`, `"main": []`, `"weather": null`, a non-object entry) would raise `TypeError` at `lambda.py:78`, `82`, `87` or `116-117`. The `except KeyError` clauses do not catch it, so the request would end in the catch-all apology. The model cannot express such inputs.
- Request objects of a known type are not modelled as carrying other content. The skill reads nothing but the type and the intent name. An `OtherRequest` never carries one of the three known type names, because the deserialiser picks the class by that name.
- The reflector on a request that is not an intent raises `TypeError` in `Handle`. Dispatch never sends it such a request, so no lemma is about that case.
- Dispatch.FirstMatch, Dispatch.Select and Dispatch.Invoke carry their properties in the lemmas `FirstMatchSpec`, `SelectSpec`, `InvokeEscapes` and `InvokeTotal` rather than in their own `ensures` clauses.
