/**
 * The live skill (lambda.py): eleven request handlers registered in a fixed
 * order, one catch-all exception handler, and the three handlers that turn
 * the weather service's answer into speech. The fetch itself is not modelled:
 * its result is an input, None when the request failed.
 */
module Live {
  import opened Wrappers
  import opened Alexa
  import Dispatch

  // ---------------------------------------------------------------------------
  // The decoded JSON answer of the weather service, restricted to the keys the
  // handlers read. A missing key is None; numbers are kept as the text the
  // f-strings interpolate.
  // ---------------------------------------------------------------------------

  /** A precipitation amount: its rendering, and whether Python finds it truthy (non-zero). */
  datatype Reading = Reading(rendered: string, truthy: bool)

  /** One element of the `weather` list. */
  datatype WeatherEntry = WeatherEntry(description: Option<string>)

  /** The `main` object. */
  datatype MainBlock = MainBlock(temp: Option<string>, feelsLike: Option<string>)

  /** The `rain` or `snow` object. */
  datatype Precipitation = Precipitation(lastHour: Option<Reading>)

  /** The decoded answer; otherKeys says whether it holds keys the handlers never read. */
  datatype WeatherData = WeatherData(
    cod: Option<string>,
    weather: Option<seq<WeatherEntry>>,
    main: Option<MainBlock>,
    rain: Option<Precipitation>,
    snow: Option<Precipitation>,
    otherKeys: bool)

  /** Python truthiness of a dict: it is falsy exactly when empty. */
  predicate Truthy(d: WeatherData) {
    d.cod.Some? || d.weather.Some? || d.main.Some? || d.rain.Some? || d.snow.Some? || d.otherKeys
  }

  /** `if api_response:` for the result of the fetch. */
  predicate Fetched(fetch: Option<WeatherData>) {
    fetch.Some? && Truthy(fetch.value)
  }

  // ---------------------------------------------------------------------------
  // Texts
  // ---------------------------------------------------------------------------

  const HelloWorldName := "HelloWorldIntent"
  const WeatherName := "weatherIntent"
  const TemperatureName := "temperatureIntent"
  const ClothingName := "clothingIntent"
  const MiscName := "miscIntent"
  const HelpName := "AMAZON.HelpIntent"
  const CancelName := "AMAZON.CancelIntent"
  const StopName := "AMAZON.StopIntent"
  const FallbackName := "AMAZON.FallbackIntent"

  const WelcomeText := "Welcome to the Weather Tool Skill. You can ask me about the weather."
  const HelloPrefix := "Hello World!, The API status code is "
  const HelloFetchErrorText := "Hello World!, There was an error fetching the weather information."
  const ReportOpening := "The current "
  const ErrorOpening := "There was an error "
  const WeatherPrefix := ReportOpening + "weather is "
  const WeatherProcessingErrorText := ErrorOpening + "processing the weather information."
  const FetchErrorText := ErrorOpening + "fetching the weather information."
  const TemperaturePrefix := ReportOpening + "temperature is "
  const FeelsLikeInfix := "\U{00B0}C, but feels like "
  const TemperatureSuffix := "\U{00B0}C."
  const TemperatureProcessingErrorText := ErrorOpening + "processing the temperature information."
  const ClothingText := "You triggered clothing intent."
  const MiscText := "You triggered miscellaneous intent."
  const HelpText := "You can say hello to me! How can I help?"
  const GoodbyeText := "Goodbye!"
  const FallbackText := "Hmm, I'm not sure. You can say Hello or Help. What would you like to do?"
  const FallbackReprompt := "I didn't catch that. What can I help you with?"
  const ReflectorPrefix := "You just triggered "
  const ApologyText := "Sorry, I do not understand what you asked, please try again."

  /** What the catch-all exception handler answers. */
  const CatchAllResponse := SpeakAsk(ApologyText, ApologyText)

  // ---------------------------------------------------------------------------
  // Reading the answer: Python subscripts, with the exception each one raises
  // ---------------------------------------------------------------------------

  /** `api_response["weather"][0]["description"]` */
  function Description(d: WeatherData): Result<string, Error> {
    match d.weather
    case None => Failure(KeyError("weather"))
    case Some(entries) =>
      if |entries| == 0 then Failure(IndexError)
      else match entries[0].description
        case None => Failure(KeyError("description"))
        case Some(text) => Success(text)
  }

  /** `api_response[key]["1h"]` with `except KeyError: None` around it. */
  function LastHour(p: Option<Precipitation>): Option<Reading> {
    match p
    case None => None
    case Some(block) => block.lastHour
  }

  /** `if rain:` / `if snow:` on the looked-up amount. */
  predicate Falls(p: Option<Precipitation>) {
    LastHour(p).Some? && LastHour(p).value.truthy
  }

  /** The clause `+=`-appended for one kind of precipitation, empty when none falls. */
  function PrecipitationClause(kind: string, p: Option<Precipitation>): string {
    if Falls(p) then ", with " + LastHour(p).value.rendered + " mm of " + kind + " in the last hour"
    else ""
  }

  /** `api_response["main"]["temp"]` then `api_response["main"]["feels_like"]` */
  function Temperatures(d: WeatherData): Result<(string, string), Error> {
    match d.main
    case None => Failure(KeyError("main"))
    case Some(block) =>
      match block.temp
      case None => Failure(KeyError("temp"))
      case Some(temp) =>
        match block.feelsLike
        case None => Failure(KeyError("feels_like"))
        case Some(feelsLike) => Success((temp, feelsLike))
  }

  // ---------------------------------------------------------------------------
  // The three handlers that read the answer
  // ---------------------------------------------------------------------------

  /** HelloWorldIntentHandler.handle: the KeyError for a missing `cod` is not caught here. */
  function HelloWorldOutcome(fetch: Option<WeatherData>): Outcome {
    if !Fetched(fetch) then Done(Speak(HelloFetchErrorText))
    else match fetch.value.cod
      case None => Raised(KeyError("cod"))
      case Some(code) => Done(Speak(HelloPrefix + code + "."))
  }

  /** WeatherIntentHandler.handle: only a KeyError is turned into the processing-error text. */
  function WeatherOutcome(fetch: Option<WeatherData>): Outcome {
    if !Fetched(fetch) then Done(Speak(FetchErrorText))
    else
      var d := fetch.value;
      match Description(d)
      case Failure(KeyError(_)) => Done(Speak(WeatherProcessingErrorText))
      case Failure(other) => Raised(other)
      case Success(description) =>
        Done(Speak(WeatherPrefix + description
                   + PrecipitationClause("rain", d.rain)
                   + PrecipitationClause("snow", d.snow)))
  }

  /** TemperatureIntentHandler.handle */
  function TemperatureOutcome(fetch: Option<WeatherData>): Outcome {
    if !Fetched(fetch) then Done(Speak(FetchErrorText))
    else match Temperatures(fetch.value)
      case Failure(KeyError(_)) => Done(Speak(TemperatureProcessingErrorText))
      case Failure(other) => Raised(other)
      case Success((temp, feelsLike)) =>
        Done(Speak(TemperaturePrefix + temp + FeelsLikeInfix + feelsLike + TemperatureSuffix))
  }

  // ---------------------------------------------------------------------------
  // The handler table
  // ---------------------------------------------------------------------------

  datatype Handler =
    | LaunchRequestHandler
    | HelloWorldIntentHandler
    | WeatherIntentHandler
    | TemperatureIntentHandler
    | ClothingIntentHandler
    | MiscIntentHandler
    | HelpIntentHandler
    | CancelOrStopIntentHandler
    | FallbackIntentHandler
    | SessionEndedRequestHandler
    | IntentReflectorHandler

  datatype ExceptionHandler = CatchAllExceptionHandler

  /** Each handler's `can_handle`. */
  predicate CanHandle(h: Handler, req: Request) {
    match h
    case LaunchRequestHandler => IsRequestType(req, LaunchType)
    case HelloWorldIntentHandler => IsIntentName(req, HelloWorldName)
    case WeatherIntentHandler => IsIntentName(req, WeatherName)
    case TemperatureIntentHandler => IsIntentName(req, TemperatureName)
    case ClothingIntentHandler => IsIntentName(req, ClothingName)
    case MiscIntentHandler => IsIntentName(req, MiscName)
    case HelpIntentHandler => IsIntentName(req, HelpName)
    case CancelOrStopIntentHandler => IsIntentName(req, CancelName) || IsIntentName(req, StopName)
    case FallbackIntentHandler => IsIntentName(req, FallbackName)
    case SessionEndedRequestHandler => IsRequestType(req, SessionEndedType)
    case IntentReflectorHandler => IsRequestType(req, IntentType)
  }

  /** Each handler's `handle`; fetch is what `get_weather_info()` would return. */
  function Handle(h: Handler, req: Request, fetch: Option<WeatherData>): Outcome {
    match h
    case LaunchRequestHandler => Done(SpeakAsk(WelcomeText, WelcomeText))
    case HelloWorldIntentHandler => HelloWorldOutcome(fetch)
    case WeatherIntentHandler => WeatherOutcome(fetch)
    case TemperatureIntentHandler => TemperatureOutcome(fetch)
    case ClothingIntentHandler => Done(Speak(ClothingText))
    case MiscIntentHandler => Done(Speak(MiscText))
    case HelpIntentHandler => Done(SpeakAsk(HelpText, HelpText))
    case CancelOrStopIntentHandler => Done(Speak(GoodbyeText))
    case FallbackIntentHandler => Done(SpeakAsk(FallbackText, FallbackReprompt))
    case SessionEndedRequestHandler => Done(EmptyResponse)
    case IntentReflectorHandler =>
      // get_intent_name raises TypeError on anything but an intent request
      if req.IntentRequest? then Done(Speak(ReflectorPrefix + req.intentName + "."))
      else Raised(TypeError)
  }

  predicate CanHandleException(e: ExceptionHandler, req: Request, err: Error) {
    true
  }

  function HandleException(e: ExceptionHandler, req: Request, err: Error): Response {
    CatchAllResponse
  }

  /** The registration order of lambda.py. */
  function RequestHandlers(): seq<Handler> {
    [LaunchRequestHandler, HelloWorldIntentHandler, WeatherIntentHandler,
     TemperatureIntentHandler, ClothingIntentHandler, MiscIntentHandler,
     HelpIntentHandler, CancelOrStopIntentHandler, FallbackIntentHandler,
     SessionEndedRequestHandler, IntentReflectorHandler]
  }

  function ExceptionHandlers(): seq<ExceptionHandler> {
    [CatchAllExceptionHandler]
  }

  /** The registration statements, run against the SDK's builder. */
  method BuildSkill() returns (sb: Dispatch.SkillBuilder<Handler, ExceptionHandler>)
    ensures fresh(sb)
    ensures sb.requestHandlers == RequestHandlers()
    ensures sb.exceptionHandlers == ExceptionHandlers()
  {
    sb := new Dispatch.SkillBuilder();
    sb.AddRequestHandler(LaunchRequestHandler);
    sb.AddRequestHandler(HelloWorldIntentHandler);
    sb.AddRequestHandler(WeatherIntentHandler);
    sb.AddRequestHandler(TemperatureIntentHandler);
    sb.AddRequestHandler(ClothingIntentHandler);
    sb.AddRequestHandler(MiscIntentHandler);
    sb.AddRequestHandler(HelpIntentHandler);
    sb.AddRequestHandler(CancelOrStopIntentHandler);
    sb.AddRequestHandler(FallbackIntentHandler);
    sb.AddRequestHandler(SessionEndedRequestHandler);
    sb.AddRequestHandler(IntentReflectorHandler);
    sb.AddExceptionHandler(CatchAllExceptionHandler);
  }

  /** The `can_handle` test as a predicate on handlers, for one request. */
  function Accepts(req: Request): Handler -> bool {
    h => CanHandle(h, req)
  }

  /** The handler the SDK's scan picks for req in table. */
  function SelectIn(table: seq<Handler>, req: Request): Option<Handler> {
    Dispatch.Select(table, Accepts(req))
  }

  /** The exception handlers' `can_handle` test, for one request and one error. */
  function ExceptionAccepts(req: Request): Error -> ExceptionHandler -> bool {
    err => e => CanHandleException(e, req, err)
  }

  /** The handlers' `handle`, for one request and one fetch result. */
  function HandleWith(req: Request, fetch: Option<WeatherData>): Handler -> Outcome {
    h => Handle(h, req, fetch)
  }

  /** The exception handlers' `handle`, for one request. */
  function HandleExceptionFor(req: Request): (ExceptionHandler, Error) -> Response {
    (e, err) => HandleException(e, req, err)
  }

  /** `lambda_handler`: one request through the registered chains. */
  function LambdaHandler(req: Request, fetch: Option<WeatherData>): Result<Response, Error> {
    Dispatch.Invoke(
      RequestHandlers(), Accepts(req), HandleWith(req, fetch),
      ExceptionHandlers(), ExceptionAccepts(req), HandleExceptionFor(req))
  }

  // ---------------------------------------------------------------------------
  // Reference routing: which handler each request is meant for
  // ---------------------------------------------------------------------------

  /** The handler of its own an intent name has, if any. */
  function SpecificHandler(name: string): Option<Handler> {
    match name
    case "HelloWorldIntent" => Some(HelloWorldIntentHandler)
    case "weatherIntent" => Some(WeatherIntentHandler)
    case "temperatureIntent" => Some(TemperatureIntentHandler)
    case "clothingIntent" => Some(ClothingIntentHandler)
    case "miscIntent" => Some(MiscIntentHandler)
    case "AMAZON.HelpIntent" => Some(HelpIntentHandler)
    case "AMAZON.CancelIntent" => Some(CancelOrStopIntentHandler)
    case "AMAZON.StopIntent" => Some(CancelOrStopIntentHandler)
    case "AMAZON.FallbackIntent" => Some(FallbackIntentHandler)
    case _ => None
  }

  /** Launch and session-end go to their handlers, named intents to theirs, other intents to the reflector. */
  function Route(req: Request): Option<Handler> {
    match req
    case LaunchRequest => Some(LaunchRequestHandler)
    case SessionEndedRequest => Some(SessionEndedRequestHandler)
    case OtherRequest(_) => None
    case IntentRequest(name) =>
      if SpecificHandler(name).Some? then SpecificHandler(name) else Some(IntentReflectorHandler)
  }

  /** The first match in registration order is exactly the reference routing. */
  lemma SelectFollowsRoute(req: Request)
    ensures SelectIn(RequestHandlers(), req) == Route(req)
  {
    var t := RequestHandlers();
    match req
    case LaunchRequest =>
      SelectAtPosition(req, LaunchRequestHandler);
    case SessionEndedRequest =>
      SelectAtPosition(req, SessionEndedRequestHandler);
    case OtherRequest(_) =>
      Dispatch.SelectNone(t, Accepts(req));
    case IntentRequest(name) =>
      SelectFollowsRouteForIntent(req);
  }

  lemma SelectFollowsRouteForIntent(req: Request)
    requires req.IntentRequest?
    ensures SelectIn(RequestHandlers(), req) == Route(req)
  {
    var name := req.intentName;
    if SpecificHandler(name).Some? {
      SelectAtPosition(req, SpecificHandler(name).value);
    } else {
      SelectAtPosition(req, IntentReflectorHandler);
    }
  }

  /** Where each handler stands in the registration order. */
  function Position(h: Handler): (k: nat)
    ensures k < |RequestHandlers()| && RequestHandlers()[k] == h
  {
    match h
    case LaunchRequestHandler => 0
    case HelloWorldIntentHandler => 1
    case WeatherIntentHandler => 2
    case TemperatureIntentHandler => 3
    case ClothingIntentHandler => 4
    case MiscIntentHandler => 5
    case HelpIntentHandler => 6
    case CancelOrStopIntentHandler => 7
    case FallbackIntentHandler => 8
    case SessionEndedRequestHandler => 9
    case IntentReflectorHandler => 10
  }

  /** A handler that accepts req is selected when no handler registered before it does. */
  lemma SelectAtPosition(req: Request, h: Handler)
    requires CanHandle(h, req)
    requires forall g :: Position(g) < Position(h) ==> !CanHandle(g, req)
    ensures SelectIn(RequestHandlers(), req) == Some(h)
  {
    var t := RequestHandlers();
    forall j | 0 <= j < Position(h)
      ensures !Accepts(req)(t[j])
    {
      assert Position(t[j]) == j;
    }
    Dispatch.FirstMatchAt(t, Accepts(req), Position(h));
  }

  // ---------------------------------------------------------------------------
  // What the skill answers
  // ---------------------------------------------------------------------------

  /** Reference answer: the routed handler's response; the catch-all apology when none is routed or it raises. */
  function Respond(req: Request, fetch: Option<WeatherData>): Response {
    match Route(req)
    case None => CatchAllResponse
    case Some(h) =>
      match Handle(h, req, fetch)
      case Done(resp) => resp
      case Raised(_) => CatchAllResponse
  }

  /** Every request is answered, and the answer is the reference one: no error escapes `lambda_handler`. */
  lemma LambdaHandlerAnswers(req: Request, fetch: Option<WeatherData>)
    ensures LambdaHandler(req, fetch) == Success(Respond(req, fetch))
  {
    SelectFollowsRoute(req);
    Dispatch.InvokeTotal(
      RequestHandlers(), Accepts(req), HandleWith(req, fetch),
      ExceptionHandlers(), ExceptionAccepts(req), HandleExceptionFor(req));
    match Route(req)
    case None =>
    case Some(h) => assert HandleWith(req, fetch)(h) == Handle(h, req, fetch);
  }

  /** A request finds a handler exactly when it is of one of the three known request types. */
  lemma KnownRequestsMatched(req: Request)
    ensures SelectIn(RequestHandlers(), req).Some? <==> RequestType(req) in KnownRequestTypes
  {
    SelectFollowsRoute(req);
    RouteKnown(req);
  }

  lemma RouteKnown(req: Request)
    ensures Route(req).Some? <==> RequestType(req) in KnownRequestTypes
  {
    assert Route(req).Some? <==> !req.OtherRequest?;
  }

  /** The reflector is reached exactly by the intents no specific handler names. */
  lemma ReflectorOnlyForUnknownIntents(req: Request)
    ensures SelectIn(RequestHandlers(), req) == Some(IntentReflectorHandler)
        <==> req.IntentRequest? && SpecificHandler(req.intentName).None?
  {
    SelectFollowsRoute(req);
    RouteToReflector(req);
  }

  lemma RouteToReflector(req: Request)
    ensures Route(req) == Some(IntentReflectorHandler)
        <==> req.IntentRequest? && SpecificHandler(req.intentName).None?
  {
  }

  lemma RouteToCancelOrStop(req: Request)
    ensures Route(req) == Some(CancelOrStopIntentHandler)
        <==> IsIntentName(req, CancelName) || IsIntentName(req, StopName)
  {
  }

  /** An unknown intent name is echoed back verbatim. */
  lemma UnknownIntentEchoed(name: string, fetch: Option<WeatherData>)
    requires SpecificHandler(name).None?
    ensures LambdaHandler(IntentRequest(name), fetch) == Success(Speak(ReflectorPrefix + name + "."))
  {
    var req: Request := IntentRequest(name);
    RouteToReflector(req);
    assert Respond(req, fetch) == Speak(ReflectorPrefix + name + ".");
    LambdaHandlerAnswers(req, fetch);
  }

  /** Every registered handler is selected by some request: none is shadowed by an earlier one. */
  lemma EveryHandlerReachable(h: Handler)
    ensures exists req: Request :: SelectIn(RequestHandlers(), req) == Some(h)
  {
    var req: Request :=
      match h
      case LaunchRequestHandler => LaunchRequest
      case HelloWorldIntentHandler => IntentRequest(HelloWorldName)
      case WeatherIntentHandler => IntentRequest(WeatherName)
      case TemperatureIntentHandler => IntentRequest(TemperatureName)
      case ClothingIntentHandler => IntentRequest(ClothingName)
      case MiscIntentHandler => IntentRequest(MiscName)
      case HelpIntentHandler => IntentRequest(HelpName)
      case CancelOrStopIntentHandler => IntentRequest(CancelName)
      case FallbackIntentHandler => IntentRequest(FallbackName)
      case SessionEndedRequestHandler => SessionEndedRequest
      case IntentReflectorHandler => IntentRequest("");
    assert Route(req) == Some(h);
    SelectFollowsRoute(req);
    assert SelectIn(RequestHandlers(), req) == Some(h);
  }

  /**
   * Why the reflector must come last: registered first, it would shadow every
   * intent handler, the weather handler included.
   */
  lemma ReflectorFirstShadowsIntents(req: Request)
    ensures SelectIn([IntentReflectorHandler] + RequestHandlers(), req) != Some(WeatherIntentHandler)
  {
    var t := [IntentReflectorHandler] + RequestHandlers();
    assert t == [IntentReflectorHandler, LaunchRequestHandler, HelloWorldIntentHandler, WeatherIntentHandler,
                 TemperatureIntentHandler, ClothingIntentHandler, MiscIntentHandler, HelpIntentHandler,
                 CancelOrStopIntentHandler, FallbackIntentHandler, SessionEndedRequestHandler,
                 IntentReflectorHandler];
    Dispatch.Shadowed(t, Accepts, 0, 3, req);
  }

  /** "Goodbye!" is said, without reprompt, exactly to a cancel or stop intent. */
  lemma GoodbyeExactlyForCancelOrStop(req: Request, fetch: Option<WeatherData>)
    ensures LambdaHandler(req, fetch) == Success(Speak(GoodbyeText))
        <==> IsIntentName(req, CancelName) || IsIntentName(req, StopName)
  {
    LambdaHandlerAnswers(req, fetch);
    RespondGoodbye(req, fetch);
    RouteToCancelOrStop(req);
  }

  lemma RespondGoodbye(req: Request, fetch: Option<WeatherData>)
    ensures Respond(req, fetch) == Speak(GoodbyeText) <==> Route(req) == Some(CancelOrStopIntentHandler)
  {
    match Route(req)
    case None =>
    case Some(h) =>
      if h != CancelOrStopIntentHandler {
        OnlyCancelOrStopSaysGoodbye(h, req, fetch);
      }
  }

  lemma OnlyCancelOrStopSaysGoodbye(h: Handler, req: Request, fetch: Option<WeatherData>)
    requires h != CancelOrStopIntentHandler
    ensures Handle(h, req, fetch) != Done(Speak(GoodbyeText))
  {
  }

  // ---------------------------------------------------------------------------
  // The weather-reading handlers, end to end
  // ---------------------------------------------------------------------------

  predicate StartsWith(s: string, prefix: string) {
    |prefix| <= |s| && s[..|prefix|] == prefix
  }

  /** The answer to a named intent is the answer of its handler, or the catch-all's when that raises. */
  lemma NamedIntentAnswer(req: Request, h: Handler, fetch: Option<WeatherData>)
    requires req.IntentRequest? && SpecificHandler(req.intentName) == Some(h)
    ensures LambdaHandler(req, fetch)
         == Success(if Handle(h, req, fetch).Done? then Handle(h, req, fetch).response else CatchAllResponse)
  {
    LambdaHandlerAnswers(req, fetch);
  }

  /** A failed or empty fetch gives the fetch-error text. */
  lemma WeatherFetchFailed(req: Request, fetch: Option<WeatherData>)
    requires IsIntentName(req, WeatherName)
    requires !Fetched(fetch)
    ensures LambdaHandler(req, fetch) == Success(Speak(FetchErrorText))
  {
    NamedIntentAnswer(req, WeatherIntentHandler, fetch);
  }

  /**
   * The processing-error text is given exactly when the `weather` key or the
   * first entry's `description` is missing; rain and snow play no part.
   */
  lemma WeatherProcessingFailed(req: Request, d: WeatherData)
    requires IsIntentName(req, WeatherName)
    requires Truthy(d)
    ensures LambdaHandler(req, Some(d)) == Success(Speak(WeatherProcessingErrorText))
        <==> d.weather.None? || (|d.weather.value| > 0 && d.weather.value[0].description.None?)
  {
    WeatherOutcomeOfAnswer(d);
    assert Handle(WeatherIntentHandler, req, Some(d)) == WeatherOutcome(Some(d));
    NamedIntentAnswer(req, WeatherIntentHandler, Some(d));
  }

  lemma WeatherOutcomeOfAnswer(d: WeatherData)
    requires Truthy(d)
    ensures WeatherOutcome(Some(d)) == Done(Speak(WeatherProcessingErrorText))
        <==> d.weather.None? || (|d.weather.value| > 0 && d.weather.value[0].description.None?)
  {
    match Description(d)
    case Failure(err) =>
    case Success(description) =>
      var rest := description + PrecipitationClause("rain", d.rain) + PrecipitationClause("snow", d.snow);
      ReportIsNoError("weather is " + rest, "processing the weather information.");
      assert WeatherPrefix + description + PrecipitationClause("rain", d.rain) + PrecipitationClause("snow", d.snow)
          == ReportOpening + ("weather is " + rest);
  }

  /** A report and an error text differ at the fourth character: "The " against "Ther". */
  lemma ReportIsNoError(report: string, error: string)
    ensures ReportOpening + report != ErrorOpening + error
  {
    assert (ReportOpening + report)[3] == ' ';
    assert (ErrorOpening + error)[3] == 'r';
  }

  /** An empty `weather` list raises IndexError, which `except KeyError` does not catch. */
  lemma WeatherEmptyListApologises(req: Request, d: WeatherData)
    requires IsIntentName(req, WeatherName)
    requires d.weather == Some([])
    ensures LambdaHandler(req, Some(d)) == Success(CatchAllResponse)
  {
    NamedIntentAnswer(req, WeatherIntentHandler, Some(d));
  }

  /**
   * With a description, the speech starts "The current weather is <description>",
   * followed by the rain clause and then the snow clause, each present only when
   * its amount is present and non-zero.
   */
  lemma WeatherReported(req: Request, d: WeatherData, description: string)
    requires IsIntentName(req, WeatherName)
    requires d.weather.Some? && |d.weather.value| > 0 && d.weather.value[0].description == Some(description)
    ensures var s := LambdaHandler(req, Some(d));
      && s.Success? && s.value.reprompt.None?
      && s.value.speech
         == Some(WeatherPrefix + description + PrecipitationClause("rain", d.rain) + PrecipitationClause("snow", d.snow))
  {
    NamedIntentAnswer(req, WeatherIntentHandler, Some(d));
  }

  /** A precipitation clause is empty unless the amount is present and truthy, and then names it. */
  lemma PrecipitationClauseShape(kind: string, p: Option<Precipitation>)
    ensures PrecipitationClause(kind, p) == "" <==> !Falls(p)
    ensures Falls(p) ==> StartsWith(PrecipitationClause(kind, p), ", with " + LastHour(p).value.rendered + " mm of " + kind)
  {
    if Falls(p) {
      var c := PrecipitationClause(kind, p);
      var head := ", with " + LastHour(p).value.rendered + " mm of " + kind;
      assert c == head + " in the last hour";
      assert c[..|head|] == head;
    }
  }

  /** A missing `rain` key, a missing `1h` and a zero amount all leave the speech as if it had not rained. */
  lemma NoRainSaysNothing(req: Request, d: WeatherData, e: WeatherData)
    requires IsIntentName(req, WeatherName)
    requires e == d.(rain := e.rain)
    requires Truthy(d) && Truthy(e)
    requires !Falls(d.rain) && !Falls(e.rain)
    ensures LambdaHandler(req, Some(d)) == LambdaHandler(req, Some(e))
  {
    NamedIntentAnswer(req, WeatherIntentHandler, Some(d));
    NamedIntentAnswer(req, WeatherIntentHandler, Some(e));
  }

  /** The same for snow. */
  lemma NoSnowSaysNothing(req: Request, d: WeatherData, e: WeatherData)
    requires IsIntentName(req, WeatherName)
    requires e == d.(snow := e.snow)
    requires Truthy(d) && Truthy(e)
    requires !Falls(d.snow) && !Falls(e.snow)
    ensures LambdaHandler(req, Some(d)) == LambdaHandler(req, Some(e))
  {
    NamedIntentAnswer(req, WeatherIntentHandler, Some(d));
    NamedIntentAnswer(req, WeatherIntentHandler, Some(e));
  }

  /** A failed or empty fetch gives the fetch-error text for temperatures too. */
  lemma TemperatureFetchFailed(req: Request, fetch: Option<WeatherData>)
    requires IsIntentName(req, TemperatureName)
    requires !Fetched(fetch)
    ensures LambdaHandler(req, fetch) == Success(Speak(FetchErrorText))
  {
    assert Handle(TemperatureIntentHandler, req, fetch) == Done(Speak(FetchErrorText));
    NamedIntentAnswer(req, TemperatureIntentHandler, fetch);
  }

  /** The temperature processing-error text is given exactly when `main`, `temp` or `feels_like` is missing. */
  lemma TemperatureProcessingFailed(req: Request, d: WeatherData)
    requires IsIntentName(req, TemperatureName)
    requires Truthy(d)
    ensures LambdaHandler(req, Some(d)) == Success(Speak(TemperatureProcessingErrorText))
        <==> d.main.None? || d.main.value.temp.None? || d.main.value.feelsLike.None?
  {
    TemperatureOutcomeOfAnswer(d);
    assert Handle(TemperatureIntentHandler, req, Some(d)) == TemperatureOutcome(Some(d));
    NamedIntentAnswer(req, TemperatureIntentHandler, Some(d));
  }

  lemma TemperatureOutcomeOfAnswer(d: WeatherData)
    requires Truthy(d)
    ensures TemperatureOutcome(Some(d)).Done?
    ensures TemperatureOutcome(Some(d)) == Done(Speak(TemperatureProcessingErrorText))
        <==> d.main.None? || d.main.value.temp.None? || d.main.value.feelsLike.None?
  {
    match Temperatures(d)
    case Failure(err) =>
    case Success((t, f)) =>
      var rest := t + FeelsLikeInfix + f + TemperatureSuffix;
      ReportIsNoError("temperature is " + rest, "processing the temperature information.");
      assert TemperatureOutcome(Some(d)) == Done(Speak(TemperaturePrefix + t + FeelsLikeInfix + f + TemperatureSuffix));
      assert TemperaturePrefix + t + FeelsLikeInfix + f + TemperatureSuffix == ReportOpening + ("temperature is " + rest);
  }

  /** With both readings, the temperature is spoken first and the felt temperature second. */
  lemma TemperatureReported(req: Request, d: WeatherData, temp: string, feelsLike: string)
    requires IsIntentName(req, TemperatureName)
    requires d.main == Some(MainBlock(Some(temp), Some(feelsLike)))
    ensures var s := LambdaHandler(req, Some(d));
      && s.Success? && s.value.reprompt.None?
      && s.value.speech == Some(TemperaturePrefix + temp + FeelsLikeInfix + feelsLike + TemperatureSuffix)
  {
    var r := Speak(TemperaturePrefix + temp + FeelsLikeInfix + feelsLike + TemperatureSuffix);
    assert Temperatures(d) == Success((temp, feelsLike));
    assert Handle(TemperatureIntentHandler, req, Some(d)) == Done(r);
    NamedIntentAnswer(req, TemperatureIntentHandler, Some(d));
  }

  /** The greeting reports the `cod` value of a non-empty answer. */
  lemma HelloWorldReportsCode(req: Request, d: WeatherData, code: string)
    requires IsIntentName(req, HelloWorldName)
    requires d.cod == Some(code)
    ensures LambdaHandler(req, Some(d)) == Success(Speak(HelloPrefix + code + "."))
  {
    NamedIntentAnswer(req, HelloWorldIntentHandler, Some(d));
  }

  /** A failed or empty fetch gives the greeting's own fetch-error text. */
  lemma HelloWorldFetchFailed(req: Request, fetch: Option<WeatherData>)
    requires IsIntentName(req, HelloWorldName)
    requires !Fetched(fetch)
    ensures LambdaHandler(req, fetch) == Success(Speak(HelloFetchErrorText))
  {
    NamedIntentAnswer(req, HelloWorldIntentHandler, fetch);
  }

  /** A non-empty answer without `cod` raises KeyError in the handler and ends in the catch-all apology. */
  lemma HelloWorldWithoutCodeApologises(req: Request, d: WeatherData)
    requires IsIntentName(req, HelloWorldName)
    requires Truthy(d) && d.cod.None?
    ensures LambdaHandler(req, Some(d)) == Success(SpeakAsk(ApologyText, ApologyText))
  {
    NamedIntentAnswer(req, HelloWorldIntentHandler, Some(d));
  }

  /** The clothing and misc intents answer with fixed texts, whatever the fetch returned. */
  lemma ClothingIntentFixed(req: Request, fetch: Option<WeatherData>)
    requires IsIntentName(req, ClothingName)
    ensures LambdaHandler(req, fetch) == Success(Speak(ClothingText))
  {
    assert SpecificHandler(req.intentName) == Some(ClothingIntentHandler);
    assert Handle(ClothingIntentHandler, req, fetch) == Done(Speak(ClothingText));
    NamedIntentAnswer(req, ClothingIntentHandler, fetch);
  }

  lemma MiscIntentFixed(req: Request, fetch: Option<WeatherData>)
    requires IsIntentName(req, MiscName)
    ensures LambdaHandler(req, fetch) == Success(Speak(MiscText))
  {
    assert SpecificHandler(req.intentName) == Some(MiscIntentHandler);
    assert Handle(MiscIntentHandler, req, fetch) == Done(Speak(MiscText));
    NamedIntentAnswer(req, MiscIntentHandler, fetch);
  }

  /** Launch, Help and Fallback keep the session open with a reprompt; no other request handler does. */
  lemma RepromptOnlyFromLaunchHelpFallback(h: Handler, req: Request, fetch: Option<WeatherData>)
    requires Handle(h, req, fetch).Done?
    ensures Handle(h, req, fetch).response.reprompt.Some?
        <==> h in {LaunchRequestHandler, HelpIntentHandler, FallbackIntentHandler}
  {
  }
}
