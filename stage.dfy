/**
 * The stub skill (stage.py): the same eleven handlers in the same order, with
 * capitalised intent names, constant texts for the four weather intents, and
 * a greeting that reports the HTTP status code of the fetch. The fetch is not
 * modelled: its result is an input, None when the request failed. Handler
 * names and the texts both files share are those of the Live module.
 */
module Stage {
  import opened Wrappers
  import opened Alexa
  import Dispatch
  import Decimal
  import Live

  /** What this file's `get_weather_info` returns on success: the HTTP response itself. */
  datatype HttpResponse = HttpResponse(statusCode: nat)

  type Handler = Live.Handler
  type ExceptionHandler = Live.ExceptionHandler

  const WeatherName := "WeatherIntent"
  const TemperatureName := "TemperatureIntent"
  const ClothingName := "ClothingIntent"
  const MiscName := "MiscIntent"

  const WeatherStubText := "You triggered weather intent."
  const TemperatureStubText := "You triggered temperature intent."

  /** HelloWorldIntentHandler.handle: `f"...{status_code}."` on a response, the error text on None. */
  function HelloWorldResponse(fetch: Option<HttpResponse>): Response {
    match fetch
    case Some(resp) => Speak(Live.HelloPrefix + Decimal.NatToString(resp.statusCode) + ".")
    case None => Speak(Live.HelloFetchErrorText)
  }

  /** Each handler's `can_handle`. */
  predicate CanHandle(h: Handler, req: Request) {
    match h
    case LaunchRequestHandler => IsRequestType(req, LaunchType)
    case HelloWorldIntentHandler => IsIntentName(req, Live.HelloWorldName)
    case WeatherIntentHandler => IsIntentName(req, WeatherName)
    case TemperatureIntentHandler => IsIntentName(req, TemperatureName)
    case ClothingIntentHandler => IsIntentName(req, ClothingName)
    case MiscIntentHandler => IsIntentName(req, MiscName)
    case HelpIntentHandler => IsIntentName(req, Live.HelpName)
    case CancelOrStopIntentHandler => IsIntentName(req, Live.CancelName) || IsIntentName(req, Live.StopName)
    case FallbackIntentHandler => IsIntentName(req, Live.FallbackName)
    case SessionEndedRequestHandler => IsRequestType(req, SessionEndedType)
    case IntentReflectorHandler => IsRequestType(req, IntentType)
  }

  /** Each handler's `handle`; fetch is what `get_weather_info()` would return. */
  function Handle(h: Handler, req: Request, fetch: Option<HttpResponse>): Outcome {
    match h
    case LaunchRequestHandler => Done(SpeakAsk(Live.WelcomeText, Live.WelcomeText))
    case HelloWorldIntentHandler => Done(HelloWorldResponse(fetch))
    case WeatherIntentHandler => Done(Speak(WeatherStubText))
    case TemperatureIntentHandler => Done(Speak(TemperatureStubText))
    case ClothingIntentHandler => Done(Speak(Live.ClothingText))
    case MiscIntentHandler => Done(Speak(Live.MiscText))
    case HelpIntentHandler => Done(SpeakAsk(Live.HelpText, Live.HelpText))
    case CancelOrStopIntentHandler => Done(Speak(Live.GoodbyeText))
    case FallbackIntentHandler => Done(SpeakAsk(Live.FallbackText, Live.FallbackReprompt))
    case SessionEndedRequestHandler => Done(EmptyResponse)
    case IntentReflectorHandler =>
      if req.IntentRequest? then Done(Speak(Live.ReflectorPrefix + req.intentName + "."))
      else Raised(TypeError)
  }

  /** The registration order of stage.py. */
  function RequestHandlers(): seq<Handler> {
    [Live.LaunchRequestHandler, Live.HelloWorldIntentHandler, Live.WeatherIntentHandler,
     Live.TemperatureIntentHandler, Live.ClothingIntentHandler, Live.MiscIntentHandler,
     Live.HelpIntentHandler, Live.CancelOrStopIntentHandler, Live.FallbackIntentHandler,
     Live.SessionEndedRequestHandler, Live.IntentReflectorHandler]
  }

  function ExceptionHandlers(): seq<ExceptionHandler> {
    [Live.CatchAllExceptionHandler]
  }

  /** The registration statements, run against the SDK's builder. */
  method BuildSkill() returns (sb: Dispatch.SkillBuilder<Handler, ExceptionHandler>)
    ensures fresh(sb)
    ensures sb.requestHandlers == RequestHandlers()
    ensures sb.exceptionHandlers == ExceptionHandlers()
  {
    sb := new Dispatch.SkillBuilder();
    sb.AddRequestHandler(Live.LaunchRequestHandler);
    sb.AddRequestHandler(Live.HelloWorldIntentHandler);
    sb.AddRequestHandler(Live.WeatherIntentHandler);
    sb.AddRequestHandler(Live.TemperatureIntentHandler);
    sb.AddRequestHandler(Live.ClothingIntentHandler);
    sb.AddRequestHandler(Live.MiscIntentHandler);
    sb.AddRequestHandler(Live.HelpIntentHandler);
    sb.AddRequestHandler(Live.CancelOrStopIntentHandler);
    sb.AddRequestHandler(Live.FallbackIntentHandler);
    sb.AddRequestHandler(Live.SessionEndedRequestHandler);
    sb.AddRequestHandler(Live.IntentReflectorHandler);
    sb.AddExceptionHandler(Live.CatchAllExceptionHandler);
  }

  function Accepts(req: Request): Handler -> bool {
    h => CanHandle(h, req)
  }

  function SelectIn(table: seq<Handler>, req: Request): Option<Handler> {
    Dispatch.Select(table, Accepts(req))
  }

  /** `lambda_handler`: one request through the registered chains; the exception chain is the live file's. */
  function LambdaHandler(req: Request, fetch: Option<HttpResponse>): Result<Response, Error> {
    Dispatch.Invoke(
      RequestHandlers(), Accepts(req), HandleWith(req, fetch),
      ExceptionHandlers(), Live.ExceptionAccepts(req), Live.HandleExceptionFor(req))
  }

  function HandleWith(req: Request, fetch: Option<HttpResponse>): Handler -> Outcome {
    h => Handle(h, req, fetch)
  }

  // ---------------------------------------------------------------------------
  // Reference routing
  // ---------------------------------------------------------------------------

  function SpecificHandler(name: string): Option<Handler> {
    match name
    case "HelloWorldIntent" => Some(Live.HelloWorldIntentHandler)
    case "WeatherIntent" => Some(Live.WeatherIntentHandler)
    case "TemperatureIntent" => Some(Live.TemperatureIntentHandler)
    case "ClothingIntent" => Some(Live.ClothingIntentHandler)
    case "MiscIntent" => Some(Live.MiscIntentHandler)
    case "AMAZON.HelpIntent" => Some(Live.HelpIntentHandler)
    case "AMAZON.CancelIntent" => Some(Live.CancelOrStopIntentHandler)
    case "AMAZON.StopIntent" => Some(Live.CancelOrStopIntentHandler)
    case "AMAZON.FallbackIntent" => Some(Live.FallbackIntentHandler)
    case _ => None
  }

  function Route(req: Request): Option<Handler> {
    match req
    case LaunchRequest => Some(Live.LaunchRequestHandler)
    case SessionEndedRequest => Some(Live.SessionEndedRequestHandler)
    case OtherRequest(_) => None
    case IntentRequest(name) =>
      if SpecificHandler(name).Some? then SpecificHandler(name) else Some(Live.IntentReflectorHandler)
  }

  /** Both files register the same handlers in the same order. */
  lemma SameRegistrationOrder()
    ensures RequestHandlers() == Live.RequestHandlers()
    ensures ExceptionHandlers() == Live.ExceptionHandlers()
  {
  }

  lemma SelectAtPosition(req: Request, h: Handler)
    requires CanHandle(h, req)
    requires forall g :: Live.Position(g) < Live.Position(h) ==> !CanHandle(g, req)
    ensures SelectIn(RequestHandlers(), req) == Some(h)
  {
    var t := RequestHandlers();
    SameRegistrationOrder();
    forall j | 0 <= j < Live.Position(h)
      ensures !Accepts(req)(t[j])
    {
      assert Live.Position(t[j]) == j;
    }
    Dispatch.FirstMatchAt(t, Accepts(req), Live.Position(h));
  }

  /** The first match in registration order is exactly the reference routing. */
  lemma SelectFollowsRoute(req: Request)
    ensures SelectIn(RequestHandlers(), req) == Route(req)
  {
    match req
    case LaunchRequest =>
      SelectAtPosition(req, Live.LaunchRequestHandler);
    case SessionEndedRequest =>
      SelectAtPosition(req, Live.SessionEndedRequestHandler);
    case OtherRequest(_) =>
      Dispatch.SelectNone(RequestHandlers(), Accepts(req));
    case IntentRequest(_) =>
      SelectFollowsRouteForIntent(req);
  }

  lemma SelectFollowsRouteForIntent(req: Request)
    requires req.IntentRequest?
    ensures SelectIn(RequestHandlers(), req) == Route(req)
  {
    var name := req.intentName;
    if SpecificHandler(name).Some? {
      SelectAtPosition(req, SpecificHandler(name).value);
    } else {
      SelectAtPosition(req, Live.IntentReflectorHandler);
    }
  }

  // ---------------------------------------------------------------------------
  // What the stub skill answers
  // ---------------------------------------------------------------------------

  function Respond(req: Request, fetch: Option<HttpResponse>): Response {
    match Route(req)
    case None => Live.CatchAllResponse
    case Some(h) =>
      match Handle(h, req, fetch)
      case Done(resp) => resp
      case Raised(_) => Live.CatchAllResponse
  }

  /** Every request is answered, and the answer is the reference one. */
  lemma LambdaHandlerAnswers(req: Request, fetch: Option<HttpResponse>)
    ensures LambdaHandler(req, fetch) == Success(Respond(req, fetch))
  {
    SelectFollowsRoute(req);
    Dispatch.InvokeTotal(
      RequestHandlers(), Accepts(req), HandleWith(req, fetch),
      ExceptionHandlers(), Live.ExceptionAccepts(req), Live.HandleExceptionFor(req));
    match Route(req)
    case None =>
    case Some(h) => assert HandleWith(req, fetch)(h) == Handle(h, req, fetch);
  }

  lemma RouteToReflector(req: Request)
    ensures Route(req) == Some(Live.IntentReflectorHandler)
        <==> req.IntentRequest? && SpecificHandler(req.intentName).None?
  {
  }

  /** An intent without a handler of its own is echoed back verbatim. */
  lemma UnknownIntentEchoed(name: string, fetch: Option<HttpResponse>)
    requires SpecificHandler(name).None?
    ensures LambdaHandler(IntentRequest(name), fetch) == Success(Speak(Live.ReflectorPrefix + name + "."))
  {
    var req: Request := IntentRequest(name);
    RouteToReflector(req);
    assert Respond(req, fetch) == Speak(Live.ReflectorPrefix + name + ".");
    LambdaHandlerAnswers(req, fetch);
  }

  /** The live file's lower-case weather intent has no handler here and reaches the reflector. */
  lemma LowerCaseWeatherIntentReflected(req: Request, fetch: Option<HttpResponse>)
    requires IsIntentName(req, Live.WeatherName)
    ensures LambdaHandler(req, fetch) == Success(Speak(Live.ReflectorPrefix + Live.WeatherName + "."))
  {
    RouteToReflector(req);
    assert Respond(req, fetch) == Speak(Live.ReflectorPrefix + Live.WeatherName + ".");
    LambdaHandlerAnswers(req, fetch);
  }

  /** Only the greeting depends on the fetch: every other request gets the same answer whatever it returned. */
  lemma OnlyHelloWorldReadsFetch(req: Request, f: Option<HttpResponse>, g: Option<HttpResponse>)
    requires !IsIntentName(req, Live.HelloWorldName)
    ensures LambdaHandler(req, f) == LambdaHandler(req, g)
  {
    assert Route(req) != Some(Live.HelloWorldIntentHandler);
    assert Respond(req, f) == Respond(req, g);
    LambdaHandlerAnswers(req, f);
    LambdaHandlerAnswers(req, g);
  }

  /** The answer to a named intent is the answer of its handler. */
  lemma NamedIntentAnswer(req: Request, h: Handler, fetch: Option<HttpResponse>)
    requires req.IntentRequest? && SpecificHandler(req.intentName) == Some(h)
    ensures LambdaHandler(req, fetch) == Success(Handle(h, req, fetch).response)
  {
    LambdaHandlerAnswers(req, fetch);
  }

  /** The four weather intents answer with fixed texts, whatever the fetch returned. */
  lemma WeatherIntentStub(req: Request, fetch: Option<HttpResponse>)
    requires IsIntentName(req, WeatherName)
    ensures LambdaHandler(req, fetch) == Success(Speak(WeatherStubText))
  {
    assert SpecificHandler(req.intentName) == Some(Live.WeatherIntentHandler);
    NamedIntentAnswer(req, Live.WeatherIntentHandler, fetch);
  }

  lemma TemperatureIntentStub(req: Request, fetch: Option<HttpResponse>)
    requires IsIntentName(req, TemperatureName)
    ensures LambdaHandler(req, fetch) == Success(Speak(TemperatureStubText))
  {
    assert SpecificHandler(req.intentName) == Some(Live.TemperatureIntentHandler);
    NamedIntentAnswer(req, Live.TemperatureIntentHandler, fetch);
  }

  lemma ClothingIntentStub(req: Request, fetch: Option<HttpResponse>)
    requires IsIntentName(req, ClothingName)
    ensures LambdaHandler(req, fetch) == Success(Speak(Live.ClothingText))
  {
    assert SpecificHandler(req.intentName) == Some(Live.ClothingIntentHandler);
    NamedIntentAnswer(req, Live.ClothingIntentHandler, fetch);
  }

  lemma MiscIntentStub(req: Request, fetch: Option<HttpResponse>)
    requires IsIntentName(req, MiscName)
    ensures LambdaHandler(req, fetch) == Success(Speak(Live.MiscText))
  {
    assert SpecificHandler(req.intentName) == Some(Live.MiscIntentHandler);
    assert Handle(Live.MiscIntentHandler, req, fetch) == Done(Speak(Live.MiscText));
    NamedIntentAnswer(req, Live.MiscIntentHandler, fetch);
  }

  /**
   * The greeting speaks the status code in canonical decimal: the spoken digits
   * are non-empty, have no leading zero, and read back as that code.
   */
  lemma HelloWorldReportsStatus(req: Request, status: nat)
    requires IsIntentName(req, Live.HelloWorldName)
    ensures LambdaHandler(req, Some(HttpResponse(status)))
         == Success(Speak(Live.HelloPrefix + Decimal.NatToString(status) + "."))
    ensures var r := LambdaHandler(req, Some(HttpResponse(status)));
      && r.Success? && r.value.reprompt.None?
      && exists digits ::
           && |digits| > 0 && (digits[0] == '0' ==> status == 0)
           && (forall i :: 0 <= i < |digits| ==> Decimal.IsDigit(digits[i]))
           && r.value.speech == Some(Live.HelloPrefix + digits + ".")
           && Decimal.StringToNat(digits) == status
  {
    var digits := Decimal.NatToString(status);
    Decimal.StringToNatOfNatToString(status);
    assert SpecificHandler(req.intentName) == Some(Live.HelloWorldIntentHandler);
    assert Handle(Live.HelloWorldIntentHandler, req, Some(HttpResponse(status)))
        == Done(Speak(Live.HelloPrefix + digits + "."));
    NamedIntentAnswer(req, Live.HelloWorldIntentHandler, Some(HttpResponse(status)));
  }

  /** Distinct status codes give distinct greetings. */
  lemma HelloWorldDistinguishesStatus(req: Request, s: nat, t: nat)
    requires IsIntentName(req, Live.HelloWorldName)
    requires s != t
    ensures LambdaHandler(req, Some(HttpResponse(s))) != LambdaHandler(req, Some(HttpResponse(t)))
  {
    HelloWorldReportsStatus(req, s);
    HelloWorldReportsStatus(req, t);
    var a := Decimal.NatToString(s);
    var b := Decimal.NatToString(t);
    if Live.HelloPrefix + a + "." == Live.HelloPrefix + b + "." {
      assert a == (Live.HelloPrefix + a + ".")[|Live.HelloPrefix|..|Live.HelloPrefix| + |a|];
      assert b == (Live.HelloPrefix + b + ".")[|Live.HelloPrefix|..|Live.HelloPrefix| + |b|];
      Decimal.NatToStringInjective(s, t);
    }
  }

  /** Without a response the greeting apologises for the fetch. */
  lemma HelloWorldFetchFailed(req: Request)
    requires IsIntentName(req, Live.HelloWorldName)
    ensures LambdaHandler(req, None) == Success(Speak(Live.HelloFetchErrorText))
  {
    assert SpecificHandler(req.intentName) == Some(Live.HelloWorldIntentHandler);
    NamedIntentAnswer(req, Live.HelloWorldIntentHandler, None);
  }

  /** Launch reprompts with what it said. */
  lemma LaunchRepromptsWelcome(req: Request, fetch: Option<HttpResponse>)
    requires req.LaunchRequest?
    ensures var r := LambdaHandler(req, fetch);
      r.Success? && r.value.reprompt.Some? && r.value.reprompt == r.value.speech
  {
    assert Respond(req, fetch) == SpeakAsk(Live.WelcomeText, Live.WelcomeText);
    LambdaHandlerAnswers(req, fetch);
  }

  /** Help reprompts with what it said. */
  lemma HelpRepromptsHelp(req: Request, fetch: Option<HttpResponse>)
    requires IsIntentName(req, Live.HelpName)
    ensures var r := LambdaHandler(req, fetch);
      r.Success? && r.value.reprompt.Some? && r.value.reprompt == r.value.speech
  {
    assert SpecificHandler(req.intentName) == Some(Live.HelpIntentHandler);
    assert Handle(Live.HelpIntentHandler, req, fetch) == Done(SpeakAsk(Live.HelpText, Live.HelpText));
    NamedIntentAnswer(req, Live.HelpIntentHandler, fetch);
  }

  /** Fallback reprompts with a text different from what it said. */
  lemma FallbackRepromptDiffers(req: Request, fetch: Option<HttpResponse>)
    requires IsIntentName(req, Live.FallbackName)
    ensures var r := LambdaHandler(req, fetch);
      r.Success? && r.value.reprompt.Some? && r.value.speech.Some? && r.value.reprompt != r.value.speech
  {
    assert SpecificHandler(req.intentName) == Some(Live.FallbackIntentHandler);
    assert Handle(Live.FallbackIntentHandler, req, fetch)
        == Done(SpeakAsk(Live.FallbackText, Live.FallbackReprompt));
    NamedIntentAnswer(req, Live.FallbackIntentHandler, fetch);
    assert |Live.FallbackText| != |Live.FallbackReprompt|;
  }

  /** The end of a session is answered with nothing to say and no reprompt. */
  lemma SessionEndedSilent(req: Request, fetch: Option<HttpResponse>)
    requires req.SessionEndedRequest?
    ensures LambdaHandler(req, fetch) == Success(EmptyResponse)
  {
    assert Respond(req, fetch) == EmptyResponse;
    LambdaHandlerAnswers(req, fetch);
  }

  /** A request of an unknown type matches no handler and gets the catch-all apology, spoken and reprompted. */
  lemma UnknownRequestTypeApologises(req: Request, fetch: Option<HttpResponse>)
    requires req.OtherRequest?
    ensures LambdaHandler(req, fetch) == Success(SpeakAsk(Live.ApologyText, Live.ApologyText))
  {
    LambdaHandlerAnswers(req, fetch);
  }

  /** The intent names whose handling differs between the two files. */
  const DataOrCaseDependentNames: set<string> :=
    {Live.HelloWorldName, Live.WeatherName, Live.TemperatureName, Live.ClothingName, Live.MiscName,
     WeatherName, TemperatureName, ClothingName, MiscName}

  /**
   * Apart from the greeting and the four weather intents (whose names differ
   * in case between the files), the stub answers every request as the live
   * skill does.
   */
  lemma AgreesWithLive(req: Request, f: Option<HttpResponse>, g: Option<Live.WeatherData>)
    requires req.IntentRequest? ==> req.intentName !in DataOrCaseDependentNames
    ensures LambdaHandler(req, f) == Live.LambdaHandler(req, g)
  {
    SameAnswerOutsideNames(req, f, g);
    LambdaHandlerAnswers(req, f);
    Live.LambdaHandlerAnswers(req, g);
  }

  lemma SameAnswerOutsideNames(req: Request, f: Option<HttpResponse>, g: Option<Live.WeatherData>)
    requires req.IntentRequest? ==> req.intentName !in DataOrCaseDependentNames
    ensures Respond(req, f) == Live.Respond(req, g)
  {
    SameRouteOutsideNames(req);
    match Route(req)
    case None =>
    case Some(h) =>
      assert Handle(h, req, f) == Live.Handle(h, req, g);
  }

  lemma SameRouteOutsideNames(req: Request)
    requires req.IntentRequest? ==> req.intentName !in DataOrCaseDependentNames
    ensures Route(req) == Live.Route(req)
    ensures Route(req) !in {Some(Live.HelloWorldIntentHandler), Some(Live.WeatherIntentHandler),
                            Some(Live.TemperatureIntentHandler), Some(Live.ClothingIntentHandler),
                            Some(Live.MiscIntentHandler)}
  {
  }
}
