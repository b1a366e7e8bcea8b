/**
 * The part of the voice platform's request/response algebra that the skill's
 * handlers look at: the request type, the intent name, and the two texts a
 * handler can put into a response (what is spoken, and the reprompt that keeps
 * the session open).
 */
module Alexa {
  import opened Wrappers

  const LaunchType := "LaunchRequest"
  const IntentType := "IntentRequest"
  const SessionEndedType := "SessionEndedRequest"

  /** The request types the skill's handlers test for. */
  const KnownRequestTypes: set<string> := {LaunchType, IntentType, SessionEndedType}

  /**
   * An inbound request as the platform's deserialiser produces it. Any other
   * request type (audio player events and the like) arrives as OtherRequest.
   */
  datatype RequestObject =
    | LaunchRequest
    | IntentRequest(intentName: string)
    | SessionEndedRequest
    | OtherRequest(typeName: string)

  /** The deserialiser picks the class by the type name, so an OtherRequest never carries a known one. */
  type Request = r: RequestObject | r.OtherRequest? ==> r.typeName !in KnownRequestTypes
    witness LaunchRequest

  /** The request's declared type, as the SDK's `is_request_type` compares it. */
  function RequestType(req: Request): (t: string)
    ensures t == LaunchType <==> req.LaunchRequest?
    ensures t == IntentType <==> req.IntentRequest?
    ensures t == SessionEndedType <==> req.SessionEndedRequest?
    ensures t in KnownRequestTypes <==> !req.OtherRequest?
  {
    match req
    case LaunchRequest => LaunchType
    case IntentRequest(_) => IntentType
    case SessionEndedRequest => SessionEndedType
    case OtherRequest(name) => name
  }

  /** `is_request_type(t)`: the request's declared type is t. */
  predicate IsRequestType(req: Request, t: string) {
    RequestType(req) == t
  }

  /** `is_intent_name(name)`: an intent request whose intent is called name. */
  predicate IsIntentName(req: Request, name: string) {
    req.IntentRequest? && req.intentName == name
  }

  /** A response as the handlers build it; None means the builder was not given that part. */
  datatype Response = Response(speech: Option<string>, reprompt: Option<string>)

  /** `response_builder.speak(text).response` */
  function Speak(text: string): Response {
    Response(Some(text), None)
  }

  /** `response_builder.speak(text).ask(reprompt).response` */
  function SpeakAsk(text: string, reprompt: string): Response {
    Response(Some(text), Some(reprompt))
  }

  /** `response_builder.response` with nothing added. */
  const EmptyResponse := Response(None, None)

  /** The Python exceptions that can leave a handler, and the SDK's "no handler found". */
  datatype Error =
    | KeyError(key: string)
    | IndexError
    | TypeError
    | NoHandlerFound

  /** What a request handler's `handle` does: return a response or raise. */
  datatype Outcome = Done(response: Response) | Raised(error: Error)
}
