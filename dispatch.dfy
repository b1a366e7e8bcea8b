/**
 * The SDK's request dispatch as the skill relies on it: handlers are kept in
 * the order they were registered, the first whose `can_handle` holds is
 * invoked, and an exception raised by it (or the absence of any matching
 * handler) is passed down the ordered exception-handler chain in the same way.
 */
module Dispatch {
  import opened Wrappers
  import opened Alexa

  /** Index of the first entry of table that accepts; None when none does. */
  function FirstMatch<H>(table: seq<H>, accepts: H -> bool): Option<nat> {
    if |table| == 0 then None
    else if accepts(table[0]) then Some(0)
    else match FirstMatch(table[1..], accepts)
      case None => None
      case Some(k) => Some(k + 1)
  }

  /** The scan finds the first accepting entry, and finds nothing exactly when no entry accepts. */
  lemma {:induction false} FirstMatchSpec<H>(table: seq<H>, accepts: H -> bool)
    ensures var r := FirstMatch(table, accepts);
      && (r.Some? ==> r.value < |table| && accepts(table[r.value]))
      && (r.Some? ==> forall j :: 0 <= j < r.value ==> !accepts(table[j]))
      && (r.None? <==> forall j :: 0 <= j < |table| ==> !accepts(table[j]))
    decreases |table|
  {
    if |table| > 0 && !accepts(table[0]) {
      FirstMatchSpec(table[1..], accepts);
      assert forall j :: 1 <= j < |table| ==> table[j] == table[1..][j - 1];
    }
  }

  /** The first accepting entry itself. */
  function Select<H>(table: seq<H>, accepts: H -> bool): Option<H> {
    match FirstMatch(table, accepts)
    case None => None
    case Some(i) => FirstMatchSpec(table, accepts); Some(table[i])
  }

  /** What is selected is in the table and accepts; nothing is selected exactly when nothing accepts. */
  lemma SelectSpec<H>(table: seq<H>, accepts: H -> bool)
    ensures var r := Select(table, accepts);
      && (r.Some? ==> r.value in table && accepts(r.value))
      && (r.None? <==> forall h :: h in table ==> !accepts(h))
  {
    FirstMatchSpec(table, accepts);
  }

  /**
   * The scan is determined by its result: when entry i accepts and nothing
   * before it does, the scan stops at i.
   */
  lemma FirstMatchAt<H>(table: seq<H>, accepts: H -> bool, i: nat)
    requires i < |table| && accepts(table[i])
    requires forall j :: 0 <= j < i ==> !accepts(table[j])
    ensures FirstMatch(table, accepts) == Some(i)
    ensures Select(table, accepts) == Some(table[i])
  {
    FirstMatchSpec(table, accepts);
  }

  /** When nothing in the table accepts, the scan finds nothing. */
  lemma SelectNone<H>(table: seq<H>, accepts: H -> bool)
    requires forall x :: x in table ==> !accepts(x)
    ensures FirstMatch(table, accepts) == None
    ensures Select(table, accepts) == None
  {
    FirstMatchSpec(table, accepts);
  }

  /**
   * Shadowing: an entry that accepts no more than some earlier entry, and
   * occurs nowhere else in the table, is never the one selected.
   */
  lemma Shadowed<H, R>(table: seq<H>, accepts: R -> H -> bool, j: nat, i: nat, req: R)
    requires j < i < |table|
    requires forall q :: accepts(q)(table[i]) ==> accepts(q)(table[j])
    requires forall k :: 0 <= k < |table| && table[k] == table[i] ==> k == i
    ensures FirstMatch(table, accepts(req)) != Some(i)
    ensures Select(table, accepts(req)) != Some(table[i])
  {
    FirstMatchSpec(table, accepts(req));
  }

  /**
   * One request through the skill: the first matching request handler runs;
   * if none matches, or it raises, the error goes to the first exception
   * handler that accepts it. An error no exception handler accepts escapes.
   */
  function Invoke<H, E>(
    handlers: seq<H>, canHandle: H -> bool, handle: H -> Outcome,
    exceptionHandlers: seq<E>, canHandleException: Error -> E -> bool,
    handleException: (E, Error) -> Response): Result<Response, Error>
  {
    FirstMatchSpec(handlers, canHandle);
    var outcome :=
      match FirstMatch(handlers, canHandle)
      case None => Raised(NoHandlerFound)
      case Some(i) => handle(handlers[i]);
    match outcome
    case Done(resp) => Success(resp)
    case Raised(err) =>
      FirstMatchSpec(exceptionHandlers, canHandleException(err));
      match FirstMatch(exceptionHandlers, canHandleException(err))
      case None => Failure(err)
      case Some(k) => Success(handleException(exceptionHandlers[k], err))
  }

  /**
   * An error escapes only when no exception handler accepts it, and the error
   * is either "no handler found" or one a request handler raised.
   */
  lemma InvokeEscapes<H, E>(
    handlers: seq<H>, canHandle: H -> bool, handle: H -> Outcome,
    exceptionHandlers: seq<E>, canHandleException: Error -> E -> bool,
    handleException: (E, Error) -> Response)
    ensures var r := Invoke(handlers, canHandle, handle, exceptionHandlers, canHandleException, handleException);
      r.Failure? ==>
        && (forall k :: 0 <= k < |exceptionHandlers| ==> !canHandleException(r.error)(exceptionHandlers[k]))
        && (r.error == NoHandlerFound || exists i :: 0 <= i < |handlers| && handle(handlers[i]) == Raised(r.error))
  {
    FirstMatchSpec(handlers, canHandle);
    match FirstMatch(handlers, canHandle)
    case None =>
      FirstMatchSpec(exceptionHandlers, canHandleException(NoHandlerFound));
    case Some(i) =>
      match handle(handlers[i])
      case Done(_) =>
      case Raised(err) => FirstMatchSpec(exceptionHandlers, canHandleException(err));
  }

  /**
   * Containment: when the first exception handler accepts every error, nothing
   * escapes, and the answer is the selected handler's response or, when there
   * is none or it raises, what that exception handler makes of the error.
   */
  lemma InvokeTotal<H, E>(
    handlers: seq<H>, canHandle: H -> bool, handle: H -> Outcome,
    exceptionHandlers: seq<E>, canHandleException: Error -> E -> bool,
    handleException: (E, Error) -> Response)
    requires |exceptionHandlers| > 0
    requires forall err :: canHandleException(err)(exceptionHandlers[0])
    ensures Invoke(handlers, canHandle, handle, exceptionHandlers, canHandleException, handleException).Success?
    ensures Invoke(handlers, canHandle, handle, exceptionHandlers, canHandleException, handleException).value
         == match Select(handlers, canHandle)
            case None => handleException(exceptionHandlers[0], NoHandlerFound)
            case Some(h) =>
              match handle(h)
              case Done(resp) => resp
              case Raised(err) => handleException(exceptionHandlers[0], err)
  {
    FirstMatchSpec(handlers, canHandle);
    match FirstMatch(handlers, canHandle)
    case None =>
      FirstMatchAt(exceptionHandlers, canHandleException(NoHandlerFound), 0);
    case Some(i) =>
      match handle(handlers[i])
      case Done(_) =>
      case Raised(err) => FirstMatchAt(exceptionHandlers, canHandleException(err), 0);
  }

  /**
   * The SDK's skill builder: `add_request_handler` and `add_exception_handler`
   * append to two ordered lists, which dispatch later scans from the front.
   */
  class SkillBuilder<H, E> {
    var requestHandlers: seq<H>
    var exceptionHandlers: seq<E>

    constructor ()
      ensures requestHandlers == [] && exceptionHandlers == []
    {
      requestHandlers := [];
      exceptionHandlers := [];
    }

    method AddRequestHandler(h: H)
      modifies this
      ensures requestHandlers == old(requestHandlers) + [h]
      ensures exceptionHandlers == old(exceptionHandlers)
    {
      requestHandlers := requestHandlers + [h];
    }

    method AddExceptionHandler(e: E)
      modifies this
      ensures exceptionHandlers == old(exceptionHandlers) + [e]
      ensures requestHandlers == old(requestHandlers)
    {
      exceptionHandlers := exceptionHandlers + [e];
    }
  }
}
