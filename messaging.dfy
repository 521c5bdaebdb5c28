/** The control station's two inbound channels: perception messages that
    overwrite the shared gaze context, and logging-server messages that are
    routed to the gaze arbiter. The outbound log queue is in module Logging. */
module Messaging {
  import opened Values
  import opened UiHandler
  import opened GazeController
  import Logging

  /** A field that is missing or null falls back to `default`. */
  function OrDefault(data: Object, key: string, default: Value): (v: Value)
    ensures Get(data, key) != Null ==> v == data[key]
    ensures Get(data, key) == Null ==> v == default
  {
    if Get(data, key) != Null then Get(data, key) else default
  }

  predicate IsFaceDetection(data: Object)
  {
    Get(data, "event") == Str("faceDetection")
  }

  /** The perception channel's `onmessage`: a `faceDetection` payload replaces
      every context field, with 0.5 for a missing face coordinate, null for a
      missing second face and "none" for a missing head direction; any other
      message leaves the context as it was. */
  function FaceDetectionUpdate(c: ContextState, data: Object): (r: ContextState)
    ensures !IsFaceDetection(data) ==> r == c
    ensures IsFaceDetection(data) ==>
      && r.userInFront == Get(data, "userInFront")
      && r.faceX == OrDefault(data, "faceX", Num(0.5))
      && r.faceY == OrDefault(data, "faceY", Num(0.5))
      && r.secondFaceX == Get(data, "secondFaceX")
      && r.secondFaceY == Get(data, "secondFaceY")
      && r.headDirection == OrDefault(data, "headDirection", Str("none"))
  {
    if !IsFaceDetection(data) then c
    else ContextState(
      Get(data, "userInFront"),
      OrDefault(data, "faceX", Num(0.5)),
      OrDefault(data, "faceY", Num(0.5)),
      OrDefault(data, "secondFaceX", Null),
      OrDefault(data, "secondFaceY", Null),
      OrDefault(data, "headDirection", Str("none")))
  }

  /** After a face detection the primary face and the head direction are never
      null, and the context keeps nothing of its previous contents. */
  lemma FaceDetectionReplacesContext(c: ContextState, c': ContextState, data: Object)
    requires IsFaceDetection(data)
    ensures var r := FaceDetectionUpdate(c, data);
      r.faceX != Null && r.faceY != Null && r.headDirection != Null
    ensures FaceDetectionUpdate(c, data) == FaceDetectionUpdate(c', data)
  {
  }

  /** A face detection that reports a second face makes the arbiter see it. */
  lemma SecondFaceDecoded(c: ContextState, data: Object)
    requires IsFaceDetection(data)
    ensures SecondFace(FaceDetectionUpdate(c, data)) <==> Get(data, "secondFaceX") != Null && Get(data, "secondFaceY") != Null
  {
  }

  /** The perception socket: its handle, set on connect and nulled on close. */
  class PerceptionChannel {
    var connected: bool

    constructor Connect()
      ensures connected
    {
      connected := true;
    }

    /** `perceptionWs.onmessage` for the parsed message `data`. */
    method OnMessage(data: Object, ctx: Context)
      modifies ctx
      ensures ctx.Snapshot() == FaceDetectionUpdate(old(ctx.Snapshot()), data)
    {
      if Get(data, "event") == Str("faceDetection") {
        ctx.userInFront := Get(data, "userInFront");
        ctx.faceX := if Get(data, "faceX") != Null then Get(data, "faceX") else Num(0.5);
        ctx.faceY := if Get(data, "faceY") != Null then Get(data, "faceY") else Num(0.5);
        ctx.secondFaceX := if Get(data, "secondFaceX") != Null then Get(data, "secondFaceX") else Null;
        ctx.secondFaceY := if Get(data, "secondFaceY") != Null then Get(data, "secondFaceY") else Null;
        ctx.headDirection := if Get(data, "headDirection") != Null then Get(data, "headDirection") else Str("none");
      }
    }

    /** `perceptionWs.onclose`: the handle becomes null and is never reconnected. */
    method OnClose()
      modifies this
      ensures !connected
    {
      connected := false;
    }
  }

  /** Where the logging channel's `onmessage` sends a parsed message. */
  datatype Route = ToCardRevealed | ToQuestionCompletion | StatusReport | Unhandled

  function RouteOf(data: Object): (r: Route)
    ensures r == ToCardRevealed <==> Get(data, "event") == Str("cardReveal")
    ensures r == ToQuestionCompletion <==> Get(data, "event") == Str("cardDropped")
    ensures r == StatusReport <==>
      Get(data, "event") != Str("cardReveal") && Get(data, "event") != Str("cardDropped") && Truthy(Get(data, "status"))
  {
    if Get(data, "event") == Str("cardReveal") then ToCardRevealed
    else if Get(data, "event") == Str("cardDropped") then ToQuestionCompletion
    else if Truthy(Get(data, "status")) then StatusReport
    else Unhandled
  }

  /** `loggingWs.onmessage` for the parsed message `data`. `random` is the
      `Math.random()` draw of the handler that runs, and `sendThrows` whether
      the RobotsMove send raises. */
  method OnLoggingMessage(data: Object, controller: Controller, panel: ControlPanel, log: Logging.LoggingChannel,
                          random: real, now: int, sendThrows: bool)
    requires 0.0 <= random < 1.0
    modifies controller, panel, log
    // a reveal reaches the arbiter; the panel is untouched
    ensures RouteOf(data) == ToCardRevealed ==>
      var r := Reveal(old(controller.State()), data, old(panel.Flags()), random, now);
      && controller.State() == r.state
      && (r.message.Some? ==> log.State() == Logging.AfterSend(old(log.State()), r.message.value, sendThrows))
      && (r.message.None? ==> log.State() == old(log.State()))
      && panel.State() == old(panel.State())
    // a dropped card switches the condition; the arbiter and the log are untouched
    ensures RouteOf(data) == ToQuestionCompletion ==>
      && panel.State() == AfterChange(old(panel.State()), ToggleOf(PickNext(CurrentCondition(old(panel.Flags())), random)), true)
      && controller.State() == old(controller.State())
      && log.State() == old(log.State())
    // everything else is only written to the console
    ensures RouteOf(data) == StatusReport || RouteOf(data) == Unhandled ==>
      && controller.State() == old(controller.State())
      && panel.State() == old(panel.State())
      && log.State() == old(log.State())
  {
    if Get(data, "event") == Str("cardReveal") {
      controller.HandleCardRevealed(data, panel, log, random, now, sendThrows);
    } else if Get(data, "event") == Str("cardDropped") {
      HandleQuestionCompletion(panel, random);
    }
  }
}
