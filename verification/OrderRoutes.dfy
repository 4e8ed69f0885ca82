// The decisions on the way of one order: the AWS gateway (deploy/aws/demo-order-gateway/index.ts) and the
// browser (`sendWebTrade` in src/hooks/useWebTrade.ts).

module OrderRoutes {
  import opened Common

  datatype Action = Open | Modify | Close | Cancel | CloseBulk

  datatype Order = Order(clientRequestId: string, accountId: string, action: Action)

  // ---- the gateway ---------------------------------------------------------------------------------

  /** Why the gateway refuses an order before anything is sent. */
  datatype Refusal =
    | NotFound | RouteOffline | TooLarge | ForeignOrigin | Invalid | DemoOnly | PassRefused | RateLimited

  datatype Answer = Confirmed | Error(code: string, status: int, notSent: bool)

  /** What the worker said about the order. */
  datatype Reply = Done(closed: nat, failed: nat) | Failed(code: string, status: int, notSent: bool)

  /** What one try of the direct lane came to. */
  datatype Sent = Answered(reply: Reply) | NotSent | Uncertain

  function RefusalAnswer(r: Refusal): Answer {
    match r
    case NotFound => Error("NOT_FOUND", 404, true)
    case RouteOffline => Error("AWS_ROUTE_OFFLINE", 503, true)
    case TooLarge => Error("VALIDATION_ERROR", 413, true)
    case ForeignOrigin => Error("DEMO_ORIGIN", 403, true)
    case Invalid => Error("VALIDATION_ERROR", 400, true)
    case DemoOnly => Error("DEMO_ONLY", 403, true)
    case PassRefused => Error("AWS_PASS_EXPIRED", 401, true)
    case RateLimited => Error("RATE_LIMITED", 429, false)
  }

  /** A request to close several positions that closed none. */
  predicate AllFailed(bulk: bool, closed: nat, failed: nat) { bulk && closed == 0 && failed > 0 }

  function ReplyAnswer(bulk: bool, reply: Reply): Answer {
    match reply
    case Failed(code, status, notSent) => Error(code, status, notSent)
    case Done(closed, failed) =>
      if AllFailed(bulk, closed, failed) then Error("BULK_FAILED", 502, false) else Confirmed
  }

  /** The answer once the first try, and the second if the first was uncertain, are over. */
  function LaneAnswer(bulk: bool, first: Sent, second: Sent): Answer {
    match first
    case NotSent => Error("AWS_ROUTE_NOT_SENT", 503, true)
    case Answered(reply) => ReplyAnswer(bulk, reply)
    case Uncertain =>
      if second.Answered? then ReplyAnswer(bulk, second.reply) else Error("ORDER_UNCERTAIN", 504, false)
  }

  /** The handler behind its checks; `lane` yields what each try of the direct lane comes to. */
  method Handle(refusal: Option<Refusal>, bulk: bool, lane: seq<Sent>) returns (answer: Answer, tries: nat)
    requires |lane| == 2
    ensures refusal.Some? ==> answer == RefusalAnswer(refusal.value) && tries == 0
    ensures refusal.None? ==> answer == LaneAnswer(bulk, lane[0], lane[1])
    ensures refusal.None? ==> tries == if lane[0] == Uncertain then 2 else 1
  {
    tries := 0;
    if refusal.Some? { return RefusalAnswer(refusal.value), 0; }
    var sent := lane[0];
    tries := 1;
    if sent == NotSent { return Error("AWS_ROUTE_NOT_SENT", 503, true), tries; }
    if sent == Uncertain {
      sent := lane[1];
      tries := 2;
    }
    if !sent.Answered? { return Error("ORDER_UNCERTAIN", 504, false), tries; }
    if sent.reply.Failed? { return Error(sent.reply.code, sent.reply.status, sent.reply.notSent), tries; }
    if bulk && sent.reply.closed == 0 && sent.reply.failed > 0 { return Error("BULK_FAILED", 502, false), tries; }
    answer := Confirmed;
  }

  /** What the answer makes of the tries: the last one decides. A confirmation is the worker's word that something was
      done, and the worker's errors are passed on; "not sent" is said by the gateway itself exactly if the first try
      never left. */
  lemma LastTryDecides(bulk: bool, first: Sent, second: Sent)
    ensures var answer, last := LaneAnswer(bulk, first, second), if first == Uncertain then second else first;
            && (answer == Confirmed <==>
                  last.Answered? && last.reply.Done? && !(bulk && last.reply.closed == 0 && last.reply.failed > 0))
            && (last.Answered? && last.reply.Failed? ==>
                  answer == Error(last.reply.code, last.reply.status, last.reply.notSent))
            && (!last.Answered? ==> answer.Error? && (answer.notSent <==> first == NotSent)
                                    && (answer.code in {"BROKER_ERROR", "ORDER_UNCERTAIN"} <==> first != NotSent))
  {
  }

  // ---- the platform's own route -----------------------------------------------------------------------

  /** How the platform's route ends: a check refused the order before it was queued, the database did not confirm that
      it was queued, nobody picked it up and it was withdrawn, nothing is known, or the worker's word. */
  datatype Word = TurnedAway(code: string, status: int) | NotQueued | Withdrawn | Unclear | Said(reply: Reply)

  /** Its errors carry a code and no "not sent". */
  function PlatformAnswer(bulk: bool, w: Word): Answer {
    match w
    case TurnedAway(code, status) => Error(code, status, false)
    case NotQueued => Error("SERVICE_UNAVAILABLE", 503, false)
    case Withdrawn => Error("GATEWAY_TIMEOUT", 504, false)
    case Unclear => Error("ORDER_UNCERTAIN", 504, false)
    case Said(reply) =>
      var answer := ReplyAnswer(bulk, reply);
      if answer.Error? then answer.(notSent := false) else answer
  }

  // ---- the browser ---------------------------------------------------------------------------------

  datatype Field = Text(text: string) | Flag(value: bool) | Data | ErrorInfo(code: Option<string>, notSent: bool)

  /** A response body: not JSON, or null, another JSON value without members, or an object with these. */
  datatype Body = NotJson | Null | Plain | Object(fields: map<string, Field>)

  datatype Response = Response(status: int, body: Body)

  /** What the browser's request came to. */
  datatype Fetched = Dropped | Arrived(response: Response)

  /** The response the gateway makes of an answer. */
  function Wire(a: Answer): Response {
    match a
    case Confirmed => Response(200, Object(map["ok" := Flag(true), "data" := Data]))
    case Error(code, status, notSent) =>
      Response(status, Object(map["ok" := Flag(false), "error" := ErrorInfo(Some(code), notSent)]))
  }

  predicate IsOk(r: Response) { 200 <= r.status < 300 }

  predicate IsThrottleRefusal(r: Response) {
    && r.status == 429 && r.body.Object? && |r.body.fields| == 1
    && "message" in r.body.fields && r.body.fields["message"] == Text("Too Many Requests")
  }

  predicate SaysNotSent(r: Response) {
    && r.body.Object? && "error" in r.body.fields
    && r.body.fields["error"].ErrorInfo? && r.body.fields["error"].notSent
  }

  predicate HasCode(r: Response) {
    && r.body.Object? && "error" in r.body.fields
    && r.body.fields["error"].ErrorInfo? && r.body.fields["error"].code.Some?
  }

  predicate NamesAnError(r: Response) {
    HasCode(r) && r.body.fields["error"].code.value != ""
  }

  /** A message of the browser: to the AWS gateway, or to the platform's own route. */
  datatype Target = Gateway | Platform

  datatype Message = Message(to: Target, order: Order)

  /** How sendWebTrade ends: well, with an error that may leave the order uncertain, or with an error of another
      kind. */
  datatype Result = Success | Problem(code: string, uncertain: bool) | Thrown

  const UNCERTAIN_TRADE_CODES: set<string> :=
    {"BROKER_ERROR", "BROKER_PROVIDER_TIMEOUT", "ORDER_UNCERTAIN", "WORKER_LOST", "NETWORK_ERROR"}

  predicate Truthy(f: Field) {
    match f
    case Text(text) => text != ""
    case Flag(value) => value
    case Data => true
    case ErrorInfo(_, _) => true
  }

  /** The envelope of a success, whatever the status. */
  predicate SaysSuccess(r: Response) {
    && r.body.Object? && "ok" in r.body.fields && Truthy(r.body.fields["ok"]) && "data" in r.body.fields
  }

  /** The code a refusal names, if any. */
  function CodeOf(r: Response): string {
    if HasCode(r) then r.body.fields["error"].code.value else "REQUEST_FAILED"
  }

  function ReadEnvelope(r: Response): Result {
    if r.body == NotJson then Problem("BAD_RESPONSE", IsOk(r))
    else if r.body == Null then Thrown
    else if SaysSuccess(r) then Success
    else Problem(CodeOf(r), CodeOf(r) in UNCERTAIN_TRADE_CODES)
  }

  /** Only these answers let the browser send the order again. */
  predicate MayResend(r: Response) {
    !IsOk(r) && (SaysNotSent(r) || IsThrottleRefusal(r))
  }

  /** What the browser makes of the gateway's response; None: send the same order to the platform. */
  function Judge(gateway: Fetched): Option<Result> {
    match gateway
    case Dropped => Some(Problem("NETWORK_ERROR", true))
    case Arrived(r) =>
      if MayResend(r) then None
      else if !IsOk(r) && !NamesAnError(r) then Some(Problem("ORDER_UNCERTAIN", true))
      else Some(ReadEnvelope(r))
  }

  function JudgePlatform(action: Action, platform: Fetched): Result {
    match platform
    case Dropped => Problem("NETWORK_ERROR", action != Modify)
    case Arrived(r) => ReadEnvelope(r)
  }

  /** `direct`: the account, the order and its pass qualify for the AWS route and there is a session. */
  method SendWebTrade(order: Order, direct: bool, gateway: Fetched, platform: Fetched)
    returns (result: Result, sent: seq<Message>)
    ensures forall m :: m in sent ==> m.order == order
    ensures direct ==>
              sent == [Message(Gateway, order)] + if Judge(gateway).None? then [Message(Platform, order)] else []
    ensures !direct ==> sent == [Message(Platform, order)]
    ensures direct && Judge(gateway).Some? ==> result == Judge(gateway).value
    ensures !direct || Judge(gateway).None? ==> result == JudgePlatform(order.action, platform)
  {
    sent := [];
    var path := Platform;
    var response: Option<Response> := None;
    if direct {
      path := Gateway;
      sent := sent + [Message(path, order)];
      if gateway == Dropped { return Problem("NETWORK_ERROR", path == Gateway || order.action != Modify), sent; }
      response := Some(gateway.response);
      if !IsOk(response.value) {
        if SaysNotSent(response.value) || IsThrottleRefusal(response.value) {
          path := Platform;
          response := None;
        } else if !NamesAnError(response.value) {
          return Problem("ORDER_UNCERTAIN", true), sent;
        }
      }
    }
    if response.None? {
      sent := sent + [Message(path, order)];
      if platform == Dropped { return Problem("NETWORK_ERROR", path == Gateway || order.action != Modify), sent; }
      response := Some(platform.response);
    }
    result := ReadEnvelope(response.value);
  }

  /** The gateway's own answers, its own rate limit included, are never taken for a throttle refusal of the network
      in front of it, and make the browser send again exactly when they say "not sent". */
  lemma OwnAnswersAreReadRight(a: Answer)
    requires a.Error? ==> a.code != "" && !(200 <= a.status < 300)
    ensures !IsThrottleRefusal(Wire(a))
    ensures MayResend(Wire(a)) <==> a.Error? && a.notSent
    ensures SaysSuccess(Wire(a)) <==> a == Confirmed
    ensures Judge(Arrived(Wire(a))).Some? ==>
              Judge(Arrived(Wire(a))).value
              == if a == Confirmed then Success else Problem(a.code, a.code in UNCERTAIN_TRADE_CODES)
  {
    if a.Error? {
      var fields := Wire(a).body.fields;
      assert fields.Keys == {"ok", "error"};
    }
  }

  /** An answer in place of the gateway's own, from something on the way, that neither claims success nor allows a
      second sending: the person is not told that the order may exist exactly if the answer is JSON and not null, and
      names an error that is not an uncertain one, or names none at all under a status of success. (Null under such a
      status ends in an error of another kind, without a warning too.) */
  lemma StrangeAnswersWarnExactly(r: Response)
    requires !SaysSuccess(r) && !MayResend(r)
    ensures Judge(Arrived(r)).Some? && Judge(Arrived(r)).value != Success
    ensures Judge(Arrived(r)).value.Problem? && !Judge(Arrived(r)).value.uncertain
       <==> && r.body != NotJson && r.body != Null
            && (IsOk(r) || NamesAnError(r)) && CodeOf(r) !in UNCERTAIN_TRADE_CODES
    ensures Judge(Arrived(r)).value == Thrown <==> IsOk(r) && r.body == Null
  {
  }

  /** A page of JSON under a status of success that is no answer of the gateway at all passes for a plain refusal. */
  lemma StrangePagePassesForARefusal()
    ensures Judge(Arrived(Response(200, Object(map[])))) == Some(Problem("REQUEST_FAILED", false))
  {
    StrangeAnswersWarnExactly(Response(200, Object(map[])));
  }

  /** After a refusal of the gateway the browser sends the order to the platform, unless too many were sent. */
  lemma RefusedOrdersAreSentAgain(r: Refusal)
    ensures Judge(Arrived(Wire(RefusalAnswer(r))))
         == if r == RateLimited then Some(Problem("RATE_LIMITED", false)) else None
  {
    OwnAnswersAreReadRight(RefusalAnswer(r));
  }

  /** A dropped connection to the platform warns of every action but a change of levels, which can be repeated. */
  lemma DroppedPlatformWarnsExactly(action: Action)
    ensures var result := JudgePlatform(action, Dropped);
            && result.Problem? && result.code == "NETWORK_ERROR"
            && (result.uncertain <==> action in {Open, Close, Cancel, CloseBulk})
  {
  }

  /** What the browser makes of the platform's own answers: a success is the worker's word that something was done,
      and a problem is reported with the code of the answer. */
  lemma PlatformIsReadRight(action: Action, bulk: bool, w: Word)
    ensures var result := JudgePlatform(action, Arrived(Wire(PlatformAnswer(bulk, w))));
            match w
            case TurnedAway(code, _) => result == Problem(code, code in UNCERTAIN_TRADE_CODES)
            case NotQueued => result == Problem("SERVICE_UNAVAILABLE", false)
            case Withdrawn => result == Problem("GATEWAY_TIMEOUT", false)
            case Unclear => result == Problem("ORDER_UNCERTAIN", true)
            case Said(Done(closed, failed)) =>
              result == if bulk && closed == 0 && failed > 0 then Problem("BULK_FAILED", false) else Success
            case Said(Failed(code, _, _)) => result == Problem(code, code in UNCERTAIN_TRADE_CODES)
  {
  }

  /** An answer in place of the platform's, which does not claim success: without a warning exactly if it is no JSON and
      no status of success, or JSON and not null with a code that is not an uncertain one, or none. */
  lemma StrangePlatformWarnsExactly(action: Action, r: Response)
    requires !SaysSuccess(r)
    ensures var result := JudgePlatform(action, Arrived(r));
            && result != Success
            && (result.Problem? && !result.uncertain <==>
                  if r.body == NotJson then !(200 <= r.status < 300)
                  else r.body != Null && CodeOf(r) !in UNCERTAIN_TRADE_CODES)
  {
  }
}
