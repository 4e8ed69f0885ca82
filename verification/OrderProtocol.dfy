// One click of "Send order" over an unreliable network: the browser, the AWS gateway with its two tries of the
// direct lane, the platform's own route, and the row the worker's side keeps of the request id. Messages are delayed
// or lost in any way; connections drop at any time. That the worker's side takes only such steps with the row as are
// allowed here, whatever processes work on it, is proved in the module Gateway.

module OrderProtocol {
  import opened Common
  import opened OrderRoutes

  // ---- the parties -----------------------------------------------------------------------------------

  /** One try of the direct lane on its way: not made, under way, with the worker, or gone for good. */
  datatype Travel = Unused | UnderWay(order: Order) | Delivered(order: Order) | Lost

  datatype Browser = Idle | AwaitsGateway | AwaitsPlatform | Over(result: Result)

  /** The gateway works on the request it was sent, and knows nothing else of the click. */
  datatype Handler =
    | NotInvoked | Checking(request: Order) | Trying(attempt: nat, request: Order) | Replied(answer: Answer)

  datatype Sender = Lane(attempt: nat) | PlatformRoute

  /** The worker's row of the request id: who wrote it, with what order, and what came of it. An execution asks the
      broker, who accepts the order or does not. */
  datatype Row =
    | NoRow
    | Reserved(who: Sender, order: Order)
    | Executed(who: Sender, order: Order, accepted: bool)
    | Expired(who: Sender, order: Order)

  /** What the worker's side may make of a row, and all the protocol takes for granted about it; the module Gateway
      proves it of the worker. */
  predicate RowStep(a: Row, b: Row) {
    || b == a
    || (a == NoRow && b.Reserved?)
    || (a.Reserved? && (b.Executed? || b.Expired?) && b.who == a.who && b.order == a.order)
  }

  datatype Try = Try(attempt: nat, order: Order)

  datatype Execution = Execution(who: Sender, order: Order, accepted: bool)

  datatype System = System(
    order: Order,               // what the browser was asked to send
    browser: Browser,
    handler: Handler,
    throttled: bool,            // the network in front of the gateway refused the request
    lane1: Travel, lane2: Travel,
    row: Row,
    sent: seq<Message>,         // by the browser
    tries: seq<Try>,            // by the gateway, over the direct lane
    executions: seq<Execution>, // at the broker
    strange: bool,              // something on the way answered in place of the gateway or the platform
    word: Option<Word>)         // with which the platform's route ended the click

  function Start(order: Order): System {
    System(order, Idle, NotInvoked, false, Unused, Unused, NoRow, [], [], [], false, None)
  }

  function TravelOf(s: System, attempt: nat): Travel {
    if attempt == 1 then s.lane1 else if attempt == 2 then s.lane2 else Unused
  }

  /** The message is with the worker's side. The platform's route may bring it there any number of times, unless it
      turned the order away. */
  predicate Reaches(s: System, sender: Sender, order: Order) {
    match sender
    case Lane(attempt) => TravelOf(s, attempt) == Delivered(order)
    case PlatformRoute => Message(Platform, order) in s.sent && !(s.word.Some? && s.word.value.TurnedAway?)
  }

  datatype Event =
    | Click(direct: bool)
    | Invoke(request: Order)           // the request reaches the gateway's code
    | Refuse(refusal: Refusal)         // one of the checks fails
    | Try                              // all checks pass: first try
    | Deliver(attempt: nat)            // a try reaches the worker, however late
    | TryEnds(sent: Sent)              // what the gateway learns about its current try
    | Reserve(sender: Sender, request: Order)  // the worker inserts the row, if there is none
    | Execute(accepted: bool) | Expire
    | GatewayAnswerArrives | Throttled | StrangeAnswer(response: Response) | GatewayDrops
    | PlatformAnswers(word: Word) | PlatformStrange(response: Response) | PlatformDrops

  /** What the direct lane promises (src/lib/gateway/directLaneClient.ts:10-19): an answer is the worker's word about
      the row, and "not sent" means that the try never reached the worker and never will. */
  predicate LaneContract(s: System, attempt: nat, bulk: bool, sent: Sent) {
    match sent
    case NotSent => TravelOf(s, attempt).UnderWay?
    case Uncertain => true
    case Answered(reply) => TravelOf(s, attempt).Delivered? && WorkersWord(s.row, bulk, reply)
  }

  /** An error code that is not an uncertain one means that the broker did not accept the order
      (src/lib/trade/webTrade.ts:380-391). */
  predicate WorkersWord(row: Row, bulk: bool, reply: Reply) {
    match reply
    case Done(closed, failed) => row.Executed? && (row.accepted <==> !AllFailed(bulk, closed, failed))
    case Failed(code, status, notSent) =>
      && code != "" && !(200 <= status < 300)
      && (notSent ==> row.Expired?)
      && (code !in UNCERTAIN_TRADE_CODES ==> row.Expired? || (row.Executed? && !row.accepted))
  }

  /** What the platform's route promises (src/lib/services/webTradeService.ts:985-1045): it turns an order away before
      it writes it, and withdraws what nobody has picked up; if the database did not confirm the writing, it may have
      been written nevertheless. */
  predicate PlatformContract(s: System, w: Word) {
    match w
    case TurnedAway(code, status) =>
      (s.row == NoRow || s.row.who != PlatformRoute) && code != "" && !(200 <= status < 300)
    case NotQueued => true
    case Withdrawn => s.row.Expired?
    case Unclear => true
    case Said(reply) => WorkersWord(s.row, IsBulk(s.order), reply)
  }

  predicate Enabled(s: System, e: Event) {
    match e
    case Click(_) => s.browser == Idle
    case Invoke(request) => s.handler == NotInvoked && !s.throttled && Message(Gateway, request) in s.sent
    case Refuse(_) => s.handler.Checking?
    case Try => s.handler.Checking?
    case Deliver(attempt) => TravelOf(s, attempt).UnderWay?
    case TryEnds(sent) => s.handler.Trying? && LaneContract(s, s.handler.attempt, IsBulk(s.handler.request), sent)
    case Reserve(sender, request) => Reaches(s, sender, request) && s.row == NoRow
    case Execute(_) => s.row.Reserved?
    case Expire => s.row.Reserved?
    case GatewayAnswerArrives => s.browser == AwaitsGateway && s.handler.Replied?
    case Throttled => s.browser == AwaitsGateway && s.handler == NotInvoked
    case StrangeAnswer(r) => s.browser == AwaitsGateway && !SaysSuccess(r) && !MayResend(r)
    case GatewayDrops => s.browser == AwaitsGateway
    case PlatformAnswers(w) => s.browser == AwaitsPlatform && PlatformContract(s, w)
    case PlatformStrange(r) => s.browser == AwaitsPlatform && !SaysSuccess(r)
    case PlatformDrops => s.browser == AwaitsPlatform
  }

  /** The browser has the gateway's response, or knows that there will be none. */
  function Judged(s: System, gateway: Fetched): (t: System)
    ensures t == s.(browser := t.browser, sent := t.sent) && s.sent <= t.sent
  {
    var verdict := Judge(gateway);
    if verdict.Some? then s.(browser := Over(verdict.value))
    else s.(browser := AwaitsPlatform, sent := s.sent + [Message(Platform, s.order)])
  }

  predicate IsBulk(request: Order) { request.action == CloseBulk }

  /** The second try is a copy of the first but for its number. */
  function TryEnded(s: System, sent: Sent): (t: System)
    requires s.handler.Trying?
    ensures t == s.(lane1 := t.lane1, lane2 := t.lane2, handler := t.handler, tries := t.tries)
  {
    var request := s.handler.request;
    var bulk := IsBulk(request);
    if s.handler.attempt == 1 then
      match sent
      case NotSent => s.(lane1 := Lost, handler := Replied(LaneAnswer(bulk, NotSent, NotSent)))
      case Uncertain =>
        s.(lane2 := UnderWay(request), handler := Trying(2, request), tries := s.tries + [Try.Try(2, request)])
      case Answered(_) => s.(handler := Replied(LaneAnswer(bulk, sent, NotSent)))
    else
      s.(lane2 := if sent == NotSent then Lost else s.lane2,
         handler := Replied(LaneAnswer(bulk, Uncertain, sent)))
  }

  const THROTTLE: Response := Response(429, Object(map["message" := Text("Too Many Requests")]))

  /** One event; an event that cannot happen now is passed over. */
  function Next(s: System, e: Event): System {
    if !Enabled(s, e) then s
    else match e
      case Click(direct) =>
        s.(browser := if direct then AwaitsGateway else AwaitsPlatform,
           sent := [Message(if direct then Gateway else Platform, s.order)])
      case Invoke(request) => s.(handler := Checking(request))
      case Refuse(refusal) => s.(handler := Replied(RefusalAnswer(refusal)))
      case Try =>
        var request := s.handler.request;
        s.(handler := Trying(1, request), lane1 := UnderWay(request), tries := [Try.Try(1, request)])
      case Deliver(attempt) =>
        var order := TravelOf(s, attempt).order;
        if attempt == 1 then s.(lane1 := Delivered(order)) else s.(lane2 := Delivered(order))
      case TryEnds(sent) => TryEnded(s, sent)
      case Reserve(sender, request) => s.(row := Reserved(sender, request))
      case Execute(accepted) =>
        s.(row := Executed(s.row.who, s.row.order, accepted),
           executions := s.executions + [Execution(s.row.who, s.row.order, accepted)])
      case Expire => s.(row := Expired(s.row.who, s.row.order))
      case GatewayAnswerArrives => Judged(s, Arrived(Wire(s.handler.answer)))
      case Throttled => Judged(s.(throttled := true), Arrived(THROTTLE))
      case StrangeAnswer(r) => Judged(s.(strange := true), Arrived(r))
      case GatewayDrops => Judged(s, Dropped)
      case PlatformAnswers(w) => s.(browser := Over(ReadWord(s.order, w)), word := Some(w))
      case PlatformStrange(r) => s.(browser := Over(JudgePlatform(s.order.action, Arrived(r))), strange := true)
      case PlatformDrops => s.(browser := Over(JudgePlatform(s.order.action, Dropped)))
  }

  function ReadWord(order: Order, w: Word): Result {
    JudgePlatform(order.action, Arrived(Wire(PlatformAnswer(IsBulk(order), w))))
  }

  function After(order: Order, es: seq<Event>): System {
    if es == [] then Start(order) else Next(After(order, es[..|es|-1]), es[|es|-1])
  }

  // ---- invariants ------------------------------------------------------------------------------------

  predicate OutOfReach(t: Travel) { t == Unused || t == Lost }

  /** No try of the direct lane is with the worker, and none can get there any more. */
  predicate LaneIsSilent(s: System) {
    && OutOfReach(s.lane1) && OutOfReach(s.lane2)
    && (s.handler.Replied? || (s.handler == NotInvoked && (s.throttled || Message(Gateway, s.order) !in s.sent)))
  }

  /** Everything that is under way, tried, reserved or executed is the order of the click. */
  predicate SameOrder(s: System) {
    && (s.handler.Checking? || s.handler.Trying? ==> s.handler.request == s.order)
    && (s.lane1.UnderWay? || s.lane1.Delivered? ==> s.lane1.order == s.order)
    && (s.lane2.UnderWay? || s.lane2.Delivered? ==> s.lane2.order == s.order)
    && (s.row != NoRow ==> s.row.order == s.order)
  }

  predicate SentOnce(order: Order, sent: seq<Message>) {
    var g, p := Message(Gateway, order), Message(Platform, order);
    sent == [] || sent == [g] || sent == [p] || sent == [g, p]
  }

  function TriesOf(order: Order, n: nat): seq<Try> {
    if n == 0 then [] else if n == 1 then [Try.Try(1, order)] else [Try.Try(1, order), Try.Try(2, order)]
  }

  /** The handler and its tries are in step. */
  predicate Tracked(s: System) {
    && (s.browser == Idle <==> s.sent == [])
    && (s.handler != NotInvoked ==> Message(Gateway, s.order) in s.sent && !s.throttled)
    && (s.handler == NotInvoked || s.handler.Checking? ==>
          s.lane1 == s.lane2 == Unused && s.tries == TriesOf(s.order, 0))
    && (s.handler.Trying? ==>
          && 1 <= s.handler.attempt <= 2 && (s.lane1.UnderWay? || s.lane1.Delivered?)
          && (if s.handler.attempt == 1 then s.lane2 == Unused else s.lane2.UnderWay? || s.lane2.Delivered?)
          && s.tries == TriesOf(s.order, s.handler.attempt))
    && (s.handler.Replied? ==>
          s.tries == TriesOf(s.order, 0) || s.tries == TriesOf(s.order, 1) || s.tries == TriesOf(s.order, 2))
    && (s.handler.Replied? && s.handler.answer.Error? ==>
          s.handler.answer.code != "" && !(200 <= s.handler.answer.status < 300))
  }

  predicate BrowserTracked(s: System) {
    var g, p := Message(Gateway, s.order), Message(Platform, s.order);
    && SentOnce(s.order, s.sent)
    && (s.browser == AwaitsGateway ==> s.sent == [g] && !s.throttled)
    && (s.throttled ==> s.handler == NotInvoked && s.sent == [g, p])
    && (s.browser == AwaitsPlatform ==> p in s.sent)
  }

  predicate RowTracked(s: System) {
    && (s.row != NoRow ==> Reaches(s, s.row.who, s.row.order))
    && s.executions == if s.row.Executed? then [Execution(s.row.who, s.row.order, s.row.accepted)] else []
  }

  predicate Honest(s: System) {
    && (s.handler.Replied? && s.handler.answer.Error? && s.handler.answer.notSent ==> LaneIsSilent(s) || s.row.Expired?)
    && (Message(Platform, s.order) in s.sent ==> LaneIsSilent(s) || s.row.Expired?)
  }

  /** The broker has not accepted the order, and over the direct lane it never will. */
  predicate Declined(s: System) {
    LaneIsSilent(s) || s.row.Expired? || (s.row.Executed? && !s.row.accepted)
  }

  /** A confirmation means that the broker accepted the order, an error that is not an uncertain one that it did not;
      the browser ends a click accordingly. */
  predicate Truthful(s: System) {
    && (s.handler == Replied(Confirmed) ==> s.row.Executed? && s.row.accepted)
    && (s.handler.Replied? && s.handler.answer.Error? && s.handler.answer.code !in UNCERTAIN_TRADE_CODES ==>
          Declined(s))
    && (s.browser.Over? && s.sent == [Message(Gateway, s.order)] && !s.strange ==>
          && s.browser.result != Thrown
          && (s.browser.result == Success ==> s.row.Executed? && s.row.accepted)
          && (s.browser.result.Problem? && !s.browser.result.uncertain ==> Declined(s)))
  }

  /** The word of the platform's route stays true. */
  predicate PlatformTruthful(s: System) {
    s.word.Some? ==>
      && s.browser == Over(ReadWord(s.order, s.word.value)) && Message(Platform, s.order) in s.sent
      && PlatformContract(s, s.word.value)
  }

  predicate Invariant(s: System) {
    && SameOrder(s) && Tracked(s) && BrowserTracked(s) && RowTracked(s) && Honest(s) && Truthful(s)
    && PlatformTruthful(s)
  }

  lemma FirstTryEndKeeps(s: System, sent: Sent)
    requires Invariant(s) && s.handler.Trying? && s.handler.attempt == 1
    requires LaneContract(s, 1, IsBulk(s.handler.request), sent)
    ensures Invariant(TryEnded(s, sent))
  {
    SecondTry(s.order);
    hide SentOnce, TriesOf;
  }

  lemma SecondTry(order: Order)
    ensures TriesOf(order, 1) + [Try.Try(2, order)] == TriesOf(order, 2)
  {
  }

  lemma SecondTryEndKeeps(s: System, sent: Sent)
    requires Invariant(s) && s.handler.Trying? && s.handler.attempt == 2
    requires LaneContract(s, 2, IsBulk(s.handler.request), sent)
    ensures Invariant(TryEnded(s, sent))
  {
    hide SentOnce, TriesOf;
  }

  lemma TryEndKeeps(s: System, sent: Sent)
    requires Invariant(s) && Enabled(s, TryEnds(sent))
    ensures Invariant(Next(s, TryEnds(sent)))
  {
    hide SameOrder, BrowserTracked, RowTracked, Honest, Truthful, PlatformTruthful;
    hide LaneContract, TryEnded;
    if s.handler.attempt == 1 { FirstTryEndKeeps(s, sent); } else { SecondTryEndKeeps(s, sent); }
  }

  lemma InvokeKeeps(s: System, request: Order)
    requires Invariant(s) && Enabled(s, Invoke(request))
    ensures Invariant(Next(s, Invoke(request)))
  {
    SentIsTheOrder(s.order, s.sent);
    hide Judged, TryEnded, LaneContract, Judge, SaysSuccess, MayResend, SentOnce, TriesOf;
  }

  lemma RefuseKeeps(s: System, refusal: Refusal)
    requires Invariant(s) && s.handler.Checking?
    ensures Invariant(Next(s, Refuse(refusal)))
  {
    hide Judged, TryEnded, LaneContract, Judge, SaysSuccess, MayResend, SentOnce, TriesOf;
  }

  lemma FirstTryKeeps(s: System)
    requires Invariant(s) && s.handler.Checking?
    ensures Invariant(Next(s, Event.Try))
  {
    hide Judged, TryEnded, LaneContract, Judge, SaysSuccess, MayResend, SentOnce;
  }

  lemma DeliverKeeps(s: System, attempt: nat)
    requires Invariant(s) && TravelOf(s, attempt).UnderWay?
    ensures Invariant(Next(s, Deliver(attempt)))
  {
    hide Judged, TryEnded, LaneContract, Judge, SaysSuccess, MayResend, SentOnce, TriesOf;
  }

  lemma ReserveKeeps(s: System, sender: Sender, request: Order)
    requires Invariant(s) && Enabled(s, Reserve(sender, request))
    ensures Invariant(Next(s, Reserve(sender, request)))
  {
    SentIsTheOrder(s.order, s.sent);
    hide Judged, TryEnded, LaneContract, Judge, SaysSuccess, MayResend, SentOnce, TriesOf;
  }

  lemma ExecuteKeeps(s: System, accepted: bool)
    requires Invariant(s) && s.row.Reserved?
    ensures Invariant(Next(s, Execute(accepted)))
  {
    hide Judged, TryEnded, LaneContract, Judge, SaysSuccess, MayResend, SentOnce, TriesOf;
  }

  lemma ExpireKeeps(s: System)
    requires Invariant(s) && s.row.Reserved?
    ensures Invariant(Next(s, Expire))
  {
    hide Judged, TryEnded, LaneContract, Judge, SaysSuccess, MayResend, SentOnce, TriesOf;
  }

  lemma SentIsTheOrder(order: Order, sent: seq<Message>)
    requires SentOnce(order, sent)
    ensures forall m :: m in sent ==> m.order == order
  {
  }

  /** What the browser makes of the response is true of the order. */
  predicate ReadRight(s: System, verdict: Option<Result>) {
    match verdict
    case None => true
    case Some(Success) => s.row.Executed? && s.row.accepted
    case Some(Problem(_, uncertain)) => uncertain || Declined(s)
    case Some(Thrown) => false
  }

  lemma JudgedKeeps(s: System, gateway: Fetched)
    requires Invariant(s) && s.browser == AwaitsGateway
    requires Judge(gateway).None? ==> LaneIsSilent(s) || s.row.Expired?
    requires !s.strange ==> ReadRight(s, Judge(gateway))
    ensures Invariant(Judged(s, gateway))
  {
    if Judge(gateway).Some? { VerdictKeeps(s, gateway); } else { ResendKeeps(s, gateway); }
  }

  lemma VerdictKeeps(s: System, gateway: Fetched)
    requires Invariant(s) && s.browser == AwaitsGateway && Judge(gateway).Some?
    requires !s.strange ==> ReadRight(s, Judge(gateway))
    ensures Invariant(Judged(s, gateway))
  {
    hide Judge, SentOnce, TriesOf, SameOrder, RowTracked;
    assert Judged(s, gateway).sent == s.sent;
    SameButForTheBrowser(s, Judged(s, gateway));
  }

  lemma SameButForTheBrowser(s: System, t: System)
    requires t == s.(browser := t.browser, sent := t.sent) && s.sent <= t.sent
    ensures SameOrder(s) ==> SameOrder(t)
    ensures RowTracked(s) ==> RowTracked(t)
  {
    hide SentOnce, TriesOf;
  }

  lemma ResendKeeps(s: System, gateway: Fetched)
    requires Invariant(s) && s.browser == AwaitsGateway && Judge(gateway).None?
    requires LaneIsSilent(s) || s.row.Expired?
    ensures Invariant(Judged(s, gateway))
  {
    var g, p := Message(Gateway, s.order), Message(Platform, s.order);
    assert [g] + [p] == [g, p];
    hide Judge, TriesOf, SameOrder, RowTracked;
    SameButForTheBrowser(s, Judged(s, gateway));
  }

  lemma ThrottledKeeps(s: System)
    requires Invariant(s) && s.browser == AwaitsGateway && s.handler == NotInvoked
    ensures Invariant(Next(s, Throttled))
  {
    var g, p := Message(Gateway, s.order), Message(Platform, s.order);
    assert [g] + [p] == [g, p];
    assert THROTTLE.body.fields.Keys == {"message"};
    assert IsThrottleRefusal(THROTTLE);
  }

  lemma ClickKeeps(s: System, direct: bool)
    requires Invariant(s) && s.browser == Idle
    ensures Invariant(Next(s, Click(direct)))
  {
    hide Judged, TryEnded, LaneContract, Judge, SaysSuccess, MayResend, TriesOf;
  }

  lemma PlatformAnswerKeeps(s: System, w: Word)
    requires Invariant(s) && Enabled(s, PlatformAnswers(w))
    ensures Invariant(Next(s, PlatformAnswers(w)))
  {
    hide Judged, TryEnded, LaneContract, Judge, JudgePlatform, SaysSuccess, MayResend, TriesOf, SentOnce;
    hide Wire, ReadWord;
  }

  lemma PlatformEndKeeps(s: System, e: Event)
    requires Invariant(s) && Enabled(s, e) && (e.PlatformStrange? || e.PlatformDrops?)
    ensures Invariant(Next(s, e))
  {
    hide Judged, TryEnded, LaneContract, Judge, JudgePlatform, SaysSuccess, MayResend, TriesOf, SentOnce;
    hide Wire, ReadWord;
  }

  lemma OwnAnswerKeeps(s: System)
    requires Invariant(s) && s.browser == AwaitsGateway && s.handler.Replied?
    ensures Invariant(Judged(s, Arrived(Wire(s.handler.answer))))
  {
    OwnAnswersAreReadRight(s.handler.answer);
    hide Judged, SaysSuccess, MayResend, TriesOf, SentOnce, IsThrottleRefusal, Wire;
    JudgedKeeps(s, Arrived(Wire(s.handler.answer)));
  }

  lemma StrangeAnswerKeeps(s: System, r: Response)
    requires Invariant(s) && s.browser == AwaitsGateway && !SaysSuccess(r) && !MayResend(r)
    ensures Invariant(Judged(s.(strange := true), Arrived(r)))
  {
    hide Judged, SaysSuccess, MayResend, TriesOf, SentOnce;
    JudgedKeeps(s.(strange := true), Arrived(r));
  }

  lemma BrowserStepKeeps(s: System, e: Event)
    requires Invariant(s) && Enabled(s, e)
    requires || e.Click? || e.GatewayAnswerArrives? || e.Throttled? || e.StrangeAnswer? || e.GatewayDrops?
             || e.PlatformAnswers? || e.PlatformStrange? || e.PlatformDrops?
    ensures Invariant(Next(s, e))
  {
    hide Invariant, Judged, Wire, SaysSuccess, MayResend, LaneContract, Reaches, TryEnded;
    hide PlatformContract, ReadWord;
    match e {
      case Click(direct) => ClickKeeps(s, direct);
      case GatewayAnswerArrives => OwnAnswerKeeps(s);
      case Throttled => ThrottledKeeps(s);
      case StrangeAnswer(r) => StrangeAnswerKeeps(s, r);
      case GatewayDrops => JudgedKeeps(s, Dropped);
      case PlatformAnswers(w) => PlatformAnswerKeeps(s, w);
      case PlatformStrange(_) => PlatformEndKeeps(s, e);
      case PlatformDrops => PlatformEndKeeps(s, e);
    }
  }

  lemma StepKeeps(s: System, e: Event)
    requires Invariant(s)
    ensures Invariant(Next(s, e))
  {
    hide Invariant, Next, LaneContract, Reaches;
    if Enabled(s, e) {
      match e {
        case Invoke(request) => InvokeKeeps(s, request);
        case Refuse(refusal) => RefuseKeeps(s, refusal);
        case Try => FirstTryKeeps(s);
        case Deliver(attempt) => DeliverKeeps(s, attempt);
        case TryEnds(sent) => TryEndKeeps(s, sent);
        case Reserve(sender, request) => ReserveKeeps(s, sender, request);
        case Execute(accepted) => ExecuteKeeps(s, accepted);
        case Expire => ExpireKeeps(s);
        case _ => BrowserStepKeeps(s, e);
      }
    } else {
      PassedOver(s, e);
    }
  }

  lemma PassedOver(s: System, e: Event)
    requires !Enabled(s, e)
    ensures Next(s, e) == s
  {
    hide Enabled, Judged, TryEnded;
  }

  lemma {:induction false} AlwaysInvariant(order: Order, es: seq<Event>)
    ensures Invariant(After(order, es)) && After(order, es).order == order
  {
    hide Invariant, Next;
    if es == [] {
      StartKeeps(order);
    } else {
      AlwaysInvariant(order, es[..|es|-1]);
      StepKeeps(After(order, es[..|es|-1]), es[|es|-1]);
      OrderStays(After(order, es[..|es|-1]), es[|es|-1]);
    }
  }

  lemma StartKeeps(order: Order)
    ensures Invariant(Start(order))
  {
  }

  lemma OrderStays(s: System, e: Event)
    ensures Next(s, e).order == s.order
  {
    hide Judged, TryEnded, LaneContract, Reaches, Judge, Wire, JudgePlatform;
  }

  lemma OneMoreLater(order: Order, es: seq<Event>, later: seq<Event>)
    requires later != []
    ensures After(order, es + later) == Next(After(order, es + later[..|later|-1]), later[|later|-1])
  {
    hide Next;
    assert (es + later)[..|es + later|-1] == es + later[..|later|-1];
  }

  // ---- what it means ----------------------------------------------------------------------------------

  /** Everything that a click leads to carries the order of the click, id, account and action: at most one message to
      the gateway, at most one to the platform and after it, at most two tries of the direct lane, numbered, the row the
      worker keeps, and what the broker is asked to execute, at most once. */
  lemma OneOrderPerClick(order: Order, es: seq<Event>)
    ensures var s := After(order, es);
            && (s.sent in {[], [Message(Gateway, order)], [Message(Platform, order)],
                           [Message(Gateway, order), Message(Platform, order)]})
            && s.tries in {[], [Try.Try(1, order)], [Try.Try(1, order), Try.Try(2, order)]}
            && (s.tries != [] ==> Message(Gateway, order) in s.sent)
            && (s.row != NoRow ==> s.row.order == order)
            && (forall x :: x in s.executions ==> x.order == order) && |s.executions| <= 1
  {
    AlwaysInvariant(order, es);
  }

  /** The worker's row only ever takes the steps that the worker's side is taken to make. */
  lemma RowsTakeSteps(s: System, e: Event)
    ensures RowStep(s.row, Next(s, e).row)
  {
  }

  lemma SilenceLasts(s: System, e: Event)
    requires Invariant(s) && LaneIsSilent(s) && s.handler.Replied?
    ensures LaneIsSilent(Next(s, e))
  {
  }

  /** Once the order went to the platform's route, nothing the direct lane was given is ever executed: the browser
      sends again only what the gateway never handed over, or what the worker let expire. */
  lemma SendingAgainIsSafe(order: Order, es: seq<Event>, later: seq<Event>)
    requires Message(Platform, order) in After(order, es).sent
    ensures forall x :: x in After(order, es + later).executions ==> x.who == PlatformRoute
    ensures Message(Platform, order) in After(order, es + later).sent
  {
    AlwaysInvariant(order, es + later);
    SentIsKept(order, es, later);
  }

  lemma {:induction false} SentIsKept(order: Order, es: seq<Event>, later: seq<Event>)
    requires After(order, es).sent != []
    ensures After(order, es).sent <= After(order, es + later).sent
  {
    if later == [] {
      assert es + later == es;
    } else {
      var n := |later| - 1;
      hide After, Next, Invariant;
      SentIsKept(order, es, later[..n]);
      AlwaysInvariant(order, es + later[..n]);
      OneMoreLater(order, es, later);
      StepKeepsSent(After(order, es + later[..n]), later[n]);
    }
  }

  lemma StepKeepsSent(s: System, e: Event)
    requires Invariant(s) && s.sent != []
    ensures s.sent <= Next(s, e).sent
  {
    hide Judged, TryEnded, LaneContract, Reaches, Judge, Wire, JudgePlatform, SentOnce, TriesOf;
    hide SameOrder, BrowserTracked, RowTracked, Honest, Truthful, PlatformTruthful;
  }

  /** "Not sent" is honest: if it is not the worker's own word, no try is with the worker, now or at any later time,
      and if it is, the worker let the order expire. Either way the direct lane never executes it. */
  lemma {:induction false} NotSentIsHonest(order: Order, es: seq<Event>, later: seq<Event>)
    requires var h := After(order, es).handler; h.Replied? && h.answer.Error? && h.answer.notSent
    ensures !After(order, es).row.Expired? ==> LaneIsSilent(After(order, es + later))
    ensures After(order, es).row.Expired? ==> After(order, es + later).row == After(order, es).row
    ensures forall x :: x in After(order, es + later).executions ==> x.who == PlatformRoute
  {
    hide After, Invariant, LaneIsSilent, Next;
    AlwaysInvariant(order, es + later);
    if later == [] {
      assert es + later == es;
      ReplyIsHonest(After(order, es));
    } else {
      var n := |later| - 1;
      var s := After(order, es + later[..n]);
      NotSentIsHonest(order, es, later[..n]);
      AlwaysInvariant(order, es + later[..n]);
      OneMoreLater(order, es, later);
      ReplyLasts(order, es, later[..n]);
      if After(order, es).row.Expired? { ExpiryLasts(s, later[n]); } else { SilenceLasts(s, later[n]); }
    }
    NeverOverTheLane(After(order, es + later));
  }

  lemma ReplyIsHonest(s: System)
    requires Invariant(s) && s.handler.Replied? && s.handler.answer.Error? && s.handler.answer.notSent
    ensures LaneIsSilent(s) || s.row.Expired?
  {
  }

  lemma ExpiryLasts(s: System, e: Event)
    requires s.row.Expired?
    ensures Next(s, e).row == s.row
  {
  }

  lemma NeverOverTheLane(s: System)
    requires Invariant(s) && (LaneIsSilent(s) || s.row.Expired?)
    ensures forall x :: x in s.executions ==> x.who == PlatformRoute
  {
  }

  lemma RepliedStays(s: System, e: Event)
    requires s.handler.Replied?
    ensures Next(s, e).handler == s.handler
  {
    hide Judged, LaneContract, Reaches, Judge, Wire, JudgePlatform;
  }

  lemma OverStays(s: System, e: Event)
    requires s.browser.Over?
    ensures var t := Next(s, e);
            t.browser == s.browser && t.sent == s.sent && t.strange == s.strange && t.word == s.word
  {
    hide TryEnded, LaneContract, Reaches, Judge, Wire, JudgePlatform;
  }

  lemma {:induction false} ReplyLasts(order: Order, es: seq<Event>, later: seq<Event>)
    requires After(order, es).handler.Replied?
    ensures After(order, es + later).handler == After(order, es).handler
  {
    if later == [] {
      assert es + later == es;
    } else {
      var n := |later| - 1;
      hide After, Next;
      ReplyLasts(order, es, later[..n]);
      OneMoreLater(order, es, later);
      RepliedStays(After(order, es + later[..n]), later[n]);
    }
  }

  lemma {:induction false} OverIsOver(order: Order, es: seq<Event>, later: seq<Event>)
    requires After(order, es).browser.Over?
    ensures var s, t := After(order, es), After(order, es + later);
            t.browser == s.browser && t.sent == s.sent && t.strange == s.strange && t.word == s.word
  {
    if later == [] {
      assert es + later == es;
    } else {
      var n := |later| - 1;
      hide After, Next;
      OverIsOver(order, es, later[..n]);
      OneMoreLater(order, es, later);
      OverStays(After(order, es + later[..n]), later[n]);
    }
  }

  /** A dropped connection to the gateway ends the click as uncertain, and it is never sent again. */
  lemma DroppedConnectionIsUncertain(order: Order, es: seq<Event>, later: seq<Event>)
    requires After(order, es).browser == AwaitsGateway
    ensures var s := After(order, es + [GatewayDrops] + later);
            s.browser == Over(Problem("NETWORK_ERROR", true)) && s.sent == [Message(Gateway, order)]
  {
    var run := es + [GatewayDrops];
    AlwaysInvariant(order, es);
    assert run[..|run|-1] == es;
    assert After(order, run) == Next(After(order, es), GatewayDrops);
    DropEnds(After(order, es));
    hide Next;
    OverIsOver(order, run, later);
  }

  lemma DropEnds(s: System)
    requires Invariant(s) && s.browser == AwaitsGateway
    ensures var t := Next(s, GatewayDrops);
            t.browser == Over(Problem("NETWORK_ERROR", true)) && t.sent == [Message(Gateway, s.order)]
  {
    hide TryEnded, LaneContract, Reaches;
  }

  /** What the browser makes of the gateway's route, unless something on the way answered in its place: a success means
      one execution over the direct lane, which the broker accepted; a problem reported without a warning means that
      the broker has not accepted the order and never will; and there is no error of another kind. */
  lemma GatewayOutcomesAreTrue(order: Order, es: seq<Event>, later: seq<Event>)
    requires var s := After(order, es); s.browser.Over? && s.sent == [Message(Gateway, order)] && !s.strange
    ensures var result, t := After(order, es).browser.result, After(order, es + later);
            && (result == Success ==>
                  t.executions in {[Execution(Lane(1), order, true)], [Execution(Lane(2), order, true)]})
            && (result.Problem? && !result.uncertain ==> forall x :: x in t.executions ==> !x.accepted)
            && result != Thrown
  {
    hide Next;
    AlwaysInvariant(order, es + later);
    OverIsOver(order, es, later);
  }

  // ---- the platform's route --------------------------------------------------------------------------

  /** A dropped connection to the platform ends the click for good, with a warning of every action but a change of
      levels. */
  lemma DroppedPlatformIsFinal(order: Order, es: seq<Event>, later: seq<Event>)
    requires After(order, es).browser == AwaitsPlatform
    ensures After(order, es + [PlatformDrops] + later).browser
         == Over(Problem("NETWORK_ERROR", order.action in {Open, Close, Cancel, CloseBulk}))
  {
    var run := es + [PlatformDrops];
    AlwaysInvariant(order, es);
    assert run[..|run|-1] == es;
    assert After(order, run) == Next(After(order, es), PlatformDrops);
    DroppedPlatformWarnsExactly(order.action);
    PlatformDropIsNext(After(order, es));
    hide Next, JudgePlatform;
    OverIsOver(order, run, later);
  }

  lemma PlatformDropIsNext(s: System)
    requires s.browser == AwaitsPlatform
    ensures Next(s, PlatformDrops).browser == Over(JudgePlatform(s.order.action, Dropped))
  {
    hide Judged, TryEnded, LaneContract, Reaches, JudgePlatform, PlatformContract;
  }

  /** The broker has accepted the order. */
  ghost predicate Accepted(s: System) { exists x :: x in s.executions && x.accepted }

  /** The row is not final, or says that the broker accepted the order. */
  predicate Undecided(row: Row) { row == NoRow || row.Reserved? || (row.Executed? && row.accepted) }

  /** The platform's word rules out that the order is ever accepted, if it is neither uncertain nor "not queued". */
  lemma WordRulesOut(s: System)
    requires Invariant(s) && s.word.Some? && s.word.value != NotQueued
    requires ReadWord(s.order, s.word.value).Problem? && !ReadWord(s.order, s.word.value).uncertain
    ensures !Accepted(s)
  {
    PlatformIsReadRight(s.order.action, IsBulk(s.order), s.word.value);
    hide JudgePlatform, Wire, PlatformAnswer;
  }

  lemma DecidedIsFinal(s: System, e: Event)
    requires !Undecided(s.row)
    ensures Next(s, e).row == s.row
  {
    hide Judged, TryEnded, LaneContract, Reaches, PlatformContract, ReadWord;
  }

  lemma {:induction false} DecidedStays(order: Order, es: seq<Event>, later: seq<Event>)
    requires !Undecided(After(order, es).row)
    ensures After(order, es + later).row == After(order, es).row
  {
    if later == [] {
      assert es + later == es;
    } else {
      var n := |later| - 1;
      hide After, Next;
      DecidedStays(order, es, later[..n]);
      OneMoreLater(order, es, later);
      DecidedIsFinal(After(order, es + later[..n]), later[n]);
    }
  }

  lemma DecidedIsNotAccepted(s: System)
    requires Invariant(s) && !Undecided(s.row)
    ensures !Accepted(s)
  {
    hide SameOrder, Tracked, BrowserTracked, Honest, Truthful, PlatformTruthful;
  }

  /** While the platform's route has not turned the order away and the row is undecided, it can still be accepted. */
  lemma CanBeAccepted(s: System)
    requires Invariant(s) && Message(Platform, s.order) in s.sent && Undecided(s.row)
    requires !(s.word.Some? && s.word.value.TurnedAway?)
    ensures var t := Next(Next(s, Reserve(PlatformRoute, s.order)), Execute(true)); Accepted(t)
  {
    var t := Next(s, Reserve(PlatformRoute, s.order));
    var u := Next(t, Execute(true));
    hide Judged, TryEnded, LaneContract, PlatformContract, ReadWord, TriesOf, SentOnce;
    assert t.row.Reserved? ==> u.executions[|t.executions|].accepted;
    assert !t.row.Reserved? ==> s.executions == u.executions == [Execution(s.row.who, s.row.order, true)];
    assert !t.row.Reserved? ==> Execution(s.row.who, s.row.order, true) in u.executions;
  }

  /** Once the order went to the platform's route and the click ended with a problem and no warning, the order can
      still be accepted, now or in some later run, exactly if the row is undecided and the route did not answer
      itself, or only that the order may not have been queued. The route's other answers rule it out. */
  lemma PlatformProblemRulesOutExactly(order: Order, es: seq<Event>)
    requires var s := After(order, es);
             && Message(Platform, order) in s.sent && s.browser.Over?
             && s.browser.result.Problem? && !s.browser.result.uncertain
    ensures var s := After(order, es);
            (forall later :: !Accepted(After(order, es + later))) <==>
              (s.word.Some? && s.word.value != NotQueued) || !Undecided(s.row)
  {
    AlwaysInvariant(order, es);
    var s := After(order, es);
    if s.word.Some? && s.word.value != NotQueued {
      forall later ensures !Accepted(After(order, es + later)) { WordRulesOutLater(order, es, later); }
    } else if !Undecided(s.row) {
      forall later ensures !Accepted(After(order, es + later)) {
        AlwaysInvariant(order, es + later);
        DecidedStays(order, es, later);
        DecidedIsNotAccepted(After(order, es + later));
      }
    } else {
      var later := [Reserve(PlatformRoute, order), Execute(true)];
      CanBeAccepted(s);
      TwoMore(order, es, Reserve(PlatformRoute, order), Execute(true));
      assert Accepted(After(order, es + later));
    }
  }

  lemma TwoMore(order: Order, es: seq<Event>, a: Event, b: Event)
    ensures After(order, es + [a, b]) == Next(Next(After(order, es), a), b)
  {
    hide Next;
    assert (es + [a])[..|es|] == es && (es + [a, b])[..|es| + 1] == es + [a];
  }

  lemma WordRulesOutLater(order: Order, es: seq<Event>, later: seq<Event>)
    requires var s := After(order, es);
             && s.word.Some? && s.word.value != NotQueued && s.browser.Over?
             && s.browser.result.Problem? && !s.browser.result.uncertain
    ensures !Accepted(After(order, es + later))
  {
    AlwaysInvariant(order, es);
    AlwaysInvariant(order, es + later);
    OverIsOver(order, es, later);
    var t := After(order, es + later);
    WordIsRead(After(order, es));
    WordIsRead(t);
    hide After, Invariant, ReadWord, Accepted;
    WordRulesOut(t);
  }

  lemma WordIsRead(s: System)
    requires Invariant(s) && s.word.Some?
    ensures s.browser == Over(ReadWord(s.order, s.word.value))
  {
    hide SameOrder, Tracked, BrowserTracked, RowTracked, Honest, Truthful, ReadWord;
  }

  /** A success on the platform's route means one execution over it, which the broker accepted; and when the worker's
      word that it was done arrives, the click ends in success exactly if the broker accepted the order. */
  lemma PlatformSuccessIsTrue(order: Order, es: seq<Event>, later: seq<Event>)
    requires After(order, es).word.Some?
    ensures var s, t := After(order, es), After(order, es + later);
            && (s.browser == Over(Success) ==> t.executions == [Execution(PlatformRoute, order, true)])
            && (s.word.value.Said? && s.word.value.reply.Done? ==>
                  s.row.Executed? && (s.browser == Over(Success) <==> s.row.accepted))
  {
    AlwaysInvariant(order, es);
    AlwaysInvariant(order, es + later);
    var s, t := After(order, es), After(order, es + later);
    WordIsRead(s);
    PlatformIsReadRight(order.action, IsBulk(order), s.word.value);
    hide JudgePlatform, Wire, PlatformAnswer, Next;
    SentIsOnPlatform(s);
    SendingAgainIsSafe(order, es, later);
    OverIsOver(order, es, later);
    if s.browser == Over(Success) {
      ExecutedStays(order, es, later);
      hide After, ReadWord;
      RowIsTheExecution(t);
    }
  }

  lemma SentIsOnPlatform(s: System)
    requires Invariant(s) && s.word.Some?
    ensures Message(Platform, s.order) in s.sent && PlatformContract(s, s.word.value)
  {
    hide SameOrder, Tracked, BrowserTracked, RowTracked, Honest, Truthful, ReadWord;
  }

  lemma RowIsTheExecution(s: System)
    requires Invariant(s) && s.row.Executed?
    ensures s.executions == [Execution(s.row.who, s.order, s.row.accepted)]
  {
    hide Tracked, BrowserTracked, Honest, Truthful, PlatformTruthful;
  }

  lemma ExecutedIsFinal(s: System, e: Event)
    requires s.row.Executed?
    ensures Next(s, e).row == s.row
  {
    hide Judged, TryEnded, LaneContract, Reaches, PlatformContract, ReadWord;
  }

  lemma {:induction false} ExecutedStays(order: Order, es: seq<Event>, later: seq<Event>)
    requires After(order, es).row.Executed?
    ensures After(order, es + later).row == After(order, es).row
  {
    if later == [] {
      assert es + later == es;
    } else {
      var n := |later| - 1;
      hide After, Next;
      ExecutedStays(order, es, later[..n]);
      OneMoreLater(order, es, later);
      ExecutedIsFinal(After(order, es + later[..n]), later[n]);
    }
  }

  /** On the gateway's route too: when the worker's word that it was done arrives, the click ends in success exactly
      if the broker accepted the order. */
  lemma DoneOrdersEndWell(order: Order, es: seq<Event>, closed: nat, failed: nat)
    requires var s := After(order, es);
             s.browser == AwaitsGateway && Enabled(s, TryEnds(Answered(Done(closed, failed))))
    ensures var s := After(order, es);
            var t := After(order, es + [TryEnds(Answered(Done(closed, failed))), GatewayAnswerArrives]);
            s.row.Executed? && t.browser == Over(if s.row.accepted then Success else Problem("BULK_FAILED", false))
  {
    var s := After(order, es);
    var ended := TryEnds(Answered(Done(closed, failed)));
    AlwaysInvariant(order, es);
    TwoMore(order, es, ended, GatewayAnswerArrives);
    hide After, Invariant;
    DoneIsAnswered(s, closed, failed);
    OwnAnswersAreReadRight(Next(s, ended).handler.answer);
    AnswerIsJudged(Next(s, ended));
  }

  lemma DoneIsAnswered(s: System, closed: nat, failed: nat)
    requires Invariant(s) && Enabled(s, TryEnds(Answered(Done(closed, failed))))
    ensures var t := Next(s, TryEnds(Answered(Done(closed, failed))));
            && s.row.Executed? && t.browser == s.browser && t.handler.Replied?
            && t.handler.answer == if s.row.accepted then Confirmed else Error("BULK_FAILED", 502, false)
  {
    hide SameOrder, BrowserTracked, RowTracked, Honest, Truthful, PlatformTruthful, TriesOf;
  }

  lemma AnswerIsJudged(s: System)
    requires s.browser == AwaitsGateway && s.handler.Replied? && Judge(Arrived(Wire(s.handler.answer))).Some?
    ensures Next(s, GatewayAnswerArrives).browser == Over(Judge(Arrived(Wire(s.handler.answer))).value)
  {
    hide TryEnded, LaneContract, Reaches, PlatformContract, Judge, Wire;
  }
}
