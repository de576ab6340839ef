/**
 The session-token protocol between the HTTP server and the SDK client. The server may
 rotate the token in a handler or in the authentication middleware and signs every reply
 with the token it holds afterwards; the client adopts a new token before it verifies.
 Random tokens, clock readings and the front end's answers are inputs.
 */
module TokenProtocol {
  import opened Wrappers
  import opened RequestLimiter
  import Decimal
  import Session

  const MAX_SIGNED_BODY: nat := 10 * 1024 * 1024

  // ---------- The server ----------

  datatype Method =
    | GetVersion | IsAuthenticated | WaitForAuthentication
    | GetNetwork | GetHeight | GetNonce
    | GetPublicKey | CreateSignature | CreateAction | LockBsv | UnlockBsv
    | ListOutputs | ListLocks

  predicate Public(m: Method) {
    m.GetVersion? || m.IsAuthenticated? || m.WaitForAuthentication?
  }

  predicate NeedsNonce(m: Method) {
    m.GetPublicKey? || ChangesState(m)
  }

  predicate ChangesState(m: Method) {
    m.CreateSignature? || m.CreateAction? || m.LockBsv? || m.UnlockBsv?
  }

  predicate ReadsOutputs(m: Method) {
    m.ListOutputs? || m.ListLocks?
  }

  datatype Request = Request(name: Method, token: Option<string>, nonce: Option<string>)

  // What the front end sends back for a forwarded request; no answer is a lost event, a
  // cancelled wait or a timeout, each with its own status and code.
  datatype Answer = Success(body: string) | Failure(body: string) | NoAnswer(status: nat, code: int)

  // Everything the server reads from outside while it serves one request, clock readings in
  // the order in which they are taken. The request limiter reads milliseconds, the session
  // whole seconds.
  datatype Inputs = Inputs(
    originAllowed: bool, bodyParses: bool, answer: Answer, plainBody: string,
    random: string, handlerToken: string, middlewareToken: string,
    arrivedAt: Session.Clock, checkedAt: nat, cleanupAt: Session.Clock, nonceAt: Session.Clock,
    handlerRotationAt: Session.Clock, recheckAt: Session.Clock, middlewareRotationAt: Session.Clock)

  datatype World = World(
    hmac: Session.Hmac, isJson: string -> bool, isNull: string -> bool, isError: string -> bool,
    nonceBody: string -> string, errorBody: int -> string)

  datatype Reply = Reply(status: nat, body: string, newToken: Option<string>, signature: Option<string>)

  // A served request: the session afterwards, the reply and how often the token was rotated.
  datatype Served = Served(session: Session.State, reply: Reply, rotations: nat)

  predicate TokenExpired(s: Session.State, now: nat) {
    now > s.tokenCreatedAt + Session.SESSION_TOKEN_TTL_SECS
  }

  function Unsigned(status: nat, body: string): Reply {
    Reply(status, body, None, None)
  }

  // Forwarding: only a successful state-changing operation rotates the token.
  function Forwarded(w: World, s: Session.State, m: Method, inp: Inputs): Served {
    match inp.answer
    case NoAnswer(status, code) => Served(s, Unsigned(status, w.errorBody(code)), 0)
    case Failure(body) => Served(s, Unsigned(400, body), 0)
    case Success(body) =>
      if ChangesState(m) then
        Served(s.(token := inp.handlerToken, tokenCreatedAt := inp.handlerRotationAt),
               Reply(200, body, Some(inp.handlerToken), None), 1)
      else Served(s, Unsigned(200, body), 0)
  }

  function Handled(w: World, s: Session.State, req: Request, inp: Inputs): Served {
    if NeedsNonce(req.name) then
      if !inp.originAllowed then Served(s, Unsigned(403, w.errorBody(-32002)), 0)
      else if req.nonce.None? then Served(s, Unsigned(403, w.errorBody(-32001)), 0)
      else
        var nonce := req.nonce.value;
        var checked := Session.AfterValidate(w.hmac, s, nonce, inp.cleanupAt, inp.nonceAt);
        if !Session.Accepts(w.hmac, s, nonce, inp.cleanupAt, inp.nonceAt) then
          Served(checked, Unsigned(403, w.errorBody(-32001)), 0)
        else if !inp.bodyParses then Served(checked, Unsigned(400, w.errorBody(-32700)), 0)
        else Forwarded(w, checked, req.name, inp)
    else if ReadsOutputs(req.name) then
      if !inp.originAllowed then Served(s, Unsigned(403, w.errorBody(-32002)), 0)
      else if !inp.bodyParses then Served(s, Unsigned(400, w.errorBody(-32700)), 0)
      else Forwarded(w, s, req.name, inp)
    else if req.name.GetNonce? then
      Served(s, Unsigned(200, w.nonceBody(Session.Nonce(w.hmac, s.secret, inp.nonceAt, inp.random))), 0)
    else Served(s, Unsigned(200, inp.plainBody), 0)
  }

  // The limiter is only asked about requests with the session's token.
  function DueAfter(s: Session.State, due: nat, req: Request, inp: Inputs): nat {
    if Public(req.name) || req.token != Some(s.token) then due else RequestLimiter.AfterCheck(due, inp.checkedAt)
  }

  // The middleware around protected routes: token check, rate limit, and rotation of a token
  // that was expired on arrival and still is after the handler.
  function Routed(w: World, s: Session.State, due: nat, req: Request, inp: Inputs): Served {
    if Public(req.name) then Handled(w, s, req, inp)
    else if req.token != Some(s.token) then Served(s, Unsigned(401, ""), 0)
    else if !Admits(due, inp.checkedAt) then Served(s, Unsigned(429, ""), 0)
    else
      var h := Handled(w, s, req, inp);
      if TokenExpired(s, inp.arrivedAt) && TokenExpired(h.session, inp.recheckAt) then
        Served(h.session.(token := inp.middlewareToken, tokenCreatedAt := inp.middlewareRotationAt),
               h.reply.(newToken := Some(inp.middlewareToken)), h.rotations + 1)
      else h
  }

  // The signing layer; a body over ten megabytes is dropped and goes out unsigned.
  function Signed(w: World, token: string, r: Reply): Reply {
    if |r.body| <= MAX_SIGNED_BODY then r.(signature := Some(w.hmac(token, r.body)))
    else r.(body := "", signature := None)
  }

  function Replied(w: World, s: Session.State, due: nat, req: Request, inp: Inputs): Served {
    var routed := Routed(w, s, due, req, inp);
    routed.(reply := Signed(w, routed.session.token, routed.reply))
  }

  class Server {
    const world: World
    const session: Session.SessionState
    const limiter: Limiter

    ghost predicate Valid()
      reads session
    {
      session.Valid() && session.hmac == world.hmac
    }

    constructor (world: World, session: Session.SessionState, limiter: Limiter)
      requires session.Valid() && session.hmac == world.hmac
      ensures Valid() && this.world == world && this.session == session && this.limiter == limiter
    {
      this.world, this.session, this.limiter := world, session, limiter;
    }

    method Forward(m: Method, inp: Inputs) returns (reply: Reply)
      requires Valid()
      modifies session
      ensures Valid()
      ensures var served := Forwarded(world, old(session.Abstract()), m, inp);
              session.Abstract() == served.session && reply == served.reply
    {
      match inp.answer {
        case NoAnswer(status, code) =>
          reply := Unsigned(status, world.errorBody(code));
        case Failure(body) =>
          reply := Unsigned(400, body);
        case Success(body) =>
          reply := Unsigned(200, body);
          if ChangesState(m) {
            session.RotateToken(inp.handlerToken, inp.handlerRotationAt);
            reply := reply.(newToken := Some(inp.handlerToken));
          }
      }
    }

    method Handle(req: Request, inp: Inputs) returns (reply: Reply)
      requires Valid() && inp.cleanupAt <= inp.nonceAt
      modifies session
      ensures Valid()
      ensures var served := Handled(world, old(session.Abstract()), req, inp);
              session.Abstract() == served.session && reply == served.reply
    {
      if NeedsNonce(req.name) || ReadsOutputs(req.name) {
        if !inp.originAllowed {
          return Unsigned(403, world.errorBody(-32002));
        }
        if NeedsNonce(req.name) {
          if req.nonce.None? {
            return Unsigned(403, world.errorBody(-32001));
          }
          var accepted := session.ValidateNonce(req.nonce.value, inp.cleanupAt, inp.nonceAt);
          if !accepted {
            return Unsigned(403, world.errorBody(-32001));
          }
        }
        if !inp.bodyParses {
          return Unsigned(400, world.errorBody(-32700));
        }
        reply := Forward(req.name, inp);
      } else if req.name.GetNonce? {
        reply := Unsigned(200, world.nonceBody(session.GenerateNonce(inp.nonceAt, inp.random)));
      } else {
        reply := Unsigned(200, inp.plainBody);
      }
    }

    method Serve(req: Request, inp: Inputs) returns (reply: Reply)
      requires Valid() && inp.cleanupAt <= inp.nonceAt
      modifies session, limiter
      ensures Valid()
      ensures var served := Replied(world, old(session.Abstract()), old(limiter.due), req, inp);
              session.Abstract() == served.session && reply == served.reply
      ensures limiter.due == DueAfter(old(session.Abstract()), old(limiter.due), req, inp)
    {
      if Public(req.name) {
        reply := Handle(req, inp);
      } else if req.token != Some(session.token) {
        reply := Unsigned(401, "");
      } else {
        var expired := session.IsTokenExpired(inp.arrivedAt);
        var admitted := limiter.Check(inp.checkedAt);
        if !admitted {
          reply := Unsigned(429, "");
        } else {
          reply := Handle(req, inp);
          if expired && session.IsTokenExpired(inp.recheckAt) {
            session.RotateToken(inp.middlewareToken, inp.middlewareRotationAt);
            reply := reply.(newToken := Some(inp.middlewareToken));
          }
        }
      }
      reply := Signed(world, session.token, reply);
    }
  }

  // ---------- The client ----------

  datatype Outcome = Delivered(body: string) | Rejected(body: string) | Failed(code: int)

  // An absent and an empty string count as no token.
  predicate Truthy(token: Option<string>) {
    token.Some? && token.value != ""
  }

  function Adopted(w: World, token: Option<string>, r: Reply): Option<string> {
    if w.isJson(r.body) && Truthy(r.newToken) then r.newToken else token
  }

  predicate Verifies(w: World, token: Option<string>, r: Reply) {
    token.Some? && r.signature == Some(w.hmac(token.value, r.body))
  }

  // `checks` says that the browser's cryptography is there and works. A null has no fields
  // that could be asked whether it is an error.
  function Judged(w: World, token: Option<string>, strict: bool, checks: bool, r: Reply): Outcome {
    if !w.isJson(r.body) then Failed(-32000)
    else if strict && Truthy(token) && r.signature.None? then Failed(-32011)
    else if strict && Truthy(token) && checks && !Verifies(w, token, r) then Failed(-32010)
    else Answered(w, r.body)
  }

  function Answered(w: World, body: string): Outcome {
    if w.isNull(body) then Failed(-32000) else if w.isError(body) then Rejected(body) else Delivered(body)
  }

  class SimplySats {
    const world: World
    const strictVerification: bool
    const hasCrypto: bool
    var sessionToken: Option<string>

    constructor (world: World, token: Option<string>, strict: bool, hasCrypto: bool)
      ensures sessionToken == token && this.world == world
      ensures strictVerification == strict && this.hasCrypto == hasCrypto
    {
      this.world, sessionToken := world, token;
      strictVerification, this.hasCrypto := strict, hasCrypto;
    }

    // The part of a request that follows the arrival of the reply.
    // An exception of the browser's cryptography, `throws`, is swallowed.
    method Receive(reply: Reply, throws: bool) returns (outcome: Outcome)
      modifies this`sessionToken
      ensures sessionToken == Adopted(world, old(sessionToken), reply)
      ensures outcome == Judged(world, sessionToken, strictVerification, hasCrypto && !throws, reply)
    {
      if !world.isJson(reply.body) {
        return Failed(-32000);
      }
      if Truthy(reply.newToken) {
        sessionToken := reply.newToken;
      }
      if strictVerification && Truthy(sessionToken) && reply.signature.None? {
        return Failed(-32011);
      }
      if reply.signature.Some? && Truthy(sessionToken) && hasCrypto && !throws {
        var valid := reply.signature.value == world.hmac(sessionToken.value, reply.body);
        if !valid && strictVerification {
          return Failed(-32010);
        }
      }
      if world.isNull(reply.body) {
        return Failed(-32000);
      }
      outcome := if world.isError(reply.body) then Rejected(reply.body) else Delivered(reply.body);
    }
  }

  // ---------- One exchange ----------

  // Clock readings of one request are ordered, and generated tokens are not empty.
  predicate Timed(inp: Inputs, now: nat) {
    && now <= inp.arrivedAt <= inp.checkedAt / 1000 <= inp.cleanupAt <= inp.nonceAt <= inp.handlerRotationAt
    && inp.handlerRotationAt <= inp.recheckAt <= inp.middlewareRotationAt
    && inp.handlerToken != "" && inp.middlewareToken != ""
  }

  // The client's own requests carry the token it holds.
  predicate Sends(token: Option<string>, req: Request) {
    req.token == if Truthy(token) then token else None
  }

  // What the client needs to know of a rotation.
  predicate Tells(s: Session.State, served: Served) {
    && served.reply.newToken == (if served.rotations == 0 then None else Some(served.session.token))
    && (served.rotations == 0 ==> served.session.token == s.token)
  }

  lemma ForwardedTells(w: World, s: Session.State, m: Method, inp: Inputs)
    ensures Tells(s, Forwarded(w, s, m, inp))
  {
  }

  lemma HandledTells(w: World, s: Session.State, req: Request, inp: Inputs)
    ensures Tells(s, Handled(w, s, req, inp))
  {
    ForwardedTells(w, s, req.name, inp);
    if req.nonce.Some? {
      var checked := Session.AfterValidate(w.hmac, s, req.nonce.value, inp.cleanupAt, inp.nonceAt);
      ForwardedTells(w, checked, req.name, inp);
    }
  }

  lemma RoutedTells(w: World, s: Session.State, due: nat, req: Request, inp: Inputs)
    ensures Tells(s, Routed(w, s, due, req, inp))
  {
    HandledTells(w, s, req, inp);
  }

  // A reply tells the token that the session holds, whenever it was rotated at all.
  lemma ReplyCarriesTheLatestToken(w: World, s: Session.State, due: nat, req: Request, inp: Inputs)
    ensures Tells(s, Replied(w, s, due, req, inp))
  {
    RoutedTells(w, s, due, req, inp);
  }

  lemma RotatedTokenIsNotEmpty(w: World, s: Session.State, due: nat, req: Request, inp: Inputs)
    requires s.token != "" && inp.handlerToken != "" && inp.middlewareToken != ""
    ensures Replied(w, s, due, req, inp).session.token != ""
  {
  }

  lemma ToldClientIsInStepIff(w: World, s: Session.State, token: Option<string>, served: Served)
    requires Tells(s, served) && token == Some(s.token) && served.session.token != ""
    ensures Adopted(w, token, served.reply) == Some(served.session.token)
            <==> w.isJson(served.reply.body) || served.session.token == s.token
  {
  }

  // After a reply the client is in step with the server exactly when the reply could be
  // read or the token did not change.
  lemma InStepAfterReply(w: World, s: Session.State, due: nat, token: Option<string>, req: Request, inp: Inputs, now: nat)
    requires s.token != "" && token == Some(s.token) && Sends(token, req) && Timed(inp, now)
    ensures var served := Replied(w, s, due, req, inp);
            Adopted(w, token, served.reply) == Some(served.session.token)
            <==> w.isJson(served.reply.body) || served.session.token == s.token
  {
    ReplyCarriesTheLatestToken(w, s, due, req, inp);
    RotatedTokenIsNotEmpty(w, s, due, req, inp);
    ToldClientIsInStepIff(w, s, token, Replied(w, s, due, req, inp));
  }

  lemma ReadableReplyIsSigned(w: World, s: Session.State, due: nat, req: Request, inp: Inputs)
    requires !w.isJson("") && w.isJson(Replied(w, s, due, req, inp).reply.body)
    ensures var served := Replied(w, s, due, req, inp);
            served.reply.signature == Some(w.hmac(served.session.token, served.reply.body))
  {
  }

  lemma VerifiedIsAnswered(w: World, token: Option<string>, strict: bool, checks: bool, r: Reply)
    requires w.isJson(r.body) && Verifies(w, token, r)
    ensures Judged(w, token, strict, checks, r) == Answered(w, r.body)
  {
  }

  // Every readable reply verifies under the token the client holds after adopting, so the
  // client never reports a missing or a wrong signature.
  lemma ReadableReplyVerifies(w: World, s: Session.State, due: nat, token: Option<string>, req: Request, inp: Inputs,
                              now: nat)
    requires s.token != "" && token == Some(s.token) && Sends(token, req) && Timed(inp, now)
    requires !w.isJson("") && w.isJson(Replied(w, s, due, req, inp).reply.body)
    ensures var reply := Replied(w, s, due, req, inp).reply;
            var held := Adopted(w, token, reply);
            Verifies(w, held, reply) &&
            forall strict, checks :: Judged(w, held, strict, checks, reply) == Answered(w, reply.body)
  {
    var reply := Replied(w, s, due, req, inp).reply;
    InStepAfterReply(w, s, due, token, req, inp, now);
    ReadableReplyIsSigned(w, s, due, req, inp);
    forall strict, checks ensures Judged(w, Adopted(w, token, reply), strict, checks, reply) == Answered(w, reply.body) {
      VerifiedIsAnswered(w, Adopted(w, token, reply), strict, checks, reply);
    }
  }

  // A strict client with a token takes over the body of a readable reply exactly if it is not
  // null, the reply is signed and, unless the browser's cryptography is missing or throws, the
  // signature is right.
  lemma StrictClientBelievesIff(w: World, token: Option<string>, checks: bool, r: Reply)
    requires w.isJson(r.body) && Truthy(token)
    ensures !Judged(w, token, true, checks, r).Failed? <==>
            !w.isNull(r.body) && r.signature.Some? && (checks ==> Verifies(w, token, r))
  {
  }

  // A call whose result is null succeeds on the server, which rotates the token, and the
  // client adopts the new token and reports the call as failed.
  lemma NullResultIsReportedAsFailure(w: World, s: Session.State, due: nat, token: Option<string>, req: Request,
                                      inp: Inputs, now: nat)
    requires s.token != "" && token == Some(s.token) && Sends(token, req) && Timed(inp, now)
    requires !w.isJson("") && inp.answer.Success? && w.isNull(inp.answer.body) && w.isJson(inp.answer.body)
    requires ChangesState(req.name) && Replied(w, s, due, req, inp).reply.status == 200
    requires |inp.answer.body| <= MAX_SIGNED_BODY
    ensures var served := Replied(w, s, due, req, inp);
            var held := Adopted(w, token, served.reply);
            && served.rotations >= 1 && held == Some(served.session.token)
            && forall strict, checks :: Judged(w, held, strict, checks, served.reply) == Failed(-32000)
  {
  }

  // A request rotates the token at most once, except in one case: the token was expired on
  // arrival, the handler rotated it, and over an hour passed before the middleware looked again.
  lemma RotatesTwiceExactlyWhenAnHourPasses(w: World, s: Session.State, due: nat, req: Request, inp: Inputs, now: nat)
    requires Timed(inp, now)
    ensures Replied(w, s, due, req, inp).rotations <= 2
    ensures Replied(w, s, due, req, inp).rotations == 2 <==>
            && ChangesState(req.name) && req.token == Some(s.token) && Admits(due, inp.checkedAt)
            && inp.originAllowed && req.nonce.Some? && inp.bodyParses && inp.answer.Success?
            && Session.Accepts(w.hmac, s, req.nonce.value, inp.cleanupAt, inp.nonceAt)
            && inp.arrivedAt > s.tokenCreatedAt + 3600
            && inp.recheckAt > inp.handlerRotationAt + 3600
  {
  }

  // A token that is expired on arrival never outlives a request that is let in.
  lemma ExpiredTokenIsReplaced(w: World, s: Session.State, due: nat, req: Request, inp: Inputs, now: nat)
    requires Timed(inp, now) && !Public(req.name) && req.token == Some(s.token) && Admits(due, inp.checkedAt)
    requires TokenExpired(s, inp.arrivedAt)
    ensures var served := Replied(w, s, due, req, inp);
            served.rotations >= 1 && !TokenExpired(served.session, inp.recheckAt) &&
            served.session.token in {inp.handlerToken, inp.middlewareToken}
  {
  }

  // ---------- What each request is answered ----------

  // The calls that are carried out by the front end, and those of them that need a nonce.
  predicate IsCall(m: Method) {
    m in {GetPublicKey, CreateSignature, CreateAction, LockBsv, UnlockBsv, ListOutputs, ListLocks}
  }

  predicate IsNonced(m: Method) {
    m in {GetPublicKey, CreateSignature, CreateAction, LockBsv, UnlockBsv}
  }

  // A request that gets as far as its handler: it has the session's token, and the limiter has
  // a cell for it.
  predicate Enters(s: Session.State, due: nat, req: Request, inp: Inputs) {
    req.token == Some(s.token) && due <= inp.checkedAt + 60_000
  }

  // A call that the front end is asked to carry out.
  predicate LetThrough(w: World, s: Session.State, due: nat, req: Request, inp: Inputs) {
    && IsCall(req.name) && Enters(s, due, req, inp) && inp.originAllowed && inp.bodyParses
    && (IsNonced(req.name) ==>
          req.nonce.Some? && Session.Accepts(w.hmac, s, req.nonce.value, inp.cleanupAt, inp.nonceAt))
  }

  // Without the token, only three requests are answered; the others change nothing.
  lemma TokenIsNeeded(w: World, s: Session.State, due: nat, req: Request, inp: Inputs)
    requires req.token != Some(s.token)
    ensures var served := Replied(w, s, due, req, inp);
            && served.session == s && served.rotations == 0 && DueAfter(s, due, req, inp) == due
            && served.reply.status == (if req.name in {GetVersion, IsAuthenticated, WaitForAuthentication} then 200 else 401)
            && (served.reply.status == 401 ==> served.reply.body == "")
  {
  }

  // The public requests do not ask the limiter, and get their answer in any case.
  lemma PublicRequestIsAnswered(w: World, s: Session.State, due: nat, req: Request, inp: Inputs)
    requires req.name in {GetVersion, IsAuthenticated, WaitForAuthentication}
    ensures var served := Replied(w, s, due, req, inp);
            && served.session == s && DueAfter(s, due, req, inp) == due && served.reply.status == 200
            && served.reply.body == if |inp.plainBody| <= 10_485_760 then inp.plainBody else ""
  {
  }

  // Any other request that has the token waits for the limiter; the two that only read then
  // get their answer too.
  lemma LimiterIsAsked(w: World, s: Session.State, due: nat, req: Request, inp: Inputs)
    requires req.name !in {GetVersion, IsAuthenticated, WaitForAuthentication} && req.token == Some(s.token)
    ensures var served := Replied(w, s, due, req, inp);
            if due > inp.checkedAt + 60_000 then
              served.reply.status == 429 && served.session == s && DueAfter(s, due, req, inp) == due
            else
              && DueAfter(s, due, req, inp) == (if due < inp.checkedAt then inp.checkedAt else due) + 1_000
              && (req.name in {GetNetwork, GetHeight} ==>
                    && served.reply.status == 200
                    && served.reply.body == if |inp.plainBody| <= 10_485_760 then inp.plainBody else "")
  {
  }

  // A call from a foreign origin, without an acceptable nonce or with a body that does not
  // parse is refused, in this order, whatever the front end would have answered.
  lemma UnfitCallIsRefused(w: World, s: Session.State, due: nat, req: Request, inp: Inputs)
    requires IsCall(req.name) && Enters(s, due, req, inp) && !LetThrough(w, s, due, req, inp)
    ensures var served := Replied(w, s, due, req, inp);
            var (status, code) :=
              if !inp.originAllowed then (403, -32002)
              else if IsNonced(req.name) && !(req.nonce.Some? &&
                        Session.Accepts(w.hmac, s, req.nonce.value, inp.cleanupAt, inp.nonceAt)) then (403, -32001)
              else (400, -32700);
            && served.reply.status == status
            && served.reply.body == if |w.errorBody(code)| <= 10_485_760 then w.errorBody(code) else ""
  {
  }

  // What the server makes of the front end's answer: its status and body, and the token, which
  // the four operations that change state rotate, and besides only an hour's age.
  lemma AnswerIsPassedOn(w: World, s: Session.State, due: nat, req: Request, inp: Inputs)
    requires LetThrough(w, s, due, req, inp)
    ensures var served := Replied(w, s, due, req, inp);
            var (status, body) := match inp.answer
                                case Success(body) => (200, body)
                                case Failure(body) => (400, body)
                                case NoAnswer(status, code) => (status, w.errorBody(code));
            && served.reply.status == status
            && served.reply.body == (if |body| <= 10_485_760 then body else "")
            && (inp.arrivedAt <= s.tokenCreatedAt + 3600 ==>
                  if inp.answer.Success? && req.name in {CreateSignature, CreateAction, LockBsv, UnlockBsv}
                  then served.rotations == 1 && served.session.token == inp.handlerToken
                  else served.rotations == 0 && served.session.token == s.token)
  {
  }

  // A nonce is handed out as the text of its time, its random part and the HMAC of both.
  lemma NonceIsHandedOut(w: World, s: Session.State, due: nat, req: Request, inp: Inputs)
    requires req.name == GetNonce && Enters(s, due, req, inp)
    ensures var reply := Replied(w, s, due, req, inp).reply;
            var text := Decimal.Print(inp.nonceAt) + "_" + inp.random;
            var body := w.nonceBody(text + "_" + w.hmac(s.secret, text));
            reply.status == 200 && reply.body == if |body| <= 10_485_760 then body else ""
  {
  }

  // ---------- What the client makes of it ----------

  // The reports of a client: an unreadable reply, a missing and a wrong signature.
  lemma BadReplyIsReported(w: World, token: Option<string>, strict: bool, checks: bool, r: Reply)
    ensures !w.isJson(r.body) ==> Judged(w, token, strict, checks, r) == Failed(-32000)
    ensures w.isJson(r.body) && strict && token.Some? && token.value != "" ==>
              && (r.signature.None? ==> Judged(w, token, strict, checks, r) == Failed(-32011))
              && (checks && r.signature.Some? && r.signature.value != w.hmac(token.value, r.body) ==>
                    Judged(w, token, strict, checks, r) == Failed(-32010))
  {
  }

  // A lenient client, or one without a token, believes every readable reply, signed or not.
  lemma LenientClientBelieves(w: World, token: Option<string>, strict: bool, checks: bool, r: Reply)
    requires w.isJson(r.body) && !w.isNull(r.body) && (!strict || token == None || token == Some(""))
    ensures Judged(w, token, strict, checks, r) == if w.isError(r.body) then Rejected(r.body) else Delivered(r.body)
  {
  }

  // From the front end to the client, under every setting of its checks: a result is delivered
  // and an error reported, both as they are, to a client in step.
  lemma AnswerReachesTheClient(w: World, s: Session.State, due: nat, req: Request, inp: Inputs, now: nat,
                               strict: bool, checks: bool)
    requires s.token != "" && Timed(inp, now) && !w.isJson("") && LetThrough(w, s, due, req, inp)
    requires !inp.answer.NoAnswer? && w.isJson(inp.answer.body) && !w.isNull(inp.answer.body)
    requires |inp.answer.body| <= 10_485_760
    ensures var served := Replied(w, s, due, req, inp);
            var held := Adopted(w, Some(s.token), served.reply);
            && held == Some(served.session.token)
            && (inp.answer.Success? && !w.isError(inp.answer.body) ==>
                  Judged(w, held, strict, checks, served.reply) == Delivered(inp.answer.body))
            && (inp.answer.Failure? && w.isError(inp.answer.body) ==>
                  Judged(w, held, strict, checks, served.reply) == Rejected(inp.answer.body))
            && (inp.answer.Failure? && inp.arrivedAt <= s.tokenCreatedAt + 3600 ==> held == Some(s.token))
  {
    AnswerIsPassedOn(w, s, due, req, inp);
    ReadableReplyVerifies(w, s, due, Some(s.token), req, inp, now);
    InStepAfterReply(w, s, due, Some(s.token), req, inp, now);
    VerifiedIsBelieved(w, Some(Replied(w, s, due, req, inp).session.token), strict, checks,
                       Replied(w, s, due, req, inp).reply);
  }

  lemma VerifiedIsBelieved(w: World, token: Option<string>, strict: bool, checks: bool, r: Reply)
    requires w.isJson(r.body) && !w.isNull(r.body) && Verifies(w, token, r)
    ensures Judged(w, token, strict, checks, r) == if w.isError(r.body) then Rejected(r.body) else Delivered(r.body)
  {
  }

  // An answer too large to be signed is lost: the client cannot read the reply, and does not
  // learn of a new token.
  lemma OversizedAnswerIsLost(w: World, s: Session.State, due: nat, req: Request, inp: Inputs, strict: bool, checks: bool)
    requires LetThrough(w, s, due, req, inp) && !w.isJson("")
    requires !inp.answer.NoAnswer? && |inp.answer.body| > 10_485_760
    ensures var reply := Replied(w, s, due, req, inp).reply;
            && reply.signature == None && Adopted(w, Some(s.token), reply) == Some(s.token)
            && Judged(w, Some(s.token), strict, checks, reply) == Failed(-32000)
  {
    AnswerIsPassedOn(w, s, due, req, inp);
  }

  // ---------- Runs ----------

  datatype Exchange = Exchange(name: Method, nonce: Option<string>, inputs: Inputs)

  function RequestOf(token: Option<string>, e: Exchange): Request {
    Request(e.name, if Truthy(token) then token else None, e.nonce)
  }

  // The bodies that handlers and front end produce are JSON and small enough to be signed.
  ghost predicate Deliverable(w: World, inp: Inputs) {
    && (forall code :: w.isJson(w.errorBody(code)) && |w.errorBody(code)| <= MAX_SIGNED_BODY)
    && (forall nonce :: w.isJson(w.nonceBody(nonce)) && |w.nonceBody(nonce)| <= MAX_SIGNED_BODY)
    && w.isJson(inp.plainBody) && |inp.plainBody| <= MAX_SIGNED_BODY
    && (!inp.answer.NoAnswer? ==> w.isJson(inp.answer.body) && |inp.answer.body| <= MAX_SIGNED_BODY)
  }

  ghost predicate Plausible(w: World, es: seq<Exchange>, now: nat) {
    es == [] ||
    (Timed(es[0].inputs, now) && Deliverable(w, es[0].inputs) &&
     Plausible(w, es[1..], es[0].inputs.middlewareRotationAt))
  }

  // From here on the client and the server agree after every reply, and every readable
  // reply verifies under the token the client then holds.
  predicate AlwaysInStep(w: World, s: Session.State, due: nat, token: Option<string>, es: seq<Exchange>)
    decreases es
  {
    es == [] ||
    var req := RequestOf(token, es[0]);
    var served := Replied(w, s, due, req, es[0].inputs);
    var held := Adopted(w, token, served.reply);
    && held == Some(served.session.token)
    && (w.isJson(served.reply.body) ==> Verifies(w, held, served.reply))
    && AlwaysInStep(w, served.session, DueAfter(s, due, req, es[0].inputs), held, es[1..])
  }

  lemma HandledIsReadable(w: World, s: Session.State, req: Request, inp: Inputs)
    requires Deliverable(w, inp)
    ensures var body := Handled(w, s, req, inp).reply.body;
            w.isJson(body) && |body| <= MAX_SIGNED_BODY
  {
  }

  lemma UnreadableReplyKeepsToken(w: World, s: Session.State, due: nat, req: Request, inp: Inputs)
    requires Deliverable(w, inp) && !w.isJson(Replied(w, s, due, req, inp).reply.body)
    ensures Replied(w, s, due, req, inp).session.token == s.token
  {
    HandledIsReadable(w, s, req, inp);
  }

  // The protocol never loses step over a whole run of a sequential client, rate-limited
  // requests included.
  lemma {:induction false} SequentialClientStaysInStep(w: World, s: Session.State, due: nat, token: Option<string>,
                                                       es: seq<Exchange>, now: nat)
    requires !w.isJson("") && s.token != "" && token == Some(s.token)
    requires Plausible(w, es, now)
    ensures AlwaysInStep(w, s, due, token, es)
    decreases es
  {
    if es == [] {
    } else {
      var req, inp := RequestOf(token, es[0]), es[0].inputs;
      var served := Replied(w, s, due, req, inp);
      InStepAfterReply(w, s, due, token, req, inp, now);
      if w.isJson(served.reply.body) {
        ReadableReplyVerifies(w, s, due, token, req, inp, now);
      } else {
        UnreadableReplyKeepsToken(w, s, due, req, inp);
      }
      SequentialClientStaysInStep(w, served.session, DueAfter(s, due, req, inp), Adopted(w, token, served.reply), es[1..],
                                  inp.middlewareRotationAt);
    }
  }

  // Every request of the run to a protected route is turned away, and nothing changes on
  // either side or in the limiter, so that the tokens stay apart.
  predicate AlwaysApart(w: World, s: Session.State, due: nat, token: Option<string>, es: seq<Exchange>)
    decreases es
  {
    es == [] ||
    var req := RequestOf(token, es[0]);
    var served := Replied(w, s, due, req, es[0].inputs);
    var held := Adopted(w, token, served.reply);
    var after := DueAfter(s, due, req, es[0].inputs);
    && served.reply.status == (if Public(es[0].name) then 200 else 401)
    && served.session == s && after == due && held == token != Some(served.session.token)
    && AlwaysApart(w, served.session, after, held, es[1..])
  }

  // Once out of step, a client stays out: over every run, public requests included, it is
  // turned away from each protected route. The refusals, which carry no JSON, cannot bring it
  // back, and the public replies name no token.
  lemma {:induction false} OutOfStepIsFinal(w: World, s: Session.State, due: nat, token: Option<string>, es: seq<Exchange>)
    requires !w.isJson("") && token != Some(s.token) && s.token != ""
    ensures AlwaysApart(w, s, due, token, es)
    decreases es
  {
    if es == [] {
    } else {
      assert RequestOf(token, es[0]).token != Some(s.token);
      OutOfStepIsFinal(w, s, due, token, es[1..]);
    }
  }

  // ---------- The nonce-then-call pattern ----------

  // A client in step that asks for a nonce and then makes one call with it is let through
  // to the front end, even when the token expires in between, if it comes within 300 seconds.
  lemma NonceThenCallIsForwarded(w: World, s: Session.State, due: nat, first: Inputs, m: Method, second: Inputs, now: nat)
    requires s.token != "" && NeedsNonce(m)
    requires Timed(first, now) && Timed(second, first.middlewareRotationAt)
    requires Deliverable(w, first) && Admits(due, first.checkedAt)
    requires Admits(RequestLimiter.AfterCheck(due, first.checkedAt), second.checkedAt)
    requires '_' !in first.random && second.originAllowed && second.bodyParses
    requires Session.Nonce(w.hmac, s.secret, first.nonceAt, first.random) !in Session.Names(s.stamps)
    requires second.nonceAt <= first.nonceAt + Session.NONCE_EXPIRY_SECS
    ensures var nonce := Session.Nonce(w.hmac, s.secret, first.nonceAt, first.random);
            var token := Some(s.token);
            var req := Request(GetNonce, token, None);
            var got := Replied(w, s, due, req, first);
            var held := Adopted(w, token, got.reply);
            var call := Request(m, held, Some(nonce));
            var checked := Session.AfterValidate(w.hmac, got.session, nonce, second.cleanupAt, second.nonceAt);
            && got.reply.body == w.nonceBody(nonce)
            && Handled(w, got.session, call, second) == Forwarded(w, checked, m, second)
            && (second.answer.Success? ==>
                  Replied(w, got.session, DueAfter(s, due, req, first), call, second).reply.status == 200)
  {
    var nonce := Session.Nonce(w.hmac, s.secret, first.nonceAt, first.random);
    var req := Request(GetNonce, Some(s.token), None);
    var got := Replied(w, s, due, req, first);
    NonceIsDelivered(w, s, due, first, now);
    Session.FreshNonceAccepted(w.hmac, got.session, [], first.nonceAt, first.random, second.cleanupAt, second.nonceAt);
    assert Session.Run(w.hmac, got.session, []) == got.session;
    AcceptedCallIsForwarded(w, got.session, DueAfter(s, due, req, first),
                            Request(m, Some(got.session.token), Some(nonce)), second);
  }

  lemma NonceIsDelivered(w: World, s: Session.State, due: nat, inp: Inputs, now: nat)
    requires s.token != "" && Timed(inp, now) && Deliverable(w, inp) && Admits(due, inp.checkedAt)
    ensures var got := Replied(w, s, due, Request(GetNonce, Some(s.token), None), inp);
            && got.reply.body == w.nonceBody(Session.Nonce(w.hmac, s.secret, inp.nonceAt, inp.random))
            && got.session.stamps == s.stamps && got.session.secret == s.secret
            && Adopted(w, Some(s.token), got.reply) == Some(got.session.token) && got.session.token != ""
  {
  }

  lemma AcceptedCallIsForwarded(w: World, s: Session.State, due: nat, req: Request, inp: Inputs)
    requires NeedsNonce(req.name) && req.token == Some(s.token) && req.nonce.Some?
    requires Admits(due, inp.checkedAt) && inp.originAllowed && inp.bodyParses
    requires Session.Accepts(w.hmac, s, req.nonce.value, inp.cleanupAt, inp.nonceAt)
    ensures var checked := Session.AfterValidate(w.hmac, s, req.nonce.value, inp.cleanupAt, inp.nonceAt);
            && Handled(w, s, req, inp) == Forwarded(w, checked, req.name, inp)
            && (inp.answer.Success? ==> Replied(w, s, due, req, inp).reply.status == 200)
  {
  }

  // ---------- A nonce authorizes one call ----------

  // The requests, of any clients, that get as far as the nonce check.
  predicate Validates(s: Session.State, due: nat, req: Request, inp: Inputs) {
    NeedsNonce(req.name) && req.token == Some(s.token) && Admits(due, inp.checkedAt) && inp.originAllowed && req.nonce.Some?
  }

  lemma ForwardingRecordsNothing(w: World, s: Session.State, m: Method, inp: Inputs)
    ensures var session := Forwarded(w, s, m, inp).session;
            session.stamps == s.stamps && session.secret == s.secret
  {
  }

  lemma HandlingRecords(w: World, s: Session.State, req: Request, inp: Inputs)
    ensures var session := Handled(w, s, req, inp).session;
            && session.secret == s.secret
            && session.stamps ==
               (if NeedsNonce(req.name) && inp.originAllowed && req.nonce.Some?
                then Session.AfterValidate(w.hmac, s, req.nonce.value, inp.cleanupAt, inp.nonceAt).stamps else s.stamps)
  {
    ForwardingRecordsNothing(w, s, req.name, inp);
    if req.nonce.Some? {
      var checked := Session.AfterValidate(w.hmac, s, req.nonce.value, inp.cleanupAt, inp.nonceAt);
      ForwardingRecordsNothing(w, checked, req.name, inp);
    }
  }

  lemma RoutingRecords(s: Session.State, handled: Served, w: World, due: nat, req: Request, inp: Inputs)
    requires handled == Handled(w, s, req, inp)
    ensures var session := Routed(w, s, due, req, inp).session;
            var entered := Public(req.name) || (req.token == Some(s.token) && Admits(due, inp.checkedAt));
            && session.stamps == (if entered then handled.session.stamps else s.stamps)
            && session.secret == (if entered then handled.session.secret else s.secret)
  {
  }

  lemma ValidationRecords(w: World, s: Session.State, due: nat, req: Request, inp: Inputs)
    ensures var served := Replied(w, s, due, req, inp);
            && served.session.secret == s.secret
            && served.session.stamps ==
               (if Validates(s, due, req, inp)
                then Session.AfterValidate(w.hmac, s, req.nonce.value, inp.cleanupAt, inp.nonceAt).stamps else s.stamps)
  {
    HandlingRecords(w, s, req, inp);
    RoutingRecords(s, Handled(w, s, req, inp), w, due, req, inp);
  }

  lemma AnsweredCallIsValidated(w: World, s: Session.State, due: nat, req: Request, inp: Inputs)
    requires NeedsNonce(req.name) && Replied(w, s, due, req, inp).reply.status == 200
    ensures Validates(s, due, req, inp) && Session.Accepts(w.hmac, s, req.nonce.value, inp.cleanupAt, inp.nonceAt)
  {
  }

  // Only the nonce check changes what is recorded, and a call answered with 200 passed it, with
  // a nonce that was made with the session's secret at most five minutes ago.
  lemma OnlyValidationRecords(w: World, s: Session.State, due: nat, req: Request, inp: Inputs)
    ensures var served := Replied(w, s, due, req, inp);
            && served.session.secret == s.secret
            && served.session.stamps ==
               (if Validates(s, due, req, inp)
                then Session.AfterValidate(w.hmac, s, req.nonce.value, inp.cleanupAt, inp.nonceAt).stamps else s.stamps)
            && (NeedsNonce(req.name) && served.reply.status == 200 ==>
                  && Validates(s, due, req, inp) && Session.Accepts(w.hmac, s, req.nonce.value, inp.cleanupAt, inp.nonceAt)
                  && Session.AuthenticAndTimely(w.hmac, s.secret, req.nonce.value, inp.nonceAt))
  {
    ValidationRecords(w, s, due, req, inp);
    if NeedsNonce(req.name) && Replied(w, s, due, req, inp).reply.status == 200 {
      AnsweredCallIsValidated(w, s, due, req, inp);
      Session.AcceptsIffAuthentic(w.hmac, s, req.nonce.value, inp.cleanupAt, inp.nonceAt);
    }
  }

  datatype Call = Call(req: Request, inputs: Inputs)

  // The calls that need a nonce, bring this one and are answered with 200.
  function Successes(w: World, s: Session.State, due: nat, calls: seq<Call>, nonce: string): nat
    decreases calls
  {
    if calls == [] then 0
    else
      var c := calls[0];
      var served := Replied(w, s, due, c.req, c.inputs);
      (if NeedsNonce(c.req.name) && c.req.nonce == Some(nonce) && served.reply.status == 200 then 1 else 0)
      + Successes(w, served.session, DueAfter(s, due, c.req, c.inputs), calls[1..], nonce)
  }

  predicate TimedCalls(calls: seq<Call>, now: nat) {
    calls == [] ||
    (Timed(calls[0].inputs, now) && TimedCalls(calls[1..], calls[0].inputs.middlewareRotationAt))
  }

  // At most 421 unexpired nonces are on record whenever one is checked.
  predicate RoomyCalls(w: World, s: Session.State, due: nat, calls: seq<Call>)
    decreases calls
  {
    calls == [] ||
    var (req, inp) := (calls[0].req, calls[0].inputs);
    && (Validates(s, due, req, inp) ==> |Session.Live(s.stamps, inp.cleanupAt)| <= MAX_LIVE_NONCES)
    && RoomyCalls(w, Replied(w, s, due, req, inp).session, DueAfter(s, due, req, inp), calls[1..])
  }

  // One nonce a second can be used for 360 seconds, its expiry and the clock skew, and a burst
  // of sixty-one at once.
  const MAX_LIVE_NONCES: nat := Session.NONCE_EXPIRY_SECS + Session.CLOCK_SKEW_SECS + RATE_LIMIT_PER_MINUTE + 1

  ghost predicate Sound(w: World, s: Session.State) {
    Session.Invariant(s) && Session.Honest(w.hmac, s)
  }

  lemma ServingKeepsSound(w: World, s: Session.State, due: nat, c: Call)
    requires Sound(w, s)
    ensures Sound(w, Replied(w, s, due, c.req, c.inputs).session)
  {
    OnlyValidationRecords(w, s, due, c.req, c.inputs);
    if Validates(s, due, c.req, c.inputs) {
      Session.StepKeepsInvariant(w.hmac, s, Session.Validate(c.req.nonce.value, c.inputs.cleanupAt, c.inputs.nonceAt));
    }
  }

  lemma ServingKeepsSpent(w: World, s: Session.State, due: nat, c: Call, now: nat, nonce: string)
    requires Sound(w, s) && Session.Spent(w.hmac, s, nonce, now) && Timed(c.inputs, now) && RoomyCalls(w, s, due, [c])
    ensures var served := Replied(w, s, due, c.req, c.inputs);
            && Session.Spent(w.hmac, served.session, nonce, c.inputs.middlewareRotationAt)
            && (NeedsNonce(c.req.name) && c.req.nonce == Some(nonce) ==> served.reply.status != 200)
  {
    OnlyValidationRecords(w, s, due, c.req, c.inputs);
    if Validates(s, due, c.req, c.inputs) {
      Session.SpentStaysSpent(w.hmac, s, now, nonce, c.req.nonce.value, c.inputs.cleanupAt, c.inputs.nonceAt);
    }
  }

  lemma {:induction false} SpentNonceAuthorizesNothing(w: World, s: Session.State, due: nat, calls: seq<Call>,
                                                       now: nat, nonce: string)
    requires Sound(w, s) && TimedCalls(calls, now) && RoomyCalls(w, s, due, calls) && Session.Spent(w.hmac, s, nonce, now)
    ensures Successes(w, s, due, calls, nonce) == 0
    decreases calls
  {
    if calls == [] {
    } else {
      var c := calls[0];
      ServingKeepsSound(w, s, due, c);
      ServingKeepsSpent(w, s, due, c, now, nonce);
      var next := Replied(w, s, due, c.req, c.inputs).session;
      SpentNonceAuthorizesNothing(w, next, DueAfter(s, due, c.req, c.inputs), calls[1..],
                                  c.inputs.middlewareRotationAt, nonce);
    }
  }

  lemma {:induction false} RoomyNonceAuthorizesOneCall(w: World, s: Session.State, due: nat, calls: seq<Call>,
                                                       now: nat, nonce: string)
    requires Sound(w, s) && TimedCalls(calls, now) && RoomyCalls(w, s, due, calls)
    ensures Successes(w, s, due, calls, nonce) <= 1
    decreases calls
  {
    if calls == [] {
    } else {
      var c := calls[0];
      var next, later := Replied(w, s, due, c.req, c.inputs).session, c.inputs.middlewareRotationAt;
      var nextDue := DueAfter(s, due, c.req, c.inputs);
      OnlyValidationRecords(w, s, due, c.req, c.inputs);
      ServingKeepsSound(w, s, due, c);
      if NeedsNonce(c.req.name) && c.req.nonce == Some(nonce) && Replied(w, s, due, c.req, c.inputs).reply.status == 200 {
        Session.AcceptedIsSpent(w.hmac, s, nonce, c.inputs.cleanupAt, c.inputs.nonceAt);
        SpentNonceAuthorizesNothing(w, next, nextDue, calls[1..], later, nonce);
      } else {
        RoomyNonceAuthorizesOneCall(w, next, nextDue, calls[1..], later, nonce);
      }
    }
  }

  // ---------- The request limiter makes room for every live nonce ----------

  // An accepted nonce and the second of its acceptance.
  datatype Entry = Entry(stamp: Session.Stamp, at: nat)

  ghost predicate Entered(log: seq<Entry>, stamp: Session.Stamp) {
    exists i :: 0 <= i < |log| && log[i].stamp == stamp
  }

  // The log explains the record: what is recorded was accepted in order of the log, no nonce
  // is from more than a minute ahead, and since an acceptance every later one has pushed the
  // limiter's due time out by a second.
  ghost predicate Logged(s: Session.State, due: nat, log: seq<Entry>, now: nat) {
    Recorded(s.stamps, log) && InOrder(log, now) && PacedBy(due, log)
  }

  ghost predicate Recorded(stamps: seq<Session.Stamp>, log: seq<Entry>) {
    forall x :: x in stamps ==> Entered(log, x)
  }

  ghost predicate InOrder(log: seq<Entry>, now: nat) {
    && (forall i :: 0 <= i < |log| ==> log[i].stamp.1 <= log[i].at + Session.CLOCK_SKEW_SECS && log[i].at <= now)
    && (forall i, j :: 0 <= i < j < |log| ==> log[i].at <= log[j].at)
  }

  ghost predicate PacedBy(due: nat, log: seq<Entry>) {
    forall i :: 0 <= i < |log| - 1 ==> due >= CELL_MS * (log[i].at + |log| - 1 - i)
  }

  function NamesFrom(log: seq<Entry>, k: nat): set<string> {
    set i | k <= i < |log| :: log[i].stamp.0
  }

  lemma {:induction false} FewNamesFrom(log: seq<Entry>, k: nat)
    requires k <= |log|
    ensures |NamesFrom(log, k)| <= |log| - k
    decreases |log| - k
  {
    if k == |log| {
      assert NamesFrom(log, k) == {};
    } else {
      FewNamesFrom(log, k + 1);
      assert NamesFrom(log, k) == {log[k].stamp.0} + NamesFrom(log, k + 1);
    }
  }

  lemma {:induction false} DistinctNames(stamps: seq<Session.Stamp>)
    requires Session.Distinct(stamps)
    ensures |Session.Names(stamps)| == |stamps|
  {
    if stamps == [] {
      assert Session.Names(stamps) == {};
    } else {
      Session.NamesOfTail(stamps);
      DistinctNames(stamps[1..]);
      assert stamps[0].0 in Session.Names(stamps);
    }
  }

  // The first entry made at a given second or later.
  function FirstSince(log: seq<Entry>, time: int): (k: nat)
    ensures k <= |log|
    ensures forall i :: 0 <= i < k ==> log[i].at < time
    ensures k < |log| ==> log[k].at >= time
  {
    if log == [] || log[0].at >= time then 0 else 1 + FirstSince(log[1..], time)
  }

  // What is live at a check was accepted in the last 360 seconds.
  lemma LiveAreRecent(s: Session.State, due: nat, log: seq<Entry>, now: Session.Clock, cleanupAt: Session.Clock)
    requires Session.Invariant(s) && Logged(s, due, log, now) && now <= cleanupAt
    ensures Session.Names(Session.Live(s.stamps, cleanupAt)) <= NamesFrom(log, FirstSince(log, cleanupAt - 360))
  {
    var live := Session.Live(s.stamps, cleanupAt);
    Session.LiveIsUnexpiredPart(s.stamps, cleanupAt);
    forall name | name in Session.Names(live)
      ensures name in NamesFrom(log, FirstSince(log, cleanupAt - 360))
    {
      var j :| 0 <= j < |live| && live[j].0 == name;
      assert live[j] in live;
      UnexpiredEntryIsRecent(log, live[j], now, cleanupAt);
    }
  }

  lemma UnexpiredEntryIsRecent(log: seq<Entry>, stamp: Session.Stamp, now: Session.Clock, cleanupAt: nat)
    requires Entered(log, stamp) && !Session.Expired(stamp.1, cleanupAt)
    requires forall i :: 0 <= i < |log| ==> log[i].stamp.1 <= log[i].at + Session.CLOCK_SKEW_SECS && log[i].at <= now
    ensures stamp.0 in NamesFrom(log, FirstSince(log, cleanupAt - 360))
  {
  }

  // Those are few, for the limiter has let each of them in, and now lets in this request.
  lemma FewAreRecent(s: Session.State, due: nat, log: seq<Entry>, now: nat, checkedAt: nat, cleanupAt: nat)
    requires Logged(s, due, log, now) && Admits(due, checkedAt) && checkedAt / 1000 <= cleanupAt
    ensures |log| - FirstSince(log, cleanupAt - 360) <= MAX_LIVE_NONCES
  {
    var k := FirstSince(log, cleanupAt - 360);
    if k < |log| - 1 {
      CellsSince(due, log[k].at, |log| - 1 - k, checkedAt, cleanupAt);
    }
  }

  lemma CellsSince(due: nat, at: nat, cells: nat, checkedAt: nat, cleanupAt: nat)
    requires due >= CELL_MS * (at + cells) && Admits(due, checkedAt)
    requires checkedAt / 1000 <= cleanupAt <= at + 360
    ensures cells < MAX_LIVE_NONCES
  {
  }

  lemma SetsWithin(a: set<string>, b: set<string>)
    requires a <= b
    ensures |a| <= |b|
  {
    assert b == a + (b - a);
  }

  lemma AtMost421Live(s: Session.State, due: nat, log: seq<Entry>, now: Session.Clock, checkedAt: nat,
                      cleanupAt: Session.Clock)
    requires Session.Invariant(s) && Logged(s, due, log, now) && now <= cleanupAt
    requires Admits(due, checkedAt) && checkedAt / 1000 <= cleanupAt
    ensures |Session.Live(s.stamps, cleanupAt)| <= MAX_LIVE_NONCES == 421
  {
    var live, k := Session.Live(s.stamps, cleanupAt), FirstSince(log, cleanupAt - 360);
    Session.LiveIsUnexpiredPart(s.stamps, cleanupAt);
    DistinctNames(live);
    LiveAreRecent(s, due, log, now, cleanupAt);
    SetsWithin(Session.Names(live), NamesFrom(log, k));
    FewNamesFrom(log, k);
    FewAreRecent(s, due, log, now, checkedAt, cleanupAt);
  }

  function LogAfter(w: World, s: Session.State, due: nat, log: seq<Entry>, c: Call): seq<Entry> {
    if Validates(s, due, c.req, c.inputs)
       && Session.Accepts(w.hmac, s, c.req.nonce.value, c.inputs.cleanupAt, c.inputs.nonceAt)
    then log + [Entry((c.req.nonce.value, Session.Claim(w.hmac, s.secret, c.req.nonce.value).value), c.inputs.nonceAt)]
    else log
  }

  lemma ServingKeepsRecordInLog(w: World, s: Session.State, due: nat, log: seq<Entry>, c: Call)
    requires Sound(w, s) && Recorded(s.stamps, log)
    ensures Recorded(Replied(w, s, due, c.req, c.inputs).session.stamps, LogAfter(w, s, due, log, c))
  {
    var log' := LogAfter(w, s, due, log, c);
    OnlyValidationRecords(w, s, due, c.req, c.inputs);
    Session.CleanedIsPartOfStamps(s.stamps, c.inputs.cleanupAt);
    forall x | x in Replied(w, s, due, c.req, c.inputs).session.stamps
      ensures Entered(log', x)
    {
      if x in s.stamps {
        var i :| 0 <= i < |log| && log[i].stamp == x;
        assert log'[i].stamp == x;
      } else {
        assert log'[|log|].stamp == x;
      }
    }
  }

  lemma ServingKeepsLogged(w: World, s: Session.State, due: nat, log: seq<Entry>, c: Call, now: nat)
    requires Sound(w, s) && Logged(s, due, log, now) && Timed(c.inputs, now)
    ensures Logged(Replied(w, s, due, c.req, c.inputs).session, DueAfter(s, due, c.req, c.inputs),
                   LogAfter(w, s, due, log, c), c.inputs.middlewareRotationAt)
  {
    var log' := LogAfter(w, s, due, log, c);
    ServingKeepsRecordInLog(w, s, due, log, c);
    LogGrowsByOne(w, s, due, log, log', c);
    LogStaysInOrder(s, due, log, log', c, now);
    ServingKeepsLogPaced(s, due, log, log', c, now);
  }

  lemma LogGrowsByOne(w: World, s: Session.State, due: nat, log: seq<Entry>, log': seq<Entry>, c: Call)
    requires log' == LogAfter(w, s, due, log, c)
    ensures log' == log ||
            (&& Validates(s, due, c.req, c.inputs) && |log'| == |log| + 1 && log'[..|log|] == log
             && log'[|log|].stamp.1 <= log'[|log|].at + Session.CLOCK_SKEW_SECS && log'[|log|].at == c.inputs.nonceAt)
  {
  }

  lemma LogStaysInOrder(s: Session.State, due: nat, log: seq<Entry>, log': seq<Entry>, c: Call, now: nat)
    requires Logged(s, due, log, now) && Timed(c.inputs, now)
    requires log' == log ||
             (&& |log'| == |log| + 1 && log'[..|log|] == log
              && log'[|log|].stamp.1 <= log'[|log|].at + Session.CLOCK_SKEW_SECS && log'[|log|].at == c.inputs.nonceAt)
    ensures InOrder(log', c.inputs.middlewareRotationAt)
  {
    assert forall i :: 0 <= i < |log| ==> log'[i] == log'[..|log|][i];
  }

  // An entry is only made by a request that the limiter lets in, after the entries before it.
  lemma ServingKeepsLogPaced(s: Session.State, due: nat, log: seq<Entry>, log': seq<Entry>, c: Call, now: nat)
    requires Logged(s, due, log, now) && Timed(c.inputs, now)
    requires log' == log || (Validates(s, due, c.req, c.inputs) && |log'| == |log| + 1 && log'[..|log|] == log)
    ensures PacedBy(DueAfter(s, due, c.req, c.inputs), log')
  {
    forall i | 0 <= i < |log'| - 1
      ensures DueAfter(s, due, c.req, c.inputs) >= CELL_MS * (log'[i].at + |log'| - 1 - i)
    {
      assert log'[i] == log'[..|log|][i];
    }
  }

  // Over every run of requests, whatever tokens and clients.
  lemma {:induction false} RunsAreRoomy(w: World, s: Session.State, due: nat, log: seq<Entry>, calls: seq<Call>,
                                        now: Session.Clock)
    requires Sound(w, s) && Logged(s, due, log, now) && TimedCalls(calls, now)
    ensures RoomyCalls(w, s, due, calls)
    decreases calls
  {
    if calls == [] {
    } else {
      var c := calls[0];
      if Validates(s, due, c.req, c.inputs) {
        AtMost421Live(s, due, log, now, c.inputs.checkedAt, c.inputs.cleanupAt);
      }
      ServingKeepsSound(w, s, due, c);
      ServingKeepsLogged(w, s, due, log, c, now);
      RunsAreRoomy(w, Replied(w, s, due, c.req, c.inputs).session, DueAfter(s, due, c.req, c.inputs),
                   LogAfter(w, s, due, log, c), calls[1..], c.inputs.middlewareRotationAt);
    }
  }

  // Whatever requests a server gets from its start on, with whatever tokens, through all token
  // rotations and in whatever state its limiter is: each nonce authorizes at most one
  // successful call.
  lemma EachNonceAuthorizesOneCall(w: World, s: Session.State, due: nat, calls: seq<Call>, now: Session.Clock, nonce: string)
    requires s.stamps == [] && TimedCalls(calls, now)
    ensures Successes(w, s, due, calls, nonce) <= 1
  {
    RunsAreRoomy(w, s, due, [], calls, now);
    RoomyNonceAuthorizesOneCall(w, s, due, calls, now, nonce);
  }
}
