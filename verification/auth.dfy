/**
  The request guard of middlewares/auth.go: find a token in the
  Authorization header ("Bearer <token>") or, failing that, in the "token"
  query parameter; verify it; and leave its "user_id" claim in the request
  context for the handlers. Signature and expiry checking is an oracle.
 */
module Auth {
  import opened Models
  import Store
  import AI
  import Hub
  import Sensor

  const BearerPrefix: string := "Bearer "

  predicate HasPrefix(s: string, prefix: string)
  {
    |prefix| <= |s| && s[..|prefix|] == prefix
  }

  /** The token the middleware goes on with: the header's text after
      "Bearer " when that is non-empty, else the query parameter. */
  function TokenOf(authHeader: string, queryToken: string): (token: string)
    ensures HasPrefix(authHeader, BearerPrefix) && |authHeader| > |BearerPrefix| ==>
              token == authHeader[|BearerPrefix|..]
    ensures !(HasPrefix(authHeader, BearerPrefix) && |authHeader| > |BearerPrefix|) ==> token == queryToken
  {
    if HasPrefix(authHeader, BearerPrefix) && authHeader[|BearerPrefix|..] != "" then authHeader[|BearerPrefix|..]
    else queryToken
  }

  /** Lines 16-27 of AuthMiddleware, step by step. */
  method ExtractToken(authHeader: string, queryToken: string) returns (token: string)
    ensures token == TokenOf(authHeader, queryToken)
  {
    token := "";
    if HasPrefix(authHeader, BearerPrefix) {
      token := authHeader[|BearerPrefix|..];
    }
    if token == "" {
      token := queryToken;
    }
  }

  /** A header token always wins over the query parameter, and the prefix
      goes back on to give the header. */
  lemma HeaderTokenWins(token: string, queryToken: string)
    requires token != ""
    ensures TokenOf(BearerPrefix + token, queryToken) == token
  {
    assert (BearerPrefix + token)[..|BearerPrefix|] == BearerPrefix;
    assert (BearerPrefix + token)[|BearerPrefix|..] == token;
  }

  /** The middleware finds no token exactly when the header carries none
      and the query parameter is empty. */
  lemma NoTokenIffBothEmpty(authHeader: string, queryToken: string)
    ensures TokenOf(authHeader, queryToken) == "" <==>
              !(HasPrefix(authHeader, BearerPrefix) && |authHeader| > |BearerPrefix|) && queryToken == ""
  {
  }

  /** The few parts of gin.Context the middleware touches. */
  class Context {
    var userId: Option<ClaimValue>
    var status: Option<HttpStatus>
    var aborted: bool
    var nextCalled: bool

    constructor ()
      ensures userId == None && status == None && !aborted && !nextCalled
    {
      userId := None;
      status := None;
      aborted := false;
      nextCalled := false;
    }
  }

  /** Whether the middleware lets the request through to the handler. */
  predicate Admits(authHeader: string, queryToken: string, parse: string -> Option<map<string, ClaimValue>>)
  {
    var token := TokenOf(authHeader, queryToken);
    token != "" && parse(token).Some? && "user_id" in parse(token).value
  }

  /** AuthMiddleware. `parse` stands for jwt.ParseWithClaims with the
      server's key: None when the token does not verify, otherwise its claims. */
  method AuthMiddleware(ctx: Context, authHeader: string, queryToken: string,
                        parse: string -> Option<map<string, ClaimValue>>)
    modifies ctx
    ensures !Admits(authHeader, queryToken, parse) ==>
              ctx.status == Some(Unauthorized) && ctx.aborted && ctx.nextCalled == old(ctx.nextCalled) &&
              ctx.userId == old(ctx.userId)
    ensures Admits(authHeader, queryToken, parse) ==>
              ctx.userId == Some(parse(TokenOf(authHeader, queryToken)).value["user_id"]) &&
              ctx.nextCalled && ctx.aborted == old(ctx.aborted) && ctx.status == old(ctx.status)
  {
    var token := ExtractToken(authHeader, queryToken);
    if token == "" {
      ctx.status := Some(Unauthorized);
      ctx.aborted := true;
      return;
    }
    var claims := parse(token);
    if claims.None? {
      ctx.status := Some(Unauthorized);
      ctx.aborted := true;
      return;
    }
    if "user_id" !in claims.value {
      ctx.status := Some(Unauthorized);
      ctx.aborted := true;
      return;
    }
    ctx.userId := Some(claims.value["user_id"]);
    ctx.nextCalled := true;
  }

  /** POST /sensor-data behind the middleware: the handler runs only when
      the middleware calls next, with the claim it stored. A request without
      any token is answered 401 and changes nothing. */
  method GuardedReceiveData(authHeader: string, queryToken: string, parse: string -> Option<map<string, ClaimValue>>,
                            body: Option<SensorData>, now: int, flag: AI.AIFlag, db: Store.Database, hub: Hub.Hub,
                            service: AI.PredictionService, historyFails: bool, newId: Option<nat>,
                            failing: set<Hub.ConnId>, countFails: set<Hub.ConnId>)
    returns (status: HttpStatus)
    modifies db`records, hub`sent, service`requests
    ensures !Admits(authHeader, queryToken, parse) ==>
              status == Unauthorized &&
              db.records == old(db.records) && hub.sent == old(hub.sent) && service.requests == old(service.requests)
    ensures Admits(authHeader, queryToken, parse) ==> status != Unauthorized
  {
    var ctx := new Context();
    AuthMiddleware(ctx, authHeader, queryToken, parse);
    if !ctx.nextCalled {
      return ctx.status.value;
    }
    status := Sensor.ReceiveData(ctx.userId, body, now, flag, db, hub, service, historyFails, newId, failing, countFails);
  }
}
