/** The payment-token routes of both systems: build the signed token request
    for the 2C2P gateway, send it to the production or sandbox endpoint, and
    classify the gateway's reply. Signing, verifying and the HTTP call are
    oracles: the verified claims and the reply body are parameters. */
module Token {
  import opened Common

  const Https := "https://"
  const ProductionUrl := Https + "pgw.2c2p.com/payment/4.3/PaymentToken"
  const SandboxUrl := Https + "sandbox-pgw.2c2p.com/payment/4.3/PaymentToken"

  /** The FTI route's fixed frontend return URL. */
  const FtiFrontendUrl := Https + "ftie-payment-7vekz.kinsta.app/payment"

  /** The environment variables the routes read; `None` when unset. */
  datatype TokenEnv = TokenEnv(
    ftiMerchantId: Option<string>,      // FTI_2C2P_MERCHANT_ID
    publicMerchantId: Option<string>,   // NEXT_PUBLIC_2C2P_MERCHANT_ID
    ftiSecretKey: Option<string>,       // FTI_2C2P_SECRET_KEY
    publicSecretCode: Option<string>,   // NEXT_PUBLIC_2C2P_SECRET_CODE
    currencyCode: Option<string>,       // NEXT_PUBLIC_2C2P_CURRENCY_CODE
    backendReturnUrl: Option<string>,   // NEXT_PUBLIC_2C2P_BACKEND_RETURN_URL
    frontendReturnUrl: Option<string>,  // NEXT_PUBLIC_2C2P_FRONTEND_RETURN_URL
    environment: Option<string>)        // NEXT_PUBLIC_2C2P_ENVIRONMENT

  /** The JSON body the page posts. `amount` is what `parseFloat` made of it. */
  datatype TokenRequest = TokenRequest(
    invoiceNo: Option<string>,
    amount: Num,
    description: Option<string>,
    userDefined1: Option<string>,
    userDefined2: Option<string>,
    userDefined3: Option<string>,
    userDefined4: Option<string>,
    userDefined5: Option<string>)

  /** The values the routes draw from the clock and the random generator:
      `Date.now()` as decimal text, the six-character upper-case random
      suffix, the nonce and `iat` in seconds. */
  datatype Draws = Draws(nowMs: string, suffix: string, nonce: string, iat: int)

  /** The members of the signed token request that vary; the others are
      fixed constants of the route. */
  datatype TokenPayload = TokenPayload(
    merchantID: string,
    invoiceNo: string,
    description: string,
    amount: Num,
    currencyCode: string,
    invoicePrefix: string,
    userDefined: seq<string>,
    frontendReturnUrl: string,
    backendReturnUrl: string,
    nonceStr: string,
    iat: int)

  /** The one call made to the gateway. */
  datatype TokenCall = TokenCall(url: string, payload: TokenPayload)

  /** A claims object (`None` for a member that is absent), or a token whose
      payload was a bare string. */
  datatype Claims =
    | ClaimsObject(respCode: Option<string>, respDesc: Option<string>,
                   paymentToken: Option<string>, webPaymentUrl: Option<string>)
    | ClaimsText(text: string)

  /** The gateway's JSON reply body. */
  datatype RawReply = RawReply(
    payload: Option<string>,
    respCode: Option<string>,
    respDesc: Option<string>,
    paymentToken: Option<string>,
    webPaymentUrl: Option<string>)

  function AsClaims(r: RawReply): Claims {
    ClaimsObject(r.respCode, r.respDesc, r.paymentToken, r.webPaymentUrl)
  }

  datatype TokenReply =
    | ConfigMissing                  // 500
    | ProductionMerchantRejected     // 500 "Invalid Production Merchant ID"
    | BackendUrlNotHttps             // 500
    | FrontendUrlNotHttps            // 500
    | InternalError                  // 500: the call or its JSON body failed
    | GatewayError(details: string, respCode: Option<string>, causes: seq<string>)   // 400, no payload
    | DecodeFailed(fallbackCode: string)                                               // 400
    | BadFormat                                                                      // 400
    | TokenRefused(respCode: Option<string>, respDesc: Option<string>)              // 400
    | TokenIssued(paymentToken: Option<string>, webPaymentUrl: Option<string>,
                  respCode: Option<string>, respDesc: Option<string>)               // 200

  function TokenHttpStatus(r: TokenReply): nat {
    match r
    case ConfigMissing => 500
    case ProductionMerchantRejected => 500
    case BackendUrlNotHttps => 500
    case FrontendUrlNotHttps => 500
    case InternalError => 500
    case GatewayError(_, _, _) => 400
    case DecodeFailed(_) => 400
    case BadFormat => 400
    case TokenRefused(_, _) => 400
    case TokenIssued(_, _, _, _) => 200
  }

  /** What a route did: the gateway call it made, if any, and its reply. */
  datatype TokenOutcome = TokenOutcome(call: Option<TokenCall>, reply: TokenReply)

  /** Troubleshooting hints for a gateway error code. */
  function GetErrorCauses(respCode: Option<string>): (causes: seq<string>)
    ensures |causes| >= 1
    ensures causes == ["Unknown error"] <==> respCode !in {Some("9042"), Some("9015"), Some("9001"), Some("4001")}
  {
    if respCode == Some("9042") then
      ["Invalid request format", "Missing required fields in payload", "Invalid JWT token structure",
       "Production environment using sandbox credentials"]
    else if respCode == Some("9015") then
      ["Invoice number already exists in 2C2P system", "Duplicate transaction attempt"]
    else if respCode == Some("9001") then
      ["Invalid Merchant ID", "Invalid Secret Code", "Merchant not active"]
    else if respCode == Some("4001") then
      ["JWT signature verification failed", "Incorrect Secret Code used for signing"]
    else ["Unknown error"]
  }

  /** The short explanation table of the no-payload branch. */
  function ErrorDetail(respCode: Option<string>): (d: Option<string>)
    ensures d.Some? <==> respCode in {Some("9042"), Some("9015"), Some("9001"), Some("4001")}
  {
    if respCode == Some("9042") then Some("Invalid request format or missing required fields")
    else if respCode == Some("9015") then Some("Invoice number already exists")
    else if respCode == Some("9001") then Some("Invalid merchant ID or secret code")
    else if respCode == Some("4001") then Some("Invalid signature")
    else None
  }

  /** `respDesc || errorDetails[respCode] || 'Unknown error'` */
  function GatewayErrorDetails(r: RawReply): (d: string)
    ensures Filled(r.respDesc) ==> d == r.respDesc.value
    ensures !Filled(r.respDesc) && ErrorDetail(r.respCode).Some? ==> d == ErrorDetail(r.respCode).value
    ensures !Filled(r.respDesc) && ErrorDetail(r.respCode).None? ==> d == "Unknown error"
    ensures d != ""
  {
    if Filled(r.respDesc) then r.respDesc.value
    else if ErrorDetail(r.respCode).Some? then ErrorDetail(r.respCode).value
    else "Unknown error"
  }

  /** The gateway endpoint for an environment flag. */
  function Endpoint(environment: Option<string>): (url: string)
    ensures url == ProductionUrl <==> environment == Some("production")
    ensures url == SandboxUrl <==> environment != Some("production")
    ensures StartsWith(url, Https)
  {
    assert ProductionUrl[..|Https|] == Https && SandboxUrl[..|Https|] == Https;
    if environment == Some("production") then ProductionUrl else SandboxUrl
  }

  /** The FTI route takes the FTI variables first and the shared ones as fallback. */
  function FtiMerchant(env: TokenEnv): Option<string> {
    OrElse(env.ftiMerchantId, env.publicMerchantId)
  }

  function FtiSecret(env: TokenEnv): Option<string> {
    OrElse(env.ftiSecretKey, env.publicSecretCode)
  }

  /** The FTI invoice number: the caller's, or a generated `INV-<ms>-<suffix>`. */
  function FtiInvoice(invoiceNo: Option<string>, d: Draws): (inv: string)
    ensures Filled(invoiceNo) ==> inv == invoiceNo.value
    ensures !Filled(invoiceNo) ==> StartsWith(inv, "INV-")
  {
    if Filled(invoiceNo) then invoiceNo.value else "INV-" + d.nowMs + "-" + d.suffix
  }

  /** The GS1 invoice number: always rewritten, `GS1-<invoice>-<ms>` or
      `GS1-INV-<ms>-<suffix>`. */
  function Gs1Invoice(invoiceNo: Option<string>, d: Draws): (inv: string)
    ensures Filled(invoiceNo) ==> inv == "GS1-" + invoiceNo.value + "-" + d.nowMs
    ensures !Filled(invoiceNo) ==> StartsWith(inv, "GS1-INV-")
    ensures StartsWith(inv, "GS1-")
  {
    if Filled(invoiceNo) then "GS1-" + invoiceNo.value + "-" + d.nowMs
    else "GS1-INV-" + d.nowMs + "-" + d.suffix
  }

  /** The signed request of the FTI route. */
  function FtiPayload(env: TokenEnv, req: TokenRequest, d: Draws): (p: TokenPayload)
    requires Filled(FtiMerchant(env))
    ensures p.merchantID == FtiMerchant(env).value
    ensures p.invoiceNo == FtiInvoice(req.invoiceNo, d)
    ensures p.description == TextOr(req.description, "item 1")
    ensures p.currencyCode == TextOr(env.currencyCode, "THB")
    ensures p.amount == req.amount
    ensures p.invoicePrefix == ""
    ensures p.userDefined == [TextOr(req.userDefined1, ""), TextOr(req.userDefined2, ""), TextOr(req.userDefined3, ""),
                              TextOr(req.userDefined4, ""), TextOr(req.userDefined5, "")]
    ensures p.frontendReturnUrl == FtiFrontendUrl
    ensures p.backendReturnUrl == TextOr(env.backendReturnUrl, "")
    ensures p.nonceStr == d.nonce && p.iat == d.iat
  {
    TokenPayload(FtiMerchant(env).value, FtiInvoice(req.invoiceNo, d), TextOr(req.description, "item 1"),
                 req.amount, TextOr(env.currencyCode, "THB"), "",
                 [TextOr(req.userDefined1, ""), TextOr(req.userDefined2, ""), TextOr(req.userDefined3, ""),
                  TextOr(req.userDefined4, ""), TextOr(req.userDefined5, "")],
                 FtiFrontendUrl, TextOr(env.backendReturnUrl, ""), d.nonce, d.iat)
  }

  /** The signed request of the GS1 route: its user-defined members are always empty. */
  function Gs1Payload(env: TokenEnv, req: TokenRequest, d: Draws): (p: TokenPayload)
    requires Filled(env.publicMerchantId)
    ensures p.merchantID == env.publicMerchantId.value
    ensures p.invoiceNo == Gs1Invoice(req.invoiceNo, d)
    ensures p.description == TextOr(req.description, "item 1")
    ensures p.amount == req.amount && p.currencyCode == TextOr(env.currencyCode, "THB")
    ensures p.invoicePrefix == "GS1"
    ensures p.userDefined == ["", "", "", "", ""]
    ensures p.frontendReturnUrl == TextOr(env.frontendReturnUrl, "")
    ensures p.backendReturnUrl == TextOr(env.backendReturnUrl, "")
    ensures p.nonceStr == d.nonce && p.iat == d.iat
  {
    TokenPayload(env.publicMerchantId.value, Gs1Invoice(req.invoiceNo, d), TextOr(req.description, "item 1"),
                 req.amount, TextOr(env.currencyCode, "THB"), "GS1",
                 ["", "", "", "", ""],
                 TextOr(env.frontendReturnUrl, ""), TextOr(env.backendReturnUrl, ""), d.nonce, d.iat)
  }

  predicate Production(env: TokenEnv) {
    env.environment == Some("production")
  }

  /** The production guards of the FTI route, in order. */
  function ProductionCheck(env: TokenEnv): (r: Option<TokenReply>)
    ensures !Production(env) ==> r.None?
    // a missing merchant or the sandbox merchant is refused first
    ensures Production(env) && (!Filled(FtiMerchant(env)) || FtiMerchant(env) == Some("JT04")) ==>
      r == Some(ProductionMerchantRejected)
    // then a missing backend URL or one without "https://"
    ensures Production(env) && Filled(FtiMerchant(env)) && FtiMerchant(env) != Some("JT04")
            && (!Filled(env.backendReturnUrl) || !Contains(env.backendReturnUrl.value, Https)) ==>
      r == Some(BackendUrlNotHttps)
    // a production configuration passing both is accepted
    ensures Production(env) && Filled(FtiMerchant(env)) && FtiMerchant(env) != Some("JT04")
            && Filled(env.backendReturnUrl) && Contains(env.backendReturnUrl.value, Https) ==>
      r.None?
  {
    FtiFrontendUrlIsHttps();
    if !Production(env) then None
    else if !Filled(FtiMerchant(env)) || FtiMerchant(env) == Some("JT04") then Some(ProductionMerchantRejected)
    else if !Filled(env.backendReturnUrl) || !Contains(env.backendReturnUrl.value, Https) then Some(BackendUrlNotHttps)
    else if !Contains(FtiFrontendUrl, Https) then Some(FrontendUrlNotHttps)
    else None
  }

  /** The fixed frontend URL passes its own production check. */
  lemma FtiFrontendUrlIsHttps()
    ensures Contains(FtiFrontendUrl, Https)
  {
    assert FtiFrontendUrl[..|Https|] == Https;
  }

  /** How the FTI route classifies a gateway reply. `verify` is what verifying
      `reply.payload` with the secret gave; `None` means it threw. */
  function FtiClassify(reply: RawReply, verify: Option<Claims>): (r: TokenReply)
    ensures r.GatewayError? <==> !Filled(reply.payload)
    ensures r.GatewayError? ==>
      r == GatewayError(GatewayErrorDetails(reply), reply.respCode, GetErrorCauses(reply.respCode))
    ensures r.DecodeFailed? <==> Filled(reply.payload) && verify.None?
    ensures r.DecodeFailed? ==> r.fallbackCode == TextOr(reply.respCode, "JWT_ERROR")
    ensures r.BadFormat? <==>
      Filled(reply.payload) && verify.Some? && (verify.value.ClaimsText? || verify.value.respCode.None?)
    ensures r.TokenIssued? <==>
      Filled(reply.payload) && verify.Some? && verify.value.ClaimsObject? && verify.value.respCode == Some("0000")
    ensures r.TokenIssued? ==> r.paymentToken == verify.value.paymentToken && r.webPaymentUrl == verify.value.webPaymentUrl
    ensures r.TokenRefused? ==> r.respCode == verify.value.respCode && r.respDesc == verify.value.respDesc
  {
    if !Filled(reply.payload) then
      GatewayError(GatewayErrorDetails(reply), reply.respCode, GetErrorCauses(reply.respCode))
    else if verify.None? then DecodeFailed(TextOr(reply.respCode, "JWT_ERROR"))
    else
      match verify.value
      case ClaimsText(_) => BadFormat
      case ClaimsObject(code, desc, token, url) =>
        if code.None? then BadFormat
        else if code != Some("0000") then TokenRefused(code, desc)
        else TokenIssued(token, url, code, desc)
  }

  /** The FTI token route. `reply` is the gateway's JSON body, `None` when the
      call or its parsing failed. */
  function FtiToken(env: TokenEnv, req: TokenRequest, d: Draws,
                    reply: Option<RawReply>, verify: Option<Claims>): (o: TokenOutcome)
    // configuration first: no call without a merchant ID and a secret
    ensures o.reply == ConfigMissing <==> !Filled(FtiMerchant(env)) || !Filled(FtiSecret(env))
    // the production guards stop the route before the call
    ensures o.reply in {ProductionMerchantRejected, BackendUrlNotHttps} <==>
      Filled(FtiMerchant(env)) && Filled(FtiSecret(env)) && ProductionCheck(env).Some?
    // and the one that fired is the first in ProductionCheck's order
    ensures Filled(FtiMerchant(env)) && Filled(FtiSecret(env)) && ProductionCheck(env).Some? ==>
      o.reply == ProductionCheck(env).value
    ensures o.reply != FrontendUrlNotHttps
    ensures o.call.None? <==> o.reply in {ConfigMissing, ProductionMerchantRejected, BackendUrlNotHttps}
    ensures o.call.Some? ==> o.call.value == TokenCall(Endpoint(env.environment), FtiPayload(env, req, d))
    // success only on a verified "0000"
    ensures o.reply.TokenIssued? ==>
      reply.Some? && Filled(reply.value.payload) && verify.Some? && verify.value.ClaimsObject?
      && verify.value.respCode == Some("0000")
    ensures o.call.Some? && reply.Some? ==> o.reply == FtiClassify(reply.value, verify)
    ensures o.call.Some? && reply.None? ==> o.reply == InternalError
  {
    var merchant := FtiMerchant(env);
    var secret := FtiSecret(env);
    if !Filled(merchant) || !Filled(secret) then TokenOutcome(None, ConfigMissing)
    else
      FtiFrontendUrlIsHttps();
      var payload := FtiPayload(env, req, d);
      var guard := ProductionCheck(env);
      if guard.Some? then TokenOutcome(None, guard.value)
      else
        var call := TokenCall(Endpoint(env.environment), payload);
        if reply.None? then TokenOutcome(Some(call), InternalError)
        else TokenOutcome(Some(call), FtiClassify(reply.value, verify))
  }

  /** The GS1 route's decoded reply: the verified claims, or the raw body when
      verification throws (which it does for an absent or empty payload). */
  function Gs1Decoded(reply: RawReply, verify: Option<Claims>): (c: Claims)
    ensures !Filled(reply.payload) || verify.None? ==> c == AsClaims(reply)
    ensures Filled(reply.payload) && verify.Some? ==> c == verify.value
  {
    if Filled(reply.payload) && verify.Some? then verify.value else AsClaims(reply)
  }

  function Gs1Classify(c: Claims): (r: TokenReply)
    ensures r.TokenIssued? <==> c.ClaimsObject? && c.respCode == Some("0000")
    ensures r.TokenIssued? || r.TokenRefused?
    ensures r.TokenRefused? ==> r.respCode == (if c.ClaimsObject? then c.respCode else None)
    ensures r.TokenRefused? ==> r.respDesc == (if c.ClaimsObject? then c.respDesc else None)
    // an issued token hands back the gateway's own token, URL, code and description
    ensures r.TokenIssued? ==>
      r.paymentToken == c.paymentToken && r.webPaymentUrl == c.webPaymentUrl
      && r.respCode == c.respCode && r.respDesc == c.respDesc
  {
    match c
    case ClaimsText(_) => TokenRefused(None, None)
    case ClaimsObject(code, desc, token, url) =>
      if code == Some("0000") then TokenIssued(token, url, code, desc) else TokenRefused(code, desc)
  }

  /** The GS1 token route. */
  function Gs1Token(env: TokenEnv, req: TokenRequest, d: Draws,
                    reply: Option<RawReply>, verify: Option<Claims>): (o: TokenOutcome)
    ensures o.reply == ConfigMissing <==> !Filled(env.publicMerchantId) || !Filled(env.publicSecretCode)
    ensures o.call.None? <==> o.reply == ConfigMissing
    ensures o.call.Some? ==> o.call.value == TokenCall(Endpoint(env.environment), Gs1Payload(env, req, d))
    ensures o.call.Some? && reply.None? ==> o.reply == InternalError
    ensures o.call.Some? && reply.Some? ==> o.reply == Gs1Classify(Gs1Decoded(reply.value, verify))
    // no production guards, no decode error: every reply is issued or refused
    ensures o.reply in {ConfigMissing, InternalError} || o.reply.TokenIssued? || o.reply.TokenRefused?
  {
    if !Filled(env.publicMerchantId) || !Filled(env.publicSecretCode) then TokenOutcome(None, ConfigMissing)
    else
      var call := TokenCall(Endpoint(env.environment), Gs1Payload(env, req, d));
      if reply.None? then TokenOutcome(Some(call), InternalError)
      else TokenOutcome(Some(call), Gs1Classify(Gs1Decoded(reply.value, verify)))
  }

  /** The FTI route forwards a supplied invoice number unchanged; the GS1 route
      never does. */
  lemma InvoiceForwarding(env: TokenEnv, req: TokenRequest, d: Draws,
                          reply: Option<RawReply>, verify: Option<Claims>)
    requires Filled(req.invoiceNo)
    ensures var o := FtiToken(env, req, d, reply, verify);
      o.call.Some? ==> o.call.value.payload.invoiceNo == req.invoiceNo.value
    ensures var o := Gs1Token(env, req, d, reply, verify);
      o.call.Some? ==> o.call.value.payload.invoiceNo != req.invoiceNo.value
  {
    var inv := req.invoiceNo.value;
    var o := Gs1Token(env, req, d, reply, verify);
    if o.call.Some? {
      assert |o.call.value.payload.invoiceNo| == |"GS1-"| + |inv| + 1 + |d.nowMs|;
    }
  }

  /** The GS1 route issues a token on an unsigned reply: a body without
      `payload` whose own `respCode` is "0000" is accepted whatever the
      verifier says. The FTI route answers the same body with a gateway error. */
  lemma Gs1AcceptsUnsignedReply(env: TokenEnv, req: TokenRequest, d: Draws, reply: RawReply, verify: Option<Claims>)
    requires Filled(env.publicMerchantId) && Filled(env.publicSecretCode)
    requires Filled(FtiMerchant(env)) && Filled(FtiSecret(env)) && !Production(env)
    requires !Filled(reply.payload) && reply.respCode == Some("0000")
    ensures Gs1Token(env, req, d, Some(reply), verify).reply.TokenIssued?
    ensures FtiToken(env, req, d, Some(reply), verify).reply.GatewayError?
  {
  }
}
