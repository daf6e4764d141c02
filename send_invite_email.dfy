/** The `send-invite-email` edge function: check the configuration and the
    request payload, build the accept link and the email, hand it to the
    email provider and map the provider's answer to an HTTP response.
    The environment, the parsed request body and the outcome of the call
    to the provider are inputs. */
module SendInviteEmail {
  import opened Wrappers
  import opened Text

  const ResendApiUrl := "https://api.resend.com/emails"
  const AcceptInvitePath := "/accept-invite?token="
  const DefaultInviterName := "Someone"

  const ConfigErrorMessage := "Server configuration error: Missing email environment variables."
  const MissingFieldsMessage := "Missing required fields: to, token, teamName"
  const UpstreamErrorPrefix := "Failed to send email via Resend: "
  const SentMessage := "Invitation email sent."
  const InternalErrorMessage := "Internal Server Error"

  /** The shared CORS headers every response carries. */
  const CorsHeaders: map<string, string> := map[
    "Access-Control-Allow-Origin" := "*",
    "Access-Control-Allow-Headers" := "authorization, x-client-info, apikey, content-type"]

  /** `{ ...corsHeaders, "Content-Type": "application/json" }` */
  const JsonHeaders: map<string, string> := CorsHeaders["Content-Type" := "application/json"]

  // ---------------------------------------------------------------------
  // Inputs

  /** `RESEND_API_KEY`, `APP_BASE_URL` and `EMAIL_FROM_ADDRESS`; `None`
      when the variable is unset. */
  datatype Env = Env(resendApiKey: Option<string>, appBaseUrl: Option<string>, emailFromAddress: Option<string>)

  /** A member of the JSON request object: missing (`undefined`), `null`,
      or a string. */
  datatype JsonField = Absent | Null | Str(s: string)

  /** A value thrown inside the handler and caught by its `catch` block. */
  datatype Thrown = ErrorInstance(message: string) | ThrownString(s: string) | OtherThrown

  /** The request body: reading or destructuring it threw, or it is an
      object with these members. */
  datatype RequestBody =
    | Unreadable(error: Thrown)
    | Payload(to: JsonField, token: JsonField, teamName: JsonField, inviterName: JsonField)

  /** The call to the email provider: it threw (network failure, or the
      error body could not be read), or the provider answered. */
  datatype Upstream =
    | FetchThrew(error: Thrown)
    | Replied(ok: bool, errorBody: string)

  // ---------------------------------------------------------------------
  // Outputs

  datatype ResponseBody =
    | NoBody
    | ErrorJson(error: string)
    | SuccessJson(success: bool, message: string)

  datatype Response = Response(status: int, headers: map<string, string>, body: ResponseBody)

  /** The JSON payload posted to the email provider. */
  datatype EmailPayload = EmailPayload(from: string, to: seq<string>, subject: string, html: string, text: string)

  /** The call to the email provider: endpoint, HTTP method, `Authorization`
      and `Content-Type` headers, and the JSON payload. */
  datatype ProviderRequest = ProviderRequest(
    url: string,
    httpMethod: string,
    authorization: string,
    contentType: string,
    payload: EmailPayload)

  /** What one request causes: the provider call it made, if any, and the
      response it returned. */
  datatype Exchange = Exchange(sent: Option<ProviderRequest>, response: Response)

  // ---------------------------------------------------------------------
  // Validation

  /** JavaScript truthiness of a request member. */
  predicate Truthy(f: JsonField) {
    f.Str? && f.s != ""
  }

  /** All three environment variables are set and non-empty. */
  predicate Configured(env: Env) {
    Present(env.resendApiKey) && Present(env.appBaseUrl) && Present(env.emailFromAddress)
  }

  /** The body was read and `to`, `token` and `teamName` are all truthy. */
  predicate Complete(body: RequestBody) {
    body.Payload? && Truthy(body.to) && Truthy(body.token) && Truthy(body.teamName)
  }

  /** The destructuring default `inviterName = "Someone"`, rendered into a
      template: the default replaces only a missing member, and `null`
      renders as the text "null". */
  function InviterName(f: JsonField): (name: string)
    ensures f.Str? ==> name == f.s
    ensures name == DefaultInviterName <==> f.Absent? || f == Str(DefaultInviterName)
  {
    match f
    case Absent => DefaultInviterName
    case Null => "null"
    case Str(s) => s
  }

  /** The message the `catch` block reports for a thrown value: the thrown
      text itself when there is one, else a fixed fallback. */
  function ErrorMessage(e: Thrown): (m: string)
    // an `Error` or a string is reported verbatim
    ensures e.ErrorInstance? ==> m == e.message
    ensures e.ThrownString? ==> m == e.s
    // the fallback text shows exactly when nothing readable was thrown, or
    // when the thrown text happens to be the fallback itself
    ensures m == InternalErrorMessage <==>
      e.OtherThrown? || e == ErrorInstance(InternalErrorMessage) || e == ThrownString(InternalErrorMessage)
    // any other reported text is what was thrown
    ensures m != InternalErrorMessage ==> e == ErrorInstance(m) || e == ThrownString(m)
  {
    match e
    case ErrorInstance(message) => message
    case ThrownString(s) => s
    case OtherThrown => InternalErrorMessage
  }

  // ---------------------------------------------------------------------
  // The link and the email

  /** The accept link: one trailing `/` of the base URL is dropped, then
      the landing page path and the token are appended. */
  function InviteLink(appBaseUrl: string, token: string): (link: string)
    // a trailing slash of the base doubles as the path's leading slash
    ensures !EndsWithSlash(appBaseUrl) ==> link == appBaseUrl + AcceptInvitePath + token
    ensures EndsWithSlash(appBaseUrl) ==> link == appBaseUrl + AcceptInvitePath[1..] + token
    // the token is the tail of the link
    ensures |token| <= |link| && link[|link| - |token|..] == token
  {
    var baseUrl := if EndsWithSlash(appBaseUrl) then appBaseUrl[..|appBaseUrl| - 1] else appBaseUrl;
    assert EndsWithSlash(appBaseUrl) ==> appBaseUrl == baseUrl + "/";
    baseUrl + AcceptInvitePath + token
  }

  function Subject(teamName: string): string {
    "You're invited to join the " + teamName + " team!"
  }

  // The fixed text around the three values spliced into each body.
  const HtmlBeforeInviter := "\n      <p>Hi there,</p>\n      <p>"
  const HtmlBeforeTeam := " has invited you to join the <strong>"
  const HtmlBeforeLink := "</strong> team on our platform.</p>\n      <p>Click the link below to accept the invitation:</p>\n      <p><a href=\""
  const HtmlAfterLink := "\">Accept Invitation</a></p>\n      <p>If you did not expect this invitation, you can safely ignore this email.</p>\n      <p>Thanks,</p>\n      <p>The Team</p>\n    "
  const TextBeforeInviter := "\n      Hi there,\n\n      "
  const TextBeforeTeam := " has invited you to join the "
  const TextBeforeLink := " team on our platform.\n\n      Accept the invitation here: "
  const TextAfterLink := "\n\n      If you did not expect this invitation, you can safely ignore this email.\n\n      Thanks,\nThe Team\n    "

  function HtmlBody(inviterName: string, teamName: string, inviteLink: string): (html: string)
    ensures Contains(html, inviterName) && Contains(html, teamName) && Contains(html, inviteLink)
  {
    ContainsEachHole(HtmlBeforeInviter, inviterName, HtmlBeforeTeam, teamName, HtmlBeforeLink, inviteLink, HtmlAfterLink);
    HtmlBeforeInviter + inviterName + HtmlBeforeTeam + teamName + HtmlBeforeLink + inviteLink + HtmlAfterLink
  }

  function TextBody(inviterName: string, teamName: string, inviteLink: string): (text: string)
    ensures Contains(text, inviterName) && Contains(text, teamName) && Contains(text, inviteLink)
  {
    ContainsEachHole(TextBeforeInviter, inviterName, TextBeforeTeam, teamName, TextBeforeLink, inviteLink, TextAfterLink);
    TextBeforeInviter + inviterName + TextBeforeTeam + teamName + TextBeforeLink + inviteLink + TextAfterLink
  }

  /** The provider payload: sent from the configured address to exactly
      the invited address, with the fixed subject and both bodies naming
      the team and carrying the accept link. */
  function BuildEmail(fromEmail: string, to: string, teamName: string, inviterName: string, inviteLink: string)
    : (p: EmailPayload)
    ensures p.from == fromEmail && p.to == [to]
    ensures p.subject == "You're invited to join the " + teamName + " team!"
    ensures Contains(p.html, inviteLink) && Contains(p.html, teamName) && Contains(p.html, inviterName)
    ensures Contains(p.text, inviteLink) && Contains(p.text, teamName) && Contains(p.text, inviterName)
  {
    EmailPayload(
      from := fromEmail,
      to := [to],
      subject := Subject(teamName),
      html := HtmlBody(inviterName, teamName, inviteLink),
      text := TextBody(inviterName, teamName, inviteLink))
  }

  // ---------------------------------------------------------------------
  // The handler

  /** The request the handler sends for a configured environment and a
      complete body. */
  function ProviderCall(env: Env, body: RequestBody): (call: ProviderRequest)
    requires Configured(env) && Complete(body)
    ensures call.url == ResendApiUrl && call.httpMethod == "POST" && call.contentType == "application/json"
    ensures call.authorization == "Bearer " + env.resendApiKey.value
    ensures call.payload.from == env.emailFromAddress.value && call.payload.to == [body.to.s]
    ensures call.payload.subject == "You're invited to join the " + body.teamName.s + " team!"
    ensures var link := InviteLink(env.appBaseUrl.value, body.token.s);
      && Contains(call.payload.html, link) && Contains(call.payload.text, link)
      && Contains(call.payload.html, body.teamName.s) && Contains(call.payload.text, body.teamName.s)
      && Contains(call.payload.html, InviterName(body.inviterName))
      && Contains(call.payload.text, InviterName(body.inviterName))
  {
    var link := InviteLink(env.appBaseUrl.value, body.token.s);
    ProviderRequest(
      ResendApiUrl,
      "POST",
      "Bearer " + env.resendApiKey.value,
      "application/json",
      BuildEmail(env.emailFromAddress.value, body.to.s, body.teamName.s, InviterName(body.inviterName), link))
  }

  function Handle(httpMethod: string, env: Env, body: RequestBody, upstream: Upstream): (r: Exchange)
    // every response carries the CORS headers; the status is one of five
    ensures forall k :: k in CorsHeaders ==> k in r.response.headers && r.response.headers[k] == CorsHeaders[k]
    ensures r.response.status in {204, 200, 400, 500, 502}
    // a preflight request is answered at once
    ensures httpMethod == "OPTIONS" ==> r == Exchange(None, Response(204, CorsHeaders, NoBody))
    ensures httpMethod != "OPTIONS" ==> r.response.headers == JsonHeaders && r.response.body != NoBody
    // configuration is checked before the body is looked at
    ensures httpMethod != "OPTIONS" && !Configured(env) ==>
      r == Exchange(None, Response(500, JsonHeaders, ErrorJson(ConfigErrorMessage)))
    ensures httpMethod != "OPTIONS" && Configured(env) && body.Unreadable? ==>
      r == Exchange(None, Response(500, JsonHeaders, ErrorJson(ErrorMessage(body.error))))
    ensures httpMethod != "OPTIONS" && Configured(env) && body.Payload? && !Complete(body) ==>
      r == Exchange(None, Response(400, JsonHeaders, ErrorJson(MissingFieldsMessage)))
    // the provider is called exactly for a configured, complete request
    ensures r.sent.Some? <==> httpMethod != "OPTIONS" && Configured(env) && Complete(body)
    ensures r.sent.Some? ==> r.sent.value == ProviderCall(env, body)
    // the provider's answer decides the rest
    ensures r.response.status == 200 <==> r.sent.Some? && upstream.Replied? && upstream.ok
    ensures r.response.status == 200 ==> r.response.body == SuccessJson(true, SentMessage)
    ensures r.response.status == 502 <==> r.sent.Some? && upstream.Replied? && !upstream.ok
    ensures r.response.status == 502 ==> r.response.body == ErrorJson(UpstreamErrorPrefix + upstream.errorBody)
    ensures r.sent.Some? && upstream.FetchThrew? ==>
      r.response == Response(500, JsonHeaders, ErrorJson(ErrorMessage(upstream.error)))
  {
    if httpMethod == "OPTIONS" then
      Exchange(None, Response(204, CorsHeaders, NoBody))
    else if !Configured(env) then
      Exchange(None, Response(500, JsonHeaders, ErrorJson(ConfigErrorMessage)))
    else if body.Unreadable? then
      Exchange(None, Response(500, JsonHeaders, ErrorJson(ErrorMessage(body.error))))
    else if !Complete(body) then
      Exchange(None, Response(400, JsonHeaders, ErrorJson(MissingFieldsMessage)))
    else
      var call := ProviderCall(env, body);
      match upstream
      case FetchThrew(error) =>
        Exchange(Some(call), Response(500, JsonHeaders, ErrorJson(ErrorMessage(error))))
      case Replied(ok, errorBody) =>
        if !ok then
          Exchange(Some(call), Response(502, JsonHeaders, ErrorJson(UpstreamErrorPrefix + errorBody)))
        else
          Exchange(Some(call), Response(200, JsonHeaders, SuccessJson(true, SentMessage)))
  }

  // ---------------------------------------------------------------------
  // Properties of the accept link

  /** Two invitations with different tokens get different links. */
  lemma InviteLinkInjective(appBaseUrl: string, token1: string, token2: string)
    requires InviteLink(appBaseUrl, token1) == InviteLink(appBaseUrl, token2)
    ensures token1 == token2
  {
  }

  /** Configuring the base URL with or without one trailing slash yields
      the same link. */
  lemma InviteLinkIgnoresTrailingSlash(appBaseUrl: string, token: string)
    requires !EndsWithSlash(appBaseUrl)
    ensures InviteLink(appBaseUrl + "/", token) == InviteLink(appBaseUrl, token)
  {
  }

  /** Only one trailing slash is dropped: a base ending in two slashes
      keeps one of them in front of the landing page path. */
  lemma InviteLinkDropsOneSlash(appBaseUrl: string, token: string)
    requires EndsWithSlash(appBaseUrl)
    ensures InviteLink(appBaseUrl + "/", token) == appBaseUrl + AcceptInvitePath + token
  {
  }

  // ---------------------------------------------------------------------
  // Properties of the error path

  /** Whatever text is thrown while the body is read or while the provider
      is called reaches the 500 response unchanged, and nothing is sent
      when reading the body fails. */
  lemma CaughtTextReachesResponse(httpMethod: string, env: Env, body: RequestBody, upstream: Upstream, text: string)
    requires httpMethod != "OPTIONS" && Configured(env)
    requires body == Unreadable(ErrorInstance(text)) || body == Unreadable(ThrownString(text))
      || (Complete(body) && (upstream == FetchThrew(ErrorInstance(text)) || upstream == FetchThrew(ThrownString(text))))
    ensures var r := Handle(httpMethod, env, body, upstream);
      && r.response.status == 500
      && r.response.body == ErrorJson(text)
      && (r.sent.Some? <==> body.Payload?)
  {
  }
}
