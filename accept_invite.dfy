/** The invitation landing page (`GET /accept-invite?token=…`) and its
    `acceptInvite` form action. Every result of the store, of the session
    provider and of the account-existence check is an input value. */
module InvitePage {
  import opened Wrappers
  import opened Text
  import opened Schema

  const DefaultErrorMessage := "Invalid or expired invitation link."
  const LookupErrorMessage := "An error occurred while validating the invitation."
  const AcceptedMessage := "This invitation has already been accepted."
  const RevokedMessage := "This invitation has been revoked."
  const ExpiredMessage := "This invitation has expired."
  const AccountCheckMessage := "Could not verify account status. Please try logging in or signing up."

  const NotLoggedInMessage := "You must be logged in to accept."
  const MissingTokenMessage := "Missing invitation token."
  const UnexpectedErrorMessage := "An unexpected error occurred."
  const FailedToAcceptMessage := "Failed to accept invitation."

  // ---------------------------------------------------------------------
  // Inputs

  datatype SessionUser = SessionUser(id: string, email: Option<string>)

  /** A session as `safeGetSession` yields it; it may lack a user. */
  datatype Session = Session(user: Option<SessionUser>)

  /** Result of the `team_invitations` lookup by token (`maybeSingle`). */
  datatype InvitationLookup =
    | LookupFailed
    | LookupDone(row: Option<InvitationRow>)

  /** Result of the service-role `listUsers` query for the invited email:
      it failed (an error returned or thrown), or it listed some users. */
  datatype AccountCheck =
    | AccountCheckFailed
    | UsersListed(count: nat)

  /** Result of the `accept_team_invitation` remote procedure call. */
  datatype RpcResult =
    | RpcError
    | RpcData(rows: Option<seq<AcceptResultRow>>)

  // ---------------------------------------------------------------------
  // Outputs

  /** The page-specific view record the landing page returns. */
  datatype PageData = PageData(
    isValidToken: bool,
    message: Option<string>,
    teamName: Option<string>,
    invitedEmail: Option<string>,
    isLoggedInUserMatch: bool,
    accountExistsForEmail: Option<bool>,
    token: Option<string>)

  /** What the form action hands back: `fail(status, {message, token})`
      or a thrown `redirect(status, location)`. */
  datatype ActionOutcome =
    | Fail(status: int, message: string, token: Option<string>)
    | Redirect(status: int, location: string)

  // ---------------------------------------------------------------------
  // Vocabulary

  /** `session?.user?.email ?? null` */
  function LoggedInEmail(session: Option<Session>): Option<string> {
    if session.Some? && session.value.user.Some? then session.value.user.value.email else None
  }

  /** `session?.user` is truthy. */
  predicate LoggedIn(session: Option<Session>) {
    session.Some? && session.value.user.Some?
  }

  /** The record the page starts from, before any check has run. */
  function InitialPage(token: Option<string>): PageData {
    PageData(false, Some(DefaultErrorMessage), None, None, false, None, token)
  }

  /** The lookup found an invitation whose team join is present. */
  predicate FoundWithTeam(lookup: InvitationLookup) {
    lookup.LookupDone? && lookup.row.Some? && lookup.row.value.team.Some?
  }

  /** The message shown for an invitation that is no longer pending. */
  function StatusMessage(status: string): (m: string)
    ensures m != ""
  {
    if status == "accepted" then AcceptedMessage
    else if status == "revoked" then RevokedMessage
    else if status == "expired" then ExpiredMessage
    else DefaultErrorMessage
  }

  /** `rpcResponseArray?.[0]` */
  function FirstRow(rpc: RpcResult): Option<AcceptResultRow> {
    if rpc.RpcData? && rpc.rows.Some? && |rpc.rows.value| > 0 then Some(rpc.rows.value[0]) else None
  }

  /** The procedure reported success in its first row. */
  predicate Succeeded(rpc: RpcResult) {
    FirstRow(rpc).Some? && FirstRow(rpc).value.success
  }

  // ---------------------------------------------------------------------
  // The landing page

  /** `load`: start from the invalid default record and overwrite its fields
      step by step, returning at the first check that fails. */
  method Load(token: Option<string>, session: Option<Session>, lookup: InvitationLookup, accountCheck: AccountCheck)
    returns (page: PageData)
    // the page echoes the query parameter, and a page is valid exactly when it shows no message
    ensures page.token == token
    ensures page.isValidToken <==> page.message.None?
    ensures page.isValidToken ==> page.teamName.Some? && page.invitedEmail.Some?
    ensures page.isLoggedInUserMatch ==> page.isValidToken && page.invitedEmail == LoggedInEmail(session)
    ensures page.accountExistsForEmail.Some? ==> session.None? && page.isValidToken
    // the early exits
    ensures !Present(token) ==> page == InitialPage(token)
    ensures Present(token) && lookup.LookupFailed? ==>
      page == InitialPage(token).(message := Some(LookupErrorMessage))
    ensures Present(token) && lookup.LookupDone? && !FoundWithTeam(lookup) ==> page == InitialPage(token)
    ensures Present(token) && FoundWithTeam(lookup) && lookup.row.value.status != "pending" ==>
      page == InitialPage(token).(message := Some(StatusMessage(lookup.row.value.status)))
    // a pending invitation
    ensures Present(token) && FoundWithTeam(lookup) && lookup.row.value.status == "pending" ==>
      var row := lookup.row.value;
      var checked := session.None? && row.invitedUserEmail != "";
      && page.teamName == Some(row.team.value.name)
      && page.invitedEmail == Some(row.invitedUserEmail)
      && (page.isLoggedInUserMatch <==> LoggedInEmail(session) == Some(row.invitedUserEmail))
      && (page.isValidToken <==> !(checked && accountCheck.AccountCheckFailed?))
      && (!page.isValidToken ==> page.message == Some(AccountCheckMessage))
      && page.accountExistsForEmail ==
           (if checked && accountCheck.UsersListed? then Some(accountCheck.count > 0) else None)
  {
    var loggedInUserEmail := LoggedInEmail(session);
    page := InitialPage(token);

    if !Present(token) {
      return;
    }

    if lookup.LookupFailed? {
      page := page.(message := Some(LookupErrorMessage));
      return;
    }

    if lookup.row.None? || lookup.row.value.team.None? {
      page := page.(message := Some(DefaultErrorMessage));
      return;
    }
    var invite := lookup.row.value;

    if invite.status != "pending" {
      page := page.(message := Some(StatusMessage(invite.status)));
      return;
    }

    page := page.(isValidToken := true);
    page := page.(message := None);
    page := page.(teamName := Some(invite.team.value.name));
    page := page.(invitedEmail := Some(invite.invitedUserEmail));
    page := page.(isLoggedInUserMatch := loggedInUserEmail == Some(invite.invitedUserEmail));

    if session.None? && Present(page.invitedEmail) {
      match accountCheck {
        case UsersListed(count) =>
          page := page.(accountExistsForEmail := Some(count > 0));
        case AccountCheckFailed =>
          page := page.(message := Some(AccountCheckMessage));
          page := page.(isValidToken := false);
      }
    }
  }

  // ---------------------------------------------------------------------
  // The form action

  /** `actions.acceptInvite`: a chain of early-return guards. */
  function AcceptInvite(session: Option<Session>, token: Option<string>, rpc: RpcResult): (r: ActionOutcome)
    // every failure echoes the submitted token with a non-blank message and a 4xx/5xx code
    ensures r.Fail? ==> r.token == token && r.message != "" && r.status in {400, 401, 500}
    // the guards, in order: login first, then the token, then the call itself
    ensures !LoggedIn(session) ==> r == Fail(401, NotLoggedInMessage, token)
    ensures LoggedIn(session) && !Present(token) ==> r == Fail(400, MissingTokenMessage, token)
    ensures LoggedIn(session) && Present(token) && rpc.RpcError? ==> r == Fail(500, UnexpectedErrorMessage, token)
    // a refusal by the procedure shows its own message, or the default when it gave none
    ensures LoggedIn(session) && Present(token) && rpc.RpcData? && !Succeeded(rpc) ==>
      && r.Fail? && r.status == 400
      && (r.message == FailedToAcceptMessage
          || (FirstRow(rpc).Some? && FirstRow(rpc).value.message == Some(r.message)))
      && (FirstRow(rpc).Some? && Present(FirstRow(rpc).value.message) ==>
            r.message == FirstRow(rpc).value.message.value)
    // the only way through is a successful procedure call by a logged-in user with a token
    ensures r.Redirect? <==> LoggedIn(session) && Present(token) && rpc.RpcData? && Succeeded(rpc)
    ensures r.Redirect? ==> r.status == 303
    ensures r.Redirect? && Present(FirstRow(rpc).value.teamId) ==>
      r.location == "/teams/" + FirstRow(rpc).value.teamId.value
    ensures r.Redirect? && !Present(FirstRow(rpc).value.teamId) ==> r.location == "/dashboard"
  {
    if !LoggedIn(session) then
      Fail(401, NotLoggedInMessage, token)
    else if !Present(token) then
      Fail(400, MissingTokenMessage, token)
    else if rpc.RpcError? then
      Fail(500, UnexpectedErrorMessage, token)
    else if !Succeeded(rpc) then
      var row := FirstRow(rpc);
      Fail(400, if row.Some? && Present(row.value.message) then row.value.message.value else FailedToAcceptMessage, token)
    else if Present(FirstRow(rpc).value.teamId) then
      Redirect(303, "/teams/" + FirstRow(rpc).value.teamId.value)
    else
      Redirect(303, "/dashboard")
  }
}

module InvitePageFacts {
  import opened Wrappers
  import opened Text
  import opened Schema
  import opened InvitePage

  /** Each of the three known terminal statuses has a message of its own;
      every other non-pending string falls back to the default message. */
  lemma StatusMessageDistinguishes(status: string)
    ensures StatusMessage(status) == DefaultErrorMessage <==>
      status != "accepted" && status != "revoked" && status != "expired"
    ensures status == "accepted" ==> StatusMessage(status) == AcceptedMessage
    ensures status == "revoked" ==> StatusMessage(status) == RevokedMessage
    ensures status == "expired" ==> StatusMessage(status) == ExpiredMessage
  {
  }

  /** The redirect location tells whether the procedure returned a team id:
      it is the dashboard exactly when it did not. */
  lemma RedirectShowsTeam(session: Option<Session>, token: Option<string>, rpc: RpcResult)
    requires AcceptInvite(session, token, rpc).Redirect?
    ensures var location := AcceptInvite(session, token, rpc).location;
      location == "/dashboard" <==> !Present(FirstRow(rpc).value.teamId)
  {
    var teamId := FirstRow(rpc).value.teamId;
    if Present(teamId) {
      var location := "/teams/" + teamId.value;
      assert location[1] == 't' != "/dashboard"[1];
    }
  }
}
