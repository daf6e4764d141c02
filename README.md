# Team invitations: landing page, accept action and invite email

This project models the two pieces of request-handling logic around team
invitations in a multi-tenant project-management application, and proves
what they promise.

- **The invitation landing page** (`GET /accept-invite?token=…`). Its `load`
  step classifies an invitation lookup into the page's view record
  (`isValidToken`, `message`, `teamName`, `invitedEmail`,
  `isLoggedInUserMatch`, `accountExistsForEmail`, `token`). It starts from an
  "invalid link" record and overwrites fields step by step. The model is the
  method `InvitePage.Load`, which updates a `PageData` value field by field in
  the same order. Its form action `acceptInvite` is a chain of guards ending in
  `fail(code, {message, token})` or `redirect(303, path)`. The model is the
  function `InvitePage.AcceptInvite`.
- **The `send-invite-email` edge function.** It checks three environment
  variables, then the request payload. It builds the accept link, subject and
  bodies, posts the email to the provider and maps the answer to an HTTP
  status (204, 500, 400, 502 or 200). The model is the pure function
  `SendInviteEmail.Handle`. It returns the provider request it would send, if
  any, together with the response.

Every input/output result is an input value of the model:

- the session;
- the result of the `team_invitations` query (`InvitationLookup`);
- the result of the service-role user listing (`AccountCheck`);
- the result of the `accept_team_invitation` procedure (`RpcResult`);
- the environment variables (`Env`);
- the request body (`RequestBody`);
- the outcome of the call to the email provider (`Upstream`).

JavaScript truthiness is explicit. An optional string counts as present
(`Text.Present`) only when it is non-null and non-empty. A JSON member is
`Absent`, `Null` or a string. The `inviterName = "Someone"` default replaces
only an absent member. A `null` inviter name renders as the text `null`.

The landing page decides whether the logged-in user matches the invitation
by exact, case-sensitive string equality of the two emails. A case-insensitive
match would be the natural reading, but the model follows the code. The
invitation `status` column is a free string. `accepted`, `revoked` and
`expired` each have their own message. Every other non-pending value,
`declined` among them, gets the default "Invalid or expired invitation link."

Files: `text.dfy` (the `Option` type, truthiness, `endsWith`, substring
containment), `schema.dfy` (row shapes and the `team_role` enum),
`accept_invite.dfy` (the landing page, the action and lemmas about them),
`send_invite_email.dfy` (the edge function and lemmas about the accept link).

## Model

| member | source | states |
|---|---|---|
| `InvitePage.Load` | src/routes/accept-invite/+page.server.ts:5-110 | The page echoes the token. It is valid exactly when it has no message, and a valid page names the team and the invitee. A missing or empty token, a query error, a missing row or team join, and a non-pending status each return the initial invalid record, with the default, the query-error or the status-specific message. A pending invitation copies the team name and invited email. The user matches exactly when the session email equals the invited email. The account check runs only without a session and with a non-empty invited email. A failed check makes the page invalid with the "Could not verify account status…" message. A successful check sets `accountExistsForEmail` to whether any user was listed. A match implies a valid page. |
| `InvitePageFacts.StatusMessageDistinguishes` | src/routes/accept-invite/+page.server.ts:59-68 | `accepted`, `revoked` and `expired` each get their own message. Any other status string gets the default message, and only those strings do. |
| `InvitePage.AcceptInvite` | src/routes/accept-invite/+page.server.ts:112-155 | Every failure echoes the token, has a non-blank message and a code of 400, 401 or 500. A missing login gives 401, checked before the token and the procedure call. A missing or empty token then gives 400 "Missing invitation token.", and an RPC error gives 500. An empty result or `success = false` gives 400 with the procedure's message, or "Failed to accept invitation." when that message is blank. The action redirects exactly when a logged-in user with a token gets a successful first row. The redirect is a 303 to `/teams/<team_id>`, or to `/dashboard` without a team id. |
| `InvitePageFacts.RedirectShowsTeam` | src/routes/accept-invite/+page.server.ts:147-154 | A redirect goes to `/dashboard` exactly when the procedure returned no team id. |
| `SendInviteEmail.InviterName` | supabase/functions/send-invite-email/index.ts:46-51 | A string inviter name is used as is. The text "Someone" appears exactly when the member is absent or is literally "Someone", so `null` and `""` do not get the default. |
| `SendInviteEmail.ErrorMessage` | supabase/functions/send-invite-email/index.ts:135-149 | A thrown `Error` or string is reported word for word. "Internal Server Error" appears exactly when something else was thrown, or when the thrown text is that same text. Any other reported text is exactly what was thrown. |
| `SendInviteEmail.CaughtTextReachesResponse` | supabase/functions/send-invite-email/index.ts:135-149 | When reading the body or calling the provider throws an `Error` or a string, the response is 500 and its `error` member is the thrown text unchanged. The provider was called only when the body had been read. |
| `SendInviteEmail.InviteLink` | supabase/functions/send-invite-email/index.ts:65-70 | For a base without a trailing slash, the link is base + "/accept-invite?token=" + token. With one trailing slash, that slash serves as the path's leading slash. The token is always the tail of the link. |
| `SendInviteEmail.InviteLinkInjective` | supabase/functions/send-invite-email/index.ts:65-70 | With one base URL, different tokens give different links. |
| `SendInviteEmail.InviteLinkIgnoresTrailingSlash` | supabase/functions/send-invite-email/index.ts:66-69 | A base URL configured with or without one trailing slash gives the same link. |
| `SendInviteEmail.InviteLinkDropsOneSlash` | supabase/functions/send-invite-email/index.ts:67-69 | Only one trailing slash is removed. A base ending in two slashes keeps one of them before the path. |
| `SendInviteEmail.HtmlBody` | supabase/functions/send-invite-email/index.ts:75-83 | The HTML body contains the inviter name, the team name and the invite link. |
| `SendInviteEmail.TextBody` | supabase/functions/send-invite-email/index.ts:84-90 | The text body contains the inviter name, the team name and the invite link. |
| `SendInviteEmail.BuildEmail` | supabase/functions/send-invite-email/index.ts:72-99 | The provider payload comes from the configured sender and goes to exactly `[to]`. Its subject is "You're invited to join the " + team + " team!". Both bodies contain the link, the team name and the inviter name. |
| `SendInviteEmail.ProviderCall` | supabase/functions/send-invite-email/index.ts:65-108 | The provider call is a POST to the provider endpoint with `Content-Type: application/json` and "Bearer " + the API key. It carries a payload from the configured sender to the invited address, with the fixed subject. Both bodies contain the accept link built from `APP_BASE_URL` and the token, the team name and the inviter name. |
| `SendInviteEmail.Handle` | supabase/functions/send-invite-email/index.ts:14-151 | Every response carries the CORS headers, and its status is 204, 200, 400, 500 or 502. OPTIONS gives 204 with no body and nothing sent. A missing or empty variable gives 500, checked before the body. An unreadable body gives 500 with the caught message. A falsy `to`, `token` or `teamName` gives 400. The provider is called exactly for a configured, complete request. The answer is 200 with `{success: true}` exactly when the provider replied ok. It is 502 with the provider's error text exactly when the provider replied not ok. A throwing call gives 500. |

## Left out

- The store, session and identity calls are not modelled: the `team_invitations` query, the `accept_team_invitation` procedure call, `auth.admin.listUsers` and `safeGetSession`. Their results are inputs.
- The body of the `accept_team_invitation` stored procedure is not modelled. Its expiry check, email matching and membership insert are not part of the handler code, and its result row is an opaque input.
- The `parent()` layout data merge is not modelled. The page's own keys override the layout's, so the page record is the whole model.
- `console.error` and `console.warn` logging is not modelled.
- `Deno.env`, `serve`, `req.json()` and the `fetch` to the provider are runtime and network input/output. Their values and outcomes are parameters.
- InvitePage.AcceptInvite: a form body that cannot be parsed makes `request.formData()` throw. This happens after the session is read and before the login check, so no `fail(401)` is returned, and the model does not cover it.
- InvitePage.AcceptInvite: a `token` form field holding an uploaded file is not modelled. The token is absent or a string.
- If reading the provider's error text throws, that is folded into `Upstream.FetchThrew`.
- A non-string truthy value for `to`, `token`, `teamName` or `inviterName` (a number or an object) is not modelled. JSON members are absent, `null` or strings.
- A NULL `success` column in the procedure's result row is treated as `false`. The handler treats the two the same.
- The source does no HTML escaping and no URL encoding of the token, and neither does the model. The bodies are reproduced as the template literals, but only containment is proved about them.
- Concurrent acceptances of the same token are handled by the database and are not visible in this code.
- The generated schema types are kept only as the row shapes the handlers read. The theme store, the deployment configuration, the client construction and the type aliases have no part in this logic.
