/** Row shapes of the relational store that the invitation handlers read.
    Only the columns the handlers select are kept. */
module Schema {
  import opened Wrappers

  /** The `team_role` enum. */
  datatype TeamRole = Owner | Admin | Member

  /** The joined `teams ( name )` record of an invitation lookup. */
  datatype TeamRef = TeamRef(name: string)

  /** One `team_invitations` row as selected by the landing page:
      `team_id, invited_user_email, role, status, teams ( name )`.
      `status` is a free string column, not an enum, so any value can
      arrive; the join is absent when the team row is missing. */
  datatype InvitationRow = InvitationRow(
    teamId: string,
    invitedUserEmail: string,
    role: TeamRole,
    status: string,
    team: Option<TeamRef>)

  /** One row returned by the `accept_team_invitation` procedure. The
      declared column types are non-null, but the handler guards against
      falsy `message` and `team_id`, so a NULL column is `None` here. A NULL
      `success` behaves as `false` and is folded into it. */
  datatype AcceptResultRow = AcceptResultRow(
    success: bool,
    message: Option<string>,
    teamId: Option<string>)
}
