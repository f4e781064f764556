/** schemas/membership.py: the membership statuses, the invitation body, the
    membership record sent back, and the decision body. */
module MembershipSchema {
  import opened Common
  import opened Store

  /** `MembershipStatus`. */
  datatype MembershipStatus = Active | Invited {
    function Name(): string {
      match this
      case Active => "active"
      case Invited => "invited"
    }
  }

  /** Parsing a status value: exactly the two enum values are accepted. */
  function ParseStatus(s: string): (r: Option<MembershipStatus>)
    ensures r.Some? <==> s in MembershipStatuses
    ensures r.Some? ==> r.value.Name() == s
  {
    if s == "active" then Some(Active) else if s == "invited" then Some(Invited) else None
  }

  /** Every status name parses back to itself. */
  lemma StatusRoundTrip(st: MembershipStatus)
    ensures ParseStatus(st.Name()) == Some(st)
  {
  }

  datatype MembershipInviteIn = MembershipInviteIn(userId: int, roleInTeam: string, message: Option<string>)

  const MaxRoleLength: nat := 64
  const MaxNoteLength: nat := 280

  /** Validation of an invitation: the role has 1 to 64 characters and an
      optional message at most 280. */
  function ValidateInvite(userId: int, roleInTeam: string, message: Option<string>): (r: Checked<MembershipInviteIn>)
    ensures r.Accepted? <==> 1 <= |roleInTeam| <= MaxRoleLength && (message.None? || |message.value| <= MaxNoteLength)
    ensures r.Accepted? ==> r.value == MembershipInviteIn(userId, roleInTeam, message)
  {
    var errors := (if |roleInTeam| < 1 then ["String should have at least 1 character"]
                   else if |roleInTeam| > MaxRoleLength then ["String should have at most 64 characters"]
                   else []) +
                  (if message.Some? && |message.value| > MaxNoteLength then ["String should have at most 280 characters"]
                   else []);
    if errors == [] then Accepted(MembershipInviteIn(userId, roleInTeam, message)) else Rejected(errors)
  }

  datatype MembershipDecision = MembershipDecision(status: MembershipStatus, reason: Option<string>)

  /** Validation of a decision: the status must parse, and an optional
      reason is at most 280 characters. */
  function ValidateDecision(status: string, reason: Option<string>): (r: Checked<MembershipDecision>)
    ensures r.Accepted? <==> status in MembershipStatuses && (reason.None? || |reason.value| <= MaxNoteLength)
    ensures r.Accepted? ==> r.value.status.Name() == status && r.value.reason == reason
  {
    var st := ParseStatus(status);
    var errors := (if st.None? then ["Input should be 'active' or 'invited'"] else []) +
                  (if reason.Some? && |reason.value| > MaxNoteLength then ["String should have at most 280 characters"]
                   else []);
    if errors == [] then Accepted(MembershipDecision(st.value, reason)) else Rejected(errors)
  }

  /** `MembershipInviteOut`: the stored membership as sent back. `invited_by`
      is None unless the row has an inviter. */
  datatype MembershipInviteOut = MembershipInviteOut(
    id: nat, projectId: int, userId: int, roleInTeam: string, status: string, invitedBy: Option<int>)

  function OutOf(m: Membership): (o: MembershipInviteOut)
    ensures o.invitedBy == m.invitedBy
  {
    MembershipInviteOut(m.id, m.projectId, m.userId, m.roleInTeam, m.status, m.invitedBy)
  }

  /** The record sent back describes exactly the stored membership. */
  lemma OutOfInjective(m1: Membership, m2: Membership)
    requires OutOf(m1) == OutOf(m2)
    ensures m1 == m2
  {
  }
}
