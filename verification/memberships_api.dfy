/** api/v1/memberships.py: listing memberships and accepting an
    invitation. */
module MembershipsApi {
  import opened Common
  import opened Lists
  import opened Store
  import opened MembershipSchema

  const NotFoundError := HttpError(404, "Membership not found")
  const NotAuthorizedError := HttpError(403, "Not authorized")
  const NotInvitedError := HttpError(400, "Membership is not in invited status")

  /** `list_project_members`: exactly the memberships of that project, of
      any status, as output records. */
  function ListProjectMembers(memberships: seq<Membership>, projectId: int): (r: seq<MembershipInviteOut>)
    ensures forall m :: m in memberships && m.projectId == projectId ==> OutOf(m) in r
    ensures forall o :: o in r ==> exists m :: m in memberships && m.projectId == projectId && o == OutOf(m)
  {
    var kept := Filter(memberships, (m: Membership) => m.projectId == projectId);
    Map(kept, OutOf)
  }

  /** `list_user_memberships`: exactly the memberships of that user. */
  function ListUserMemberships(memberships: seq<Membership>, userId: int): (r: seq<MembershipInviteOut>)
    ensures forall m :: m in memberships && m.userId == userId ==> OutOf(m) in r
    ensures forall o :: o in r ==> exists m :: m in memberships && m.userId == userId && o == OutOf(m)
  {
    var kept := Filter(memberships, (m: Membership) => m.userId == userId);
    Map(kept, OutOf)
  }

  /** The checks of `accept_membership`, in order: the membership exists,
      belongs to the caller, and is still an invitation. */
  function AcceptError(memberships: seq<Membership>, membershipId: int, callerId: int): (e: Option<HttpError>)
    ensures MembershipAt(memberships, membershipId).None? ==> e == Some(NotFoundError)
    ensures MembershipAt(memberships, membershipId).Some? ==>
      var m := memberships[MembershipAt(memberships, membershipId).value];
      (m.userId != callerId ==> e == Some(NotAuthorizedError)) &&
      (m.userId == callerId && m.status != "invited" ==> e == Some(NotInvitedError)) &&
      (e.None? <==> m.userId == callerId && m.status == "invited")
  {
    match MembershipAt(memberships, membershipId)
    case None => Some(NotFoundError)
    case Some(i) =>
      if memberships[i].userId != callerId then Some(NotAuthorizedError)
      else if memberships[i].status != "invited" then Some(NotInvitedError)
      else None
  }

  /** `accept_membership`: after the checks, the status becomes "active" and
      nothing else changes. */
  method AcceptMembership(db: Db, membershipId: int, callerId: int) returns (r: Result<MembershipInviteOut>)
    requires db.Valid()
    modifies db`memberships
    ensures db.Valid()
    ensures var e := AcceptError(old(db.memberships), membershipId, callerId);
      (e.Some? ==> r == Err(e.value) && unchanged(db)) &&
      (e.None? ==>
        var i := MembershipAt(old(db.memberships), membershipId).value;
        db.memberships == old(db.memberships)[i := old(db.memberships)[i].(status := "active")] &&
        r == Ok(OutOf(db.memberships[i])))
  {
    var e := AcceptError(db.memberships, membershipId, callerId);
    if e.Some? {
      return Err(e.value);
    }
    var i := MembershipAt(db.memberships, membershipId).value;
    var m := db.memberships[i].(status := "active");
    IdsBelowUpdate(db.memberships, MembershipId, db.nextId, i, m);
    db.memberships := db.memberships[i := m];
    r := Ok(OutOf(m));
  }

  /** A second accept of the same membership fails with 400. */
  lemma {:induction false} AcceptOnce(memberships: seq<Membership>, membershipId: int, callerId: int)
    requires AcceptError(memberships, membershipId, callerId).None?
    ensures var i := MembershipAt(memberships, membershipId).value;
      AcceptError(memberships[i := memberships[i].(status := "active")], membershipId, callerId) == Some(NotInvitedError)
  {
    var i := MembershipAt(memberships, membershipId).value;
    var after := memberships[i := memberships[i].(status := "active")];
    assert forall j :: 0 <= j < |after| ==> after[j].id == memberships[j].id;
    assert MembershipAt(after, membershipId) == Some(i);
  }

  /** A fresh invitation can be accepted by the invited user and by nobody
      else. */
  lemma {:induction false} InvitationAcceptedOnlyByInvitee(memberships: seq<Membership>, m: Membership, callerId: int)
    requires m.status == "invited"
    requires forall j :: 0 <= j < |memberships| ==> memberships[j].id != m.id
    ensures AcceptError(memberships + [m], m.id, callerId).None? <==> callerId == m.userId
  {
    var all := memberships + [m];
    assert all[|memberships|] == m;
    assert MembershipAt(all, m.id) == Some(|memberships|);
  }
}
