/** frontend src/pages/ProfilePage.tsx: the user's profile. It lists the
    projects the user created and those they are an active member of, edits
    the bio and the skills locally and copies them into the shown user once
    the update request succeeds, and deletes the user's own projects. Each
    request's outcome is a parameter. */
module ProfilePage {
  import opened Common
  import opened Lists
  import opened Strings
  import Store

  /** The profile shown: the fields the page edits. */
  datatype Profile = Profile(id: int, name: string, email: string, role: string, skills: seq<string>, bio: Option<string>)

  /** A project as listed on the profile. */
  datatype ProjectItem = ProjectItem(id: int, title: string, createdBy: Option<int>)

  /** An application as listed on the profile. */
  datatype ApplicationItem = ApplicationItem(id: int, kind: string, targetId: int, status: string)

  function CreatedByUser(userId: int): ProjectItem -> bool {
    (p: ProjectItem) => p.createdBy == Some(userId)
  }

  /** "My projects": the projects whose creator is the user. */
  function CreatedProjects(all: seq<ProjectItem>, userId: int): (r: seq<ProjectItem>)
    ensures forall p :: p in r <==> p in all && p.createdBy == Some(userId)
  {
    Filter(all, CreatedByUser(userId))
  }

  function IsActive(m: Store.Membership): bool { m.status == "active" }

  function MembershipProject(m: Store.Membership): int { m.projectId }

  /** The ids of the projects the user is an active member of. */
  function ActiveProjectIds(memberships: seq<Store.Membership>): (ids: seq<int>)
    ensures forall id :: id in ids <==> exists m :: m in memberships && m.status == "active" && m.projectId == id
  {
    var active := Filter(memberships, IsActive);
    var ids := Map(active, MembershipProject);
    assert forall m :: m in active ==> m.projectId in ids by {
      forall m | m in active ensures m.projectId in ids {
        var i :| 0 <= i < |active| && active[i] == m;
        assert ids[i] == m.projectId;
      }
    }
    ids
  }

  /** "Memberships": the projects whose id belongs to an active membership. */
  function MembershipProjects(all: seq<ProjectItem>, memberships: seq<Store.Membership>): (r: seq<ProjectItem>)
    ensures forall p :: p in r <==>
      p in all && exists m :: m in memberships && m.status == "active" && m.projectId == p.id
  {
    var ids := ActiveProjectIds(memberships);
    Filter(all, (p: ProjectItem) => p.id in ids)
  }

  /** An invitation that was not accepted does not list the project. */
  lemma InvitationNotListed(all: seq<ProjectItem>, m: Store.Membership, p: ProjectItem)
    requires m.status == "invited"
    ensures p !in MembershipProjects(all, [m])
  {
  }

  /** The edited skills after "add": the trimmed input is appended when it
      is not blank and not already listed. */
  function WithSkill(skills: seq<string>, input: string): (r: seq<string>)
    ensures Strip(input) != "" && Strip(input) !in skills ==> r == skills + [Strip(input)]
    ensures Strip(input) == "" || Strip(input) in skills ==> r == skills
  {
    var skill := Strip(input);
    if skill != "" && skill !in skills then skills + [skill] else skills
  }

  /** Adding never creates a repeated skill. */
  lemma WithSkillNoDuplicates(skills: seq<string>, input: string)
    requires NoDuplicates(skills)
    ensures NoDuplicates(WithSkill(skills, input))
  {
  }

  /** Adding the same input twice is the same as adding it once. */
  lemma WithSkillIdempotent(skills: seq<string>, input: string)
    ensures WithSkill(WithSkill(skills, input), input) == WithSkill(skills, input)
  {
  }

  /** Removing a skill just added gives back the list before. */
  lemma AddThenRemove(skills: seq<string>, input: string)
    requires Strip(input) != "" && Strip(input) !in skills
    ensures RemoveAll(WithSkill(skills, input), Strip(input)) == skills
  {
    RemoveAllAppended(skills, Strip(input));
  }

  /** The page's state. */
  class State {
    var user: Option<Profile>
    var editedBio: string
    var editingBio: bool
    var editedSkills: seq<string>
    var editingSkills: bool
    var newSkill: string
    var created: seq<ProjectItem>
    var memberships: seq<ProjectItem>
    var applications: seq<ApplicationItem>

    /** The state once the profile and the lists are loaded: the editors
        start from the user's bio (or "") and skills. */
    constructor (user: Profile, all: seq<ProjectItem>, ms: seq<Store.Membership>, applications: seq<ApplicationItem>)
      ensures this.user == Some(user)
      ensures editedBio == user.bio.GetOr("") && editedSkills == user.skills && newSkill == ""
      ensures !editingBio && !editingSkills
      ensures created == CreatedProjects(all, user.id)
      ensures memberships == MembershipProjects(all, ms)
      ensures this.applications == applications
    {
      this.user := Some(user);
      editedBio := user.bio.GetOr("");
      editedSkills := user.skills;
      editingBio, editingSkills, newSkill := false, false, "";
      created := CreatedProjects(all, user.id);
      memberships := MembershipProjects(all, ms);
      this.applications := applications;
    }

    /** `handleAddSkill`: the input is cleared only when the skill is added. */
    method AddSkill()
      modifies this`editedSkills, this`newSkill
      ensures editedSkills == WithSkill(old(editedSkills), old(newSkill))
      ensures newSkill == (if editedSkills != old(editedSkills) then "" else old(newSkill))
      ensures NoDuplicates(old(editedSkills)) ==> NoDuplicates(editedSkills)
    {
      var skill := Strip(newSkill);
      if skill != "" && skill !in editedSkills {
        editedSkills := editedSkills + [skill];
        newSkill := "";
      }
    }

    /** `handleRemoveSkill`: every occurrence of the skill goes. */
    method RemoveSkill(skill: string)
      modifies this`editedSkills
      ensures editedSkills == RemoveAll(old(editedSkills), skill)
      ensures skill !in editedSkills
    {
      editedSkills := RemoveAll(editedSkills, skill);
    }

    /** `handleSaveBio`: without a user nothing is sent; the shown bio
        changes only after a successful request. */
    method SaveBio(succeeds: bool) returns (sent: bool)
      modifies this`user, this`editingBio
      ensures sent <==> old(user).Some?
      ensures sent && succeeds ==> user == Some(old(user).value.(bio := Some(editedBio))) && !editingBio
      ensures !(sent && succeeds) ==> user == old(user) && editingBio == old(editingBio)
    {
      if user.None? {
        return false;
      }
      sent := true;
      if succeeds {
        user := Some(user.value.(bio := Some(editedBio)));
        editingBio := false;
      }
    }

    /** `handleSaveSkills`: the same for the skills. */
    method SaveSkills(succeeds: bool) returns (sent: bool)
      modifies this`user, this`editingSkills
      ensures sent <==> old(user).Some?
      ensures sent && succeeds ==> user == Some(old(user).value.(skills := editedSkills)) && !editingSkills
      ensures !(sent && succeeds) ==> user == old(user) && editingSkills == old(editingSkills)
    {
      if user.None? {
        return false;
      }
      sent := true;
      if succeeds {
        user := Some(user.value.(skills := editedSkills));
        editingSkills := false;
      }
    }

    /** `handleDeleteProject`: after confirmation and a successful request
        the project leaves "my projects"; the memberships and applications
        listed stay as they were. */
    method DeleteProject(projectId: int, confirmed: bool, succeeds: bool)
      modifies this`created
      ensures confirmed && succeeds ==> created == Filter(old(created), (p: ProjectItem) => p.id != projectId)
      ensures !(confirmed && succeeds) ==> created == old(created)
    {
      if confirmed && succeeds {
        created := Filter(created, (p: ProjectItem) => p.id != projectId);
      }
    }
  }
}
