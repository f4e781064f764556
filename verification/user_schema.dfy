/** schemas/user.py: the registration body and the profile update body. */
module UserSchema {
  import opened Common

  /** A registration body with its defaults applied. */
  datatype UserCreate = UserCreate(
    email: string, password: string, name: string, role: string,
    skills: seq<string>, bio: Option<string>)

  /** Every field may be left out. */
  datatype UserUpdate = UserUpdate(
    name: Field<string>, skills: Field<seq<string>>, bio: Field<Option<string>>,
    avatarUrl: Field<Option<string>>)

  const MinPasswordLength: nat := 8
  const MaxSkills: nat := 20
  const MaxSkillLength: nat := 24
  const DefaultRole := "student"

  const PasswordMessage := "Password must be at least 8 characters"
  const TooManySkillsMessage := "Maximum 20 skills allowed"
  const SkillLengthMessage := "Each skill must be 1-24 characters"

  /** `validate_password`. */
  function PasswordErrors(password: string): (e: seq<string>)
    ensures e == [] <==> |password| >= MinPasswordLength
  {
    if |password| < MinPasswordLength then [PasswordMessage] else []
  }

  predicate SkillOk(skill: string) {
    1 <= |skill| <= MaxSkillLength
  }

  /** The error `validate_skills` raises: more than 20 skills is refused
      before the lengths are looked at; otherwise every skill must have 1 to
      24 characters. */
  function SkillErrors(skills: seq<string>): (e: seq<string>)
    ensures e == [] <==> |skills| <= MaxSkills && forall i :: 0 <= i < |skills| ==> SkillOk(skills[i])
    ensures |skills| > MaxSkills ==> e == [TooManySkillsMessage]
    ensures |e| <= 1
  {
    if |skills| > MaxSkills then [TooManySkillsMessage]
    else if exists i :: 0 <= i < |skills| && !SkillOk(skills[i]) then [SkillLengthMessage]
    else []
  }

  /** `validate_skills` itself: the count check, then a loop that stops at
      the first skill that is empty or longer than 24 characters. */
  method ValidateSkills(skills: seq<string>) returns (e: seq<string>)
    ensures e == SkillErrors(skills)
  {
    if |skills| > MaxSkills {
      return [TooManySkillsMessage];
    }
    var i := 0;
    while i < |skills|
      invariant 0 <= i <= |skills|
      invariant forall j :: 0 <= j < i ==> SkillOk(skills[j])
    {
      if !(1 <= |skills[i]| <= MaxSkillLength) {
        return [SkillLengthMessage];
      }
      i := i + 1;
    }
    return [];
  }

  /** Validation of a registration body. A field left out (`None` here)
      takes its default: role "student", no skills, no bio. Both validators
      run and each failure is reported; accepted values pass through
      unchanged. */
  function ValidateCreate(email: string, password: string, name: string, role: Option<string>,
                          skills: Option<seq<string>>, bio: Option<string>): (r: Checked<UserCreate>)
    ensures r.Accepted? <==> (|password| >= MinPasswordLength &&
      (skills.None? || (|skills.value| <= MaxSkills && forall i :: 0 <= i < |skills.value| ==> SkillOk(skills.value[i]))))
    ensures r.Accepted? ==> r.value.email == email && r.value.password == password && r.value.name == name
    ensures r.Accepted? ==> r.value.role == (if role.Some? then role.value else DefaultRole)
    ensures r.Accepted? ==> r.value.skills == (if skills.Some? then skills.value else [])
    ensures r.Accepted? ==> r.value.bio == bio
  {
    var errors := PasswordErrors(password) + (if skills.Some? then SkillErrors(skills.value) else []);
    if errors == [] then
      Accepted(UserCreate(email, password, name, role.GetOr(DefaultRole), skills.GetOr([]), bio))
    else Rejected(errors)
  }

  /** A body that leaves out role, skills and bio registers a student with
      no skills and no bio. */
  lemma RegistrationDefaults(email: string, password: string, name: string)
    requires |password| >= MinPasswordLength
    ensures ValidateCreate(email, password, name, None, None, None)
         == Accepted(UserCreate(email, password, name, "student", [], None))
  {
  }
}
