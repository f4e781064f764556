/** schemas/project.py: the bodies for creating and updating a project. */
module ProjectSchema {
  import opened Common

  datatype ProjectCreate = ProjectCreate(
    title: string, description: string, techStack: seq<string>,
    prize: Option<string>, deadline: Option<int>, maxParticipants: Option<int>)

  /** Every field may be left out, and the title is not length-checked. */
  datatype ProjectUpdate = ProjectUpdate(
    title: Field<string>, description: Field<string>, status: Field<string>,
    techStack: Field<seq<string>>, prize: Field<Option<string>>,
    deadline: Field<Option<int>>, maxParticipants: Field<Option<int>>)

  const TitleMessage := "Title must be 4-80 characters"

  predicate TitleOk(title: string) {
    4 <= |title| <= 80
  }

  /** `validate_title`: the title itself when it has 4 to 80 characters. */
  function ValidateTitle(title: string): (r: Checked<string>)
    ensures r.Accepted? <==> 4 <= |title| <= 80
    ensures r.Accepted? ==> r.value == title
    ensures r.Rejected? ==> r.errors == [TitleMessage]
  {
    if !(4 <= |title| <= 80) then Rejected([TitleMessage]) else Accepted(title)
  }

  /** Validation of a `ProjectCreate` body; a field left out of the body
      (`None` here) takes its default: no technologies, no prize, no deadline,
      no participant limit. */
  function ValidateCreate(title: string, description: string, techStack: Option<seq<string>>,
                          prize: Option<string>, deadline: Option<int>, maxParticipants: Option<int>)
    : (r: Checked<ProjectCreate>)
    ensures r.Accepted? <==> TitleOk(title)
    ensures r.Accepted? ==> r.value.title == title && r.value.description == description
    ensures r.Accepted? ==> r.value.techStack == (if techStack.Some? then techStack.value else [])
    ensures r.Accepted? ==> r.value.prize == prize && r.value.deadline == deadline &&
                            r.value.maxParticipants == maxParticipants
  {
    match ValidateTitle(title)
    case Rejected(errors) => Rejected(errors)
    case Accepted(t) => Accepted(ProjectCreate(t, description, techStack.GetOr([]), prize, deadline, maxParticipants))
  }

  /** The boundaries of the title rule. */
  lemma TitleBoundaries()
    ensures !TitleOk("abc") && TitleOk("abcd")
    ensures forall t: string :: |t| == 80 ==> TitleOk(t)
    ensures forall t: string :: |t| == 81 ==> !TitleOk(t)
  {
  }
}
