/** frontend src/pages/HackathonsPage.tsx: the hackathon catalogue. Each
    hackathon's status is derived from its dates, missing fields get
    defaults, and the page's handlers create a hackathon, register the user
    for one and record a decision on an application. Dates are
    milliseconds; `now` and each request's outcome are parameters. */
module HackathonsPage {
  import opened Common
  import opened Lists
  import opened Strings
  import ProjectPage
  import HackathonsApi
  import Routing

  datatype CardApplication = CardApplication(userId: int, status: string)

  /** A hackathon as the server sends it; missing fields are None. */
  datatype RawHackathon = RawHackathon(
    id: Option<int>, title: string, description: string, startAt: int, endAt: int,
    prize: Option<string>, location: Option<string>, format: Option<string>, tags: Option<seq<string>>,
    participants: Option<int>, applications: Option<seq<CardApplication>>)

  datatype Card = Card(
    id: Option<int>, title: string, description: string, status: string, prize: string,
    location: string, format: string, tags: seq<string>, participants: int,
    applications: Option<seq<CardApplication>>)

  /** The status shown for a hackathon at time `now`. */
  function StatusAt(now: int, startAt: int, endAt: int): (s: string)
    ensures s == "ongoing" <==> startAt <= now <= endAt
    ensures s == "past" <==> now > endAt
    ensures s == "upcoming" <==> now < startAt && now <= endAt
  {
    if startAt <= now <= endAt then "ongoing" else if now > endAt then "past" else "upcoming"
  }

  /** The normalisation after loading: the status from the dates and a
      default for each missing or empty field. */
  function Normalise(h: RawHackathon, now: int): (c: Card)
    ensures c.status == StatusAt(now, h.startAt, h.endAt)
    ensures c.prize == (if TruthyStr(h.prize) then h.prize.value else "—")
    ensures c.location == (if TruthyStr(h.location) then h.location.value else "TBA")
    ensures c.format == (if TruthyStr(h.format) then h.format.value else "Online")
    ensures c.tags == (if h.tags.Some? && h.tags.value != [] then h.tags.value else ["General"])
    ensures c.participants == h.participants.GetOr(0)
    ensures c.tags != []
  {
    Card(h.id, h.title, h.description, StatusAt(now, h.startAt, h.endAt),
         if TruthyStr(h.prize) then h.prize.value else "—",
         if TruthyStr(h.location) then h.location.value else "TBA",
         if TruthyStr(h.format) then h.format.value else "Online",
         if h.tags.Some? && |h.tags.value| != 0 then h.tags.value else ["General"],
         h.participants.GetOr(0), h.applications)
  }

  /** A hackathon is ongoing from its start to its end, both included, and
      past after that. */
  lemma StatusTimeline(startAt: int, endAt: int, now: int)
    requires startAt <= endAt
    ensures now < startAt ==> StatusAt(now, startAt, endAt) == "upcoming"
    ensures startAt <= now <= endAt ==> StatusAt(now, startAt, endAt) == "ongoing"
    ensures now > endAt ==> StatusAt(now, startAt, endAt) == "past"
  {
  }

  // ---------------------------------------------------------------- filter

  /** The hackathon filter is the project filter applied to the card's
      title, description, status, tags, format and location. */
  function AsProjectCard(c: Card): ProjectPage.Card {
    ProjectPage.Card(c.id.GetOr(0), c.title, c.description, c.tags, c.status, c.format, c.location,
                     [], [], None, 0, false, false)
  }

  predicate Kept(c: Card, f: ProjectPage.CatalogueFilter) {
    (f.search == "" || Contains(Lower(c.title), Lower(f.search)) || Contains(Lower(c.description), Lower(f.search))) &&
    (f.status == "all" || c.status == f.status) &&
    (f.themes == [] || ProjectPage.SharesTheme(f.themes, c.tags)) &&
    (f.format == "" || c.format == f.format) &&
    (f.location == "" || Contains(Lower(c.location), Lower(f.location)))
  }

  function KeptBy(f: ProjectPage.CatalogueFilter): Card -> bool {
    (c: Card) => Kept(c, f)
  }

  /** `filteredProjects` of this page. */
  function Filtered(cards: seq<Card>, f: ProjectPage.CatalogueFilter): (r: seq<Card>)
    ensures forall c :: c in r <==> c in cards && Kept(c, f)
  {
    Filter(cards, KeptBy(f))
  }

  /** Both catalogues filter the same way. */
  lemma SameFilterAsProjects(c: Card, f: ProjectPage.CatalogueFilter)
    ensures Kept(c, f) <==> ProjectPage.Kept(AsProjectCard(c), f)
  {
  }

  /** The arrows keep the page between 1 and the number of pages. */
  lemma ArrowsStayInRange(p: int, totalPages: nat)
    requires 1 <= p <= totalPages
    ensures 1 <= PrevPage(p) <= totalPages
    ensures 1 <= NextPage(p, totalPages) <= totalPages
  {
  }

  // ---------------------------------------------------------------- create

  /** The creation form; `startMs` and `endMs` are its dates as read. */
  datatype HackathonForm = HackathonForm(
    title: string, description: string, startAt: string, endAt: string, startMs: int, endMs: int,
    prize: string, location: string, format: string, tags: string, maxParticipants: string)

  /** The body posted to create a hackathon: the optional fields only when
      filled in (`maxParticipants` as in `ProjectPage.ProjectBody`). */
  datatype HackathonBody = HackathonBody(
    title: string, description: string, startAt: string, endAt: string,
    prize: Option<string>, maxParticipants: Option<Option<int>>, location: Option<string>,
    format: Option<string>, tags: Option<string>)

  /** The checks of `handleAddHackathon`, before any request: the four
      required fields, start before end, and a token. */
  predicate CanSubmit(form: HackathonForm, token: Option<string>) {
    form.title != "" && form.description != "" && form.startAt != "" && form.endAt != "" &&
    form.startMs < form.endMs && TruthyStr(token)
  }

  /** The body of the creation request. `isoOf` is `new Date(text)
      .toISOString()`, which reads the text as a local time of the
      browser's time zone; the start is sent as the start day's midnight
      and the end as the end day's last second. */
  function BodyOf(form: HackathonForm, isoOf: string -> string): (b: HackathonBody)
    ensures b.title == form.title && b.description == form.description
    ensures b.startAt == isoOf(form.startAt + "T00:00:00") && b.endAt == isoOf(form.endAt + "T23:59:59")
    ensures b.prize == ProjectPage.IfFilled(form.prize) && b.location == ProjectPage.IfFilled(form.location)
    ensures b.format == ProjectPage.IfFilled(form.format) && b.tags == ProjectPage.IfFilled(form.tags)
    ensures b.maxParticipants.Some? <==> form.maxParticipants != ""
    ensures b.maxParticipants.Some? ==> b.maxParticipants.value == ParseInt(form.maxParticipants)
  {
    HackathonBody(form.title, form.description, isoOf(form.startAt + "T00:00:00"), isoOf(form.endAt + "T23:59:59"),
                  ProjectPage.IfFilled(form.prize), ProjectPage.IfFilledNumber(form.maxParticipants),
                  ProjectPage.IfFilled(form.location), ProjectPage.IfFilled(form.format), ProjectPage.IfFilled(form.tags))
  }

  /** The tags of the new card: the comma-separated input, each trimmed. */
  function LocalTags(tags: string): (r: seq<string>)
    ensures tags == "" ==> r == []
    ensures tags != "" ==> |r| == |Split(tags, ',')| && forall i :: 0 <= i < |r| ==> r[i] == Strip(Split(tags, ',')[i])
  {
    if tags == "" then [] else Map(Split(tags, ','), Strip)
  }

  /** The card added locally after a successful creation. */
  function NewCard(form: HackathonForm, id: int): (c: Card)
    ensures c.id == Some(id) && c.status == "upcoming" && c.participants == 0
    ensures c.prize == (if form.prize != "" then form.prize else "—")
    ensures c.tags == LocalTags(form.tags)
  {
    Card(Some(id), form.title, form.description, "upcoming", if form.prize != "" then form.prize else "—",
         form.location, form.format, LocalTags(form.tags), 0, None)
  }

  // ---------------------------------------------------------------- join

  /** The problems `handleJoinSubmit` reports, in the order it checks them. */
  datatype JoinProblem = NoHackathon | NameBlank | EmailInvalid | PhoneTooShort | NoRole | SkillsBlank | NoTeamAnswer

  datatype JoinForm = JoinForm(name: string, email: string, phone: string, role: string, skills: string, bio: string, hasTeam: string)

  /** The first failing check, or None when the form may be sent. */
  function JoinCheck(selected: Option<int>, form: JoinForm): (p: Option<JoinProblem>)
    ensures p.None? <==> selected.Some? && selected.value != 0 && Strip(form.name) != "" && '@' in form.email &&
                          |form.phone| >= 10 && form.role != "" && Strip(form.skills) != "" && form.hasTeam != ""
    ensures p == Some(NoHackathon) <==> selected.None? || selected.value == 0
    ensures selected.Some? && selected.value != 0 ==>
      (p == Some(NameBlank) <==> Strip(form.name) == "") &&
      (p == Some(EmailInvalid) <==> Strip(form.name) != "" && '@' !in form.email) &&
      (p == Some(PhoneTooShort) <==> Strip(form.name) != "" && '@' in form.email && |form.phone| < 10) &&
      (p == Some(NoRole) <==> Strip(form.name) != "" && '@' in form.email && |form.phone| >= 10 &&
                              form.role == "") &&
      (p == Some(SkillsBlank) <==> Strip(form.name) != "" && '@' in form.email && |form.phone| >= 10 &&
                                   form.role != "" && Strip(form.skills) == "") &&
      (p == Some(NoTeamAnswer) <==> Strip(form.name) != "" && '@' in form.email && |form.phone| >= 10 &&
                                    form.role != "" && Strip(form.skills) != "" && form.hasTeam == "")
  {
    if selected.None? || selected.value == 0 then Some(NoHackathon)
    else if Strip(form.name) == "" then Some(NameBlank)
    else if '@' !in form.email then Some(EmailInvalid)
    else if |form.phone| < 10 then Some(PhoneTooShort)
    else if form.role == "" then Some(NoRole)
    else if Strip(form.skills) == "" then Some(SkillsBlank)
    else if form.hasTeam == "" then Some(NoTeamAnswer)
    else None
  }

  /** With a hackathon selected, a form whose name is blank is refused for
      its name, whatever its other fields hold. */
  lemma BlankNameReportedFirst(id: int, form: JoinForm)
    requires id != 0 && Strip(form.name) == ""
    ensures JoinCheck(Some(id), form) == Some(NameBlank)
  {
  }

  /** The path `handleJoinSubmit` posts to. */
  const JoinPath := "/hackathons/join"

  /** The path `handleHackathonApplication` posts to. */
  function ApplicationDecisionPath(hackathonId: int, userId: int): string {
    "/hackathons/" + Decimal(hackathonId) + "/applications/" + Decimal(userId)
  }

  /** The backend has no POST route for the join path: it is read as a
      hackathon id under GET and DELETE, so the registration is refused
      with 405 and `handleJoinSubmit` never succeeds against it. */
  lemma JoinSubmitRefused()
    ensures Routing.Dispatch(HackathonsApi.Routes, "POST", JoinPath) == Routing.MethodNotAllowed
  {
    var join := "join";
    assert '/' !in join;
    assert JoinPath == "/hackathons/" + join;
    HackathonsApi.PostOnePieceNotAllowed(join);
  }

  /** The backend has no route for a decision on a hackathon application:
      every such request is 404. */
  lemma ApplicationDecisionNotFound(hackathonId: int, userId: int)
    ensures Routing.Dispatch(HackathonsApi.Routes, "POST", ApplicationDecisionPath(hackathonId, userId))
         == Routing.NotFound
  {
    DecimalIsPiece(hackathonId);
    HackathonsApi.DecisionOnParticipantNotFound(Decimal(hackathonId), Decimal(userId), "POST");
  }

  /** The path the delete button sends its DELETE to. */
  function DeletePath(hackathonId: int): string {
    "/hackathons/" + Decimal(hackathonId)
  }

  /** The delete button's request reaches `delete_hackathon`, for every id. */
  lemma DeleteRequestReachesRoute(hackathonId: int)
    ensures Routing.Dispatch(HackathonsApi.Routes, "DELETE", DeletePath(hackathonId)) == Routing.Handled("delete_hackathon")
  {
    var x := Decimal(hackathonId);
    DecimalIsPiece(hackathonId);
    HackathonsApi.PiecesUnderPrefix(x);
    assert Split(x, '/') == [x];
    Routing.FirstServes(HackathonsApi.Routes, "DELETE", DeletePath(hackathonId), 5);
  }

  /** The page's state. */
  class State {
    var cards: seq<Card>
    var joinedHackathons: seq<int>
    var filter: ProjectPage.CatalogueFilter
    var currentPage: int

    constructor (cards: seq<Card>, joined: seq<int>)
      ensures this.cards == cards && joinedHackathons == joined
      ensures filter == ProjectPage.DefaultFilter && currentPage == 1
    {
      this.cards := cards;
      joinedHackathons := joined;
      filter := ProjectPage.DefaultFilter;
      currentPage := 1;
    }

    /** `resetFilters`: the default filter and page 1. */
    method ResetFilters()
      modifies this`filter, this`currentPage
      ensures filter == ProjectPage.DefaultFilter && currentPage == 1
    {
      filter := ProjectPage.DefaultFilter;
      currentPage := 1;
    }

    /** The delete button of a hackathon card: shown to signed-in admins and
        mentors (role compared after lower-casing) on a card with an id. A
        confirmed click sends the DELETE; after a successful request every
        card with that id goes, after a failure nothing changes. */
    method DeleteHackathon(user: Option<ProjectPage.Viewer>, card: Card, confirmed: bool, succeeds: bool)
      returns (request: Option<string>)
      modifies this`cards
      ensures request.Some? <==> ProjectPage.ShowsDelete(user) && TruthyInt(card.id) && confirmed
      ensures request.Some? ==> request.value == DeletePath(card.id.value)
      ensures request.Some? && succeeds ==> cards == Filter(old(cards), (c: Card) => c.id != card.id)
      ensures request.None? || !succeeds ==> cards == old(cards)
    {
      if !ProjectPage.ShowsDelete(user) || !TruthyInt(card.id) || !confirmed {
        return None;
      }
      request := Some(DeletePath(card.id.value));
      if succeeds {
        cards := Filter(cards, (c: Card) => c.id != card.id);
      }
    }

    /** `handleAddHackathon`: nothing is sent unless `CanSubmit`; on success
        the new card, with the server's id or `now` when it gives none, is
        appended. */
    method HandleAddHackathon(form: HackathonForm, token: Option<string>, isoOf: string -> string,
                              response: Option<Option<int>>, now: int)
      returns (sent: Option<HackathonBody>)
      modifies this`cards
      ensures sent.Some? <==> CanSubmit(form, token)
      ensures sent.Some? ==> sent.value == BodyOf(form, isoOf)
      ensures sent.Some? && response.Some? ==> cards == old(cards) + [NewCard(form, response.value.GetOr(now))]
      ensures sent.None? || response.None? ==> cards == old(cards)
    {
      if form.title == "" || form.description == "" || form.startAt == "" || form.endAt == "" {
        return None;
      }
      if form.startMs >= form.endMs {
        return None;
      }
      if !TruthyStr(token) {
        return None;
      }
      sent := Some(BodyOf(form, isoOf));
      if response.Some? {
        cards := cards + [NewCard(form, response.value.GetOr(now))];
      }
    }

    /** `handleJoinSubmit`: the first problem is reported and nothing is
        sent; a successful registration appends the hackathon's id. */
    method HandleJoinSubmit(selected: Option<int>, form: JoinForm, succeeds: bool) returns (problem: Option<JoinProblem>)
      modifies this`joinedHackathons
      ensures problem == JoinCheck(selected, form)
      ensures problem.Some? || !succeeds ==> joinedHackathons == old(joinedHackathons)
      ensures problem.None? && succeeds ==> joinedHackathons == old(joinedHackathons) + [selected.value]
    {
      problem := JoinCheck(selected, form);
      if problem.None? && succeeds {
        joinedHackathons := joinedHackathons + [selected.value];
      }
    }

    /** `handleHackathonApplication`: on success the card with that id takes
        the application list the server returns. */
    method HandleHackathonApplication(hackathonId: int, response: Option<seq<CardApplication>>)
      modifies this`cards
      ensures response.None? ==> cards == old(cards)
      ensures response.Some? ==>
        (|cards| == |old(cards)| &&
         forall i :: 0 <= i < |cards| ==>
           cards[i] == (if old(cards)[i].id == Some(hackathonId) then old(cards)[i].(applications := response) else old(cards)[i]))
    {
      if response.Some? {
        cards := Map(cards, (h: Card) => if h.id == Some(hackathonId) then h.(applications := response) else h);
      }
    }
  }
}
