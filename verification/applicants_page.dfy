/** frontend src/pages/ApplicantsPage.tsx: the list of applications with its
    filters, sort order, pages of eight, the optimistic status update and
    the CSV export. Times are milliseconds since the epoch; `now` is a
    parameter. */
module ApplicantsPage {
  import opened Common
  import opened Lists
  import opened Strings

  datatype ApplicantStatus = Pending | Approved | Rejected | Hold | Withdrawn {
    function Name(): string {
      match this
      case Pending => "pending"
      case Approved => "approved"
      case Rejected => "rejected"
      case Hold => "hold"
      case Withdrawn => "withdrawn"
    }
  }

  /** `applied_at` as received (`text`) and as `new Date(text)` reads it. */
  datatype Timestamp = Timestamp(text: string, ms: int)

  /** One row of the list; optional fields the server may leave out are
      None. */
  datatype Applicant = Applicant(
    id: int, name: Option<string>, email: Option<string>, role: Option<string>,
    skills: Option<seq<string>>, projectTitle: Option<string>, appliedAt: Option<Timestamp>,
    status: ApplicantStatus)

  /** The date-range select: "all", or the last N days. */
  datatype DateRange = AllTime | LastDays(days: int)

  datatype ListFilter = ListFilter(role: string, status: string, skill: string, search: string, dateRange: DateRange)

  const DefaultFilter := ListFilter("", "all", "", "", AllTime)
  const MsPerDay := 1000 * 60 * 60 * 24
  const PerPage: nat := 8

  // ---------------------------------------------------------------- filter

  predicate SomeSkillContains(skills: seq<string>, q: string) {
    exists i :: 0 <= i < |skills| && Contains(Lower(skills[i]), q)
  }

  /** `a.field?.toLowerCase().includes(q)`: false when the field is absent. */
  predicate FieldContains(field: Option<string>, q: string) {
    field.Some? && Contains(Lower(field.value), q)
  }

  /** The date test, in whole milliseconds: no more than `days` days old. */
  predicate WithinDays(appliedMs: int, now: int, days: int) {
    now - appliedMs <= days * MsPerDay
  }

  /** The source divides by the length of a day and compares; that is the
      same test as the one on milliseconds. */
  lemma WithinDaysIsDayDifference(appliedMs: int, now: int, days: int)
    ensures WithinDays(appliedMs, now, days) <==> (now - appliedMs) as real / MsPerDay as real <= days as real
  {
    var d := MsPerDay as real;
    var diff := (now - appliedMs) as real;
    assert diff / d * d == diff;
    if diff / d <= days as real {
      assert diff <= days as real * d;
    }
  }

  /** The callback of `filtered`: each test applies only when its filter
      field is set, and the role, skill and date tests also only when the
      applicant has that field. */
  predicate Kept(a: Applicant, f: ListFilter, now: int) {
    (f.status == "all" || a.status.Name() == f.status) &&
    (f.role == "" || a.role.None? || a.role.value == "" || Contains(Lower(a.role.value), Lower(f.role))) &&
    (f.skill == "" || a.skills.None? || SomeSkillContains(a.skills.value, Lower(f.skill))) &&
    (f.dateRange.AllTime? || a.appliedAt.None? || a.appliedAt.value.text == "" ||
     WithinDays(a.appliedAt.value.ms, now, f.dateRange.days)) &&
    (f.search == "" ||
     var q := Lower(f.search);
     FieldContains(a.name, q) || FieldContains(a.email, q) || FieldContains(a.projectTitle, q) ||
     (a.skills.Some? && SomeSkillContains(a.skills.value, q)))
  }

  function KeptBy(f: ListFilter, now: int): Applicant -> bool {
    (a: Applicant) => Kept(a, f, now)
  }

  /** `filtered`: the applicants that pass every test, in their order. */
  function Filtered(applicants: seq<Applicant>, f: ListFilter, now: int): (r: seq<Applicant>)
    ensures forall a :: a in r <==> a in applicants && Kept(a, f, now)
    ensures |r| <= |applicants|
  {
    Filter(applicants, KeptBy(f, now))
  }

  /** With the default filter every applicant is listed. */
  lemma DefaultFilterKeepsAll(applicants: seq<Applicant>, now: int)
    ensures Filtered(applicants, DefaultFilter, now) == applicants
  {
    forall i | 0 <= i < |applicants| ensures KeptBy(DefaultFilter, now)(applicants[i]) {
    }
    FilterAll(applicants, KeptBy(DefaultFilter, now));
  }

  /** An applicant with a status other than the selected one is never
      listed, whatever the other fields say. */
  lemma StatusFilterExcludes(applicants: seq<Applicant>, f: ListFilter, now: int, a: Applicant)
    requires f.status != "all" && a.status.Name() != f.status
    ensures a !in Filtered(applicants, f, now)
  {
  }

  /** A missing skill list skips the skill test, but an empty one is an
      array, which is truthy: such an applicant fails every skill filter. */
  lemma EmptySkillsFailSkillFilter(a: Applicant, f: ListFilter, now: int)
    requires f.skill != "" && a.skills == Some([])
    ensures !Kept(a, f, now)
  {
  }

  // ---------------------------------------------------------------- sort

  /** `new Date(a.applied_at ?? 0).getTime()`. */
  function AppliedMs(a: Applicant): int {
    if a.appliedAt.Some? then a.appliedAt.value.ms else 0
  }

  function NewestKey(a: Applicant): int { -AppliedMs(a) }

  datatype SortOrder = Newest | Oldest

  /** `sorted`: a sorted copy of the filtered list, newest or oldest first;
      a missing date counts as the epoch. */
  function Sorted(filtered: seq<Applicant>, order: SortOrder): (r: seq<Applicant>)
    ensures multiset(r) == multiset(filtered)
    ensures order == Newest ==> forall i, j :: 0 <= i < j < |r| ==> AppliedMs(r[i]) >= AppliedMs(r[j])
    ensures order == Oldest ==> forall i, j :: 0 <= i < j < |r| ==> AppliedMs(r[i]) <= AppliedMs(r[j])
  {
    if order == Newest then
      var r := SortBy(filtered, NewestKey);
      assert forall i, j :: 0 <= i < j < |r| ==> NewestKey(r[i]) <= NewestKey(r[j]);
      r
    else
      var r := SortBy(filtered, AppliedMs);
      assert forall i, j :: 0 <= i < j < |r| ==> AppliedMs(r[i]) <= AppliedMs(r[j]);
      r
  }

  // ---------------------------------------------------------------- pages

  /** `pageData`: page `p` of the sorted list, eight rows at most. */
  function PageData(sorted: seq<Applicant>, p: int): (r: seq<Applicant>)
    ensures |r| <= PerPage
    ensures p >= 1 && (p - 1) * PerPage < |sorted| ==> r != []
    ensures 1 <= p <= TotalPages(|sorted|, PerPage) ==> r == sorted[(p - 1) * PerPage..if p * PerPage <= |sorted| then p * PerPage else |sorted|]
  {
    var r := Page(sorted, p, PerPage);
    if 1 <= p <= TotalPages(|sorted|, PerPage) then
      assert (p - 1) * PerPage < |sorted|;
      r
    else r
  }

  /** The page-clamp effect: a page beyond the last becomes the last one,
      or 1 when there are no pages. */
  function ClampedPage(current: int, totalPages: nat): (p: int)
    ensures current <= totalPages ==> p == current
    ensures current > totalPages ==> p == (if totalPages == 0 then 1 else totalPages)
    ensures current >= 1 ==> 1 <= p && (p <= totalPages || p == 1)
  {
    if current > totalPages then (if totalPages == 0 then 1 else totalPages) else current
  }

  // ---------------------------------------------------------------- state

  /** The row after `updateStatus`' optimistic step. */
  function WithStatus(applicants: seq<Applicant>, appId: int, status: ApplicantStatus): (r: seq<Applicant>)
    ensures |r| == |applicants|
    ensures forall i :: 0 <= i < |r| ==>
      r[i] == (if applicants[i].id == appId then applicants[i].(status := status) else applicants[i])
  {
    Map(applicants, (a: Applicant) => if a.id == appId then a.(status := status) else a)
  }

  /** The request `updateStatus` sends for a status. */
  datatype StatusRequest = ApproveRequest(id: int) | RejectRequest(id: int)

  /** The page's state. */
  class State {
    var applicants: seq<Applicant>
    var filter: ListFilter
    var sortOrder: SortOrder
    var currentPage: int

    constructor ()
      ensures applicants == [] && filter == DefaultFilter && sortOrder == Newest && currentPage == 1
    {
      applicants := [];
      filter := DefaultFilter;
      sortOrder := Newest;
      currentPage := 1;
    }

    /** Changing any filter field goes back to page 1. */
    method SetFilter(f: ListFilter)
      modifies this`filter, this`currentPage
      ensures filter == f && currentPage == 1
    {
      filter := f;
      currentPage := 1;
    }

    /** The effect that runs when the number of pages changes. */
    method ClampPage(now: int)
      modifies this`currentPage
      ensures currentPage ==
        ClampedPage(old(currentPage), TotalPages(|Sorted(Filtered(applicants, filter, now), sortOrder)|, PerPage))
    {
      var totalPages := TotalPages(|Sorted(Filtered(applicants, filter, now), sortOrder)|, PerPage);
      if currentPage > totalPages {
        currentPage := if totalPages == 0 then 1 else totalPages;
      }
    }

    /** `updateStatus`: the new status is shown at once; only approval and
        rejection are sent, and if nothing is sent or the request fails the
        list goes back to exactly what it was before the call.
        `succeeds` is the outcome of the request, if one is sent. */
    method UpdateStatus(appId: int, newStatus: ApplicantStatus, succeeds: bool) returns (sent: Option<StatusRequest>)
      modifies this`applicants
      ensures sent == (if newStatus == Approved then Some(ApproveRequest(appId))
                       else if newStatus == ApplicantStatus.Rejected then Some(RejectRequest(appId)) else None)
      ensures sent.Some? && succeeds ==> applicants == WithStatus(old(applicants), appId, newStatus)
      ensures sent.None? || !succeeds ==> applicants == old(applicants)
    {
      var prev := applicants;
      applicants := WithStatus(applicants, appId, newStatus);
      if newStatus == Approved {
        sent := Some(ApproveRequest(appId));
      } else if newStatus == ApplicantStatus.Rejected {
        sent := Some(RejectRequest(appId));
      } else {
        applicants := prev;
        return None;
      }
      if !succeeds {
        applicants := prev;
      }
    }
  }

  /** A successful approval changes the status of the rows with that id
      and nothing else. */
  lemma StatusUpdateOnlyTouchesTarget(applicants: seq<Applicant>, appId: int, status: ApplicantStatus)
    ensures forall i :: 0 <= i < |applicants| && applicants[i].id != appId ==>
      WithStatus(applicants, appId, status)[i] == applicants[i]
    ensures forall i :: 0 <= i < |applicants| && applicants[i].id == appId ==>
      WithStatus(applicants, appId, status)[i].status == status &&
      WithStatus(applicants, appId, status)[i].(status := applicants[i].status) == applicants[i]
  {
  }

  // ---------------------------------------------------------------- CSV

  /** Doubling every `"`: `replace(/"/g, '""')`. */
  function EscapeQuotes(s: string): (r: string)
    ensures |r| >= |s|
    ensures '\n' !in s ==> '\n' !in r
  {
    if s == [] then []
    else (if s[0] == '"' then "\"\"" else [s[0]]) + EscapeQuotes(s[1..])
  }

  /** The inverse of `EscapeQuotes`: a doubled quote reads as one. */
  function UnescapeQuotes(s: string): string
    decreases |s|
  {
    if s == [] then []
    else if |s| >= 2 && s[0] == '"' && s[1] == '"' then "\"" + UnescapeQuotes(s[2..])
    else [s[0]] + UnescapeQuotes(s[1..])
  }

  lemma {:induction false} UnescapeEscape(s: string)
    ensures UnescapeQuotes(EscapeQuotes(s)) == s
  {
    if s != [] {
      UnescapeEscape(s[1..]);
      if s[0] == '"' {
        assert EscapeQuotes(s) == "\"\"" + EscapeQuotes(s[1..]);
        assert (("\"\"" + EscapeQuotes(s[1..]))[2..]) == EscapeQuotes(s[1..]);
      } else {
        assert EscapeQuotes(s) == [s[0]] + EscapeQuotes(s[1..]);
        assert ([s[0]] + EscapeQuotes(s[1..]))[1..] == EscapeQuotes(s[1..]);
      }
    }
  }

  /** One cell: the text in double quotes with inner quotes doubled, as
      section 2 of RFC 4180 describes. */
  function Quote(cell: string): (r: string)
    ensures |r| >= 2 && r[0] == '"' && r[|r| - 1] == '"'
    ensures UnquoteCell(r) == cell
  {
    var r := "\"" + EscapeQuotes(cell) + "\"";
    UnescapeEscape(cell);
    assert r[1..|r| - 1] == EscapeQuotes(cell);
    r
  }

  /** Reading a quoted cell back. */
  function UnquoteCell(r: string): string {
    if |r| >= 2 then UnescapeQuotes(r[1..|r| - 1]) else r
  }

  /** `String(c)` of an optional field: a missing one prints "undefined". */
  function Text(field: Option<string>): string {
    if field.Some? then field.value else "undefined"
  }

  const CsvHeader: seq<string> := ["role", "project", "applied_at", "status", "skills"]

  /** The cells of one applicant's row; the skills are joined with ";". */
  function RowOf(a: Applicant): (r: seq<string>)
    ensures |r| == |CsvHeader|
    ensures r[3] == a.status.Name()
  {
    [Text(a.role), Text(a.projectTitle), if a.appliedAt.Some? then a.appliedAt.value.text else "undefined",
     a.status.Name(), Join(if a.skills.Some? then a.skills.value else [], ";")]
  }

  function QuotedLine(cells: seq<string>): string {
    Join(Map(cells, Quote), ",")
  }

  /** The rows of the file: the header, then one row per filtered applicant
      in the filtered (not the sorted, not the paged) order. */
  function CsvRows(filtered: seq<Applicant>): (rows: seq<seq<string>>)
    ensures |rows| == |filtered| + 1
    ensures rows[0] == CsvHeader
    ensures forall i :: 0 <= i < |filtered| ==> rows[i + 1] == RowOf(filtered[i])
  {
    [CsvHeader] + Map(filtered, RowOf)
  }

  /** `exportCSV`: nothing when no applicant passes the filter; otherwise
      the quoted rows, cells separated by "," and rows by a newline. */
  function ExportCsv(filtered: seq<Applicant>): (r: Option<string>)
    ensures r.None? <==> filtered == []
    ensures r.Some? ==> r.value == Join(Map(CsvRows(filtered), QuotedLine), "\n")
  {
    if filtered == [] then None else Some(Join(Map(CsvRows(filtered), QuotedLine), "\n"))
  }

  /** A quoted line holds a newline only if one of its cells does. */
  lemma {:induction false} QuotedLineNoNewline(cells: seq<string>)
    requires forall i :: 0 <= i < |cells| ==> '\n' !in cells[i]
    ensures '\n' !in QuotedLine(cells)
  {
    var q := Map(cells, Quote);
    forall i | 0 <= i < |q| ensures '\n' !in q[i] {
      assert q[i] == "\"" + EscapeQuotes(cells[i]) + "\"";
    }
    JoinNoChar(q, ",", '\n');
  }

  lemma {:induction false} JoinNoChar(pieces: seq<string>, sep: string, c: char)
    requires c !in sep
    requires forall i :: 0 <= i < |pieces| ==> c !in pieces[i]
    ensures c !in Join(pieces, sep)
    decreases |pieces|
  {
    if |pieces| > 1 {
      JoinNoChar(pieces[1..], sep, c);
    }
  }

  /** When no cell contains a newline, the file has exactly one line per
      row: the header and one per filtered applicant, and splitting it on
      newlines gives back the quoted rows. */
  lemma ExportLines(filtered: seq<Applicant>)
    requires filtered != []
    requires forall i :: 0 <= i < |CsvRows(filtered)| ==> forall k :: 0 <= k < |CsvRows(filtered)[i]| ==> '\n' !in CsvRows(filtered)[i][k]
    ensures Split(ExportCsv(filtered).value, '\n') == Map(CsvRows(filtered), QuotedLine)
    ensures |Split(ExportCsv(filtered).value, '\n')| == |filtered| + 1
  {
    var lines := Map(CsvRows(filtered), QuotedLine);
    forall i | 0 <= i < |lines| ensures '\n' !in lines[i] {
      QuotedLineNoNewline(CsvRows(filtered)[i]);
    }
    SplitJoin(lines, '\n');
  }

  // ---------------------------------------------------------------- chip

  /** The label `StatusChip` shows for each status. */
  function ChipLabel(s: ApplicantStatus): (shown: string)
    ensures s == Approved ==> shown == "Accepted"
    ensures s != Approved ==> |shown| > 0 && shown[1..] == s.Name()[1..]
  {
    match s
    case Pending => "Pending"
    case Approved => "Accepted"
    case Rejected => "Rejected"
    case Hold => "Hold"
    case Withdrawn => "Withdrawn"
  }

  /** Different statuses get different labels. */
  lemma ChipLabelsDistinct(s: ApplicantStatus, t: ApplicantStatus)
    requires s != t
    ensures ChipLabel(s) != ChipLabel(t)
  {
  }
}
