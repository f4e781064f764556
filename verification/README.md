# TeamUp core, modelled in Dafny

TeamUp is a team-finding platform for students. A FastAPI backend keeps
users, projects, hackathons, applications, memberships, tasks and
notifications. A React frontend lists projects and hackathons, lets students
apply and lets creators decide on applications. This project models the
logic of both halves and proves what they promise.

Backend (one Dafny module per Python file):

- `Store`: the tables of the models package. They are held by one `Db` object
  whose fields are sequences of records. `Db.Valid()` is the invariant that
  every service keeps: ids are unique and below the next id, and every status
  column holds one of its allowed values.
- The services: `ApplicationService`, `TaskService`, `ProjectService`,
  `NotificationService` and `AuthService`. Each one that changes rows is a
  method on the `Db`. Its postcondition states the whole new state and the
  error cases.
- The routes: `ApplicationsApi`, `ProjectsApi`, `HackathonsApi`,
  `MembershipsApi` and `AdminApi`, plus the dependencies in `Deps`. They are
  modelled from the point where the caller is known. Each guard is a
  function, and the route is a method that applies the guard and then the
  service.
- The request schemas: `UserSchema`, `ProjectSchema`, `TaskSchema`,
  `ApplicationSchema` and `MembershipSchema`. Validation is a function from
  the raw fields to an accepted body or a list of error messages.
- `Config`, the settings and the CORS origin list.
- `Exceptions`, which classifies errors into JSON error responses.
- `Routing`, the framework's dispatch of a request to a route. The route
  tables of the applications and hackathons routers are constants of their
  modules, so the frontend's requests can be checked against them.

Frontend (one module per TypeScript file):

- `AxiosClient`: the base URL, the token interceptor, and the register,
  login and apply helpers. The browser's `localStorage` is a small class.
- The pages: `ApplicantsPage`, `ProjectPage`, `HackathonsPage`,
  `WorkspacePage`, `WorkspaceSelectPage`, `ProfilePage` and `FilterPage`.
  - The derived lists (filters, sort orders, pages, de-duplication, the CSV
    text) are functions.
  - A page's React state is a class, and each handler is a method on it.
  - The outcome of each request is a parameter, so a method's contract
    covers success and failure alike.

Shared helpers: `Common` (Option, Result, HTTP errors, Python and JavaScript
truthiness), `Strings` (ASCII lower-casing, substring search, strip, split,
join, and JavaScript's `parseInt`) and `Lists` (filter, sort by key, slices and pages, counting,
de-duplication).

Some behaviours of the source are surprising, and the model proves them as
written:

- The frontend's "172." prefix test sends public addresses to the local
  backend (`AxiosClient.PublicAddressCountsAsLocal`).
- The project page decides on applications with PATCH, while the backend
  serves those routes with POST, so the request is refused with 405
  (`ProjectPage.DecisionRequestRefused`).
- A project's creator may delete it through the API, but the page shows the
  delete button only to admins and mentors
  (`ProjectPage.CreatorWithoutDeleteButton`).
- Joining a hackathon through its route is refused when an application of any
  status exists. The application service refuses only a pending one.
- The hackathon page registers with a POST to `/hackathons/join`, which the
  backend reads as a hackathon id served only under GET and DELETE: 405
  (`HackathonsPage.JoinSubmitRefused`).
- The hackathon page decides on a participant with a POST to
  `/hackathons/<id>/applications/<userId>`, a path no backend route has: 404
  (`HackathonsPage.ApplicationDecisionNotFound`).
- `GET /hackathons/active` is taken by `get_hackathon`, declared before it,
  so the list of running hackathons is never reached
  (`HackathonsApi.GetOnePieceIsGetHackathon`). In the source the framework
  then refuses "active" as an integer id with 422; that conversion is not
  part of this model.

## Model

| member | source | states |
|---|---|---|
| Store.Db.constructor | db/base.py:6 | a fresh database has every table empty, is valid, and hands out 1 as its first id |
| Store.Db.AddUser | models/user.py:15 | `add`, `commit`, `refresh` of a user: the row is appended under the next id, the counter advances by one, and the database stays valid (ids below the counter and distinct) |
| Store.Db.AddProject | models/project.py:9 | the same for a project row |
| Store.Db.AddHackathon | models/hackathon.py:8 | the same for a hackathon row |
| Store.Db.AddApplication | models/application.py:8-14 | the same for an application, whose status must be pending, approved or rejected |
| Store.Db.AddMembership | models/membership.py:8-12 | the same for a membership, whose status must be active or invited |
| Store.Db.AddParticipant | models/hackathon_participant.py:8-10 | the same for a hackathon participant row |
| Store.Db.AddNotification | models/notification.py:29-34 | the same for a notification row |
| Store.Db.AddTask | models/task.py:9-13 | the same for a task, whose status must be todo, in_progress or done |
| Store.Db.AddRoleRequirement | models/project_role_requirement.py:8-10 | the same for a project role requirement row |
| Store.Db.SetProjects | models/project.py:9-15 | the project table is rewritten under its own ids and a valid database stays valid |
| Store.Db.SetApplicationStatus | models/application.py:14 | exactly one application's status changes, to one of the three application statuses, and a valid database stays valid |
| Store.Db.DeleteUsers | models/user.py:15 | a `DELETE`: exactly the rows kept by the predicate stay, in order, and a valid database stays valid |
| Store.Db.DeleteProjects | models/project.py:9 | the same for projects |
| Store.Db.DeleteHackathons | models/hackathon.py:8 | the same for hackathons |
| Store.Db.DeleteApplications | models/application.py:8-14 | the same for applications, keeping every remaining status valid |
| Store.Db.DeleteParticipants | models/hackathon_participant.py:8-10 | the same for hackathon participants |
| Store.Db.DeleteRoleRequirements | models/project_role_requirement.py:8-10 | the same for project role requirements |
| ApplicationSchema.MessageErrors | schemas/application.py:9 | a message is rejected exactly when it is present and longer than 1000 characters |
| ApplicationSchema.ValidateCreate | schemas/application.py:6-9 | a create body is accepted exactly when its type is exactly "project" or "hackathon" and its message, if any, is at most 1000 characters; an accepted body keeps its fields |
| ApplicationSchema.ValidateUpdate | schemas/application.py:12-14 | an update body is accepted exactly when its message fits and its status, if any, is pending, approved or rejected |
| ApplicationSchema.EmptyUpdateAccepted | schemas/application.py:12-14 | an update with neither field is accepted |
| ApplicationSchema.ResponseOf | schemas/application.py:17-29 | a response built from a stored application has no nested applicant, project or hackathon |
| ApplicationSchema.ResponseRoundTrip | schemas/application.py:17-24 | a response carries every column of the application it was built from |
| NotificationService.Create | services/notification_service.py:10-41 | stores one unread notification for the user under the next id, with a missing or empty payload stored as the empty map; the websocket push is scheduled exactly when background tasks were given |
| NotificationService.ListByUser | services/notification_service.py:49-53 | exactly the user's notifications (only unread ones when asked), as a permutation of the matching rows, ordered newest first |
| NotificationService.MarkedRead | services/notification_service.py:57-65 | the table keeps its length, and each row is either unchanged or is that user's notification with that id, now marked read |
| NotificationService.MarkedReadIdempotent | services/notification_service.py:56-67 | marking the same notification read twice gives the same table as once |
| NotificationService.MarkedReadOnlyOwner | services/notification_service.py:57-60 | when no row with that id belongs to the user, the table is unchanged |
| NotificationService.MarkAsRead | services/notification_service.py:56-67 | the table becomes the marked-read table; None exactly when the user owns no notification with that id; otherwise the returned row has that id and owner and is read |
| ApplicationService.TargetCreator | services/application_service.py:32-40 | the creator is found exactly when a project (kind "project") or hackathon (kind "hackathon") with that id exists, and it is that row's `created_by`; any other kind has no creator |
| ApplicationService.FindCreatorConflict | services/application_service.py:42-65 | the loop over the applicant's pending applications reports a conflict exactly when the target has a truthy creator and some pending application of the applicant points at a target of that same creator |
| ApplicationService.CreateError | services/application_service.py:14-90 | no error exactly when there is no pending duplicate, no pending application to the same creator, and the applicant is not already on the target; every error is a 400 |
| ApplicationService.Create | services/application_service.py:12-101 | refuses with the first of the three errors in the source's order and leaves the database unchanged; otherwise appends one pending application with the next id, whether or not the target exists |
| ApplicationService.ApprovalPayload | services/application_service.py:142 | the notification payload has exactly the keys application_id, type, target_id and status, and status is "approved" |
| ApplicationService.AddJoinRow | services/application_service.py:115-131 | a project application adds one active "member" membership, a hackathon application one participant row, any other kind nothing |
| ApplicationService.Approve | services/application_service.py:104-146 | 404 for a missing application and 400 for one that is not pending, with nothing changed; otherwise the application becomes approved, exactly one membership or participant row is added, and exactly one "application_status" notification goes to the applicant |
| ApplicationService.Reject | services/application_service.py:149-163 | 404 / 400 as for approval; otherwise only the application's status changes, to "rejected" |
| ApplicationService.ListByTarget | services/application_service.py:165-177 | exactly the applications of the given type ("project" for `list_by_project`, "hackathon" for `list_by_hackathon`) to the given target |
| ApplicationService.ListByUser | services/application_service.py:180-181 | exactly the applications the user made |
| ApplicationService.CreatedIsDuplicate | services/application_service.py:14-25 | once an application is stored as pending, applying again to the same target is a duplicate |
| ApplicationService.DecidedApplicationsDoNotBlock | services/application_service.py:14-19 | approved or rejected applications to a target never count as duplicates |
| ApplicationService.ApprovalBlocksReapplying | services/application_service.py:67-90 | after approval adds the membership or participant row, a new application to that target is refused as "already joined" |
| TaskSchema.ValidateCreate | schemas/task.py:6-23 | a task body is accepted exactly when the title has 1 to 120 characters and a due date, if any, is not before today; an accepted body keeps its fields |
| TaskSchema.DueDateBoundary | schemas/task.py:19-23 | a due date of today or none is accepted, yesterday is not |
| ProjectSchema.ValidateTitle | schemas/project.py:14-18 | a title is accepted, unchanged, exactly when it has 4 to 80 characters |
| ProjectSchema.ValidateCreate | schemas/project.py:6-18 | a project body is accepted exactly when its title is; an omitted tech stack becomes the empty list and the other fields are kept |
| ProjectSchema.TitleBoundaries | schemas/project.py:14-18 | three characters are refused and four accepted |
| ProjectService.Create | services/project_service.py:11-19 | appends a project with the submitted fields, the caller as creator, status "recruiting" and progress 0 under the next id |
| ProjectService.GetById | services/project_service.py:22-23 | a project with that id from the table, and None exactly when no project has that id |
| ProjectService.ListProjects | services/project_service.py:26-42 | the window of the projects matching the status filter (when truthy) and containing every requested technology, in table order: from position `skip` on, at most `limit` of them; the route passes `skip` and `limit` unchecked (api/v1/projects.py:24-32), so on SQLite a negative skip counts as 0 and a negative limit as no limit, while PostgreSQL refuses exactly those requests |
| ProjectService.ListWithoutFilters | services/project_service.py:26-42 | with no filter and the default window of 100, every project of a table of at most 100 is listed, on either database |
| ProjectService.SqliteNegativeWindow | services/project_service.py:42 | on SQLite a negative offset lists exactly as offset 0, and a negative limit lists every match from the offset on |
| ProjectService.Patched | services/project_service.py:50-52 | every field present in the body is set and every absent field kept; id, creator, progress and hackathon never change |
| ProjectService.PatchedEmpty | services/project_service.py:50-52 | an empty body changes nothing, and applying the same body twice equals applying it once |
| ProjectService.Update | services/project_service.py:45-56 | 404 for an unknown id with the table unchanged; otherwise exactly the first project with that id is replaced by its patched version |
| ProjectService.Percentage | services/project_service.py:65 | the percentage is between 0 and 100, is 0 exactly when nothing is done and 100 exactly when everything is |
| ProjectService.Progress | services/project_service.py:60-65 | 0 for a project without tasks; otherwise between 0 and 100, 0 exactly when no task is done and 100 exactly when every task of the project is done |
| ProjectService.ProgressComplete | services/project_service.py:60-65 | a project whose tasks are all done, and which has one, is at 100 |
| ProjectService.ProgressIgnoresOtherFields | services/project_service.py:60-65 | rewriting a task without changing its project or status leaves every progress unchanged |
| ProjectService.WithProgress | services/project_service.py:67-70 | only the first project with that id gets the new progress; every other column and row is kept |
| ProjectService.GetByIdWithProgress | services/project_service.py:67-70 | storing progress never changes which projects exist or who created them |
| ProjectService.RecalculateProgress | services/project_service.py:59-72 | returns the progress of the project's tasks and stores it on the project when it exists; nothing else changes |
| TaskService.AssignedPayload | services/task_service.py:25 | the assignment payload has exactly the keys task_id, task_title and project_id |
| TaskService.DonePayload | services/task_service.py:62 | the completion payload also carries assignee_id, which is null for an unassigned task |
| TaskService.Create | services/task_service.py:14-29 | appends the task with status "todo" under the next id, then notifies the assignee exactly when the assignee id is truthy |
| TaskService.Patched | services/task_service.py:38-46 | every field present in the body is set and every absent field kept; id and project never change |
| TaskService.StatusOnlyPatch | services/task_service.py:38-46 | a body with only a status changes only the status |
| TaskService.DoneRecipient | services/task_service.py:52-64 | the creator of the task's project is notified exactly when the body had a status, the status changed, the new one is "done", and the project exists |
| TaskService.Update | services/task_service.py:32-66 | 404 for an unknown task and 400 for a status outside todo, in_progress, done, both changing nothing; otherwise the task is patched, progress is recomputed when the status changed, and the project's creator is told when it became done |
| TaskService.AfterStatusChange | services/task_service.py:52-64 | the project's progress is recomputed from the tasks, and exactly one "task_done" notification goes to the creator when the task became done and the project exists |
| TaskService.NotifyDone | services/task_service.py:57-64 | one "task_done" notification to the recipient when there is one, none otherwise |
| TaskService.ListByProject | services/task_service.py:69-70 | exactly the tasks of that project, as many as the project has |
| UserSchema.PasswordErrors | schemas/user.py:14-18 | a password is refused exactly when it is shorter than 8 characters |
| UserSchema.SkillErrors | schemas/user.py:20-27 | the skills are accepted exactly when there are at most 20 of them, each of 1 to 24 characters; more than 20 reports the count message; at most one message |
| UserSchema.ValidateSkills | schemas/user.py:20-27 | the validator's loop, which stops at the first bad skill, reports exactly the messages of the specification function |
| UserSchema.ValidateCreate | schemas/user.py:6-27 | a registration body is accepted exactly when password and skills pass; omitted role and skills become "student" and the empty list, the rest is kept |
| UserSchema.RegistrationDefaults | schemas/user.py:10-12 | a body without role, skills and bio registers a student with no skills and no bio |
| MembershipSchema.ParseStatus | schemas/membership.py:7-9 | exactly "active" and "invited" parse, each to the member whose value it is |
| MembershipSchema.StatusRoundTrip | schemas/membership.py:7-9 | every status's value parses back to that status |
| MembershipSchema.ValidateInvite | schemas/membership.py:12-15 | an invitation is accepted exactly when the role has 1 to 64 characters and a message, if any, at most 280; an accepted body keeps its fields |
| MembershipSchema.ValidateDecision | schemas/membership.py:29-31 | a decision is accepted exactly when its status parses and a reason, if any, has at most 280 characters |
| MembershipSchema.OutOf | schemas/membership.py:18-26 | the record sent back keeps the inviter |
| MembershipSchema.OutOfInjective | schemas/membership.py:18-26 | two memberships with the same record sent back are the same membership |
| AuthService.Register | services/auth_service.py:11-47 | 400 when the email is taken, 400 with the hasher's message when hashing fails, both changing nothing; otherwise one user with the hash is appended and tokens for the new id, issued now, are returned; emails stay unique |
| AuthService.Login | services/auth_service.py:50-61 | tokens exactly when the first user with that email has a password that verifies, and then they are that user's tokens; every failure is the same 401 |
| AuthService.FirstWithEmailUnique | services/auth_service.py:51 | the first user with an email is a single row |
| AuthService.Refresh | services/auth_service.py:64-83 | a token that does not decode at the time of the request (unsigned or expired) or is not a refresh token is refused; an unknown subject is refused; a refresh token that decodes to the id of a known user yields exactly the new tokens for that subject, issued at that time |
| AuthService.LoginThenRefresh | services/auth_service.py:58-83 | with a sound token library, the refresh token from a login, presented within its lifetime, gives the same pair as a new login at that moment (new tokens for the same user); presented after its expiry it is refused |
| AuthService.AccessTokenDoesNotRefresh | services/auth_service.py:66-70 | an access token is never accepted as a refresh token, before or after its expiry |
| Deps.GetCurrentUser | api/deps.py:11-33 | the caller is the user named by a token that decodes at the time of the request with type "access"; every failure, an expired token included, is a 401 |
| Deps.GetAdminUser | api/deps.py:36-45 | passes exactly the users whose role is "admin", otherwise 403 |
| Deps.RequireProjectCreationPermission | api/deps.py:48-58 | passes exactly admins and mentors, otherwise 403 |
| Deps.AdminMayCreate | api/deps.py:36-58 | every admin may create projects |
| Deps.LoginAuthenticates | api/deps.py:11-33 | with a sound token library and unique ids, the access token from a login authenticates a user with that email until its expiry and is a 401 after it; the refresh token never authenticates |
| Config.Defaults | core/config.py:5-12 | with only the database URL and the JWT secret set, the environment is "dev", the algorithm HS256, access tokens last 30 minutes, refresh tokens 7 days, and the origins are the four local ones |
| Config.CorsOriginsList | core/config.py:17-19 | every listed origin is non-empty, has no comma and no surrounding whitespace |
| Config.StrippedHaveNoComma | core/config.py:19 | stripping pieces that have no comma leaves no comma |
| Config.StripSubstring | core/config.py:19 | stripping only removes characters |
| Config.OriginsRoundTrip | core/config.py:17-19 | listing the comma-joined form of any non-empty list of origins gives that list back |
| Config.StripOrigins | core/config.py:19 | stripping a list of origins changes none of them |
| Config.TrailingCommaIgnored | core/config.py:19 | a trailing comma adds no empty origin |
| Config.DefaultOrigins | core/config.py:12-19 | the default setting lists exactly the four local development origins, in order |
| Exceptions.ApiExceptionHandler | core/exceptions.py:17-35 | the response status and `error.code` are the exception's status, the message its detail, with the request path; main.py:48-51 never registers this handler, so the running application does not use it |
| Exceptions.SanitizedValue | core/exceptions.py:62-67 | a `ctx` value becomes JSON-safe: primitives are kept, exceptions and other values become their text |
| Exceptions.SanitizeCtx | core/exceptions.py:60-68 | the loop builds exactly `CleanEntries` of the items: the original keys, only primitive values, and for each key the sanitised last value given for it |
| Exceptions.CleanEntriesKeys | core/exceptions.py:58-68 | the sanitised dictionary has exactly the keys of the items |
| Exceptions.CleanEntriesPrimitive | core/exceptions.py:60-67 | every value of the sanitised dictionary is a str, int, float, bool or None |
| Exceptions.CleanEntriesLast | core/exceptions.py:60-67 | a key holds the sanitised value of its last occurrence, as repeated assignment into a dict leaves it |
| Exceptions.CleanContext | core/exceptions.py:57-70 | the result is `Cleaned` of the `ctx`: a dictionary keeps exactly its keys, each holding the sanitised last value given for it (str, int, float, bool and None as they are, anything else as its string form); any other `ctx` becomes its text when truthy and null otherwise |
| Exceptions.ValidationHandler | core/exceptions.py:38-89 | an OPTIONS request gets 200 with an empty body, and only it does; any other gets 422 "Validation error" with one detail per error, in order, each with the error's type, location, message and input, and a `ctx` exactly when the error has one, which is that `ctx` sanitised as `Cleaned` gives it |
| Exceptions.FullError | core/exceptions.py:96-99 | the classified text is the message lower-cased, then one space, then the original error's text lower-cased (empty when there is none) |
| Exceptions.ClassifyDbError | core/exceptions.py:111-143 | the status is 500 exactly when the text matches none of the duplicate, foreign-key, not-null and check patterns, otherwise 400; per class: a duplicate mentioning an email gives "Email already registered" and any other the duplicate message; a foreign-key violation, the related-record message; a not-null violation, the name, email or password message by the column named, else the generic required-field message; a check violation, the constraint message; a 500 shows the message in "dev" and a generic text elsewhere |
| Exceptions.SqlAlchemyHandler | core/exceptions.py:92-154 | the response carries the classification's status, its message as `message` and the status again as `error.code`, with the path |
| Exceptions.DuplicateEmailFirst | core/exceptions.py:112-114 | a duplicate that mentions an email is always reported as an already registered email |
| Exceptions.UsersEmailSubsumed | core/exceptions.py:113 | the "users_email" test can never decide anything the "email" test has not |
| Exceptions.ViolatesForeignKeySubsumed | core/exceptions.py:119 | likewise "violates foreign key" is covered by "foreign key" |
| Exceptions.NotNullNameFirst | core/exceptions.py:122-125 | a not-null violation whose text mentions "name" is reported as a missing name, before the email and password checks |
| Exceptions.GeneralHandler | core/exceptions.py:157-194 | a ValueError becomes 400 with its text, and only a ValueError does; anything else is 500 "Internal server error" |
| ApplicationsApi.CreateApplication | api/v1/applications.py:14-64 | any authenticated caller may apply: the route fails exactly when the service refuses, with its error, and then nothing changes; otherwise the earlier rows stay and one row is appended: the next id, the submitted kind, target and message, the caller as applicant, "pending", the time of the request; its columns are returned |
| ApplicationsApi.Selection | api/v1/applications.py:67-99 | neither a truthy type nor a truthy target id lists the caller's own applications; "project" or "hackathon" with a truthy target id is 404 for a missing target, 403 for a caller who did not create it, and exactly the applications of that type to that target for its creator; any other combination is 400; whatever is listed is in the table and is either the caller's own application or one to a target the caller created |
| ApplicationsApi.CreatorSeesAllApplications | api/v1/applications.py:83-99 | the creator of a project or a hackathon is allowed to list it and sees exactly the applications of that type to it |
| ApplicationsApi.ListApplications | api/v1/applications.py:67-146 | the selection's error, or one response per selected application, in order, each carrying that application's columns |
| ApplicationsApi.DecisionGuard | api/v1/applications.py:157-170 | 404 for an unknown application; an application of type project or hackathon passes exactly when the caller created its existing target, otherwise 403; any other type is not checked |
| ApplicationsApi.ApproveApplication | api/v1/applications.py:149-215 | a guard failure is returned with nothing changed; past the guard, an application that is not pending is the 400 "Application already processed", again with nothing changed; the approval succeeds exactly when the guard passes and the application is pending, and then the application is approved in place, the membership (project) or participant (hackathon) row is appended, and the earlier notifications stay with one unread "application_status" notification to the applicant appended, carrying the approval payload and the next free id |
| ApplicationsApi.RejectApplication | api/v1/applications.py:218-283 | the same guard; past it, an application that is not pending is the 400 "Application already processed" with nothing changed; the rejection succeeds exactly when the guard passes and the application is pending, and then only its status becomes "rejected" |
| ApplicationsApi.DecisionPathPieces | api/v1/applications.py:149-218 | a decision path splits into the router prefix, the application id and the action |
| ApplicationsApi.DecisionServedByPostOnly | api/v1/applications.py:11-218 | a decision path reaches `approve_application` or `reject_application` under POST and is 405 under every other verb |
| ApplicationsApi.OnlyCreatorDecides | api/v1/applications.py:162-165 | for an application to a project, a caller who created no project is always refused with 403 |
| Routing.Dispatch | main.py:75-83 | a request is handled exactly when some route has its verb and matches its path, and then by the first such route; it is 404 exactly when no route matches the path, and 405 otherwise |
| Routing.FirstServes | main.py:75-83 | the first route matching both verb and path handles the request |
| Routing.WrongVerb | main.py:75-83 | a path that some route matches, under none of them with the request's verb, is answered 405 |
| Strings.ParseInt | frontend/frontend/front/src/pages/HackathonsPage.tsx:218-221 | `parseInt(text)`: leading whitespace, an optional sign, "0x" for hexadecimal, then the longest run of digits; a text without a decimal digit is NaN |
| Strings.ParseIntSkipsSpaces | frontend/frontend/front/src/pages/HackathonsPage.tsx:218-221 | whitespace in front of a text does not change what it parses to |
| Strings.ParseIntOfDecimal | frontend/frontend/front/src/pages/ProjectPage.tsx:398-400 | the decimal form of any integer, followed by text that does not continue the number, parses back to that integer |
| MembershipsApi.ListProjectMembers | api/v1/memberships.py:22-27 | exactly the records of the memberships of that project |
| MembershipsApi.ListUserMemberships | api/v1/memberships.py:29-34 | exactly the records of the memberships of that user |
| MembershipsApi.AcceptError | api/v1/memberships.py:43-51 | 404 for an unknown membership, then 403 when it is not the caller's, then 400 when it is not an invitation; no error exactly when it is the caller's invitation |
| MembershipsApi.AcceptMembership | api/v1/memberships.py:37-57 | on an error nothing changes; otherwise exactly that membership becomes "active" and its record is returned |
| MembershipsApi.AcceptOnce | api/v1/memberships.py:50-53 | accepting the same membership a second time fails with 400 |
| MembershipsApi.InvitationAcceptedOnlyByInvitee | api/v1/memberships.py:43-51 | a new invitation can be accepted by the invited user and by nobody else |
| ProjectsApi.CreateProject | api/v1/projects.py:15-21 | creation succeeds exactly for admins and mentors; a refusal is 403 and changes nothing; on success the earlier projects stay and one is appended and returned: the next id, the submitted title, description, tech stack, prize, deadline and participant limit, the caller as creator, status "recruiting", progress 0 and no hackathon |
| ProjectsApi.OwnerCheck | api/v1/projects.py:50-55 | passes exactly when the first project with that id was created by the caller; 404 for an unknown project, otherwise 403 |
| ProjectsApi.UpdateProject | api/v1/projects.py:43-57 | a failed owner check is returned with the table unchanged; otherwise the service's update of that project |
| ProjectsApi.DeleteDeniedError | api/v1/projects.py:82-85 | the refusal is a 403 |
| ProjectsApi.CreatorsMayDeleteAll | api/v1/projects.py:71-76 | every caller the creation gate admits (role "admin" or "mentor") passes the delete gate for every project, whoever created it |
| ProjectsApi.DeleteGateLooserThanCreationGate | api/v1/projects.py:71-76 | the converse fails: a caller whose role is stored as " Admin " passes the delete gate for every project, which lower-cases and strips the role, while the creation gate, comparing the role as written, refuses them |
| ProjectsApi.DeleteProject | api/v1/projects.py:60-85 | 404 for an unknown project and 403 for a caller who is neither its creator nor an admin or mentor, both changing nothing; otherwise the project and its required roles are removed and no project with that id remains |
| ProjectsApi.InvitePayload | api/v1/projects.py:140 | the invitation payload has exactly the keys project_id, project_title and membership_id |
| ProjectsApi.InviteError | api/v1/projects.py:100-121 | no error exactly when the owner check passes, the invited user exists and has no membership of any status in the project |
| ProjectsApi.InviteUser | api/v1/projects.py:88-144 | on an error nothing changes; otherwise one "invited" membership with the requested role and the caller as inviter, and one "invite" notification to the invited user about it |
| ProjectsApi.InviteOnce | api/v1/projects.py:115-121 | once a membership exists, the same user cannot be invited to the same project again |
| ProjectsApi.AddRequiredRole | api/v1/projects.py:147-181 | succeeds exactly when the owner check passes and the project has no required role of that name, and then exactly one role is appended; every failure changes nothing |
| HackathonsApi.CreateHackathon | api/v1/hackathons.py:38-51 | creation succeeds exactly for admins and mentors, with the submitted fields and the caller as creator; a refusal is 403 and changes nothing |
| HackathonsApi.GetHackathon | api/v1/hackathons.py:59-64 | the hackathon with that id, and 404 exactly when there is none |
| HackathonsApi.ListActive | api/v1/hackathons.py:67-73 | exactly the hackathons with start at or before now and end at or after now |
| HackathonsApi.JoinError | api/v1/hackathons.py:84-96 | no error exactly when the hackathon exists and the caller has no application to it, whatever that application's status |
| HackathonsApi.JoinHackathon | api/v1/hackathons.py:76-109 | on an error nothing changes; otherwise exactly one pending "hackathon" application by the caller, without a message |
| HackathonsApi.JoinImpliesNoPendingDuplicate | api/v1/hackathons.py:89-96 | an application the join route accepts is never a pending duplicate for the application service |
| HackathonsApi.DecidedApplicationBlocksOnlyJoin | api/v1/hackathons.py:89-96 | the converse fails: a decided application blocks joining although the application service would accept a new one |
| HackathonsApi.DetachProjects | models/project.py:21 | after a hackathon is deleted no project points at it; every project keeps its id, and only those that pointed at it change |
| HackathonsApi.DeleteHackathon | api/v1/hackathons.py:112-137 | 404 for an unknown hackathon and 403 under the same rule as projects, both changing nothing; otherwise the hackathon and its participants are removed and its projects are detached |
| HackathonsApi.DetachFrom | models/project.py:21 | applies the detachment to the project table and keeps the database valid |
| HackathonsApi.GetOnePieceIsGetHackathon | api/v1/hackathons.py:59-67 | every GET of `/hackathons/<x>` goes to `get_hackathon`, "active" included, so `list_active_hackathons`, declared after it, is never reached |
| HackathonsApi.PostOnePieceNotAllowed | api/v1/hackathons.py:38-112 | a POST to `/hackathons/<x>` is answered 405: that path is served under GET and DELETE only |
| HackathonsApi.DecisionOnParticipantNotFound | api/v1/hackathons.py:38-112 | any path `/hackathons/<h>/applications/<u>` is answered 404 under every verb |
| AdminApi.ListAllApplications | api/v1/admin.py:21-36 | exactly the applications matching the status and the type when those are truthy, as a permutation of the matching rows, newest first |
| AdminApi.ApproveAny | api/v1/admin.py:52-60 | with no ownership check the service's rule still holds: a missing application is 404, one that is not pending the 400 "Application already processed", and a failure changes nothing; on success the application is approved in place, the membership (project) or participant (hackathon) row is appended and one "application_status" notification to the applicant is appended, exactly as the service does |
| AdminApi.RejectAny | api/v1/admin.py:63-70 | a missing application is 404, one that is not pending the 400 "Application already processed", and a failure changes nothing; on success that row alone becomes "rejected" and the result is that row |
| AdminApi.PatchedUser | api/v1/admin.py:153-155 | the fields present in the body are written and every other field kept; id, email, password hash and role are never written |
| AdminApi.PatchedUserIdempotent | api/v1/admin.py:153-155 | applying the same body twice equals applying it once |
| AdminApi.UpdateUserAdmin | api/v1/admin.py:141-159 | 404 for an unknown user with nothing changed; otherwise exactly that user is replaced by its patched version |
| AdminApi.DeleteUserAdmin | api/v1/admin.py:162-177 | 400 when the admin targets themself, checked first, then 404 for an unknown user, both changing nothing; otherwise the user, their applications and their hackathon participations are removed |
| AdminApi.RemoveUserRows | models/application.py:11 | the user row goes together with the rows whose foreign key cascades on delete: applications and hackathon participations |
| AdminApi.CountByKey | api/v1/admin.py:212-226 | the counting loop gives each listed value, and only those, the number of rows with that value |
| AdminApi.StatisticsKeys | api/v1/admin.py:213-226 | the breakdowns are over the 4 roles, the 3 project statuses, the 3 application statuses and the 2 application types |
| AdminApi.GetStatistics | api/v1/admin.py:182-228 | every total is the size of its table, and each breakdown has exactly its listed values, each counted over its table |
| AdminApi.OneStatus | models/application.py:14 | a stored application has exactly one of the three statuses |
| AdminApi.StatusCountsCoverAll | api/v1/admin.py:221-222 | when every status is valid, the pending, approved and rejected counts add up to the number of applications |
| AdminApi.StatisticsByStatusAddUp | api/v1/admin.py:201-222 | hence, in a valid database, the statistics' application breakdown by status adds up to the total |
| AxiosClient.BaseUrl | frontend/frontend/front/src/api/axios.ts:4-16 | the local backend URL is chosen exactly for localhost, 127.0.0.1 and the 192.168., 10. and 172. prefixes, the production URL exactly otherwise |
| AxiosClient.PublicAddressCountsAsLocal | frontend/frontend/front/src/api/axios.ts:7 | the "172." prefix test also sends a public address such as 172.217.0.1 to the local backend |
| AxiosClient.PublicHostGoesToProduction | frontend/frontend/front/src/api/axios.ts:4-16 | every host name other than localhost that does not start with a digit is sent to the production backend |
| AxiosClient.RequestConfig.constructor | frontend/frontend/front/src/api/axios.ts:25 | a request configuration holds the given headers |
| AxiosClient.RequestConfig.Intercept | frontend/frontend/front/src/api/axios.ts:25-32 | with a stored token that is non-empty and not "null", the header map is created if missing and the bearer Authorization header is set; otherwise the configuration is unchanged |
| AxiosClient.LocalStorage.constructor | frontend/frontend/front/src/api/axios.ts:26 | browser storage starts empty |
| AxiosClient.LocalStorage.StoreLogin | frontend/frontend/front/src/api/axios.ts:63-67 | exactly the non-empty ones of access token, refresh token and role are stored under their keys; every other key keeps its value |
| AxiosClient.GetItem | frontend/frontend/front/src/api/axios.ts:26 | `localStorage.getItem`: the value stored under the key, and None exactly when nothing was stored under it |
| AxiosClient.LoginThenRequest | frontend/frontend/front/src/api/axios.ts:25-67 | after a login, the next request carries `Authorization: Bearer <access token>` (added to its existing headers, or to new ones) whenever the access token is non-empty and not "null", whatever was stored before; an access token "null" is stored but the request headers stay as they were |
| AxiosClient.RegisterPayloadOf | frontend/frontend/front/src/api/axios.ts:39-46 | email and password are passed through; the role is never "admin" (an "admin" request becomes "student", any other role is kept); the skill list is never empty and is the form's when that is non-empty; name and bio fall back to their defaults when empty |
| AxiosClient.RegisterPayloadStable | frontend/frontend/front/src/api/axios.ts:39-46 | normalising an already normalised payload gives it back unchanged |
| AxiosClient.ApplyToProjectBody | frontend/frontend/front/src/api/axios.ts:77-82 | the body is an application of type "project" to the given id, without a message |
| AxiosClient.ApplyBodyAccepted | frontend/frontend/front/src/api/axios.ts:79-82 | the backend's application schema accepts that body for every project id |
| ApplicantsPage.WithinDaysIsDayDifference | frontend/frontend/front/src/pages/ApplicantsPage.tsx:158-164 | the integer date test holds exactly when the elapsed time divided by the length of a day is at most the selected number of days |
| ApplicantsPage.Filtered | frontend/frontend/front/src/pages/ApplicantsPage.tsx:141-176 | an applicant is listed exactly when it is in the input and passes the status, role, skill, date-range and search tests, each applied only when its filter is set and (for role, skills and date) the field is present |
| ApplicantsPage.DefaultFilterKeepsAll | frontend/frontend/front/src/pages/ApplicantsPage.tsx:42-48 | with the initial filter every applicant is listed, in order |
| ApplicantsPage.StatusFilterExcludes | frontend/frontend/front/src/pages/ApplicantsPage.tsx:143 | with a status selected, an applicant with another status is never listed |
| ApplicantsPage.EmptySkillsFailSkillFilter | frontend/frontend/front/src/pages/ApplicantsPage.tsx:150-157 | a missing skill list skips the skill test, but a present empty one fails it |
| ApplicantsPage.Sorted | frontend/frontend/front/src/pages/ApplicantsPage.tsx:179-187 | a permutation of the filtered list, ordered by application time (a missing time counts as 0) descending for "newest" and ascending for "oldest" |
| ApplicantsPage.PageData | frontend/frontend/front/src/pages/ApplicantsPage.tsx:189-194 | at most eight rows; a page that starts inside the list is non-empty; for a page between 1 and the page count it is exactly the slice from (p-1)*8 to p*8 |
| ApplicantsPage.ClampedPage | frontend/frontend/front/src/pages/ApplicantsPage.tsx:197-199 | a page within range is kept; one beyond the last becomes the last page, or 1 when there are none |
| Lists.PrevPage | frontend/frontend/front/src/pages/ApplicantsPage.tsx:826 | the "previous" arrow (also on the project and hackathon catalogues) leads to p-1 when p > 1 and to page 1 otherwise, never below 1 |
| Lists.NextPage | frontend/frontend/front/src/pages/ApplicantsPage.tsx:849 | the "next" arrow (also on the project and hackathon catalogues) leads to p+1 while p is below the page count and to the last page otherwise, never beyond it |
| ApplicantsPage.WithStatus | frontend/frontend/front/src/pages/ApplicantsPage.tsx:204-206 | the optimistic update keeps the list's length and order, sets the new status on the rows with that id and leaves every other row as it was |
| ApplicantsPage.State.constructor | frontend/frontend/front/src/pages/ApplicantsPage.tsx:40-52 | an empty list, the default filter, newest first, page 1 |
| ApplicantsPage.State.SetFilter | frontend/frontend/front/src/pages/ApplicantsPage.tsx:196 | a filter change stores the filter and returns to page 1 |
| ApplicantsPage.State.ClampPage | frontend/frontend/front/src/pages/ApplicantsPage.tsx:197-199 | the page-clamp effect sets the current page to its clamped value for the current page count |
| ApplicantsPage.State.UpdateStatus | frontend/frontend/front/src/pages/ApplicantsPage.tsx:202-226 | approval and rejection send their request to that id and any other status sends nothing; after a sent request that succeeds the list is the optimistically updated one, otherwise exactly the list before the call |
| ApplicantsPage.StatusUpdateOnlyTouchesTarget | frontend/frontend/front/src/pages/ApplicantsPage.tsx:204-206 | rows with another id are unchanged and rows with that id differ only in status |
| ApplicantsPage.EscapeQuotes | frontend/frontend/front/src/pages/ApplicantsPage.tsx:283 | doubling quotes never shortens a text and adds no newline |
| ApplicantsPage.UnescapeEscape | frontend/frontend/front/src/pages/ApplicantsPage.tsx:283 | reading doubled quotes back gives the original text |
| ApplicantsPage.Quote | frontend/frontend/front/src/pages/ApplicantsPage.tsx:283 | a cell is written between double quotes and reads back as the original text |
| ApplicantsPage.RowOf | frontend/frontend/front/src/pages/ApplicantsPage.tsx:275-281 | a row has one cell per header column and its status cell is the applicant's status |
| ApplicantsPage.CsvRows | frontend/frontend/front/src/pages/ApplicantsPage.tsx:274-282 | the header row followed by exactly one row per filtered applicant, in order |
| ApplicantsPage.ExportCsv | frontend/frontend/front/src/pages/ApplicantsPage.tsx:272-284 | nothing is exported exactly when no applicant passes the filter; otherwise the quoted rows are joined with newlines |
| ApplicantsPage.QuotedLineNoNewline | frontend/frontend/front/src/pages/ApplicantsPage.tsx:283 | a quoted line holds no newline when none of its cells does |
| ApplicantsPage.JoinNoChar | frontend/frontend/front/src/pages/ApplicantsPage.tsx:284 | joining pieces with a separator introduces no character absent from both |
| ApplicantsPage.ExportLines | frontend/frontend/front/src/pages/ApplicantsPage.tsx:272-284 | when no cell contains a newline, splitting the file at newlines gives back exactly the header line and one line per applicant |
| ApplicantsPage.ChipLabel | frontend/frontend/front/src/pages/ApplicantsPage.tsx:865-903 | approval is shown as "Accepted"; every other status is shown by its own name, capitalised |
| ApplicantsPage.ChipLabelsDistinct | frontend/frontend/front/src/pages/ApplicantsPage.tsx:865-903 | different statuses get different labels |
| ProjectPage.Normalise | frontend/frontend/front/src/pages/ProjectPage.tsx:123-146 | a loaded project is marked applied exactly when a user is signed in and one of its applications is theirs, and joined exactly when a user is signed in and listed among its joined users; missing tags, applications, format, location and status take their defaults; id, title and description are kept |
| ProjectPage.AnonymousSeesNothingApplied | frontend/frontend/front/src/pages/ProjectPage.tsx:124-129 | without a signed-in user no project is marked applied or joined |
| ProjectPage.Filtered | frontend/frontend/front/src/pages/ProjectPage.tsx:448-469 | a project is listed exactly when it is in the input and passes the search, status, theme, format and location tests, each applied only when its filter is set |
| ProjectPage.DefaultFilterShowsAll | frontend/frontend/front/src/pages/ProjectPage.tsx:188-194 | with the initial filter every project is listed, in order |
| ProjectPage.ThemeFilter | frontend/frontend/front/src/pages/ProjectPage.tsx:457-461 | with a single theme selected, a project is listed exactly when it carries that tag |
| ProjectPage.CurrentProjects | frontend/frontend/front/src/pages/ProjectPage.tsx:471-476 | page p (from 1) shows exactly the filtered projects at positions 6(p-1) up to 6p, cut at the end of the list: at most six, and non-empty when the page starts inside the list |
| ProjectPage.RenderJoinButton | frontend/frontend/front/src/pages/ProjectPage.tsx:273-305 | the button exists exactly for a signed-in student; it is disabled exactly when the student has applied or joined, and reads "Joined", "Already applied" or "Join" in that order of precedence |
| ProjectPage.EnabledOnlyWhenJoin | frontend/frontend/front/src/pages/ProjectPage.tsx:284-290 | the button can be pressed exactly when it reads "Join" |
| ProjectPage.DecisionRequest | frontend/frontend/front/src/pages/ProjectPage.tsx:306-316 | the decision is sent as a PATCH to the application's approve or reject path |
| ProjectPage.DecisionRequestRefused | frontend/frontend/front/src/pages/ProjectPage.tsx:316 | against the backend's application routes that PATCH request is always answered 405, for every application id |
| ProjectPage.Decided | frontend/frontend/front/src/pages/ProjectPage.tsx:319-340 | a card without that application is unchanged; otherwise only that application's status changes, joined users are kept, and a user is added only on approval, only when non-zero and only the application's applicant; the user list stays duplicate-free when it changes; every other field is unchanged |
| ProjectPage.ApprovalAddsApplicant | frontend/frontend/front/src/pages/ProjectPage.tsx:326-333 | after an approval the joined users are duplicate-free and are exactly the previous ones plus the applicant |
| ProjectPage.RejectionKeepsJoined | frontend/frontend/front/src/pages/ProjectPage.tsx:330-333 | a rejection never changes the joined users |
| ProjectPage.CreatorWithoutDeleteButton | frontend/frontend/front/src/pages/ProjectPage.tsx:829 | a student who created a project may delete it on the backend, yet the page shows them no delete button |
| ProjectPage.State.constructor | frontend/frontend/front/src/pages/ProjectPage.tsx:42-44 | the loaded cards, the default filter and page 1 |
| ProjectPage.State.ResetFilters | frontend/frontend/front/src/pages/ProjectPage.tsx:479-488 | the default filter and page 1 |
| ProjectPage.State.HandleJoin | frontend/frontend/front/src/pages/ProjectPage.tsx:209-271 | a request is sent exactly when a user with an id is signed in, a token is stored and the project is not already applied to, and targets its project id or else its id; a returned application is appended to the card with that id, which is marked applied, and every other card is unchanged; otherwise nothing changes |
| ProjectPage.State.HandleApplication | frontend/frontend/front/src/pages/ProjectPage.tsx:306-346 | the PATCH decision request is sent; on success every card is updated by the decision, on failure nothing changes |
| ProjectPage.State.HandleAddProject | frontend/frontend/front/src/pages/ProjectPage.tsx:359-444 | a project is sent exactly when title and description are non-blank after trimming, a token is stored and a user is signed in, and the body sent is `ProjectBodyOf` of the form; a created project's card is put first, otherwise the list is unchanged |
| ProjectPage.IfFilled | frontend/frontend/front/src/pages/ProjectPage.tsx:386-388 | an optional text field is sent exactly when it is non-empty, as typed |
| ProjectPage.IfFilledNumber | frontend/frontend/front/src/pages/ProjectPage.tsx:398-400 | an optional number field is sent exactly when it is non-empty, as `parseInt` of its text (NaN when it has no leading number) |
| ProjectPage.ProjectBodyOf | frontend/frontend/front/src/pages/ProjectPage.tsx:379-400 | title, description, the required roles as tech stack and the author's email always; the prize, the deadline (as the ISO form of that date at 23:59:59) and max_participants (parsed) exactly when filled in |
| ProjectPage.TypedLimitIsSent | frontend/frontend/front/src/pages/ProjectPage.tsx:398-400 | a participant limit typed as the decimal form of a whole number is sent as that number |
| ProjectPage.State.DeleteProject | frontend/frontend/front/src/pages/ProjectPage.tsx:828-848 | a delete request is sent exactly when the viewer is a signed-in admin or mentor (role compared lower-cased) and the dialog is confirmed, and it goes to that project's path; after a successful delete exactly the cards with other ids remain, in order; otherwise nothing changes |
| ProjectPage.DeleteRequestReachesRoute | frontend/frontend/front/src/pages/ProjectPage.tsx:844 | the page's DELETE `/projects/<id>` reaches the backend's delete_project route (api/v1/projects.py:60) for every id, negative ones included |
| ProjectPage.NewCard | frontend/frontend/front/src/pages/ProjectPage.tsx:404-423 | the card of a new project has its id, title, description and author, the default tags, status, format and location, and no joined users or applications |
| HackathonsPage.StatusAt | frontend/frontend/front/src/pages/HackathonsPage.tsx:114-116 | "ongoing" exactly from the start to the end, both included; "past" exactly after the end; "upcoming" exactly before the start (and not after the end) |
| HackathonsPage.Normalise | frontend/frontend/front/src/pages/HackathonsPage.tsx:109-141 | the shown status follows the dates; an empty prize, location or format and a missing or empty tag list take their defaults, so the tags are never empty; a missing participant count is 0 |
| HackathonsPage.StatusTimeline | frontend/frontend/front/src/pages/HackathonsPage.tsx:114-116 | for a hackathon whose start is not after its end, it is upcoming before the start, ongoing from start to end and past afterwards |
| HackathonsPage.Filtered | frontend/frontend/front/src/pages/HackathonsPage.tsx:290-310 | a hackathon is listed exactly when it is in the input and passes the search, status, theme, format and location tests |
| HackathonsPage.SameFilterAsProjects | frontend/frontend/front/src/pages/HackathonsPage.tsx:290-310 | the hackathon filter keeps a card exactly when the project catalogue's filter keeps the same fields |
| HackathonsPage.ArrowsStayInRange | frontend/frontend/front/src/pages/HackathonsPage.tsx:1164-1193 | from a page within range, both arrows lead to a page within range |
| HackathonsPage.BodyOf | frontend/frontend/front/src/pages/HackathonsPage.tsx:203-224 | title and description as typed; start and end as the ISO forms of the start date at 00:00:00 and the end date at 23:59:59; prize, location, format and tags exactly when filled in, as typed; max_participants exactly when filled in, as `parseInt` of its text |
| HackathonsPage.LocalTags | frontend/frontend/front/src/pages/HackathonsPage.tsx:239-241 | no tags for an empty input; otherwise one tag per comma-separated piece, each trimmed |
| HackathonsPage.NewCard | frontend/frontend/front/src/pages/HackathonsPage.tsx:231-258 | the card added after creation has the returned id, status "upcoming", no participants, the prize or its placeholder, and the locally split tags |
| HackathonsPage.JoinCheck | frontend/frontend/front/src/pages/HackathonsPage.tsx:320-337 | the form may be sent exactly when a hackathon is selected and the name, email, phone, role, skills and team answer all pass; otherwise each problem is reported exactly when its check is the first, in source order, that fails |
| HackathonsPage.BlankNameReportedFirst | frontend/frontend/front/src/pages/HackathonsPage.tsx:320-337 | with a hackathon selected, a form whose name is blank is refused for its name, whatever its other fields hold |
| HackathonsPage.State.constructor | frontend/frontend/front/src/pages/HackathonsPage.tsx:37-70 | the loaded cards and joined list, the default filter and page 1 |
| HackathonsPage.State.ResetFilters | frontend/frontend/front/src/pages/HackathonsPage.tsx:375-384 | the default filter and page 1 |
| HackathonsPage.State.HandleAddHackathon | frontend/frontend/front/src/pages/HackathonsPage.tsx:174-286 | a request is sent exactly when the four required fields are filled, the start is before the end and a token is stored, and its body is `BodyOf` of the form; on success the new card is appended (with the returned id, or the current time when none is returned); otherwise the list is unchanged |
| HackathonsPage.State.HandleJoinSubmit | frontend/frontend/front/src/pages/HackathonsPage.tsx:320-373 | the reported problem is the first failing check; the hackathon is added to the joined list exactly when there is none and the request succeeds |
| HackathonsPage.State.HandleHackathonApplication | frontend/frontend/front/src/pages/HackathonsPage.tsx:149-172 | on success the card with that id takes the returned application list and every other card is unchanged; on failure nothing changes |
| HackathonsPage.JoinSubmitRefused | frontend/frontend/front/src/pages/HackathonsPage.tsx:340-342 | the registration POST to `/hackathons/join` is answered 405 by the hackathon routes, which read "join" as a hackathon id served only under GET and DELETE |
| HackathonsPage.DeleteRequestReachesRoute | frontend/frontend/front/src/pages/HackathonsPage.tsx:812 | the page's DELETE `/hackathons/<id>` reaches the delete_hackathon route for every id, negative ones included |
| HackathonsPage.State.DeleteHackathon | frontend/frontend/front/src/pages/HackathonsPage.tsx:797-823 | a delete request is sent exactly when the viewer is an admin or mentor, the card has a truthy id and the dialog is confirmed, and it is sent to that card's path; after a successful delete exactly the cards with other ids remain, in order; otherwise nothing changes |
| HackathonsPage.ApplicationDecisionNotFound | frontend/frontend/front/src/pages/HackathonsPage.tsx:155-156 | the decision POST to `/hackathons/<id>/applications/<userId>` is answered 404 for every hackathon and user id: no hackathon route has that many pieces |
| WorkspacePage.HasAccess | frontend/frontend/front/src/pages/WorkspacePage.tsx:85-91 | access exactly for the project's creator or a user with an active membership |
| WorkspacePage.InvitedIsNotEnough | frontend/frontend/front/src/pages/WorkspacePage.tsx:88-91 | a user who is only invited, and not the creator, has no access |
| WorkspacePage.ActiveMembers | frontend/frontend/front/src/pages/WorkspacePage.tsx:137 | the members tab lists exactly the active members |
| WorkspacePage.TasksByStatus | frontend/frontend/front/src/pages/WorkspacePage.tsx:258-262 | each column holds exactly the tasks with its status |
| WorkspacePage.AtMostOneColumn | frontend/frontend/front/src/pages/WorkspacePage.tsx:258-262 | no task is in two columns, and a task with any other status is in none |
| WorkspacePage.ColumnsCoverAll | frontend/frontend/front/src/pages/WorkspacePage.tsx:258-262 | when every task has one of the three statuses, the column sizes add up to the number of tasks |
| WorkspacePage.Moves | frontend/frontend/front/src/pages/WorkspacePage.tsx:362-439 | every button on a card moves it to another of the three task statuses |
| WorkspacePage.NoSkipToDone | frontend/frontend/front/src/pages/WorkspacePage.tsx:362 | a task in "todo" has no button straight to "done" |
| WorkspacePage.State.constructor | frontend/frontend/front/src/pages/WorkspacePage.tsx:119 | the loaded tasks |
| WorkspacePage.State.CreateTask | frontend/frontend/front/src/pages/WorkspacePage.tsx:157-175 | a task is sent exactly when the title is non-blank after trimming and the route has a project id, with status "todo" and an empty description sent as null; a created task is appended, otherwise the list is unchanged |
| WorkspacePage.State.UpdateTaskStatus | frontend/frontend/front/src/pages/WorkspacePage.tsx:177-188 | on success the tasks with that id are replaced by the server's record and every other task is unchanged; on failure nothing changes |
| WorkspacePage.State.DeleteTask | frontend/frontend/front/src/pages/WorkspacePage.tsx:190-200 | after confirmation and a successful request exactly the tasks with other ids remain, in order; otherwise nothing changes; no task is ever added |
| FilterPage.AllTags | frontend/frontend/front/src/pages/FilterPage.tsx:25 | the offered tags are duplicate-free and are exactly the tags carried by some item |
| FilterPage.AllTagsPrefix | frontend/frontend/front/src/pages/FilterPage.tsx:25 | the tags of the earlier items come first, in their own order, whatever items follow |
| FilterPage.UntaggedAddsNothing | frontend/frontend/front/src/pages/FilterPage.tsx:25 | an item without tags adds nothing to the offered tags |
| FilterPage.RemoveTheme | frontend/frontend/front/src/pages/FilterPage.tsx:84-89 | the chip's ✕ removes that theme (every repeat of it) and keeps every other theme and every other field |
| FilterPage.ToggleTheme | frontend/frontend/front/src/pages/FilterPage.tsx:131-142 | a click selects an unselected theme by appending it and deselects a selected one; no other theme and no other field changes |
| FilterPage.ToggleTwice | frontend/frontend/front/src/pages/FilterPage.tsx:131-142 | two clicks on an unselected theme give back the original filter |
| FilterPage.Edited | frontend/frontend/front/src/pages/FilterPage.tsx:48-49 | setting the status, format or location control changes that field alone |
| WorkspaceSelectPage.Tagged | frontend/frontend/front/src/pages/WorkspaceSelectPage.tsx:48-55 | every fetched record is kept, in order, tagged with its kind |
| WorkspaceSelectPage.Created | frontend/frontend/front/src/pages/WorkspaceSelectPage.tsx:59-64 | exactly the items whose creator is the user |
| WorkspaceSelectPage.Joined | frontend/frontend/front/src/pages/WorkspaceSelectPage.tsx:67-71 | exactly the projects the user has an active membership of |
| WorkspaceSelectPage.Accessible | frontend/frontend/front/src/pages/WorkspaceSelectPage.tsx:79-91 | every listed item comes from the created or joined lists and is the first item there with its id |
| WorkspaceSelectPage.AccessibleUnique | frontend/frontend/front/src/pages/WorkspaceSelectPage.tsx:79-91 | each id is listed once, and every id of the created and joined items is listed |
| WorkspaceSelectPage.CreatedFirst | frontend/frontend/front/src/pages/WorkspaceSelectPage.tsx:79-84 | when the created items have distinct ids, they are listed first, in their order |
| WorkspaceSelectPage.HackathonsAreOwnOnly | frontend/frontend/front/src/pages/WorkspaceSelectPage.tsx:73-76 | every hackathon offered is one the user created, because joined hackathons are always empty |
| WorkspaceSelectPage.ProjectsAreAccessible | frontend/frontend/front/src/pages/WorkspaceSelectPage.tsx:58-84 | every project offered is tagged "project" and is the user's own or one they are an active member of |
| ProfilePage.CreatedProjects | frontend/frontend/front/src/pages/ProfilePage.tsx:74-76 | "My projects" lists exactly the projects whose creator is the user |
| ProfilePage.ActiveProjectIds | frontend/frontend/front/src/pages/ProfilePage.tsx:81-83 | exactly the project ids of the active memberships |
| ProfilePage.MembershipProjects | frontend/frontend/front/src/pages/ProfilePage.tsx:84-86 | "Memberships" lists exactly the projects whose id belongs to an active membership |
| ProfilePage.InvitationNotListed | frontend/frontend/front/src/pages/ProfilePage.tsx:81-86 | a project known only through an invitation that was not accepted is not listed |
| ProfilePage.WithSkill | frontend/frontend/front/src/pages/ProfilePage.tsx:136-141 | the trimmed input is appended when it is non-blank and not yet present; otherwise the skills are unchanged |
| ProfilePage.WithSkillNoDuplicates | frontend/frontend/front/src/pages/ProfilePage.tsx:137 | adding never creates a repeated skill |
| ProfilePage.WithSkillIdempotent | frontend/frontend/front/src/pages/ProfilePage.tsx:136-141 | adding the same input twice equals adding it once |
| ProfilePage.AddThenRemove | frontend/frontend/front/src/pages/ProfilePage.tsx:136-145 | removing a skill just added gives back the previous list |
| ProfilePage.State.constructor | frontend/frontend/front/src/pages/ProfilePage.tsx:66-96 | once loaded: the user, the bio and skill editors filled from the profile (a missing bio as empty), nothing being edited, the created and membership lists as above, and the applications as received |
| ProfilePage.State.AddSkill | frontend/frontend/front/src/pages/ProfilePage.tsx:136-141 | the skills become the list with the input added, the input is cleared exactly when that changed the list, and a duplicate-free list stays so |
| ProfilePage.State.RemoveSkill | frontend/frontend/front/src/pages/ProfilePage.tsx:143-145 | every occurrence of the skill is removed, and nothing else |
| ProfilePage.State.SaveBio | frontend/frontend/front/src/pages/ProfilePage.tsx:112-122 | a request is sent exactly when a user is loaded; on success the shown bio is the edited one and editing ends; otherwise the user and the editing flag are unchanged |
| ProfilePage.State.SaveSkills | frontend/frontend/front/src/pages/ProfilePage.tsx:124-134 | the same for the skills |
| ProfilePage.State.DeleteProject | frontend/frontend/front/src/pages/ProfilePage.tsx:147-164 | after confirmation and a successful request exactly the created projects with other ids remain, in order; otherwise nothing changes |

## Left out

- The database engine and ORM (sessions, commits, refreshes, the SQLite fallback, migrations) are not modelled. The tables are sequences in memory, and a commit is the end of a method. The one exception is `ProjectService.ListProjects`, which takes the engine as a parameter because SQLite and PostgreSQL differ on a negative window.
- ProjectService.ListProjects: a window PostgreSQL refuses is None. The database error it raises and the 500 the SQLAlchemy handler then sends are not part of the result.
- Ids come from a single counter shared by all tables, where the database keeps one autoincrement sequence per table. Only the uniqueness of ids within a table is relied on.
- Foreign keys are not enforced. The cascades the models declare and the routes rely on are modelled:
  - deleting a user removes their applications and hackathon participations;
  - deleting a project removes its required roles;
  - deleting a hackathon removes its participants and clears the hackathon of its projects.
  Rows that reference a deleted project or task without a declared cascade (memberships, tasks, task comments) stay as they are. The task comments table is not part of this model.
- The websocket push of a notification and FastAPI's BackgroundTasks (asynchronous delivery) are not modelled. `NotificationService.Create` reports whether a push would be scheduled.
- core/security.py is not part of this model. Password hashing and JWT encoding and decoding are the functions of an `AuthService.Crypto` value handed in by the caller, together with the two token lifetimes. Their soundness (a token decodes to the subject and type it was issued with until its `exp` has passed, and not after) is an assumption stated as a predicate. Signatures, the secret and the algorithm are not modelled.
- main.py (application wiring, CORS middleware, the websocket endpoint) is left out, and so is HTTP framing. Only the route tables of the applications and hackathons routers are written out; the other routers' routes are modelled one by one from the point where the caller is known.
- Route matching compares path pieces only. Path-parameter conversion (the 422 for a non-integer id), trailing-slash redirects and query strings are not modelled.
- `new Date(text).toISOString()` is a function handed to the form handlers (`isoOf`), because it depends on the browser's time zone.
- `parseInt` is modelled on ASCII whitespace and the `0x` prefix, with an unbounded integer result; the Unicode space characters JavaScript also skips and the loss of precision beyond 2^53 are not modelled.
- ProjectService.Patched: the update body cannot carry an explicit JSON null for title, description, status or tech_stack; a field is either absent or set to a value. The source's schema accepts such a null and `setattr` writes it; for the NOT NULL title, description and status columns the commit then fails, and a null tech_stack would be stored. Those requests are not modelled.
- TaskService.Patched: likewise, an explicit null task title is not representable in the update body (a NOT NULL column, so the commit fails in the source); the other task fields do carry null.
- AdminApi.PatchedUser: likewise, an explicit null name or skills list is not representable in the user update body: a null name fails the commit on its NOT NULL column in the source, and a null skills list would be stored. Bio and avatar do carry null.
- Clocks are parameters. Timestamps and dates are integers (milliseconds in the frontend, day numbers for task due dates), and locale date formatting is not modelled.
- Project progress is a mathematical `real`, not an IEEE double.
- Lower-casing, `.strip()`/`.trim()` and substring search are modelled on ASCII letters and the six ASCII whitespace characters both languages strip. Python's `strip()` also removes the ASCII separators U+001C to U+001F, which `trim()` keeps; that difference, Unicode spaces, Unicode case folding and UTF-16 code units are not modelled.
- The lookups in api/v1/applications.py that attach applicant, project and hackathon summaries to each response are left out. The nested fields keep their default, None.
- The thin pass-through routes are not modelled, because they only read one row or one list:
  - list_projects and get_project in api/v1/projects.py (the underlying `ProjectService.ListProjects` and `ProjectService.GetById` are modelled);
  - list_hackathons;
  - in api/v1/admin.py: get_application, create_project_admin, list_all_projects, delete_project_admin, list_all_users and get_user_admin.
- Logging and console output are left out. The request path in an error response is a parameter.
- Frontend rendering is not modelled: markup, CSS, modals, alerts, confirm dialogs (their answer is a parameter), navigation and the skeleton cards.
- The data-fetching effects of the pages are left out, including their fallback data and `getUserProfile`. What they load is the input of each page's constructor or function.
- The ApplicantsPage form that creates an application (`handleCreateApplication`) is not modelled. It is form wiring around the same POST that `AxiosClient.ApplyToProjectBody` models.
- Clearing of form inputs after a successful request is not modelled (the new-task title, the project form, the hackathon join form), except where a contract depends on it (the new-skill input of `ProfilePage`).
- Concurrent in-flight requests and last-response-wins races are not modelled. Each request's outcome is a parameter of a sequential method.
- Lists.SortBy: the sorts state a permutation ordered by key but not stability. `Array.prototype.sort` has been required to be stable since ECMAScript 2019, and the backend's `ORDER BY` leaves ties to the database; the relative order of equal keys is not promised by the model.
