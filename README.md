# AI ticket assistant — a Dafny model of ticket intake and routing

This project models the two pieces of the AI ticket assistant backend that hold business rules:

* the **ticket-created workflow handler**, which runs once per "ticket/created" event. It fetches
  the ticket and sets its status to TODO. It then folds in the AI analysis (normalised priority,
  helpful notes, related skills, status IN_PROGRESS). Next it picks an assignee: a moderator whose
  skill matches the related skills case-insensitively, else an admin, else nobody. It writes
  `assignedTo` and mails the assignee. Any failure ends the run with `success: false`;
  nothing is thrown to the caller;
* the **ticket HTTP controller**. `createTicket` validates the title and description, inserts the
  ticket and emits the workflow event. `getTickets` and `getTicket` apply a role-based row filter
  and field projection: role "user" sees only their own tickets, with title, description, status and
  createdAt; every other role sees everything. Lists are newest first, and errors give 400, 404 or 500.

The database is an in-memory `Store` class (`tickets.dfy`). It holds a map from ticket id to ticket,
the next free id, the user collection as a sequence, the mail outbox and the emitted-event list. A
ghost log `statusWrites` records every status the handler writes, in order. The handler steps
are methods that modify the store, and each is specified against pure functions (`ApplyAi`,
`ChooseAssignee`, `Notifications`, `Processed`). The queries are pure functions over the store's
contents, so they cannot change it.

Modules: `Wrappers` (Option, Result), `Tickets` (records, store, `findOne`), `SkillMatch` (the
case-insensitive regex query of the assignment step), `OnTicketCreate` (the handler) and
`TicketController` (the HTTP handlers).

Inputs instead of effects:
* the AI analysis is an `Option<AiResponse>` parameter;
* database, AI, mailer and event-client failures are parameters. In the handler, `failAt: Option<DbCall>`
  names the one call of the run that throws: the fetch, the status write, the AI call `analyzeTicket`,
  the AI write, the moderator or admin lookup, the assignment write, the reload or `sendMail`.
  In the controller, these are `fault` and `CreateFault`;
* the creation timestamp is a `now` parameter;
* mail delivery is an append to `outbox`, and `inngest.send` is an append to `events`.

Notes on the code:
* When the AI returns nothing, the code (`on-ticket-create.js:44-54`) leaves priority, notes and
  skills untouched, and status stays TODO.
* The code as written fails every run (see Findings). `OnTicketCreated` uses the evidently intended
  check.
* A throw in any step after the fetch, or in the AI call between steps (line 39), ends the run with `success: false`. The writes of the earlier
  steps stay in the store.

## Model

| member | source | states |
|---|---|---|
| `Tickets.Store.constructor` | ai-ticket-assistant/inngest/functions/on-ticket-create.js:2-3 | the database starts with no tickets, the given users, an empty outbox, no events and an empty status log |
| `Tickets.FindOne` | ai-ticket-assistant/inngest/functions/on-ticket-create.js:60-73 | `findOne` returns a user satisfying the filter, the first such in collection order, and null exactly when no user satisfies it |
| `SkillMatch.ContainsIgnoreCase` | ai-ticket-assistant/inngest/functions/on-ticket-create.js:64-65 | a literal fragment matches a skill when its lower-cased form occurs in the lower-cased skill |
| `SkillMatch.Join` | ai-ticket-assistant/inngest/functions/on-ticket-create.js:64 | JavaScript `join`: the elements separated by the separator, "" for no elements |
| `SkillMatch.Alternatives` | ai-ticket-assistant/inngest/functions/on-ticket-create.js:64 | the alternatives of the joined pattern: the related skills, or the single empty alternative for none |
| `SkillMatch.PatternMatches` | ai-ticket-assistant/inngest/functions/on-ticket-create.js:62-66 | the `$regex` with option "i" matches a skill when some alternative occurs in it, ignoring case |
| `SkillMatch.IsSubstringIffOccurs` | ai-ticket-assistant/inngest/functions/on-ticket-create.js:62-66 | the unanchored fragment search succeeds exactly when the fragment occurs at some position of the skill |
| `SkillMatch.JoinEmptyIff` | ai-ticket-assistant/inngest/functions/on-ticket-create.js:64 | `relatedskills.join("|")` is empty exactly for no skills or a single empty skill |
| `SkillMatch.EmptyPatternMatchesEverything` | ai-ticket-assistant/inngest/functions/on-ticket-create.js:62-66 | an empty joined pattern matches every skill |
| `SkillMatch.MatchIgnoresSkillCase` | ai-ticket-assistant/inngest/functions/on-ticket-create.js:65 | with option "i", a skill matches exactly when its lower-cased form matches |
| `SkillMatch.GoMatchesMongoDB` | ai-ticket-assistant/inngest/functions/on-ticket-create.js:62-66 | substring matching lets related skill "go" select a moderator skilled in "MongoDB" |
| `OnTicketCreate.NormalizePriority` | ai-ticket-assistant/inngest/functions/on-ticket-create.js:46-48 | the written priority is always low, medium or high: the AI's value when it is one of those, otherwise medium |
| `OnTicketCreate.FetchTicket` | ai-ticket-assistant/inngest/functions/on-ticket-create.js:25-31 | intended fetch: succeeds with the stored ticket exactly when `findById` does not throw and the id is stored; a missing id fails non-retriably with "Ticket not found", a throw fails retriably |
| `OnTicketCreate.FetchTicketAsWritten` | ai-ticket-assistant/inngest/functions/on-ticket-create.js:27 | as written, the check reads the still-uninitialised outer `ticket`, so the step always throws a retriable error |
| `OnTicketCreate.FetchAsWrittenRejectsStoredTicket` | ai-ticket-assistant/inngest/functions/on-ticket-create.js:25-31 | for a store holding ticket t, the intended fetch returns t while the as-written fetch fails |
| `OnTicketCreate.ApplyAi` | ai-ticket-assistant/inngest/functions/on-ticket-create.js:45-52 | the AI update sets a valid normalised priority, copies notes and related skills, sets IN_PROGRESS and keeps id, title, description, creator, assignee and createdAt |
| `OnTicketCreate.ChooseAssignee` | ai-ticket-assistant/inngest/functions/on-ticket-create.js:59-74 | three-way rule: a matching moderator if any exists; otherwise an admin if any exists; otherwise nobody; the choice is always a stored user |
| `OnTicketCreate.NoSkillsAnyModeratorQualifies` | ai-ticket-assistant/inngest/functions/on-ticket-create.js:62-66 | with no related skills, a user qualifies exactly when they are a moderator with at least one skill |
| `OnTicketCreate.Notifications` | ai-ticket-assistant/inngest/functions/on-ticket-create.js:83-90 | exactly one mail when there is an assignee and none otherwise; it goes to the assignee's email with subject "Ticket Assigned" and its body contains the title |
| `OnTicketCreate.ProcessedEnrichment` | ai-ticket-assistant/inngest/functions/on-ticket-create.js:33-56 | after a run, without AI the status is TODO and priority, notes and skills are untouched; with AI the status is IN_PROGRESS, the priority is valid and notes and skills are copied; id, text, creator and createdAt never change |
| `OnTicketCreate.ProcessedAssignment` | ai-ticket-assistant/inngest/functions/on-ticket-create.js:58-79 | after a run, `assignedTo` is a matching moderator's id, else an admin's id, else null |
| `OnTicketCreate.VpnDownExample` | ai-ticket-assistant/inngest/functions/on-ticket-create.js:33-91 | "VPN down" with no matching moderator and an admin: IN_PROGRESS, priority medium for an unknown AI priority, assigned to the admin, one mail to the admin naming the ticket |
| `OnTicketCreate.VpnDownAssignee` | ai-ticket-assistant/inngest/functions/on-ticket-create.js:59-74 | in the "VPN down" store no moderator matches "networking", so the admin is chosen |
| `OnTicketCreate.ModeratorLookup` | ai-ticket-assistant/inngest/functions/on-ticket-create.js:60-68 | the moderator query returns a stored matching moderator, and nothing exactly when no user is one |
| `OnTicketCreate.IsMatchingModerator` | ai-ticket-assistant/inngest/functions/on-ticket-create.js:60-68 | the query filter: role exactly "moderator" and some skill that the joined pattern matches (`$elemMatch`) |
| `OnTicketCreate.IsAdmin` | ai-ticket-assistant/inngest/functions/on-ticket-create.js:71-73 | the fallback filter: role exactly "admin" |
| `OnTicketCreate.AssigneeId` | ai-ticket-assistant/inngest/functions/on-ticket-create.js:76 | the chosen user's `_id`, else null: the id exactly when there is a chosen user, otherwise null |
| `OnTicketCreate.SkillsOf` | ai-ticket-assistant/inngest/functions/on-ticket-create.js:43-55 | the skills handed to the assignment step: the response's related skills, or `[]` without a response |
| `OnTicketCreate.Enriched` | ai-ticket-assistant/inngest/functions/on-ticket-create.js:34-52 | the ticket after the status and AI writes: status TODO, then `ApplyAi` when there is a response |
| `OnTicketCreate.Processed` | ai-ticket-assistant/inngest/functions/on-ticket-create.js:33-79 | the ticket after a complete run: `Enriched`, with `assignedTo` set to the chosen assignee's id or null |
| `OnTicketCreate.FailingCall` | ai-ticket-assistant/inngest/functions/on-ticket-create.js:21-97 | a faulty call throws only if the run makes it; the AI call is always made, the AI write happens only with a response, the admin lookup only without a matching moderator, the reload and mail only with an assignee |
| `OnTicketCreate.TicketAfter` | ai-ticket-assistant/inngest/functions/on-ticket-create.js:33-79 | the ticket after a run that stops at a failing call: all writes of the steps before that call and none after it |
| `OnTicketCreate.StatusWritesAfter` | ai-ticket-assistant/inngest/functions/on-ticket-create.js:35-50 | the status writes of a run that stops at a failing call: none, TODO, or TODO then (with AI) IN_PROGRESS |
| `OnTicketCreate.MailAfter` | ai-ticket-assistant/inngest/functions/on-ticket-create.js:82-91 | mail goes out only when the run completes |
| `OnTicketCreate.AnalyzeFaultKeepsTodo` | ai-ticket-assistant/inngest/functions/on-ticket-create.js:33-39 | the AI call is always made; when it throws, the ticket keeps only the TODO status, TODO is the only status write and no mail is sent |
| `OnTicketCreate.LookupFaultKeepsEarlierWrites` | ai-ticket-assistant/inngest/functions/on-ticket-create.js:59-97 | a throw in a user lookup keeps TODO (or IN_PROGRESS with AI) and the logged status writes, leaves `assignedTo` unchanged and sends no mail |
| `OnTicketCreate.StatusWritesInOrder` | ai-ticket-assistant/inngest/functions/on-ticket-create.js:35-50 | whatever call fails, status writes are at most TODO then IN_PROGRESS, and IN_PROGRESS only with an AI response |
| `OnTicketCreate.UpdateTicketStatus` | ai-ticket-assistant/inngest/functions/on-ticket-create.js:34-36 | succeeds unless its write throws; on success only the ticket's status changes, to TODO, and the write is logged; on a throw nothing changes |
| `OnTicketCreate.AiProcessing` | ai-ticket-assistant/inngest/functions/on-ticket-create.js:42-56 | with a response, the ticket becomes `ApplyAi` of it, IN_PROGRESS is logged and the response's related skills are returned; without one, nothing changes and `[]` is returned; a throw of the write changes nothing |
| `OnTicketCreate.AssignModerator` | ai-ticket-assistant/inngest/functions/on-ticket-create.js:59-79 | fails exactly when the moderator lookup, the admin lookup (made only without a moderator) or the write throws, changing nothing; otherwise returns `ChooseAssignee` and writes its id, or null, into `assignedTo` only |
| `OnTicketCreate.SendEmailNotification` | ai-ticket-assistant/inngest/functions/on-ticket-create.js:82-91 | with an assignee, appends the one notification for the reloaded title; fails, with nothing sent, when the reload or the mailer throws or the reload finds nothing; with no assignee it sends nothing and succeeds |
| `OnTicketCreate.EnrichSteps` | ai-ticket-assistant/inngest/functions/on-ticket-create.js:33-56 | the status step, the AI call and the AI step: on success the ticket is `Enriched` and the related skills are returned; on a throw exactly the earlier writes stay |
| `OnTicketCreate.AssignSteps` | ai-ticket-assistant/inngest/functions/on-ticket-create.js:58-91 | the assignment and mail steps: the ticket and outbox are as `TicketAfter` and `MailAfter` give for the call that fails, if any |
| `OnTicketCreate.RunAfterFetch` | ai-ticket-assistant/inngest/functions/on-ticket-create.js:33-97 | a failed fetch changes nothing and returns false. Otherwise the store holds exactly the writes made before the failing call, if any: ticket per `TicketAfter`, mail per `MailAfter`, status log per `StatusWritesAfter`. Success is true exactly when no call failed |
| `OnTicketCreate.OnTicketCreated` | ai-ticket-assistant/inngest/functions/on-ticket-create.js:20-98 | success exactly when the ticket is stored and no call the run makes throws; a missing ticket or a failing fetch changes no ticket, mail or status log; otherwise the store keeps exactly the writes before the failure |
| `OnTicketCreate.OnTicketCreatedAsWritten` | ai-ticket-assistant/inngest/functions/on-ticket-create.js:25-31 | the handler as written always returns success false and changes nothing |
| `TicketController.CreateTicket` | ai-ticket-assistant/controllers/ticket.js:8-40 | missing or empty title or description: 400, nothing stored or sent. Insert fault: 500, nothing stored. Otherwise one new ticket with the given text, creator = caller, under a fresh id. No fault: one "ticket/created" event and 201 with the ticket. Send fault: 500, ticket kept, no event |
| `TicketController.Provided` | ai-ticket-assistant/controllers/ticket.js:11 | JavaScript truthiness of a body field: present and not the empty string |
| `TicketController.NewTicket` | ai-ticket-assistant/controllers/ticket.js:16-20 | the inserted record: the given title and description, creator = caller, the stamped creation time, no assignee, other fields at their schema defaults |
| `TicketController.CreatedEvent` | ai-ticket-assistant/controllers/ticket.js:23-31 | the event is named "ticket/created" and carries the new ticket's id, title, description and creator |
| `TicketController.Populate` | ai-ticket-assistant/controllers/ticket.js:56 | the populated assignee has the referenced id and the email of a stored user with that id; null when unassigned or the user is missing |
| `TicketController.IsEndUser` | ai-ticket-assistant/controllers/ticket.js:53 | only the exact role "user" is restricted (the same test at line 83) |
| `TicketController.MayRead` | ai-ticket-assistant/controllers/ticket.js:91-93 | the row filter (also line 61): an end user may read only tickets they created; every other role may read any |
| `TicketController.BriefOf` | ai-ticket-assistant/controllers/ticket.js:62 | the projection "title description status createdAt", plus the id (also line 94) |
| `TicketController.Project` | ai-ticket-assistant/controllers/ticket.js:53-64 | the field projection keeps the ticket's id and creation time: brief for end users, full with the assignee populated for other roles |
| `TicketController.AllTickets` | ai-ticket-assistant/controllers/ticket.js:55 | the enumerated tickets are exactly the stored ones below the bound, in strictly ascending id order |
| `TicketController.Readable` | ai-ticket-assistant/controllers/ticket.js:61 | the row filter keeps exactly the tickets the caller may read and keeps ids distinct |
| `TicketController.Insert` | ai-ticket-assistant/controllers/ticket.js:57 | inserting into a newest-first list keeps it newest first, with exactly one more element |
| `TicketController.Sort` | ai-ticket-assistant/controllers/ticket.js:57 | the sort yields a newest-first arrangement of exactly the input tickets |
| `TicketController.ListedTickets` | ai-ticket-assistant/controllers/ticket.js:53-64 | the listed rows are exactly the stored tickets the caller may read, newest first |
| `TicketController.GetTickets` | ai-ticket-assistant/controllers/ticket.js:48-70 | a fault gives 500 "Internal Server Error", otherwise 200 with a list |
| `TicketController.GetTicketsForStaff` | ai-ticket-assistant/controllers/ticket.js:53-58 | any role other than "user" gets every stored ticket, in full with its assignee populated, newest first, none repeated |
| `TicketController.GetTicketsForEndUser` | ai-ticket-assistant/controllers/ticket.js:59-64 | role "user" gets exactly their own tickets, as title/description/status/createdAt views, newest first; no other user's ticket and no assignee or notes field |
| `TicketController.GetTicket` | ai-ticket-assistant/controllers/ticket.js:78-105 | staff: the stored ticket in full, or 404. Role "user": their own ticket in the brief projection, or 404. A fault gives 500 |
| `TicketController.OthersTicketLooksMissing` | ai-ticket-assistant/controllers/ticket.js:89-99 | for role "user", another user's ticket answers exactly like a missing id: 404 |

## Left out

- Workflow-engine semantics: retries (`retries: 2`), per-step memoisation and re-running the unwrapped AI call on retry are external engine behaviour. One run is modelled as a straight-line sequence.
- The AI call itself is an external API; its outcome is the `Option<AiResponse>` input, and its throw is `failAt == Some(Analyze)`. An AI response whose `relatedSkills` is missing (where `.join` would throw) is not modelled: skills are always a sequence.
- Mail delivery is an append to the outbox, and a mailer throw (`SendMail`) appends nothing. A partly delivered message is not modelled, because the mailer's code is not part of this model.
- Faults: exactly one of the calls listed under `DbCall` per run can be named as throwing (the fetch, the three ticket writes, the AI call, the two user lookups, the reload and the mailer). Several throws in one run are not modelled, and neither are the engine's retries after a throw.
- `inngest.send` is an append to the event list. Its failure is the `SendFails` input.
- MongoDB regular expressions: skills are literal text without metacharacters. The pattern is the alternation of its fragments, and "i" is ASCII lower-casing.
- `findOne` order is the order of the user sequence. Sort ties on `createdAt` are broken by ascending id; the database leaves that order unspecified.
- Ticket schema defaults (initial status, priority, notes) are `None`, because the schema file is not part of this model. Ids are natural numbers handed out in sequence, not ObjectIds. A malformed id (a cast error, hence 500) is covered only through the `fault` input.
- Concurrent runs and requests on the same ticket (last write wins) are not modelled.
- Logging (`console.error`) is not modelled.
- Request-body fields that are non-string truthy values are not modelled: title and description are optional strings.
- The frontend (signup, login, navbar, route guard) is not modelled: it is UI and browser-storage code.

## Findings

| source | as written | input that shows it | evidently intended | confidence | as-written member | corrected member |
|---|---|---|---|---|---|---|
| ai-ticket-assistant/inngest/functions/on-ticket-create.js:27 | `if (!ticket)` reads the outer `const ticket`, which is still being initialised by the `step.run` call whose callback performs the read. The read throws a retriable ReferenceError, and the top-level catch turns it into `success: false` | any run, e.g. a store holding ticket t and the event for t.id (`FetchAsWrittenRejectsStoredTicket`): the ticket is never moved to TODO, enriched, assigned or mailed | `if (!ticketObject)`: fail non-retriably only when the ticket is missing | not executed; high | `OnTicketCreate.FetchTicketAsWritten` | `OnTicketCreate.FetchTicket` |
