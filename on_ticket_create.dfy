/**
 * The "ticket/created" workflow handler: one run, as a straight-line sequence
 * of its named steps fetch-ticket, update-ticket-status, ai-processing,
 * assign-moderator and send-email-notification, over the in-memory store.
 * The AI analysis is an input (`Option<AiResponse>`), mail delivery is an
 * append to the outbox.
 */
module OnTicketCreate {
  import opened Wrappers
  import opened Tickets
  import opened SkillMatch

  /** The structured suggestion returned by the external AI analysis. */
  datatype AiResponse = AiResponse(priority: Option<string>, helpfulNotes: string, relatedSkills: seq<string>)

  /** An error thrown inside a step; `NonRetriable` stops the engine from retrying. */
  datatype StepError = NonRetriable(message: string) | Retriable(message: string)

  const Todo := "TODO"
  const InProgress := "IN_PROGRESS"
  const Priorities: seq<string> := ["low", "medium", "high"]
  const AssignedSubject := "Ticket Assigned"
  const AssignedPrefix := "A new ticket is assigned to you "

  // ---------------------------------------------------------------------
  // Pure parts of the steps

  /** The priority written for an AI response: its own when allowed, else "medium". */
  function NormalizePriority(p: Option<string>): (r: string)
    ensures r in Priorities
    ensures p.Some? && p.value in Priorities ==> r == p.value
    ensures !(p.Some? && p.value in Priorities) ==> r == "medium"
  {
    if p.Some? && p.value in Priorities then p.value else "medium"
  }

  /**
   * fetch-ticket, as intended: the stored ticket, or a non-retriable "Ticket
   * not found"; `dbFails` says that `findById` itself throws.
   */
  function FetchTicket(tickets: map<TicketId, Ticket>, id: TicketId, dbFails: bool): (r: Result<Ticket, StepError>)
    ensures r.Success? <==> !dbFails && id in tickets
    ensures r.Success? ==> r.value == tickets[id]
    ensures dbFails ==> r.Failure? && r.error.Retriable?
    ensures !dbFails && id !in tickets ==> r == Failure(NonRetriable("Ticket not found"))
  {
    if dbFails then Failure(Retriable("database error"))
    else if id in tickets then Success(tickets[id])
    else Failure(NonRetriable("Ticket not found"))
  }

  /**
   * fetch-ticket, as written: the not-found check reads the outer `ticket`
   * binding, which its own declaration is still initialising while the step
   * callback runs, so the read throws (a retriable ReferenceError) whatever
   * the store holds.
   */
  function FetchTicketAsWritten(tickets: map<TicketId, Ticket>, id: TicketId): (r: Result<Ticket, StepError>)
    ensures r.Failure? && r.error.Retriable?
  {
    Failure(Retriable("Cannot access 'ticket' before initialization"))
  }

  /** The as-written check rejects a ticket that the intended check returns. */
  lemma FetchAsWrittenRejectsStoredTicket(t: Ticket)
    ensures FetchTicket(map[t.id := t], t.id, false) == Success(t)
    ensures FetchTicketAsWritten(map[t.id := t], t.id).Failure?
  {
  }

  /** The update applied by ai-processing when the AI returned a response. */
  function ApplyAi(t: Ticket, ai: AiResponse): (u: Ticket)
    ensures u.priority.Some? && u.priority.value in Priorities
    ensures u.priority == Some(NormalizePriority(ai.priority))
    ensures u.status == Some(InProgress)
    ensures u.helpfulNotes == Some(ai.helpfulNotes) && u.relatedSkills == ai.relatedSkills
    ensures u.id == t.id && u.title == t.title && u.description == t.description
    ensures u.createdBy == t.createdBy && u.assignedTo == t.assignedTo && u.createdAt == t.createdAt
  {
    t.(priority := Some(NormalizePriority(ai.priority)),
       helpfulNotes := Some(ai.helpfulNotes),
       status := Some(InProgress),
       relatedSkills := ai.relatedSkills)
  }

  /** The skills ai-processing returns: the response's related skills, or none. */
  function SkillsOf(ai: Option<AiResponse>): seq<string>
  {
    if ai.Some? then ai.value.relatedSkills else []
  }

  /** A moderator with a skill that the joined related-skills pattern matches. */
  predicate IsMatchingModerator(u: User, related: seq<string>)
  {
    u.role == "moderator" && exists s :: s in u.skills && PatternMatches(related, s)
  }

  predicate IsAdmin(u: User)
  {
    u.role == "admin"
  }

  /** The moderator lookup of line 60: the first matching moderator, if any. */
  function ModeratorLookup(users: seq<User>, related: seq<string>): (r: Option<User>)
    ensures r.Some? ==> r.value in users && IsMatchingModerator(r.value, related)
    ensures r.None? <==> forall u :: u in users ==> !IsMatchingModerator(u, related)
  {
    FindOne(users, u => IsMatchingModerator(u, related))
  }

  /** assign-moderator's choice: a matching moderator, else an admin, else nobody. */
  function ChooseAssignee(users: seq<User>, related: seq<string>): (r: Option<User>)
    ensures r.Some? ==> r.value in users
    ensures (exists u :: u in users && IsMatchingModerator(u, related)) ==>
              r.Some? && IsMatchingModerator(r.value, related)
    ensures (forall u :: u in users ==> !IsMatchingModerator(u, related)) &&
            (exists u :: u in users && IsAdmin(u)) ==>
              r.Some? && IsAdmin(r.value)
    ensures r.None? <==> forall u :: u in users ==> !IsMatchingModerator(u, related) && !IsAdmin(u)
  {
    var moderator := ModeratorLookup(users, related);
    if moderator.Some? then moderator else FindOne(users, IsAdmin)
  }

  /** With no related skills every moderator with at least one skill qualifies. */
  lemma NoSkillsAnyModeratorQualifies(u: User)
    ensures IsMatchingModerator(u, []) <==> u.role == "moderator" && |u.skills| > 0
  {
    if u.role == "moderator" && |u.skills| > 0 {
      EmptyPatternMatchesEverything([], u.skills[0]);
    }
  }

  /** `user?._id || null` */
  function AssigneeId(a: Option<User>): (r: Option<UserId>)
    ensures r.Some? <==> a.Some?
    ensures a.Some? ==> r.value == a.value.id
  {
    if a.Some? then Some(a.value.id) else None
  }

  /** The mail sent by send-email-notification: one message to the assignee, if any. */
  function Notifications(a: Option<User>, title: string): (r: seq<Email>)
    ensures |r| == (if a.Some? then 1 else 0)
    ensures a.Some? ==> r[0].to == a.value.email && r[0].subject == AssignedSubject
    ensures a.Some? ==> IsSubstring(title, r[0].body)
  {
    if a.Some? then
      SuffixIsSubstring(AssignedPrefix, title);
      [Email(a.value.email, AssignedSubject, AssignedPrefix + title)]
    else []
  }

  /** The ticket after update-ticket-status and ai-processing. */
  function Enriched(t: Ticket, ai: Option<AiResponse>): Ticket
  {
    var todo := t.(status := Some(Todo));
    if ai.Some? then ApplyAi(todo, ai.value) else todo
  }

  /** The ticket after a complete run. */
  function Processed(t: Ticket, ai: Option<AiResponse>, users: seq<User>): Ticket
  {
    Enriched(t, ai).(assignedTo := AssigneeId(ChooseAssignee(users, SkillsOf(ai))))
  }

  /**
   * The external calls of one run, in the order they are made: `findById`
   * (line 26), the status write, the AI call `analyzeTicket` (line 39, outside
   * every step), the AI write, the two `findOne` lookups, the assignment
   * write, the reload before mailing and `sendMail`.
   */
  datatype DbCall = Fetch | StatusUpdate | Analyze | AiUpdate | FindModerator | FindAdmin | AssignUpdate | Reload | SendMail

  /** The position of a call in the run. */
  function Position(c: DbCall): nat
  {
    match c
    case Fetch => 0
    case StatusUpdate => 1
    case Analyze => 2
    case AiUpdate => 3
    case FindModerator => 4
    case FindAdmin => 5
    case AssignUpdate => 6
    case Reload => 7
    case SendMail => 8
  }

  /** The run makes call `c`: the AI write only with a response, the admin lookup only without a moderator, mail only with an assignee. */
  predicate Reached(c: DbCall, ai: Option<AiResponse>, users: seq<User>)
  {
    match c
    case AiUpdate => ai.Some?
    case FindAdmin => ModeratorLookup(users, SkillsOf(ai)).None?
    case Reload => ChooseAssignee(users, SkillsOf(ai)).Some?
    case SendMail => ChooseAssignee(users, SkillsOf(ai)).Some?
    case _ => true
  }

  /** The call that throws during the run, if the faulty call is one the run makes. */
  function FailingCall(failAt: Option<DbCall>, ai: Option<AiResponse>, users: seq<User>): (r: Option<DbCall>)
    ensures r.Some? <==> failAt.Some? && Reached(failAt.value, ai, users)
    ensures r.Some? ==> r == failAt
  {
    if failAt.Some? && Reached(failAt.value, ai, users) then failAt else None
  }

  /**
   * The stored ticket when the run stops at `stop` (None: it completes):
   * exactly the writes of the steps before the failing call.
   */
  function TicketAfter(t: Ticket, ai: Option<AiResponse>, users: seq<User>, stop: Option<DbCall>): Ticket
  {
    if stop.None? then Processed(t, ai, users)
    else if Position(stop.value) <= 1 then t
    else if Position(stop.value) <= 3 then t.(status := Some(Todo))
    else if Position(stop.value) <= 6 then Enriched(t, ai)
    else Processed(t, ai, users)
  }

  /** The status writes of a run that stops at `stop` (None: it completes). */
  function StatusWritesAfter(id: TicketId, ai: Option<AiResponse>, stop: Option<DbCall>): seq<(TicketId, string)>
  {
    if stop.Some? && Position(stop.value) <= 1 then []
    else if stop.Some? && Position(stop.value) <= 3 then [(id, Todo)]
    else [(id, Todo)] + (if ai.Some? then [(id, InProgress)] else [])
  }

  /** The mail of a run that stops at `stop` (None: it completes). */
  function MailAfter(t: Ticket, ai: Option<AiResponse>, users: seq<User>, stop: Option<DbCall>): seq<Email>
  {
    if stop.None? then Notifications(ChooseAssignee(users, SkillsOf(ai)), t.title) else []
  }

  /**
   * A fault in a user lookup keeps the status and enrichment already
   * written, leaves the assignee as it was and sends no mail.
   */
  lemma LookupFaultKeepsEarlierWrites(t: Ticket, ai: Option<AiResponse>, users: seq<User>, c: DbCall)
    requires c == FindModerator || c == FindAdmin
    ensures var p := TicketAfter(t, ai, users, Some(c));
      && p.status == Some(if ai.Some? then InProgress else Todo)
      && p.assignedTo == t.assignedTo
      && MailAfter(t, ai, users, Some(c)) == []
      && StatusWritesAfter(t.id, ai, Some(c)) == [(t.id, Todo)] + (if ai.Some? then [(t.id, InProgress)] else [])
  {
  }

  /**
   * A throw of the AI call keeps the TODO status already written, leaves
   * every other field as it was, and sends no mail, whatever the response
   * would have been.
   */
  lemma AnalyzeFaultKeepsTodo(t: Ticket, ai: Option<AiResponse>, users: seq<User>)
    ensures Reached(Analyze, ai, users)
    ensures TicketAfter(t, ai, users, Some(Analyze)) == t.(status := Some(Todo))
    ensures StatusWritesAfter(t.id, ai, Some(Analyze)) == [(t.id, Todo)]
    ensures MailAfter(t, ai, users, Some(Analyze)) == []
  {
  }

  /** Status writes only ever go TODO, then IN_PROGRESS, whichever call fails. */
  lemma StatusWritesInOrder(id: TicketId, ai: Option<AiResponse>, stop: Option<DbCall>)
    ensures var w := StatusWritesAfter(id, ai, stop);
      && |w| <= 2
      && (|w| >= 1 ==> w[0] == (id, Todo))
      && (|w| == 2 ==> w[1] == (id, InProgress) && ai.Some?)
  {
  }

  /** The status and enrichment fields written by a complete run. */
  lemma ProcessedEnrichment(t: Ticket, ai: Option<AiResponse>, users: seq<User>)
    ensures var p := Processed(t, ai, users);
      && p.id == t.id && p.title == t.title && p.description == t.description
      && p.createdBy == t.createdBy && p.createdAt == t.createdAt
      && (ai.None? ==> p.status == Some(Todo) && p.priority == t.priority &&
                       p.helpfulNotes == t.helpfulNotes && p.relatedSkills == t.relatedSkills)
      && (ai.Some? ==> p.status == Some(InProgress) && p.priority.Some? && p.priority.value in Priorities &&
                       p.priority == Some(NormalizePriority(ai.value.priority)) &&
                       p.helpfulNotes == Some(ai.value.helpfulNotes) &&
                       p.relatedSkills == ai.value.relatedSkills)
  {
  }

  /** The assignment written by a complete run follows the three-way rule. */
  lemma ProcessedAssignment(t: Ticket, ai: Option<AiResponse>, users: seq<User>)
    ensures var p := Processed(t, ai, users);
      var related := SkillsOf(ai);
      && ((exists u :: u in users && IsMatchingModerator(u, related)) ==>
            exists u :: u in users && IsMatchingModerator(u, related) && p.assignedTo == Some(u.id))
      && ((forall u :: u in users ==> !IsMatchingModerator(u, related)) &&
          (exists u :: u in users && IsAdmin(u)) ==>
            exists u :: u in users && IsAdmin(u) && p.assignedTo == Some(u.id))
      && ((forall u :: u in users ==> !IsMatchingModerator(u, related) && !IsAdmin(u)) ==>
            p.assignedTo == None)
  {
  }

  /** No moderator in the "VPN down" store matches "networking"; the admin is chosen. */
  lemma VpnDownAssignee()
    ensures ChooseAssignee([User(1, "u@example.com", "user", []),
                            User(2, "mod@example.com", "moderator", ["Printers"]),
                            User(3, "admin@example.com", "admin", [])], ["networking"])
            == Some(User(3, "admin@example.com", "admin", []))
  {
    var admin := User(3, "admin@example.com", "admin", []);
    var users := [User(1, "u@example.com", "user", []),
                  User(2, "mod@example.com", "moderator", ["Printers"]),
                  admin];
    var related := ["networking"];
    assert !PatternMatches(related, "Printers") by {
      assert Alternatives(related) == ["networking"];
      assert LowerChar('P') == 'p';
      assert Lower("Printers") == "printers";
      assert Lower("networking") == "networking";
      IsSubstringIffOccurs("networking", "printers");
    }
    assert !IsMatchingModerator(users[1], related);
    assert forall u :: u in users ==> !IsMatchingModerator(u, related);
    assert ModeratorLookup(users, related) == None;
    assert users[1..][1..] == [admin];
    assert FindOne([admin], IsAdmin) == Some(admin);
    assert FindOne(users[1..], IsAdmin) == Some(admin);
    assert FindOne(users, IsAdmin) == Some(admin);
  }

  /**
   * A run on "VPN down" where no moderator's skill matches and an admin exists:
   * the ticket ends IN_PROGRESS with priority "medium" for an unknown AI
   * priority, is assigned to the admin, and the admin gets one mail naming it.
   */
  lemma VpnDownExample()
    ensures var t := Ticket(7, "VPN down", "Cannot connect from home", None, None, None, [], 1, None, 0);
      var users := [User(1, "u@example.com", "user", []),
                    User(2, "mod@example.com", "moderator", ["Printers"]),
                    User(3, "admin@example.com", "admin", [])];
      var ai := Some(AiResponse(Some("urgent"), "Check the VPN client.", ["networking"]));
      var p := Processed(t, ai, users);
      && p.status == Some(InProgress) && p.priority == Some("medium") && p.assignedTo == Some(3)
      && Notifications(ChooseAssignee(users, SkillsOf(ai)), t.title) ==
           [Email("admin@example.com", AssignedSubject, AssignedPrefix + "VPN down")]
  {
    VpnDownAssignee();
    assert "urgent" !in Priorities;
  }

  // ---------------------------------------------------------------------
  // The steps, as updates of the store. Each step's database call throws
  // when `failAt` names it; the step then writes nothing and returns `ok == false`.

  /** update-ticket-status: `findByIdAndUpdate(id, {status: "TODO"})`. */
  method UpdateTicketStatus(db: Store, id: TicketId, failAt: Option<DbCall>) returns (ok: bool)
    requires db.Valid()
    modifies db`tickets, db`statusWrites
    ensures db.Valid()
    ensures ok <==> failAt != Some(StatusUpdate)
    ensures ok && id in old(db.tickets) ==>
              db.tickets == old(db.tickets)[id := old(db.tickets)[id].(status := Some(Todo))] &&
              db.statusWrites == old(db.statusWrites) + [(id, Todo)]
    ensures !ok || id !in old(db.tickets) ==> db.tickets == old(db.tickets) && db.statusWrites == old(db.statusWrites)
  {
    if failAt == Some(StatusUpdate) {
      return false;
    }
    if id in db.tickets {
      db.tickets := db.tickets[id := db.tickets[id].(status := Some(Todo))];
      db.statusWrites := db.statusWrites + [(id, Todo)];
    }
    ok := true;
  }

  /** ai-processing: apply the AI response if there is one and return its related skills. */
  method AiProcessing(db: Store, id: TicketId, ai: Option<AiResponse>, failAt: Option<DbCall>)
    returns (ok: bool, skills: seq<string>)
    requires db.Valid()
    modifies db`tickets, db`statusWrites
    ensures db.Valid()
    ensures ok <==> !(ai.Some? && failAt == Some(AiUpdate))
    ensures ok ==> skills == SkillsOf(ai)
    ensures ok && ai.Some? && id in old(db.tickets) ==>
              db.tickets == old(db.tickets)[id := ApplyAi(old(db.tickets)[id], ai.value)] &&
              db.statusWrites == old(db.statusWrites) + [(id, InProgress)]
    ensures !ok || ai.None? || id !in old(db.tickets) ==>
              db.tickets == old(db.tickets) && db.statusWrites == old(db.statusWrites)
  {
    skills := [];
    if ai.Some? {
      if failAt == Some(AiUpdate) {
        return false, [];
      }
      if id in db.tickets {
        db.tickets := db.tickets[id := ApplyAi(db.tickets[id], ai.value)];
        db.statusWrites := db.statusWrites + [(id, InProgress)];
      }
      skills := ai.value.relatedSkills;
    }
    ok := true;
  }

  /** assign-moderator: look up a moderator, else an admin, and write `assignedTo`. */
  method AssignModerator(db: Store, id: TicketId, related: seq<string>, failAt: Option<DbCall>)
    returns (ok: bool, assignee: Option<User>)
    requires db.Valid()
    modifies db`tickets
    ensures db.Valid()
    ensures ok <==> !(failAt == Some(FindModerator) || failAt == Some(AssignUpdate) ||
                      (failAt == Some(FindAdmin) && ModeratorLookup(db.users, related).None?))
    ensures ok ==> assignee == ChooseAssignee(db.users, related)
    ensures ok && id in old(db.tickets) ==>
              db.tickets == old(db.tickets)[id := old(db.tickets)[id].(assignedTo := AssigneeId(assignee))]
    ensures !ok || id !in old(db.tickets) ==> db.tickets == old(db.tickets)
  {
    if failAt == Some(FindModerator) {
      return false, None;
    }
    var user := ModeratorLookup(db.users, related);
    if user.None? {
      if failAt == Some(FindAdmin) {
        return false, None;
      }
      user := FindOne(db.users, IsAdmin);
    }
    if failAt == Some(AssignUpdate) {
      return false, None;
    }
    if id in db.tickets {
      db.tickets := db.tickets[id := db.tickets[id].(assignedTo := AssigneeId(user))];
    }
    ok, assignee := true, user;
  }

  /**
   * send-email-notification: with an assignee, reload the ticket and mail its
   * title. It fails when the reload or the mailer throws, or when the reload
   * finds nothing (reading `.title` of null throws).
   */
  method SendEmailNotification(db: Store, id: TicketId, assignee: Option<User>, failAt: Option<DbCall>)
    returns (ok: bool)
    requires db.Valid()
    modifies db`outbox
    ensures db.Valid()
    ensures ok <==> assignee.None? || (failAt != Some(Reload) && failAt != Some(SendMail) && id in db.tickets)
    ensures ok && assignee.Some? ==> db.outbox == old(db.outbox) + Notifications(assignee, db.tickets[id].title)
    ensures !(ok && assignee.Some?) ==> db.outbox == old(db.outbox)
  {
    ok := true;
    if assignee.Some? {
      var finalTicket := FetchTicket(db.tickets, id, failAt == Some(Reload));
      if finalTicket.Failure? || failAt == Some(SendMail) {
        return false;
      }
      db.outbox := db.outbox + Notifications(assignee, finalTicket.value.title);
    }
  }

  // ---------------------------------------------------------------------
  // The handler

  /**
   * update-ticket-status, the AI call (which may throw) and ai-processing,
   * on a fetched ticket.
   */
  method EnrichSteps(db: Store, t: Ticket, ai: Option<AiResponse>, failAt: Option<DbCall>)
    returns (ok: bool, skills: seq<string>)
    requires db.Valid() && t.id in db.tickets && db.tickets[t.id] == t
    requires failAt.Some? ==> Position(failAt.value) >= 1
    modifies db`tickets, db`statusWrites
    ensures db.Valid()
    ensures ok <==> !(failAt.Some? && Position(failAt.value) <= 3 && Reached(failAt.value, ai, db.users))
    ensures ok ==> skills == SkillsOf(ai)
    ensures !ok ==>
              db.tickets == old(db.tickets)[t.id := TicketAfter(t, ai, db.users, failAt)] &&
              db.statusWrites == old(db.statusWrites) + StatusWritesAfter(t.id, ai, failAt)
    ensures ok ==>
              db.tickets == old(db.tickets)[t.id := Enriched(t, ai)] &&
              db.statusWrites == old(db.statusWrites) + StatusWritesAfter(t.id, ai, None)
  {
    ok := UpdateTicketStatus(db, t.id, failAt);
    if !ok {
      assert old(db.tickets) == old(db.tickets)[t.id := t];
      return false, [];
    }
    if failAt == Some(Analyze) {
      return false, [];
    }
    ok, skills := AiProcessing(db, t.id, ai, failAt);
  }

  /** assign-moderator then send-email-notification, on an enriched ticket. */
  method AssignSteps(db: Store, t: Ticket, ai: Option<AiResponse>, related: seq<string>, failAt: Option<DbCall>)
    returns (ok: bool)
    requires db.Valid() && t.id in db.tickets && db.tickets[t.id] == Enriched(t, ai)
    requires related == SkillsOf(ai)
    requires failAt.Some? && Position(failAt.value) <= 3 ==> !Reached(failAt.value, ai, db.users)
    modifies db`tickets, db`outbox
    ensures db.Valid()
    ensures ok <==> FailingCall(failAt, ai, db.users).None?
    ensures db.tickets == old(db.tickets)[t.id := TicketAfter(t, ai, db.users, FailingCall(failAt, ai, db.users))]
    ensures db.outbox == old(db.outbox) + MailAfter(t, ai, db.users, FailingCall(failAt, ai, db.users))
  {
    var moderator;
    ok, moderator := AssignModerator(db, t.id, related, failAt);
    if !ok {
      assert FailingCall(failAt, ai, db.users) == failAt;
      assert old(db.tickets) == old(db.tickets)[t.id := Enriched(t, ai)];
      return false;
    }
    assert db.tickets[t.id] == Processed(t, ai, db.users);
    ok := SendEmailNotification(db, t.id, moderator, failAt);
    assert Processed(t, ai, db.users).title == t.title;
  }

  /**
   * The steps after fetch-ticket, run on its outcome. A failed fetch, or a
   * throw in a later step, reaches the top-level catch, which reports
   * `success == false`; the writes made before the throw stay.
   */
  method RunAfterFetch(db: Store, fetched: Result<Ticket, StepError>, ai: Option<AiResponse>, failAt: Option<DbCall>)
    returns (success: bool)
    requires db.Valid()
    requires fetched.Success? ==> fetched.value.id in db.tickets && db.tickets[fetched.value.id] == fetched.value
    requires fetched.Success? ==> failAt != Some(Fetch)
    modifies db`tickets, db`outbox, db`statusWrites
    ensures db.Valid()
    ensures success <==> fetched.Success? && FailingCall(failAt, ai, db.users).None?
    ensures fetched.Failure? ==>
              db.tickets == old(db.tickets) && db.outbox == old(db.outbox) &&
              db.statusWrites == old(db.statusWrites)
    ensures fetched.Success? ==>
              var t := fetched.value;
              var stop := FailingCall(failAt, ai, db.users);
              && db.tickets == old(db.tickets)[t.id := TicketAfter(t, ai, db.users, stop)]
              && db.outbox == old(db.outbox) + MailAfter(t, ai, db.users, stop)
              && db.statusWrites == old(db.statusWrites) + StatusWritesAfter(t.id, ai, stop)
  {
    if fetched.Failure? {
      return false;
    }
    var ticket := fetched.value;
    var ok, relatedSkills := EnrichSteps(db, ticket, ai, failAt);
    if !ok {
      assert FailingCall(failAt, ai, db.users) == failAt;
      return false;
    }
    success := AssignSteps(db, ticket, ai, relatedSkills, failAt);
    assert success ==> FailingCall(failAt, ai, db.users) == None;
    assert !success ==> Position(FailingCall(failAt, ai, db.users).value) >= 4;
  }

  /**
   * One run of the handler, with the intended not-found check; `failAt`
   * names the external call that throws, if any.
   */
  method OnTicketCreated(db: Store, ticketId: TicketId, ai: Option<AiResponse>, failAt: Option<DbCall>)
    returns (success: bool)
    requires db.Valid()
    modifies db`tickets, db`outbox, db`statusWrites
    ensures db.Valid()
    ensures success <==> ticketId in old(db.tickets) && FailingCall(failAt, ai, db.users).None?
    ensures ticketId !in old(db.tickets) || failAt == Some(Fetch) ==>
              db.tickets == old(db.tickets) && db.outbox == old(db.outbox) &&
              db.statusWrites == old(db.statusWrites)
    ensures ticketId in old(db.tickets) ==>
              var t := old(db.tickets)[ticketId];
              var stop := FailingCall(failAt, ai, db.users);
              && db.tickets == old(db.tickets)[ticketId := TicketAfter(t, ai, db.users, stop)]
              && db.outbox == old(db.outbox) + MailAfter(t, ai, db.users, stop)
              && db.statusWrites == old(db.statusWrites) + StatusWritesAfter(ticketId, ai, stop)
  {
    success := RunAfterFetch(db, FetchTicket(db.tickets, ticketId, failAt == Some(Fetch)), ai, failAt);
  }

  /** One run of the handler as written: the fetch step always throws. */
  method OnTicketCreatedAsWritten(db: Store, ticketId: TicketId, ai: Option<AiResponse>, failAt: Option<DbCall>)
    returns (success: bool)
    requires db.Valid()
    modifies db`tickets, db`outbox, db`statusWrites
    ensures !success
    ensures db.tickets == old(db.tickets) && db.outbox == old(db.outbox) && db.statusWrites == old(db.statusWrites)
  {
    success := RunAfterFetch(db, FetchTicketAsWritten(db.tickets, ticketId), ai, failAt);
  }
}
