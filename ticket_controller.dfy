/**
 * The ticket HTTP handlers: `createTicket` updates the store and emits the
 * "ticket/created" event; `getTickets` and `getTicket` are read-only queries
 * whose rows and fields depend on the caller's role. A failure inside the
 * database or the event client is an input (`fault`), answered with 500.
 */
module TicketController {
  import opened Wrappers
  import opened Tickets

  /** The authenticated caller (`req.user`). */
  datatype Caller = Caller(id: UserId, role: string)

  /** `populate("assignedTo", ["email", "_id"])` */
  datatype Assignee = Assignee(id: UserId, email: string)

  /**
   * A ticket as returned to the client: the whole record with its assignee
   * populated, or the projection "title description status createdAt"
   * (with the `_id` a projection keeps unless told otherwise).
   */
  datatype View =
    | Full(ticket: Ticket, assignee: Option<Assignee>)
    | Brief(id: TicketId, title: string, description: string, status: Option<string>, createdAt: nat)
  {
    function Id(): TicketId
    {
      if Full? then ticket.id else id
    }

    function CreatedAt(): nat
    {
      if Full? then ticket.createdAt else createdAt
    }
  }

  datatype Body =
    | Message(text: string)
    | Created(message: string, ticket: Ticket)
    | TicketList(views: seq<View>)
    | OneTicket(view: View)

  datatype Response = Response(status: nat, body: Body)

  const InternalError := Response(500, Message("Internal Server Error"))
  const NotFound := Response(404, Message("Ticket not found"))
  const MissingFields := Response(400, Message("Title and description are required"))
  const CreatedMessage := "Ticket created and processing started"
  const TicketCreatedEvent := "ticket/created"

  // ---------------------------------------------------------------------
  // createTicket

  /** Where `createTicket` fails, if anywhere: the insert or the event send. */
  datatype CreateFault = NoFault | InsertFails | SendFails

  /** A request-body field that is present and not the empty string (JavaScript truthiness). */
  predicate Provided(field: Option<string>)
  {
    field.Some? && field.value != ""
  }

  /** The record inserted by `Ticket.create`; unset fields keep their schema defaults. */
  function NewTicket(id: TicketId, title: string, description: string, createdBy: UserId, now: nat): Ticket
  {
    Ticket(id, title, description, None, None, None, [], createdBy, None, now)
  }

  /** The event sent for a new ticket, carrying its id, text and creator. */
  function CreatedEvent(t: Ticket): (e: Event)
    ensures e.name == TicketCreatedEvent
    ensures e.ticketId == t.id && e.title == t.title && e.description == t.description
    ensures e.createdBy == t.createdBy
  {
    Event(TicketCreatedEvent, t.id, t.title, t.description, t.createdBy)
  }

  /**
   * createTicket. `now` is the creation time the database stamps, `fault`
   * says which external call, if any, throws.
   */
  method CreateTicket(db: Store, caller: Caller, title: Option<string>, description: Option<string>,
                      now: nat, fault: CreateFault) returns (res: Response)
    requires db.Valid()
    modifies db`tickets, db`nextId, db`events
    ensures db.Valid()
    ensures !Provided(title) || !Provided(description) ==>
              res == MissingFields &&
              db.tickets == old(db.tickets) && db.nextId == old(db.nextId) && db.events == old(db.events)
    ensures Provided(title) && Provided(description) && fault == InsertFails ==>
              res == InternalError &&
              db.tickets == old(db.tickets) && db.nextId == old(db.nextId) && db.events == old(db.events)
    ensures Provided(title) && Provided(description) && fault != InsertFails ==>
              var t := NewTicket(old(db.nextId), title.value, description.value, caller.id, now);
              && old(db.nextId) !in old(db.tickets)
              && db.tickets == old(db.tickets)[old(db.nextId) := t]
              && db.nextId == old(db.nextId) + 1
              && (fault == NoFault ==>
                    db.events == old(db.events) + [CreatedEvent(t)] &&
                    res == Response(201, Created(CreatedMessage, t)))
              && (fault == SendFails ==> db.events == old(db.events) && res == InternalError)
  {
    if !Provided(title) || !Provided(description) {
      return MissingFields;
    }
    if fault == InsertFails {
      return InternalError;
    }
    var newTicket := NewTicket(db.nextId, title.value, description.value, caller.id, now);
    db.tickets := db.tickets[db.nextId := newTicket];
    db.nextId := db.nextId + 1;
    if fault == SendFails {
      return InternalError;
    }
    db.events := db.events + [CreatedEvent(newTicket)];
    res := Response(201, Created(CreatedMessage, newTicket));
  }

  // ---------------------------------------------------------------------
  // Access policy

  /** Only the exact role "user" is restricted; every other role sees everything. */
  predicate IsEndUser(c: Caller)
  {
    c.role == "user"
  }

  /** The row filter: end users see the tickets they created. */
  predicate MayRead(c: Caller, t: Ticket)
  {
    !IsEndUser(c) || t.createdBy == c.id
  }

  /** The populated assignee: the user with that id, or null when there is none. */
  function Populate(users: seq<User>, assignedTo: Option<UserId>): (r: Option<Assignee>)
    ensures r.Some? ==> assignedTo.Some? && r.value.id == assignedTo.value &&
                        exists u :: u in users && u.id == assignedTo.value && u.email == r.value.email
    ensures r.None? ==> assignedTo.None? || forall u :: u in users ==> u.id != assignedTo.value
  {
    if assignedTo.None? then None
    else
      var u := FindOne(users, (u: User) => u.id == assignedTo.value);
      if u.Some? then Some(Assignee(u.value.id, u.value.email)) else None
  }

  function BriefOf(t: Ticket): View
  {
    Brief(t.id, t.title, t.description, t.status, t.createdAt)
  }

  /** The field projection: brief for end users, full and populated otherwise. */
  function Project(users: seq<User>, c: Caller, t: Ticket): (v: View)
    ensures v.Id() == t.id && v.CreatedAt() == t.createdAt
  {
    if IsEndUser(c) then BriefOf(t) else Full(t, Populate(users, t.assignedTo))
  }

  function ProjectAll(users: seq<User>, c: Caller, ts: seq<Ticket>): seq<View>
  {
    seq(|ts|, i requires 0 <= i < |ts| => Project(users, c, ts[i]))
  }

  // ---------------------------------------------------------------------
  // Ordering: `sort({createdAt: -1})`, ties by ascending id

  predicate Newer(a: Ticket, b: Ticket)
  {
    a.createdAt > b.createdAt || (a.createdAt == b.createdAt && a.id < b.id)
  }

  predicate NewestFirst(ts: seq<Ticket>)
  {
    forall i, j :: 0 <= i < j < |ts| ==> Newer(ts[i], ts[j])
  }

  predicate ViewsNewestFirst(vs: seq<View>)
  {
    forall i, j :: 0 <= i < j < |vs| ==>
      vs[i].CreatedAt() > vs[j].CreatedAt() ||
      (vs[i].CreatedAt() == vs[j].CreatedAt() && vs[i].Id() < vs[j].Id())
  }

  predicate DistinctIds(ts: seq<Ticket>)
  {
    forall i, j :: 0 <= i < j < |ts| ==> ts[i].id != ts[j].id
  }

  /** The stored tickets with id below `n`, in ascending id order. */
  function AllTickets(tickets: map<TicketId, Ticket>, n: nat): (r: seq<Ticket>)
    requires IdsMatchKeys(tickets)
    ensures forall t :: t in r <==> t.id < n && t.id in tickets && tickets[t.id] == t
    ensures forall i, j :: 0 <= i < j < |r| ==> r[i].id < r[j].id
  {
    if n == 0 then []
    else AllTickets(tickets, n - 1) + (if n - 1 in tickets then [tickets[n - 1]] else [])
  }

  /** The row filter applied to a list. */
  function Readable(c: Caller, ts: seq<Ticket>): (r: seq<Ticket>)
    ensures forall t :: t in r <==> t in ts && MayRead(c, t)
    ensures DistinctIds(ts) ==> DistinctIds(r)
  {
    if ts == [] then []
    else
      var rest := Readable(c, ts[1..]);
      assert forall t :: t in ts[1..] ==> t in ts;
      if MayRead(c, ts[0]) then
        assert DistinctIds(ts) ==> forall t :: t in rest ==> t.id != ts[0].id by {
          if DistinctIds(ts) {
            forall t | t in rest ensures t.id != ts[0].id {
              var j :| 0 <= j < |ts[1..]| && ts[1..][j] == t;
              assert ts[j + 1] == t;
            }
          }
        }
        [ts[0]] + rest
      else rest
  }

  /** Insert `t` into a newest-first list that does not hold its id. */
  function Insert(t: Ticket, s: seq<Ticket>): (r: seq<Ticket>)
    requires NewestFirst(s)
    requires forall x :: x in s ==> x.id != t.id
    ensures NewestFirst(r)
    ensures forall x :: x in r <==> x == t || x in s
    ensures |r| == |s| + 1
  {
    if s == [] || Newer(t, s[0]) then [t] + s
    else
      var rest := Insert(t, s[1..]);
      assert forall x :: x in s[1..] ==> Newer(s[0], x);
      assert Newer(s[0], t);
      [s[0]] + rest
  }

  /** Insertion sort into newest-first order. */
  function Sort(ts: seq<Ticket>): (r: seq<Ticket>)
    requires DistinctIds(ts)
    ensures NewestFirst(r)
    ensures forall x :: x in r <==> x in ts
    ensures |r| == |ts|
  {
    if ts == [] then []
    else
      assert DistinctIds(ts[1..]);
      assert forall x :: x in ts[1..] ==> x.id != ts[0].id;
      Insert(ts[0], Sort(ts[1..]))
  }

  /** Projection keeps the newest-first order and never repeats a ticket. */
  lemma ProjectAllNewestFirst(users: seq<User>, c: Caller, ts: seq<Ticket>)
    requires NewestFirst(ts)
    ensures ViewsNewestFirst(ProjectAll(users, c, ts))
  {
  }

  // ---------------------------------------------------------------------
  // getTickets and getTicket

  /** The rows a caller may list, newest first. */
  function ListedTickets(tickets: map<TicketId, Ticket>, nextId: TicketId, c: Caller): (r: seq<Ticket>)
    requires KeyedById(tickets, nextId)
    ensures NewestFirst(r)
    ensures forall t :: t in r <==> t.id in tickets && tickets[t.id] == t && MayRead(c, t)
  {
    var all := AllTickets(tickets, nextId);
    assert DistinctIds(all);
    Sort(Readable(c, all))
  }

  /** getTickets: 200 with the caller's rows and fields, or 500 on a database fault. */
  function GetTickets(tickets: map<TicketId, Ticket>, nextId: TicketId, users: seq<User>,
                      c: Caller, fault: bool): (r: Response)
    requires KeyedById(tickets, nextId)
    ensures fault ==> r == InternalError
    ensures !fault ==> r.status == 200 && r.body.TicketList?
  {
    if fault then InternalError
    else Response(200, TicketList(ProjectAll(users, c, ListedTickets(tickets, nextId, c))))
  }

  /** Staff (any role but "user") list every ticket, full and populated, newest first. */
  lemma GetTicketsForStaff(tickets: map<TicketId, Ticket>, nextId: TicketId, users: seq<User>, c: Caller)
    requires KeyedById(tickets, nextId) && !IsEndUser(c)
    ensures var vs := GetTickets(tickets, nextId, users, c, false).body.views;
      && (forall v :: v in vs ==>
            (v.Full? && v.ticket.id in tickets &&
             v == Full(tickets[v.ticket.id], Populate(users, tickets[v.ticket.id].assignedTo))))
      && (forall k :: k in tickets ==> Full(tickets[k], Populate(users, tickets[k].assignedTo)) in vs)
      && ViewsNewestFirst(vs)
  {
    var ts := ListedTickets(tickets, nextId, c);
    var vs := ProjectAll(users, c, ts);
    ProjectAllNewestFirst(users, c, ts);
    forall k | k in tickets ensures Full(tickets[k], Populate(users, tickets[k].assignedTo)) in vs {
      var i :| 0 <= i < |ts| && ts[i] == tickets[k];
      assert vs[i] == Full(tickets[k], Populate(users, tickets[k].assignedTo));
    }
    forall v | v in vs
      ensures v.Full? && v.ticket.id in tickets &&
              v == Full(tickets[v.ticket.id], Populate(users, tickets[v.ticket.id].assignedTo))
    {
      var i :| 0 <= i < |vs| && vs[i] == v;
      assert ts[i] in ts;
    }
  }

  /**
   * An end user lists exactly the tickets they created, projected to the
   * brief fields, newest first; no other user's ticket and no assignee or
   * notes field appears.
   */
  lemma GetTicketsForEndUser(tickets: map<TicketId, Ticket>, nextId: TicketId, users: seq<User>, c: Caller)
    requires KeyedById(tickets, nextId) && IsEndUser(c)
    ensures var vs := GetTickets(tickets, nextId, users, c, false).body.views;
      && (forall v :: v in vs ==>
            (v.Brief? && v.id in tickets && tickets[v.id].createdBy == c.id && v == BriefOf(tickets[v.id])))
      && (forall k :: k in tickets && tickets[k].createdBy == c.id ==> BriefOf(tickets[k]) in vs)
      && ViewsNewestFirst(vs)
  {
    var ts := ListedTickets(tickets, nextId, c);
    var vs := ProjectAll(users, c, ts);
    ProjectAllNewestFirst(users, c, ts);
    forall k | k in tickets && tickets[k].createdBy == c.id ensures BriefOf(tickets[k]) in vs {
      var i :| 0 <= i < |ts| && ts[i] == tickets[k];
      assert vs[i] == BriefOf(tickets[k]);
    }
    forall v | v in vs
      ensures v.Brief? && v.id in tickets && tickets[v.id].createdBy == c.id && v == BriefOf(tickets[v.id])
    {
      var i :| 0 <= i < |vs| && vs[i] == v;
      assert ts[i] in ts;
    }
  }

  /** getTicket: the requested ticket if the caller may read it, else 404; 500 on a fault. */
  function GetTicket(tickets: map<TicketId, Ticket>, users: seq<User>, c: Caller, id: TicketId,
                     fault: bool): (r: Response)
    ensures fault ==> r == InternalError
    ensures !fault && !IsEndUser(c) ==>
              if id in tickets then r == Response(200, OneTicket(Full(tickets[id], Populate(users, tickets[id].assignedTo))))
              else r == NotFound
    ensures !fault && IsEndUser(c) ==>
              if id in tickets && tickets[id].createdBy == c.id then r == Response(200, OneTicket(BriefOf(tickets[id])))
              else r == NotFound
  {
    if fault then InternalError
    else if id in tickets && MayRead(c, tickets[id]) then
      Response(200, OneTicket(Project(users, c, tickets[id])))
    else NotFound
  }

  /** For an end user, another user's ticket answers exactly as a missing one. */
  lemma OthersTicketLooksMissing(tickets: map<TicketId, Ticket>, users: seq<User>, c: Caller, id: TicketId)
    requires IsEndUser(c) && id in tickets && tickets[id].createdBy != c.id
    ensures GetTicket(tickets, users, c, id, false) == GetTicket(tickets - {id}, users, c, id, false)
    ensures GetTicket(tickets, users, c, id, false) == NotFound
  {
  }
}
