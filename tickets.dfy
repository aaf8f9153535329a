/**
 * The records of the ticket application and the in-memory store that stands
 * for its document database: the ticket collection, the user collection, the
 * outbox of sent mail and the list of emitted workflow events.
 */
module Tickets {
  import opened Wrappers

  type TicketId = nat
  type UserId = nat

  /**
   * A stored ticket. `status`, `priority` and `helpfulNotes` are `None` until
   * something writes them: their schema defaults are not part of this model.
   */
  datatype Ticket = Ticket(
    id: TicketId,
    title: string,
    description: string,
    status: Option<string>,
    priority: Option<string>,
    helpfulNotes: Option<string>,
    relatedSkills: seq<string>,
    createdBy: UserId,
    assignedTo: Option<UserId>,
    createdAt: nat)

  /** An account: role is "user", "moderator" or "admin" (any string is kept). */
  datatype User = User(id: UserId, email: string, role: string, skills: seq<string>)

  /** One message handed to the mailer. */
  datatype Email = Email(to: string, subject: string, body: string)

  /** One event handed to the workflow engine, with its `data` payload. */
  datatype Event = Event(name: string, ticketId: TicketId, title: string, description: string, createdBy: UserId)

  /** Every stored ticket sits under its own id. */
  predicate IdsMatchKeys(tickets: map<TicketId, Ticket>)
  {
    forall k :: k in tickets ==> tickets[k].id == k
  }

  /** The store invariant: ids match keys and every id was handed out before `nextId`. */
  predicate KeyedById(tickets: map<TicketId, Ticket>, nextId: TicketId)
  {
    IdsMatchKeys(tickets) && forall k :: k in tickets ==> k < nextId
  }

  /**
   * `Model.findOne(filter)` over a collection: the first document, in
   * collection order, that satisfies the filter, or null when none does.
   */
  function FindOne(users: seq<User>, p: User -> bool): (r: Option<User>)
    ensures r.Some? ==> r.value in users && p(r.value)
    ensures r.None? <==> forall u :: u in users ==> !p(u)
    ensures r.Some? ==> exists i :: 0 <= i < |users| && users[i] == r.value &&
                                   forall j :: 0 <= j < i ==> !p(users[j])
  {
    if users == [] then None
    else if p(users[0]) then Some(users[0])
    else
      var r := FindOne(users[1..], p);
      assert r.Some? ==> exists i :: 0 <= i < |users| && users[i] == r.value &&
                                   forall j :: 0 <= j < i ==> !p(users[j]) by {
        if r.Some? {
          var i :| 0 <= i < |users[1..]| && users[1..][i] == r.value &&
                   forall j :: 0 <= j < i ==> !p(users[1..][j]);
          assert users[i + 1] == r.value;
          forall j | 0 <= j < i + 1 ensures !p(users[j]) {
            if j > 0 { assert users[j] == users[1..][j - 1]; }
          }
        }
      }
      assert r.None? ==> forall u :: u in users ==> !p(u) by {
        if r.None? {
          forall u | u in users ensures !p(u) {
            if u != users[0] { assert u in users[1..]; }
          }
        }
      }
      r
  }

  /**
   * The document database, the mailer's outbox and the workflow engine's
   * event queue. `statusWrites` records, in order, every status value the
   * workflow handler writes and to which ticket.
   */
  class Store {
    var tickets: map<TicketId, Ticket>
    var nextId: TicketId
    var users: seq<User>
    var outbox: seq<Email>
    var events: seq<Event>
    ghost var statusWrites: seq<(TicketId, string)>

    ghost predicate Valid()
      reads this
    {
      KeyedById(tickets, nextId)
    }

    constructor (users: seq<User>)
      ensures Valid()
      ensures tickets == map[] && nextId == 0 && this.users == users
      ensures outbox == [] && events == [] && statusWrites == []
    {
      tickets := map[];
      nextId := 0;
      this.users := users;
      outbox := [];
      events := [];
      statusWrites := [];
    }
  }
}
