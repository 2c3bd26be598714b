/** The ticket endpoints: who may read, update or delete which ticket, and in which order
    the "not found" and "forbidden" answers are given. Each handler works on a
    `TicketStore`; a request that is refused leaves the store unchanged. */
module TicketsRouter {
  import opened Common
  import opened TicketSchema
  import opened TicketCrud

  datatype Role = Admin | Agent | EndUser

  /** The authenticated caller, as decoded from the access token. */
  datatype UserPayload = UserPayload(email: string, role: Role)

  datatype HttpError = NotFound | Forbidden

  /** The HTTP status of a refusal: 404 for a missing ticket, 403 for a forbidden action. */
  function StatusCode(e: HttpError): (code: int)
    ensures code == 404 <==> e == NotFound
    ensures code == 403 <==> e == Forbidden
  {
    match e
    case NotFound => 404
    case Forbidden => 403
  }

  /** The update authorization rule: `None` when allowed, otherwise the refusal. Admins and
      agents may change anything; anyone else is refused when setting a status on a ticket
      they did not create, or when sending a non-empty category, a priority or a deadline. */
  function UpdateRefusal(user: UserPayload, ticket: Ticket, u: TicketUpdate): (r: Option<HttpError>)
    ensures r.Some? ==> r.value == Forbidden
    ensures r.Some? <==>
      user.role.EndUser? &&
      ((u.status.Some? && ticket.createdBy != user.email)
       || Truthy(u.category) || u.priority.Some? || (u.slaDeadline.Set? && u.slaDeadline.value.Some?))
  {
    if !(user.role == Admin || user.role == Agent) then
      if u.status.Some? && ticket.createdBy != user.email then Some(Forbidden)
      else if Truthy(u.category) || u.priority.Some? || (u.slaDeadline.Set? && u.slaDeadline.value.Some?) then Some(Forbidden)
      else None
    else None
  }

  /** Admins and agents pass the update check unconditionally. */
  lemma StaffMayUpdate(user: UserPayload, ticket: Ticket, u: TicketUpdate)
    requires user.role == Admin || user.role == Agent
    ensures UpdateRefusal(user, ticket, u) == None
  {
  }

  /** An end user may change the title and description of any ticket, the status of their
      own tickets, clear the deadline, and send an empty category. */
  lemma EndUserPermittedUpdates(user: UserPayload, ticket: Ticket, u: TicketUpdate)
    requires user.role == EndUser
    requires u.status.Some? ==> ticket.createdBy == user.email
    requires u.category.Some? ==> u.category.value == ""
    requires u.priority.None?
    requires u.slaDeadline.Set? ==> u.slaDeadline.value.None?
    ensures UpdateRefusal(user, ticket, u) == None
  {
  }

  method GetTicket(store: TicketStore, id: string) returns (r: Result<Ticket, HttpError>)
    requires store.Valid()
    ensures r.Err? <==> id !in store.tickets
    ensures r.Err? ==> r.error == NotFound
    ensures r.Ok? ==> r.value == store.tickets[id] && r.value.id == id
  {
    var found := store.GetTicketById(id);
    if found.None? {
      r := Err(NotFound);
    } else {
      r := Ok(found.value);
    }
  }

  /** Creation by any authenticated user: the row holds the request's fields and records
      the caller as its creator. */
  method CreateTicket(store: TicketStore, t: TicketCreate, user: UserPayload, newId: string, now: int)
    returns (created: Ticket)
    requires store.Valid()
    requires newId !in store.tickets
    modifies store
    ensures store.Valid()
    ensures created.createdBy == user.email && created.id == newId
    ensures created.title == t.title && created.description == t.description
    ensures created.category == t.category && created.slaDeadline == t.slaDeadline
    ensures created.priority == PriorityValue(t.priority) && created.status == StatusValue(t.status)
    ensures created.createdAt == now && created.updatedAt == now
    ensures store.tickets == old(store.tickets)[newId := created]
    ensures |store.tickets| == |old(store.tickets)| + 1
  {
    created := store.CreateTicket(t, user.email, newId, now);
  }

  /** A page of rows in the table's own order (the route asks for no ordering). */
  method GetAllTickets(store: TicketStore, skip: nat, limit: nat)
    returns (page: seq<Ticket>, ghost listing: seq<Ticket>)
    requires store.Valid()
    ensures ListsStore(listing, store.tickets)
    ensures page == Page(listing, skip, limit)
  {
    page, listing := store.GetAllTickets(skip, limit);
  }

  /** A missing ticket is reported before any authorization check; a refused update
      changes nothing; an accepted one merges the sent fields and stamps `updatedAt`. */
  method UpdateTicket(store: TicketStore, id: string, u: TicketUpdate, user: UserPayload, now: int)
    returns (r: Result<Ticket, HttpError>)
    requires store.Valid()
    modifies store
    ensures store.Valid()
    ensures id !in old(store.tickets) ==> r == Err(NotFound) && store.tickets == old(store.tickets)
    ensures id in old(store.tickets) && UpdateRefusal(user, old(store.tickets)[id], u).Some? ==>
              r == Err(Forbidden) && store.tickets == old(store.tickets)
    ensures id in old(store.tickets) && UpdateRefusal(user, old(store.tickets)[id], u).None? ==>
              r.Ok? && MergedFrom(r.value, old(store.tickets)[id], u, now)
              && store.tickets == old(store.tickets)[id := r.value]
  {
    var found := store.GetTicketById(id);
    if found.None? {
      return Err(NotFound);
    }
    var refusal := UpdateRefusal(user, found.value, u);
    if refusal.Some? {
      return Err(refusal.value);
    }
    var updated := store.UpdateTicket(id, u, now);
    r := Ok(updated);
  }

  /** Only admins may delete; the role is checked before the ticket is looked up, so a
      non-admin is refused even for a ticket that does not exist. */
  method DeleteTicket(store: TicketStore, id: string, user: UserPayload) returns (r: Result<(), HttpError>)
    requires store.Valid()
    modifies store
    ensures store.Valid()
    ensures user.role != Admin ==> r == Err(Forbidden) && store.tickets == old(store.tickets)
    ensures user.role == Admin && id !in old(store.tickets) ==> r == Err(NotFound) && store.tickets == old(store.tickets)
    ensures user.role == Admin && id in old(store.tickets) ==> r == Ok(()) && store.tickets == old(store.tickets) - {id}
  {
    if user.role != Admin {
      return Err(Forbidden);
    }
    var found := store.GetTicketById(id);
    if found.None? {
      return Err(NotFound);
    }
    store.DeleteTicket(id);
    r := Ok(());
  }
}
