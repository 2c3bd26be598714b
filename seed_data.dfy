/** Start-up seeding: four default users when the user table is empty, then fifty synthetic
    tickets when the ticket table is empty. Every random choice is a parameter (a `TicketDraw`
    per ticket), the current time is a single parameter `now`, and times are integer seconds. */
module SeedData {
  import opened Common
  import opened TicketSchema
  import opened TicketCrud
  import TicketsRouter
  import SlaRisk

  /** `timedelta(hours=n)` and `timedelta(days=n)` in seconds. */
  function Hours(n: int): int { n * 3600 }
  function Days(n: int): int { n * 86400 }

  const TicketCount: nat := 50

  // ---------------------------------------------------------------------------
  // Users

  /** A user row as far as seeding reads it; password hashes are not modelled. */
  datatype UserRow = UserRow(email: string, role: TicketsRouter.Role)

  const DefaultUsers: seq<UserRow> := [
    UserRow("admin@example.com", TicketsRouter.Admin),
    UserRow("agent@example.com", TicketsRouter.Agent),
    UserRow("user1@example.com", TicketsRouter.EndUser),
    UserRow("user2@example.com", TicketsRouter.EndUser)
  ]

  class UserTable {
    var users: seq<UserRow>

    constructor ()
      ensures users == []
    {
      users := [];
    }
  }

  /** The user table after seeding: the defaults when it was empty, otherwise as it was. */
  function UsersAfterSeeding(users: seq<UserRow>): (r: seq<UserRow>)
    ensures r != []
    ensures users == [] ==> r == DefaultUsers
    ensures users != [] ==> r == users
  {
    if users == [] then DefaultUsers else users
  }

  predicate IsAgent(u: UserRow) { u.role.Agent? }
  predicate IsEndUser(u: UserRow) { u.role.EndUser? }

  function EmailsOf(us: seq<UserRow>): (es: seq<string>)
    ensures |es| == |us|
    ensures forall k :: 0 <= k < |us| ==> es[k] == us[k].email
  {
    seq(|us|, k requires 0 <= k < |us| => us[k].email)
  }

  /** The possible creators of a ticket: the agents' emails, then the end users'. */
  function CreatorEmails(users: seq<UserRow>): seq<string>
  {
    EmailsOf(Filter(users, IsAgent) + Filter(users, IsEndUser))
  }

  /** Exactly the agents and end users may be drawn as creators. */
  lemma CreatorEmailsAreStaff(users: seq<UserRow>)
    ensures forall e :: e in CreatorEmails(users) <==>
              exists u :: u in users && (IsAgent(u) || IsEndUser(u)) && u.email == e
  {
    var staff := Filter(users, IsAgent) + Filter(users, IsEndUser);
    StaffMembers(users);
    var es := EmailsOf(staff);
    forall e | e in es ensures exists u :: u in staff && u.email == e {
      var k :| 0 <= k < |es| && es[k] == e;
      assert staff[k] in staff;
    }
    forall u | u in staff ensures u.email in es {
      var k :| 0 <= k < |staff| && staff[k] == u;
      assert es[k] == u.email;
    }
  }

  /** The staff rows are exactly the users who are agents or end users. */
  lemma StaffMembers(users: seq<UserRow>)
    ensures forall u :: u in Filter(users, IsAgent) + Filter(users, IsEndUser) <==>
              u in users && (IsAgent(u) || IsEndUser(u))
  {
    var agents := Filter(users, IsAgent);
    var endUsers := Filter(users, IsEndUser);
    forall u ensures u in agents + endUsers <==> u in agents || u in endUsers {
    }
  }

  /** Seeding an empty user table always leaves someone to create tickets. */
  lemma DefaultUsersCanCreate()
    ensures |CreatorEmails(DefaultUsers)| > 0
  {
    CreatorEmailsAreStaff(DefaultUsers);
    assert DefaultUsers[1] in DefaultUsers && IsAgent(DefaultUsers[1]);
    assert "agent@example.com" in CreatorEmails(DefaultUsers);
  }

  // ---------------------------------------------------------------------------
  // One synthetic ticket

  const Categories: seq<string> := [
    "Software Issue", "Hardware Failure", "Network Problem", "Account Management",
    "Security Incident", "Performance Issue", "Data Request"
  ]
  const Priorities: seq<Priority> := [Low, Medium, High, Critical]
  const Statuses: seq<Status> := [Open, InProgress, Resolved, Closed, Pending]

  /** The SLA allowance, in hours, that seeding uses for a priority. */
  function SeedSlaHours(p: Priority): int
  {
    match p
    case Critical => 4
    case High => 8
    case Medium => 24
    case Low => 48
  }

  /** Seeding and the risk endpoint use the same allowances. */
  lemma SeedSlaMatchesRiskTable(p: Priority)
    ensures SeedSlaHours(p) == SlaRisk.SlaHours(PriorityValue(p))
  {
    SlaRisk.EveryPriorityHasAllowance(p);
  }

  /** The random draws behind one ticket, in the order they are made. The two texts stand for
      the entries the draws picked from the sixteen-entry description list. */
  datatype TicketDraw = TicketDraw(
    daysAgo: int,          // randint(1, 60)
    hoursAgo: int,         // randint(0, 23)
    statusIndex: nat,      // choice(statuses)
    resolveHours: int,     // randint(4, 72), drawn for resolved and closed tickets
    clampHours: int,       // randint(1, 3), drawn when the resolution would lie in the future
    priorityIndex: nat,    // choice(priorities)
    categoryIndex: nat,    // choice(categories)
    creatorIndex: nat,     // choice(all_emails)
    titleSource: string,   // choice(ticket_descriptions) for the title
    description: string,   // choice(ticket_descriptions) for the description
    id: string)            // uuid4()

  /** The draws lie in their ranges; with no creator to choose from the choice cannot be made. */
  predicate ValidDraw(d: TicketDraw, creators: nat)
  {
    && 1 <= d.daysAgo <= 60 && 0 <= d.hoursAgo <= 23
    && d.statusIndex < |Statuses|
    && 4 <= d.resolveHours <= 72 && 1 <= d.clampHours <= 3
    && d.priorityIndex < |Priorities| && d.categoryIndex < |Categories|
    && (creators > 0 ==> d.creatorIndex < creators)
  }

  /** `s.split(',')[0]`: the text before the first comma, all of it when there is none. */
  function BeforeFirstComma(s: string): (r: string)
    ensures |r| <= |s| && r == s[..|r|]
    ensures ',' !in r
    ensures |r| < |s| ==> s[|r|] == ','
  {
    if s == [] || s[0] == ',' then []
    else
      var rest := BeforeFirstComma(s[1..]);
      [s[0]] + rest
  }

  function CreatedAt(d: TicketDraw, now: int): int
  {
    now - (Days(d.daysAgo) + Hours(d.hoursAgo))
  }

  predicate StartsWith(s: string, prefix: string)
  {
    |prefix| <= |s| && s[..|prefix|] == prefix
  }

  predicate IsClosedOut(s: Status) { s == Resolved || s == Closed }

  /** The update time: a resolution some hours after creation, pulled back to a few hours
      before now when it would lie in the future; creation time for other tickets. */
  function UpdatedAt(d: TicketDraw, createdAt: int, now: int): int
    requires d.statusIndex < |Statuses|
  {
    if IsClosedOut(Statuses[d.statusIndex]) then
      var resolved := createdAt + Hours(d.resolveHours);
      if resolved > now then now - Hours(d.clampHours) else resolved
    else createdAt
  }

  function TitleOf(i: nat, d: TicketDraw): string
  {
    "Issue " + NatToString(i + 1) + ": " + BeforeFirstComma(d.titleSource)
  }

  function DescriptionOf(d: TicketDraw): string
    requires d.categoryIndex < |Categories| && d.priorityIndex < |Priorities|
  {
    d.description
    + " (Ticket generated for " + Categories[d.categoryIndex] + " / " + PriorityValue(Priorities[d.priorityIndex]) + ")"
  }

  /** Ticket `i` (counting from zero) generated from its draws. */
  function SeedTicket(i: nat, d: TicketDraw, creators: seq<string>, now: int): (t: Ticket)
    requires |creators| > 0 && ValidDraw(d, |creators|)
    ensures t.id == d.id
  {
    var createdAt := CreatedAt(d, now);
    var status := Statuses[d.statusIndex];
    var priority := Priorities[d.priorityIndex];
    var category := Categories[d.categoryIndex];
    Ticket(
      d.id,
      TitleOf(i, d),
      DescriptionOf(d),
      category,
      PriorityValue(priority),
      StatusValue(status),
      Some(createdAt + Hours(SeedSlaHours(priority))),
      createdAt,
      UpdatedAt(d, createdAt, now),
      creators[d.creatorIndex])
  }

  /** A seeded ticket was created between 60 days 23 hours and one day before now; a
      resolved or closed one was updated after creation and not in the future, any other
      was not updated. */
  lemma SeedTicketTimes(i: nat, d: TicketDraw, creators: seq<string>, now: int)
    requires |creators| > 0 && ValidDraw(d, |creators|)
    ensures var t := SeedTicket(i, d, creators, now);
      && now - (Days(60) + Hours(23)) <= t.createdAt <= now - Days(1)
      && (IsClosedOut(Statuses[d.statusIndex]) ==> t.createdAt < t.updatedAt <= now)
      && (!IsClosedOut(Statuses[d.statusIndex]) ==> t.updatedAt == t.createdAt)
  {
  }

  /** The stored status is "Resolved" or "Closed" exactly for the closed-out statuses. */
  lemma SeedTicketStatus(i: nat, d: TicketDraw, creators: seq<string>, now: int)
    requires |creators| > 0 && ValidDraw(d, |creators|)
    ensures var t := SeedTicket(i, d, creators, now);
      && ParseStatus(t.status) == Some(Statuses[d.statusIndex])
      && ((t.status == "Resolved" || t.status == "Closed") <==> IsClosedOut(Statuses[d.statusIndex]))
  {
    StatusRoundTrip(Statuses[d.statusIndex]);
  }

  /** A seeded ticket's deadline is its priority's allowance after its creation. */
  lemma SeedTicketDeadline(i: nat, d: TicketDraw, creators: seq<string>, now: int)
    requires |creators| > 0 && ValidDraw(d, |creators|)
    ensures var t := SeedTicket(i, d, creators, now);
      && ParsePriority(t.priority) == Some(Priorities[d.priorityIndex])
      && t.slaDeadline == Some(t.createdAt + Hours(SeedSlaHours(Priorities[d.priorityIndex])))
  {
    PriorityRoundTrip(Priorities[d.priorityIndex]);
  }

  /** A seeded ticket's title starts with "Issue", its number counting from one, and a colon,
      and continues with a description cut at its first comma; its creator is one of the
      possible creators. */
  lemma SeedTicketTitle(i: nat, d: TicketDraw, creators: seq<string>, now: int)
    requires |creators| > 0 && ValidDraw(d, |creators|)
    ensures var t := SeedTicket(i, d, creators, now);
      && StartsWith(t.title, "Issue " + NatToString(i + 1) + ": ")
      && ',' !in t.title[|"Issue " + NatToString(i + 1) + ": "|..]
      && t.createdBy in creators
  {
    var prefix := "Issue " + NatToString(i + 1) + ": ";
    var title := TitleOf(i, d);
    assert title[..|prefix|] == prefix;
    assert title[|prefix|..] == BeforeFirstComma(d.titleSource);
  }

  // ---------------------------------------------------------------------------
  // The ticket table

  /** `db.add_all(rows)` into a table keyed by id. */
  function AddAll(m: map<string, Ticket>, rows: seq<Ticket>): map<string, Ticket>
    decreases |rows|
  {
    if rows == [] then m else AddAll(m[rows[0].id := rows[0]], rows[1..])
  }

  predicate DistinctDrawIds(draws: seq<TicketDraw>)
  {
    forall k, l :: 0 <= k < l < |draws| ==> draws[k].id != draws[l].id
  }

  /** The row's stored priority is a priority, and its deadline is that priority's allowance
      after the row's creation. */
  predicate DeadlineByPriority(t: Ticket)
  {
    var p := ParsePriority(t.priority);
    p.Some? && t.slaDeadline == Some(t.createdAt + Hours(SeedSlaHours(p.value)))
  }

  /** The fifty generated rows: row `k` carries draw `k`'s id, so distinct draws give
      distinct rows; each is created by one of the possible creators within the seeding
      window, and its deadline is its priority's allowance after its creation. */
  function GeneratedTickets(draws: seq<TicketDraw>, creators: seq<string>, now: int): (ts: seq<Ticket>)
    requires |draws| == TicketCount && |creators| > 0
    requires forall k :: 0 <= k < |draws| ==> ValidDraw(draws[k], |creators|)
    ensures |ts| == TicketCount
    ensures forall k :: 0 <= k < |ts| ==> ts[k] == SeedTicket(k, draws[k], creators, now)
    ensures forall k :: 0 <= k < |ts| ==> ts[k].id == draws[k].id
    ensures DistinctDrawIds(draws) ==> forall k, l :: 0 <= k < l < |ts| ==> ts[k].id != ts[l].id
    ensures forall k :: 0 <= k < |ts| ==> ts[k].createdBy in creators
    ensures forall k :: 0 <= k < |ts| ==> now - (Days(60) + Hours(23)) <= ts[k].createdAt <= now - Days(1)
    ensures forall k :: 0 <= k < |ts| ==> DeadlineByPriority(ts[k])
  {
    var ts := seq(TicketCount, k requires 0 <= k < TicketCount => SeedTicket(k, draws[k], creators, now));
    forall k | 0 <= k < |ts|
      ensures ts[k].createdBy in creators
      ensures now - (Days(60) + Hours(23)) <= ts[k].createdAt <= now - Days(1)
      ensures DeadlineByPriority(ts[k])
    {
      SeedTicketTimes(k, draws[k], creators, now);
      SeedTicketDeadline(k, draws[k], creators, now);
      SeedTicketTitle(k, draws[k], creators, now);
    }
    ts
  }

  /** The ticket table after seeding, given the possible creators: untouched unless empty;
      an empty table with no possible creator stays empty (the creator choice fails). */
  function TicketsAfterSeeding(tickets: map<string, Ticket>, creators: seq<string>, draws: seq<TicketDraw>, now: int)
    : map<string, Ticket>
    requires |draws| == TicketCount
    requires forall k :: 0 <= k < |draws| ==> ValidDraw(draws[k], |creators|)
  {
    if tickets != map[] || creators == [] then tickets
    else AddAll(tickets, GeneratedTickets(draws, creators, now))
  }

  /** Adding rows with distinct fresh ids keeps the old rows and adds each new row under
      its id, one new key per row. */
  lemma {:induction false} AddAllContents(m: map<string, Ticket>, rows: seq<Ticket>)
    requires forall k, l :: 0 <= k < l < |rows| ==> rows[k].id != rows[l].id
    requires forall k :: 0 <= k < |rows| ==> rows[k].id !in m
    ensures |AddAll(m, rows)| == |m| + |rows|
    ensures forall id :: id in m ==> id in AddAll(m, rows) && AddAll(m, rows)[id] == m[id]
    ensures forall k :: 0 <= k < |rows| ==> rows[k].id in AddAll(m, rows) && AddAll(m, rows)[rows[k].id] == rows[k]
    decreases |rows|
  {
    if rows != [] {
      var m' := m[rows[0].id := rows[0]];
      var tail := rows[1..];
      assert forall k :: 0 <= k < |tail| ==> tail[k] == rows[k + 1];
      AddAllContents(m', tail);
      assert AddAll(m, rows) == AddAll(m', tail);
      forall k | 0 <= k < |rows|
        ensures rows[k].id in AddAll(m, rows) && AddAll(m, rows)[rows[k].id] == rows[k]
      {
        if k > 0 {
          assert rows[k] == tail[k - 1];
        }
      }
    }
  }

  /** Adding rows introduces no key other than the rows' ids. */
  lemma {:induction false} AddAllOnlyRows(m: map<string, Ticket>, rows: seq<Ticket>)
    ensures forall id :: id in AddAll(m, rows) ==> id in m || exists k :: 0 <= k < |rows| && rows[k].id == id
    decreases |rows|
  {
    if rows != [] {
      var m' := m[rows[0].id := rows[0]];
      AddAllOnlyRows(m', rows[1..]);
      forall id | id in AddAll(m, rows)
        ensures id in m || exists k :: 0 <= k < |rows| && rows[k].id == id
      {
        if id !in m' {
          var k :| 0 <= k < |rows[1..]| && rows[1..][k].id == id;
          assert rows[k + 1].id == id;
        } else if id !in m {
          assert rows[0].id == id;
        }
      }
    }
  }


  /** Seeding an empty table with distinct ids gives exactly fifty rows, row `k` built from draw `k`. */
  lemma SeededTable(creators: seq<string>, draws: seq<TicketDraw>, now: int)
    requires |draws| == TicketCount && DistinctDrawIds(draws)
    requires forall k :: 0 <= k < |draws| ==> ValidDraw(draws[k], |creators|)
    requires creators != []
    ensures |TicketsAfterSeeding(map[], creators, draws, now)| == TicketCount
    ensures forall k :: 0 <= k < TicketCount ==>
              draws[k].id in TicketsAfterSeeding(map[], creators, draws, now)
              && TicketsAfterSeeding(map[], creators, draws, now)[draws[k].id] == SeedTicket(k, draws[k], creators, now)
  {
    AddAllContents(map[], GeneratedTickets(draws, creators, now));
  }

  /** A second seeding changes nothing: both tables are non-empty after the first, or the
      ticket table stayed empty because no user can create tickets, which a second run
      finds again. */
  lemma SeedingIsIdempotent(tickets: map<string, Ticket>, users: seq<UserRow>,
                            draws1: seq<TicketDraw>, draws2: seq<TicketDraw>, now1: int, now2: int)
    requires |draws1| == TicketCount && |draws2| == TicketCount
    requires forall k :: 0 <= k < TicketCount ==> ValidDraw(draws1[k], |CreatorEmails(UsersAfterSeeding(users))|)
    requires forall k :: 0 <= k < TicketCount ==> ValidDraw(draws2[k], |CreatorEmails(UsersAfterSeeding(users))|)
    ensures UsersAfterSeeding(UsersAfterSeeding(users)) == UsersAfterSeeding(users)
    ensures var creators := CreatorEmails(UsersAfterSeeding(users));
            TicketsAfterSeeding(TicketsAfterSeeding(tickets, creators, draws1, now1),
                                CreatorEmails(UsersAfterSeeding(UsersAfterSeeding(users))), draws2, now2)
            == TicketsAfterSeeding(tickets, creators, draws1, now1)
  {
    var users1 := UsersAfterSeeding(users);
    assert UsersAfterSeeding(users1) == users1;
    TicketSeedingIdempotent(tickets, CreatorEmails(users1), draws1, draws2, now1, now2);
  }

  /** With the same possible creators, a second ticket seeding leaves the table as the first left it. */
  lemma TicketSeedingIdempotent(tickets: map<string, Ticket>, creators: seq<string>,
                                draws1: seq<TicketDraw>, draws2: seq<TicketDraw>, now1: int, now2: int)
    requires |draws1| == TicketCount && |draws2| == TicketCount
    requires forall k :: 0 <= k < TicketCount ==> ValidDraw(draws1[k], |creators|)
    requires forall k :: 0 <= k < TicketCount ==> ValidDraw(draws2[k], |creators|)
    ensures TicketsAfterSeeding(TicketsAfterSeeding(tickets, creators, draws1, now1), creators, draws2, now2)
            == TicketsAfterSeeding(tickets, creators, draws1, now1)
  {
    if tickets == map[] && creators != [] {
      var rows := GeneratedTickets(draws1, creators, now1);
      AddAllNonEmpty(map[], rows);
    }
  }

  /** Adding rows never removes a key. */
  lemma {:induction false} AddAllKeeps(m: map<string, Ticket>, rows: seq<Ticket>)
    ensures m.Keys <= AddAll(m, rows).Keys
    decreases |rows|
  {
    if rows != [] {
      AddAllKeeps(m[rows[0].id := rows[0]], rows[1..]);
    }
  }

  /** The body of the generation loop: ticket `i` from its draws. */
  method MakeTicket(i: nat, d: TicketDraw, creators: seq<string>, now: int) returns (ticket: Ticket)
    requires |creators| > 0 && ValidDraw(d, |creators|)
    ensures ticket == SeedTicket(i, d, creators, now)
  {
    var createdAt := now - (Days(d.daysAgo) + Hours(d.hoursAgo));
    var status := Statuses[d.statusIndex];
    var updatedAt := createdAt;
    if status == Resolved || status == Closed {
      updatedAt := createdAt + Hours(d.resolveHours);
      if updatedAt > now {
        updatedAt := now - Hours(d.clampHours);
      }
    }
    var priority := Priorities[d.priorityIndex];
    var category := Categories[d.categoryIndex];
    var slaDeadline := createdAt + Hours(SeedSlaHours(priority));
    var createdBy := creators[d.creatorIndex];
    var title := "Issue " + NatToString(i + 1) + ": " + BeforeFirstComma(d.titleSource);
    var description := d.description + " (Ticket generated for " + category + " / " + PriorityValue(priority) + ")";
    ticket := Ticket(
      d.id, title, description, category, PriorityValue(priority), StatusValue(status),
      Some(slaDeadline), createdAt, updatedAt, createdBy);
  }

  /** The generation loop: one ticket per draw, numbered from one in its title. */
  method GenerateTickets(draws: seq<TicketDraw>, creators: seq<string>, now: int) returns (tickets: seq<Ticket>)
    requires |draws| == TicketCount && |creators| > 0
    requires forall k :: 0 <= k < |draws| ==> ValidDraw(draws[k], |creators|)
    ensures tickets == GeneratedTickets(draws, creators, now)
  {
    tickets := [];
    var i := 0;
    while i < TicketCount
      invariant 0 <= i <= TicketCount
      invariant |tickets| == i
      invariant forall k :: 0 <= k < i ==> tickets[k] == SeedTicket(k, draws[k], creators, now)
    {
      var ticket := MakeTicket(i, draws[i], creators, now);
      tickets := tickets + [ticket];
      i := i + 1;
    }
  }

  /** Adding at least one row leaves the table non-empty. */
  lemma AddAllNonEmpty(m: map<string, Ticket>, rows: seq<Ticket>)
    requires rows != []
    ensures AddAll(m, rows) != map[]
  {
    AddAllKeeps(m[rows[0].id := rows[0]], rows[1..]);
    assert rows[0].id in AddAll(m, rows);
  }

  /** Adding rows keeps every row stored under its own id. */
  lemma {:induction false} AddAllKeyed(m: map<string, Ticket>, rows: seq<Ticket>)
    requires forall id :: id in m ==> m[id].id == id
    ensures forall id :: id in AddAll(m, rows) ==> AddAll(m, rows)[id].id == id
    decreases |rows|
  {
    if rows != [] {
      AddAllKeyed(m[rows[0].id := rows[0]], rows[1..]);
    }
  }

  datatype SeedError = NoCreators

  /** The user part of seeding: the four defaults into an empty table. */
  method SeedUsers(users: UserTable)
    modifies users
    ensures users.users == UsersAfterSeeding(old(users.users))
  {
    if users.users == [] {
      users.users := DefaultUsers;
    }
  }

  /** The ticket part of seeding, once the possible creators are known. */
  method SeedTickets(store: TicketStore, creators: seq<string>, draws: seq<TicketDraw>, now: int)
    returns (r: Result<(), SeedError>)
    requires store.Valid()
    requires |draws| == TicketCount
    requires forall k :: 0 <= k < |draws| ==> ValidDraw(draws[k], |creators|)
    modifies store
    ensures store.Valid()
    ensures store.tickets == TicketsAfterSeeding(old(store.tickets), creators, draws, now)
    ensures r.Err? <==> old(store.tickets) == map[] && creators == []
  {
    if store.tickets != map[] {
      return Ok(());
    }
    if creators == [] {
      return Err(NoCreators);
    }
    var tickets := GenerateTickets(draws, creators, now);
    AddAllKeyed(store.tickets, tickets);
    store.tickets := AddAll(store.tickets, tickets);
    r := Ok(());
  }

  /** The seeding routine over the two tables: users first, then tickets created by the
      agents and end users found afterwards. */
  method SeedInitialData(users: UserTable, store: TicketStore, draws: seq<TicketDraw>, now: int)
    returns (r: Result<(), SeedError>)
    requires store.Valid()
    requires |draws| == TicketCount
    requires forall k :: 0 <= k < |draws| ==> ValidDraw(draws[k], |CreatorEmails(UsersAfterSeeding(users.users))|)
    modifies users, store
    ensures store.Valid()
    ensures users.users == UsersAfterSeeding(old(users.users))
    ensures store.tickets == TicketsAfterSeeding(old(store.tickets), CreatorEmails(users.users), draws, now)
    ensures r.Err? <==> old(store.tickets) == map[] && CreatorEmails(users.users) == []
  {
    SeedUsers(users);
    var creators := CreatorEmails(users.users);
    r := SeedTickets(store, creators, draws, now);
  }
}
