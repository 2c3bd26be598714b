/** The ticket table and its data-access operations. The database is a map from ticket id
    to the stored row, held by a `TicketStore` object whose methods change it in place.
    Times are integer seconds; priority and status are stored as their enum strings. */
module TicketCrud {
  import opened Common
  import opened TicketSchema

  /** A stored ticket row. */
  datatype Ticket = Ticket(
    id: string,
    title: string,
    description: string,
    category: string,
    priority: string,
    status: string,
    slaDeadline: Option<int>,
    createdAt: int,
    updatedAt: int,
    createdBy: string)

  // ---------------------------------------------------------------------------
  // The partial-update merge

  /** One assignment of the update loop: a field name with the value the client sent. */
  datatype Assignment =
    | AssignTitle(title: string)
    | AssignDescription(description: string)
    | AssignCategory(category: string)
    | AssignPriority(priority: Priority)
    | AssignStatus(status: Status)
    | AssignSlaDeadline(slaDeadline: Option<int>)

  /** The fields that were explicitly sent, in declaration order: the items of the
      update's `dict(exclude_unset=True)`. */
  function SetFields(u: TicketUpdate): (r: seq<Assignment>)
    ensures |r| <= 6
  {
    ContentFields(u) + TriageFields(u)
  }

  /** The sent title, description and category. */
  function ContentFields(u: TicketUpdate): seq<Assignment>
  {
    (if u.title.Some? then [AssignTitle(u.title.value)] else [])
    + ((if u.description.Some? then [AssignDescription(u.description.value)] else [])
    + (if u.category.Some? then [AssignCategory(u.category.value)] else []))
  }

  /** The sent priority, status and SLA deadline. */
  function TriageFields(u: TicketUpdate): seq<Assignment>
  {
    (if u.priority.Some? then [AssignPriority(u.priority.value)] else [])
    + ((if u.status.Some? then [AssignStatus(u.status.value)] else [])
    + (if u.slaDeadline.Set? then [AssignSlaDeadline(u.slaDeadline.value)] else []))
  }

  /** One `setattr`; enum fields are stored as their string value. */
  function Assign(t: Ticket, a: Assignment): Ticket
  {
    match a
    case AssignTitle(v) => t.(title := v)
    case AssignDescription(v) => t.(description := v)
    case AssignCategory(v) => t.(category := v)
    case AssignPriority(p) => t.(priority := PriorityValue(p))
    case AssignStatus(s) => t.(status := StatusValue(s))
    case AssignSlaDeadline(d) => t.(slaDeadline := d)
  }

  function AssignAll(t: Ticket, assignments: seq<Assignment>): Ticket
    decreases |assignments|
  {
    if assignments == [] then t
    else AssignAll(Assign(t, assignments[0]), assignments[1..])
  }

  /** Field-wise meaning of a partial update: a sent field takes the sent value,
      every other field keeps its stored value, and `updatedAt` becomes `now`. */
  ghost predicate MergedFrom(r: Ticket, t: Ticket, u: TicketUpdate, now: int)
  {
    && r.id == t.id && r.createdAt == t.createdAt && r.createdBy == t.createdBy
    && r.title == (if u.title.Some? then u.title.value else t.title)
    && r.description == (if u.description.Some? then u.description.value else t.description)
    && r.category == (if u.category.Some? then u.category.value else t.category)
    && r.priority == (if u.priority.Some? then PriorityValue(u.priority.value) else t.priority)
    && r.status == (if u.status.Some? then StatusValue(u.status.value) else t.status)
    && r.slaDeadline == (if u.slaDeadline.Set? then u.slaDeadline.value else t.slaDeadline)
    && r.updatedAt == now
  }

  /** Applying the assignments one by one never touches the identity, creation time,
      creator or update stamp. */
  lemma {:induction false} AssignAllKeepsIdentity(t: Ticket, assignments: seq<Assignment>)
    ensures AssignAll(t, assignments).id == t.id
    ensures AssignAll(t, assignments).createdAt == t.createdAt
    ensures AssignAll(t, assignments).createdBy == t.createdBy
    ensures AssignAll(t, assignments).updatedAt == t.updatedAt
    decreases |assignments|
  {
    if assignments != [] {
      AssignAllKeepsIdentity(Assign(t, assignments[0]), assignments[1..]);
    }
  }

  /** At most one assignment in front of the rest: apply it, then the rest. */
  lemma AssignAtMostOne(t: Ticket, a: seq<Assignment>, rest: seq<Assignment>)
    requires |a| <= 1
    ensures AssignAll(t, a + rest) == AssignAll(if a == [] then t else Assign(t, a[0]), rest)
  {
    if a == [] {
      assert a + rest == rest;
    } else {
      assert (a + rest)[1..] == rest;
    }
  }

  /** Applying the sent title, description and category before further assignments. */
  lemma ContentFieldsApply(t: Ticket, u: TicketUpdate, rest: seq<Assignment>)
    ensures AssignAll(t, ContentFields(u) + rest)
            == AssignAll(t.(title := if u.title.Some? then u.title.value else t.title,
                            description := if u.description.Some? then u.description.value else t.description,
                            category := if u.category.Some? then u.category.value else t.category), rest)
  {
    var a1 := if u.title.Some? then [AssignTitle(u.title.value)] else [];
    var a2 := if u.description.Some? then [AssignDescription(u.description.value)] else [];
    var a3 := if u.category.Some? then [AssignCategory(u.category.value)] else [];
    var t1 := t.(title := if u.title.Some? then u.title.value else t.title);
    var t2 := t1.(description := if u.description.Some? then u.description.value else t.description);
    var t3 := t2.(category := if u.category.Some? then u.category.value else t.category);
    assert ContentFields(u) + rest == a1 + (a2 + (a3 + rest));
    assert (if a1 == [] then t else Assign(t, a1[0])) == t1;
    assert (if a2 == [] then t1 else Assign(t1, a2[0])) == t2;
    assert (if a3 == [] then t2 else Assign(t2, a3[0])) == t3;
    AssignAtMostOne(t, a1, a2 + (a3 + rest));
    AssignAtMostOne(t1, a2, a3 + rest);
    AssignAtMostOne(t2, a3, rest);
  }

  /** Applying the sent priority, status and SLA deadline. */
  lemma TriageFieldsApply(t: Ticket, u: TicketUpdate)
    ensures AssignAll(t, TriageFields(u))
            == t.(priority := if u.priority.Some? then PriorityValue(u.priority.value) else t.priority,
                  status := if u.status.Some? then StatusValue(u.status.value) else t.status,
                  slaDeadline := if u.slaDeadline.Set? then u.slaDeadline.value else t.slaDeadline)
  {
    var a4 := if u.priority.Some? then [AssignPriority(u.priority.value)] else [];
    var a5 := if u.status.Some? then [AssignStatus(u.status.value)] else [];
    var a6 := if u.slaDeadline.Set? then [AssignSlaDeadline(u.slaDeadline.value)] else [];
    var t4 := t.(priority := if u.priority.Some? then PriorityValue(u.priority.value) else t.priority);
    var t5 := t4.(status := if u.status.Some? then StatusValue(u.status.value) else t.status);
    var t6 := t5.(slaDeadline := if u.slaDeadline.Set? then u.slaDeadline.value else t.slaDeadline);
    assert (if a4 == [] then t else Assign(t, a4[0])) == t4;
    assert (if a5 == [] then t4 else Assign(t4, a5[0])) == t5;
    assert (if a6 == [] then t5 else Assign(t5, a6[0])) == t6;
    AssignAtMostOne(t, a4, a5 + a6);
    AssignAtMostOne(t4, a5, a6);
    AssignAtMostOne(t5, a6, []);
    assert a6 + [] == a6;
  }

  /** The update loop over the set fields, followed by the timestamp, yields exactly the
      field-wise merge: set fields change, nothing else does. */
  lemma SetFieldsMerge(t: Ticket, u: TicketUpdate, now: int)
    ensures MergedFrom(AssignAll(t, SetFields(u)).(updatedAt := now), t, u, now)
  {
    ContentFieldsApply(t, u, TriageFields(u));
    var t3 := t.(title := if u.title.Some? then u.title.value else t.title,
                 description := if u.description.Some? then u.description.value else t.description,
                 category := if u.category.Some? then u.category.value else t.category);
    TriageFieldsApply(t3, u);
  }

  // ---------------------------------------------------------------------------
  // Listings of the table and newest-first pagination

  predicate NewestFirst(s: seq<Ticket>)
  {
    forall i, j :: 0 <= i < j < |s| ==> s[i].createdAt >= s[j].createdAt
  }

  predicate DistinctIds(s: seq<Ticket>)
  {
    forall i, j :: 0 <= i < j < |s| ==> s[i].id != s[j].id
  }

  /** `s` lists every row of `m` exactly once, in some order. */
  ghost predicate ListsStore(s: seq<Ticket>, m: map<string, Ticket>)
  {
    && |s| == |m|
    && DistinctIds(s)
    && (forall t :: t in s ==> t.id in m && m[t.id] == t)
    && (forall id :: id in m ==> m[id] in s)
  }

  /** OFFSET `skip` LIMIT `limit` over a listing. */
  function Page(s: seq<Ticket>, skip: nat, limit: nat): (r: seq<Ticket>)
    ensures |r| <= limit
    ensures |r| == if skip >= |s| then 0 else if |s| - skip < limit then |s| - skip else limit
    ensures forall i :: 0 <= i < |r| ==> r[i] == s[skip + i]
  {
    var start := if skip < |s| then skip else |s|;
    var end := if start + limit < |s| then start + limit else |s|;
    s[start..end]
  }

  /** Places a row before the first row created strictly earlier. */
  function InsertNewest(t: Ticket, s: seq<Ticket>): seq<Ticket>
  {
    if s == [] || t.createdAt >= s[0].createdAt then [t] + s
    else [s[0]] + InsertNewest(t, s[1..])
  }

  lemma {:induction false} InsertNewestMultiset(t: Ticket, s: seq<Ticket>)
    ensures |InsertNewest(t, s)| == |s| + 1
    ensures multiset(InsertNewest(t, s)) == multiset(s) + multiset{t}
  {
    if s != [] && t.createdAt < s[0].createdAt {
      InsertNewestMultiset(t, s[1..]);
      assert s == [s[0]] + s[1..];
    }
  }

  lemma {:induction false} InsertNewestSorted(t: Ticket, s: seq<Ticket>)
    requires NewestFirst(s)
    ensures NewestFirst(InsertNewest(t, s))
  {
    if s != [] && t.createdAt < s[0].createdAt {
      InsertNewestSorted(t, s[1..]);
      InsertNewestMultiset(t, s[1..]);
      var rest := InsertNewest(t, s[1..]);
      forall j | 0 <= j < |rest| ensures s[0].createdAt >= rest[j].createdAt {
        assert rest[j] in multiset(s[1..]) + multiset{t};
      }
    }
  }

  lemma {:induction false} InsertNewestDistinct(t: Ticket, s: seq<Ticket>)
    requires DistinctIds(s)
    requires forall u :: u in s ==> u.id != t.id
    ensures DistinctIds(InsertNewest(t, s))
  {
    if s != [] && t.createdAt < s[0].createdAt {
      InsertNewestDistinct(t, s[1..]);
      InsertNewestMultiset(t, s[1..]);
      var rest := InsertNewest(t, s[1..]);
      forall j | 0 <= j < |rest| ensures s[0].id != rest[j].id {
        assert rest[j] in multiset(s[1..]) + multiset{t};
        if rest[j] != t {
          var k :| 0 <= k < |s[1..]| && s[1..][k] == rest[j];
          assert s[k + 1] == rest[j];
        }
      }
    }
  }

  /** The state of the listing loop: `sorted` holds, newest first and once each, exactly
      the rows whose ids are no longer `remaining`. */
  ghost predicate Sorting(m: map<string, Ticket>, sorted: seq<Ticket>, remaining: set<string>)
  {
    && remaining <= m.Keys
    && |sorted| + |remaining| == |m|
    && NewestFirst(sorted) && DistinctIds(sorted)
    && (forall t :: t in sorted ==> t.id in m && m[t.id] == t && t.id !in remaining)
    && (forall id :: id in m && id !in remaining ==> m[id] in sorted)
  }

  /** Inserting one remaining row keeps the loop state. */
  lemma SortingStep(m: map<string, Ticket>, sorted: seq<Ticket>, remaining: set<string>, k: string)
    requires forall id :: id in m ==> m[id].id == id
    requires Sorting(m, sorted, remaining) && k in remaining
    ensures Sorting(m, InsertNewest(m[k], sorted), remaining - {k})
  {
    var t := m[k];
    InsertNewestMultiset(t, sorted);
    InsertNewestSorted(t, sorted);
    InsertNewestDistinct(t, sorted);
    var sorted' := InsertNewest(t, sorted);
    assert forall u :: u in sorted' ==> u in multiset(sorted) + multiset{t};
    assert forall u :: u in sorted ==> u in multiset(sorted');
  }

  /** With nothing remaining, the sorted rows list the whole table. */
  lemma SortingDone(m: map<string, Ticket>, sorted: seq<Ticket>)
    requires Sorting(m, sorted, {})
    ensures ListsStore(sorted, m) && NewestFirst(sorted)
  {
  }

  // ---------------------------------------------------------------------------

  class TicketStore {
    var tickets: map<string, Ticket>

    /** Every row is stored under its own id. */
    ghost predicate Valid()
      reads this
    {
      forall id :: id in tickets ==> tickets[id].id == id
    }

    constructor ()
      ensures Valid() && tickets == map[]
    {
      tickets := map[];
    }

    /** Inserts a new row under a fresh id; `now` is the insertion time, which the
        table's column defaults use for both timestamps. */
    method CreateTicket(t: TicketCreate, createdByEmail: string, newId: string, now: int)
      returns (created: Ticket)
      requires Valid()
      requires newId !in tickets
      modifies this
      ensures Valid()
      ensures created.id == newId && created.createdBy == createdByEmail
      ensures created.title == t.title && created.description == t.description
      ensures created.category == t.category && created.slaDeadline == t.slaDeadline
      ensures created.priority == PriorityValue(t.priority) && created.status == StatusValue(t.status)
      ensures created.createdAt == now && created.updatedAt == now
      ensures tickets == old(tickets)[newId := created]
      ensures |tickets| == |old(tickets)| + 1
      ensures forall id :: id in old(tickets) ==> id in tickets && tickets[id] == old(tickets)[id]
    {
      created := Ticket(newId, t.title, t.description, t.category,
                        PriorityValue(t.priority), StatusValue(t.status),
                        t.slaDeadline, now, now, createdByEmail);
      tickets := tickets[newId := created];
    }

    method GetTicketById(id: string) returns (r: Option<Ticket>)
      requires Valid()
      ensures r.Some? <==> id in tickets
      ensures r.Some? ==> r.value == tickets[id] && r.value.id == id
    {
      if id in tickets {
        r := Some(tickets[id]);
      } else {
        r := None;
      }
    }

    /** The rows ordered newest `createdAt` first (rows created at the same instant come
        in an unspecified order), then OFFSET `skip` LIMIT `limit`. The ghost `listing`
        is the full ordered table the page is cut from. */
    method GetAllTickets(skip: nat, limit: nat) returns (page: seq<Ticket>, ghost listing: seq<Ticket>)
      requires Valid()
      ensures ListsStore(listing, tickets) && NewestFirst(listing)
      ensures page == Page(listing, skip, limit)
      ensures |page| <= limit && NewestFirst(page)
    {
      var sorted: seq<Ticket> := [];
      var remaining := tickets.Keys;
      while remaining != {}
        invariant Sorting(tickets, sorted, remaining)
        decreases remaining
      {
        var k :| k in remaining;
        SortingStep(tickets, sorted, remaining, k);
        sorted := InsertNewest(tickets[k], sorted);
        remaining := remaining - {k};
      }
      SortingDone(tickets, sorted);
      listing := sorted;
      page := Page(sorted, skip, limit);
    }

    /** The stored row after the partial-update loop and the timestamp. */
    method UpdateTicket(id: string, u: TicketUpdate, now: int) returns (updated: Ticket)
      requires Valid()
      requires id in tickets
      modifies this
      ensures Valid()
      ensures MergedFrom(updated, old(tickets)[id], u, now)
      ensures tickets == old(tickets)[id := updated]
    {
      var row := tickets[id];
      var assignments := SetFields(u);
      var i := 0;
      while i < |assignments|
        invariant 0 <= i <= |assignments|
        invariant AssignAll(tickets[id], assignments) == AssignAll(row, assignments[i..])
      {
        assert assignments[i..][1..] == assignments[i + 1..];
        row := Assign(row, assignments[i]);
        i := i + 1;
      }
      SetFieldsMerge(tickets[id], u, now);
      AssignAllKeepsIdentity(tickets[id], assignments);
      updated := row.(updatedAt := now);
      tickets := tickets[id := updated];
    }

    method DeleteTicket(id: string)
      requires Valid()
      requires id in tickets
      modifies this
      ensures Valid()
      ensures tickets == old(tickets) - {id}
      ensures |tickets| == |old(tickets)| - 1
    {
      tickets := tickets - {id};
    }
  }
}
