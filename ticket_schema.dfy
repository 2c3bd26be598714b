/** The request schemas of a ticket: the two enumerations with their wire strings, the
    field bounds of a ticket being created, and the all-optional shape of an update.
    Validation follows the field declarations: a missing optional field takes its default,
    a present field must respect its length bounds, otherwise the request is rejected. */
module TicketSchema {
  import opened Common

  datatype Status = Open | InProgress | Resolved | Closed | Pending

  datatype Priority = Low | Medium | High | Critical

  /** The string each status is stored and transmitted as. */
  function StatusValue(s: Status): (v: string)
    ensures |v| > 0
  {
    match s
    case Open => "Open"
    case InProgress => "In Progress"
    case Resolved => "Resolved"
    case Closed => "Closed"
    case Pending => "Pending"
  }

  /** The string each priority is stored and transmitted as. */
  function PriorityValue(p: Priority): (v: string)
    ensures |v| > 0
  {
    match p
    case Low => "Low"
    case Medium => "Medium"
    case High => "High"
    case Critical => "Critical"
  }

  /** Enum lookup by value: the inverse of StatusValue. */
  function ParseStatus(v: string): (r: Option<Status>)
    ensures r.Some? ==> StatusValue(r.value) == v
  {
    if v == "Open" then Some(Open)
    else if v == "In Progress" then Some(InProgress)
    else if v == "Resolved" then Some(Resolved)
    else if v == "Closed" then Some(Closed)
    else if v == "Pending" then Some(Pending)
    else None
  }

  /** Enum lookup by value: the inverse of PriorityValue. */
  function ParsePriority(v: string): (r: Option<Priority>)
    ensures r.Some? ==> PriorityValue(r.value) == v
  {
    if v == "Low" then Some(Low)
    else if v == "Medium" then Some(Medium)
    else if v == "High" then Some(High)
    else if v == "Critical" then Some(Critical)
    else None
  }

  /** Every status survives the trip to its string and back, so the five strings are distinct. */
  lemma StatusRoundTrip(s: Status)
    ensures ParseStatus(StatusValue(s)) == Some(s)
  {
  }

  lemma PriorityRoundTrip(p: Priority)
    ensures ParsePriority(PriorityValue(p)) == Some(p)
  {
  }

  /** There are exactly five statuses and four priorities, with the listed strings. */
  lemma {:induction false} EnumValueSets()
    ensures forall s: Status :: StatusValue(s) in {"Open", "In Progress", "Resolved", "Closed", "Pending"}
    ensures forall p: Priority :: PriorityValue(p) in {"Low", "Medium", "High", "Critical"}
    ensures |{Open, InProgress, Resolved, Closed, Pending}| == 5
    ensures |{Low, Medium, High, Critical}| == 4
  {
  }

  // ---------------------------------------------------------------------------
  // Field bounds

  const TitleMin: nat := 5
  const TitleMax: nat := 200
  const DescriptionMin: nat := 10
  const CategoryMax: nat := 100
  const DefaultCategory: string := "Uncategorized"

  predicate ValidTitle(t: string) { TitleMin <= |t| <= TitleMax }
  predicate ValidDescription(d: string) { DescriptionMin <= |d| }
  predicate ValidCategory(c: string) { |c| <= CategoryMax }

  /** A validated ticket-creation request; times are integer seconds. */
  datatype TicketCreate = TicketCreate(
    title: string,
    description: string,
    category: string,
    priority: Priority,
    status: Status,
    slaDeadline: Option<int>)

  predicate ValidCreate(t: TicketCreate)
  {
    ValidTitle(t.title) && ValidDescription(t.description) && ValidCategory(t.category)
  }

  datatype ValidationError = TitleLength | DescriptionLength | CategoryLength | UnknownPriority | UnknownStatus

  /** An enumeration field as sent: absent, or a string that must be one of the values. */
  predicate KnownPriority(p: Option<string>) { p.Some? ==> ParsePriority(p.value).Some? }
  predicate KnownStatus(s: Option<string>) { s.Some? ==> ParseStatus(s.value).Some? }

  /** Builds a creation request from the fields a client sent, checked in declaration
      order; absent optional fields take their declared defaults. */
  function ValidateCreate(
    title: string, description: string, category: Option<string>,
    priority: Option<string>, status: Option<string>, slaDeadline: Option<int>
  ): (r: Result<TicketCreate, ValidationError>)
    ensures r.Ok? <==> ValidTitle(title) && ValidDescription(description)
                       && (category.None? || ValidCategory(category.value))
                       && KnownPriority(priority) && KnownStatus(status)
    ensures r.Ok? ==> ValidCreate(r.value)
    ensures r.Ok? ==> r.value.title == title && r.value.description == description
    ensures r.Ok? ==> r.value.category == (if category.Some? then category.value else "Uncategorized")
    ensures r.Ok? ==> if priority.Some? then PriorityValue(r.value.priority) == priority.value else r.value.priority == Medium
    ensures r.Ok? ==> if status.Some? then StatusValue(r.value.status) == status.value else r.value.status == Open
    ensures r.Ok? ==> r.value.slaDeadline == slaDeadline
    ensures r.Err? && !ValidTitle(title) ==> r.error == TitleLength
    ensures (r.Err? && !KnownPriority(priority) && ValidTitle(title) && ValidDescription(description)
             && (category.None? || ValidCategory(category.value))) ==> r.error == UnknownPriority
  {
    if !ValidTitle(title) then Err(TitleLength)
    else if !ValidDescription(description) then Err(DescriptionLength)
    else
      var cat := if category.Some? then category.value else DefaultCategory;
      if !ValidCategory(cat) then Err(CategoryLength)
      else
        var pri := if priority.Some? then ParsePriority(priority.value) else Some(Medium);
        if pri.None? then Err(UnknownPriority)
        else
          var st := if status.Some? then ParseStatus(status.value) else Some(Open);
          if st.None? then Err(UnknownStatus)
          else Ok(TicketCreate(title, description, cat, pri.value, st.value, slaDeadline))
  }

  /** A field of an update: either not sent, or sent with a value. */
  datatype Field<+T> = Unset | Set(value: T)

  /** A validated update request. A `None` in the non-nullable fields means the field
      was not sent; the deadline, which may be cleared, distinguishes "not sent" from
      "sent as null". */
  datatype TicketUpdate = TicketUpdate(
    title: Option<string>,
    description: Option<string>,
    category: Option<string>,
    priority: Option<Priority>,
    status: Option<Status>,
    slaDeadline: Field<Option<int>>)

  /** An update request as sent, with the enumeration fields still strings. */
  datatype UpdateRequest = UpdateRequest(
    title: Option<string>,
    description: Option<string>,
    category: Option<string>,
    priority: Option<string>,
    status: Option<string>,
    slaDeadline: Field<Option<int>>)

  /** Every field is optional; a field that is present obeys the creation bounds. */
  predicate ValidUpdate(u: TicketUpdate)
  {
    && (u.title.Some? ==> ValidTitle(u.title.value))
    && (u.description.Some? ==> ValidDescription(u.description.value))
    && (u.category.Some? ==> ValidCategory(u.category.value))
  }

  /** Checks an update request field by field; the enumeration strings are looked up by value. */
  function ValidateUpdate(req: UpdateRequest): (r: Result<TicketUpdate, ValidationError>)
    ensures r.Ok? <==>
      && (req.title.Some? ==> ValidTitle(req.title.value))
      && (req.description.Some? ==> ValidDescription(req.description.value))
      && (req.category.Some? ==> ValidCategory(req.category.value))
      && KnownPriority(req.priority) && KnownStatus(req.status)
    ensures r.Ok? ==> ValidUpdate(r.value)
    ensures r.Ok? ==> r.value.title == req.title && r.value.description == req.description
                      && r.value.category == req.category && r.value.slaDeadline == req.slaDeadline
    ensures r.Ok? ==> (r.value.priority.Some? <==> req.priority.Some?)
                      && (r.value.priority.Some? ==> PriorityValue(r.value.priority.value) == req.priority.value)
    ensures r.Ok? ==> (r.value.status.Some? <==> req.status.Some?)
                      && (r.value.status.Some? ==> StatusValue(r.value.status.value) == req.status.value)
    ensures r.Err? && req.title.Some? && !ValidTitle(req.title.value) ==> r.error == TitleLength
  {
    if req.title.Some? && !ValidTitle(req.title.value) then Err(TitleLength)
    else if req.description.Some? && !ValidDescription(req.description.value) then Err(DescriptionLength)
    else if req.category.Some? && !ValidCategory(req.category.value) then Err(CategoryLength)
    else if !KnownPriority(req.priority) then Err(UnknownPriority)
    else if !KnownStatus(req.status) then Err(UnknownStatus)
    else
      var pri := if req.priority.Some? then ParsePriority(req.priority.value) else None;
      var st := if req.status.Some? then ParseStatus(req.status.value) else None;
      Ok(TicketUpdate(req.title, req.description, req.category, pri, st, req.slaDeadline))
  }

  /** The empty update is valid: no field is required. */
  lemma EmptyUpdateValid()
    ensures ValidUpdate(TicketUpdate(None, None, None, None, None, Unset))
  {
  }
}
