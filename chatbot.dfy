/** The chatbot's open-ticket tool: from the newest tickets of the store, the open ones
    (open or in progress) that match the optional priority and category, compared without
    regard to letter case, summarised in one sentence with details for at most five. */
module Chatbot {
  import opened Common
  import opened TicketCrud

  /** How many of the newest tickets the tool reads. */
  const SampleSize: nat := 1000
  const MaxDetailed: nat := 5

  predicate IsOpenTicket(t: Ticket)
  {
    t.status == "Open" || t.status == "In Progress"
  }

  /** Equality after lowering both sides. */
  predicate SameIgnoringCase(a: string, b: string)
  {
    AsciiLower(a) == AsciiLower(b)
  }

  /** What a ticket must satisfy to be reported. */
  predicate Matches(t: Ticket, priority: Option<string>, category: Option<string>)
  {
    && IsOpenTicket(t)
    && (Truthy(priority) ==> SameIgnoringCase(t.priority, priority.value))
    && (Truthy(category) ==> SameIgnoringCase(t.category, category.value))
  }

  function PriorityIs(p: string): Ticket -> bool
  {
    (t: Ticket) => SameIgnoringCase(t.priority, p)
  }

  function CategoryIs(c: string): Ticket -> bool
  {
    (t: Ticket) => SameIgnoringCase(t.category, c)
  }

  /** The open tickets, then those of the priority when one is given, then those of the
      category when one is given. */
  function MatchingTickets(all: seq<Ticket>, priority: Option<string>, category: Option<string>): (r: seq<Ticket>)
    ensures IsSubsequence(r, all)
    ensures forall t :: t in r <==> t in all && Matches(t, priority, category)
    ensures forall t :: t in all ==> multiset(r)[t] == if Matches(t, priority, category) then multiset(all)[t] else 0
  {
    var open := Filter(all, IsOpenTicket);
    var byPriority := if Truthy(priority) then Filter(open, PriorityIs(priority.value)) else open;
    var byCategory := if Truthy(category) then Filter(byPriority, CategoryIs(category.value)) else byPriority;
    MatchingIsOneFilter(all, priority, category);
    byCategory
  }

  /** The three stages select what one filter by `Matches` selects. */
  lemma MatchingIsOneFilter(all: seq<Ticket>, priority: Option<string>, category: Option<string>)
    ensures
      var open := Filter(all, IsOpenTicket);
      var byPriority := if Truthy(priority) then Filter(open, PriorityIs(priority.value)) else open;
      var byCategory := if Truthy(category) then Filter(byPriority, CategoryIs(category.value)) else byPriority;
      byCategory == Filter(all, (t: Ticket) => Matches(t, priority, category))
  {
    var all3 := (t: Ticket) => Matches(t, priority, category);
    var openPri := (t: Ticket) => IsOpenTicket(t) && (Truthy(priority) ==> SameIgnoringCase(t.priority, priority.value));
    if Truthy(priority) {
      FilterFuse(all, IsOpenTicket, PriorityIs(priority.value), openPri);
    } else {
      FilterSame(all, IsOpenTicket, openPri);
    }
    if Truthy(category) {
      FilterFuse(all, openPri, CategoryIs(category.value), all3);
    } else {
      FilterSame(all, openPri, all3);
    }
  }

  /** Filters by conditions that agree everywhere select the same elements. */
  lemma {:induction false} FilterSame<T>(s: seq<T>, a: T -> bool, b: T -> bool)
    requires forall x :: a(x) == b(x)
    ensures Filter(s, a) == Filter(s, b)
  {
    if s != [] {
      FilterSame(s[1..], a, b);
    }
  }

  const NoMatchMessage: string := "No open tickets match the specified criteria."

  function Heading(count: nat): string
  {
    "Found " + NatToString(count) + " open tickets matching the criteria. "
  }

  /** One detail: the first eight characters of the id and the title. */
  function Detail(t: Ticket): string
  {
    "Ticket ID " + t.id[..if |t.id| < 8 then |t.id| else 8] + " with title '" + t.title + "'"
  }

  function Details(ts: seq<Ticket>): (ds: seq<string>)
    ensures |ds| == |ts|
    ensures forall k :: 0 <= k < |ts| ==> ds[k] == Detail(ts[k])
  {
    seq(|ts|, k requires 0 <= k < |ts| => Detail(ts[k]))
  }

  /** The sentence listing the details, separated by commas. */
  function DetailsSentence(matches: seq<Ticket>): string
  {
    "Details: " + Join(Details(matches), ", ") + "."
  }

  /** The summary sentence for the matching tickets: the heading, followed by the details
      when there are at most five. */
  function Summary(matches: seq<Ticket>): string
  {
    if |matches| == 0 then NoMatchMessage
    else if |matches| <= MaxDetailed then Heading(|matches|) + DetailsSentence(matches)
    else Heading(|matches|)
  }

  /** The no-match message is given exactly when nothing matched. */
  lemma SummaryNoMatch(matches: seq<Ticket>)
    ensures Summary(matches) == NoMatchMessage <==> |matches| == 0
  {
    if |matches| > 0 {
      HeadingFirst(|matches|);
      NoMatchFirst();
      var s := Summary(matches);
      assert s[0] == Heading(|matches|)[0];
    }
  }

  lemma HeadingFirst(count: nat)
    ensures |Heading(count)| > 0 && Heading(count)[0] == 'F'
  {
  }

  lemma NoMatchFirst()
    ensures |NoMatchMessage| > 0 && NoMatchMessage[0] == 'N'
  {
    assert NoMatchMessage == "N" + NoMatchMessage[1..];
  }

  /** With matches, the answer starts with the heading and goes on past it exactly when
      there are at most five. */
  lemma SummaryShape(matches: seq<Ticket>)
    requires |matches| > 0
    ensures |Heading(|matches|)| <= |Summary(matches)|
    ensures Summary(matches)[..|Heading(|matches|)|] == Heading(|matches|)
    ensures |Summary(matches)| > |Heading(|matches|)| <==> |matches| <= MaxDetailed
  {
    var heading := Heading(|matches|);
    if |matches| <= MaxDetailed {
      assert (heading + DetailsSentence(matches))[..|heading|] == heading;
    }
  }

  /** The tool's answer for a listing of the store's newest tickets. */
  function GetOpenTickets(all: seq<Ticket>, priority: Option<string>, category: Option<string>): (s: string)
    ensures s == NoMatchMessage <==> forall t :: t in all ==> !Matches(t, priority, category)
  {
    var matches := MatchingTickets(all, priority, category);
    assert |matches| == 0 <==> forall t :: t in all ==> !Matches(t, priority, category) by {
      if |matches| > 0 {
        assert matches[0] in matches;
      }
    }
    SummaryNoMatch(matches);
    Summary(matches)
  }

  /** Every match's detail occurs in the details sentence. */
  lemma DetailInSentence(matches: seq<Ticket>, k: nat)
    requires k < |matches|
    ensures exists i: nat :: OccursAt(DetailsSentence(matches), Detail(matches[k]), i)
  {
    var parts := Details(matches);
    var body := Join(parts, ", ");
    JoinContainsParts(parts, ", ", k);
    var i: nat :| OccursAt(body, parts[k], i);
    OccursShift("Details: ", body, parts[k], i);
    OccursPrefix("Details: " + body, ".", parts[k], 9 + i);
    assert DetailsSentence(matches) == ("Details: " + body) + ".";
    assert OccursAt(DetailsSentence(matches), Detail(matches[k]), 9 + i);
  }

  /** With at most five matches, every matching ticket's detail appears in the answer. */
  lemma DetailsListed(matches: seq<Ticket>, k: nat)
    requires 0 < |matches| <= MaxDetailed && k < |matches|
    ensures Contains(Summary(matches), Detail(matches[k]))
  {
    DetailInSentence(matches, k);
    var i: nat :| OccursAt(DetailsSentence(matches), Detail(matches[k]), i);
    var heading := Heading(|matches|);
    OccursShift(heading, DetailsSentence(matches), Detail(matches[k]), i);
    assert Summary(matches) == heading + DetailsSentence(matches);
  }

  /** The tool over the store: it reads the first thousand rows of the listing. */
  method OpenTicketsSummary(store: TicketStore, priority: Option<string>, category: Option<string>)
    returns (s: string, ghost listing: seq<Ticket>)
    requires store.Valid()
    ensures ListsStore(listing, store.tickets) && NewestFirst(listing)
    ensures s == GetOpenTickets(Page(listing, 0, SampleSize), priority, category)
  {
    var page;
    page, listing := store.GetAllTickets(0, SampleSize);
    s := GetOpenTickets(page, priority, category);
  }
}
