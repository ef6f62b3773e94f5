/** The issue-tracking page (citizen/src/pages/TrackIssues.tsx): the case-insensitive search
    over title, id and location, the badge colours for status and priority, the cut of the
    update timeline, and the empty state. The page's list of issues is a parameter here. */
module TrackIssues {
  import opened Common
  import opened Text

  datatype Update = Update(date: string, status: string, progress: int)

  /** One entry of the page's issue list. */
  datatype TrackedIssue = TrackedIssue(
    id: string, title: string, category: string, status: string, progress: int,
    location: string, date: string, estimatedCompletion: string, department: string,
    priority: string, description: string, updates: seq<Update>)

  /** The search: the lower-cased term occurs in the lower-cased title, id or location. */
  predicate Matches(issue: TrackedIssue, term: string) {
    var t := Lower(term);
    Contains(Lower(issue.title), t) || Contains(Lower(issue.id), t) || Contains(Lower(issue.location), t)
  }

  /** `filteredIssues`: exactly the matching issues, each as often as it occurs, in their
      original order. */
  function Filter(issues: seq<TrackedIssue>, term: string): (kept: seq<TrackedIssue>)
    ensures forall x :: x in kept <==> x in issues && Matches(x, term)
    ensures forall x :: multiset(kept)[x] == if Matches(x, term) then multiset(issues)[x] else 0
    ensures IsSubsequence(kept, issues)
    ensures |kept| <= |issues|
  {
    if issues == [] then []
    else
      var rest := Filter(issues[1..], term);
      assert issues == [issues[0]] + issues[1..];
      if Matches(issues[0], term) then
        assert ([issues[0]] + rest)[1..] == rest;
        [issues[0]] + rest
      else rest
  }

  /** An empty search term keeps every issue. */
  lemma {:induction false} EmptyTermKeepsAll(issues: seq<TrackedIssue>)
    ensures Filter(issues, "") == issues
  {
    if issues != [] {
      ContainsEmpty(Lower(issues[0].title));
      EmptyTermKeepsAll(issues[1..]);
    }
  }

  /** The searched fields of an issue. */
  predicate SameSearchFields(x: TrackedIssue, y: TrackedIssue) {
    x.title == y.title && x.id == y.id && x.location == y.location
  }

  /** Description, category, status and every other field never affect what is kept: two lists
      that agree on title, id and location keep the same positions. */
  lemma {:induction false} OnlySearchFieldsMatter(a: seq<TrackedIssue>, b: seq<TrackedIssue>, term: string)
    requires |a| == |b|
    requires forall k :: 0 <= k < |a| ==> SameSearchFields(a[k], b[k])
    ensures |Filter(a, term)| == |Filter(b, term)|
    ensures forall k :: 0 <= k < |Filter(a, term)| ==> SameSearchFields(Filter(a, term)[k], Filter(b, term)[k])
  {
    if a != [] {
      OnlySearchFieldsMatter(a[1..], b[1..], term);
      assert Matches(a[0], term) == Matches(b[0], term);
    }
  }

  /** The search ignores the case of the term. */
  lemma {:induction false} SearchIgnoresCase(issues: seq<TrackedIssue>, term: string)
    ensures Filter(issues, Lower(term)) == Filter(issues, term)
  {
    LowerIdempotent(term);
    if issues != [] {
      SearchIgnoresCase(issues[1..], term);
    }
  }

  const SuccessBadge := "bg-success text-success-foreground"
  const WarningBadge := "bg-warning text-warning-foreground"
  const SecondaryBadge := "bg-secondary text-secondary-foreground"
  const DestructiveBadge := "bg-destructive text-destructive-foreground"
  const MutedBadge := "bg-muted text-muted-foreground"

  /** `getStatusColor`: success for "Resolved", warning for "In Progress", secondary for
      everything else. */
  function StatusColor(status: string): (badge: string)
    ensures badge == SuccessBadge <==> status == "Resolved"
    ensures badge == WarningBadge <==> status == "In Progress"
    ensures badge == SecondaryBadge <==> status != "Resolved" && status != "In Progress"
  {
    match status
    case "Resolved" => SuccessBadge
    case "In Progress" => WarningBadge
    case _ => SecondaryBadge
  }

  /** `getPriorityColor`: destructive for "High", warning for "Medium", muted for everything
      else. */
  function PriorityColor(priority: string): (badge: string)
    ensures badge == DestructiveBadge <==> priority == "High"
    ensures badge == WarningBadge <==> priority == "Medium"
    ensures badge == MutedBadge <==> priority != "High" && priority != "Medium"
  {
    match priority
    case "High" => DestructiveBadge
    case "Medium" => WarningBadge
    case _ => MutedBadge
  }

  /** `updates.slice(0, 3)`: the first three updates at most, in stored order. */
  function Timeline(updates: seq<Update>): (shown: seq<Update>)
    ensures shown <= updates
    ensures |shown| == if |updates| < 3 then |updates| else 3
  {
    if |updates| < 3 then updates else updates[..3]
  }

  const NoMatchHint := "Try adjusting your search terms"
  const NothingReportedHint := "You haven't reported any issues yet"

  /** What the list area shows: the cards of the filtered issues, or the empty state with its
      hint. */
  datatype Listing = Cards(shown: seq<TrackedIssue>) | EmptyState(hint: string)

  function View(issues: seq<TrackedIssue>, term: string): (v: Listing)
    ensures v.EmptyState? <==> forall x :: x in issues ==> !Matches(x, term)
    ensures v.Cards? ==> v.shown == Filter(issues, term)
    ensures v.EmptyState? ==> v.hint == if term != "" then NoMatchHint else NothingReportedHint
  {
    var filtered := Filter(issues, term);
    if |filtered| == 0 then
      EmptyState(if term != "" then NoMatchHint else NothingReportedHint)
    else
      assert filtered[0] in filtered;
      Cards(filtered)
  }

  /** Without a search term, the empty state appears exactly when there are no issues, and it
      says that none were reported. */
  lemma EmptyStateWithoutTerm(issues: seq<TrackedIssue>)
    ensures View(issues, "").EmptyState? <==> issues == []
    ensures issues == [] ==> View(issues, "") == EmptyState(NothingReportedHint)
  {
    EmptyTermKeepsAll(issues);
    if issues != [] {
      assert issues[0] in issues;
    }
  }
}
