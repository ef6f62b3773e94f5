/** The Issue schema (backend/models/Issue.js) as a validator: closed enumerations for
    category, priority and status, required fields, defaults for priority and status, and the
    `trim` setters on the free-text fields. As in the document layer, setters and defaults are
    applied first and the validators then look at the resulting values. */
module IssueModel {
  import opened Common
  import opened Text

  datatype Category = Roads | Water | Electricity | Sanitation | Garbage
  datatype Priority = Low | Medium | High | Emergency
  datatype Status = Reported | InProgress | Resolved

  function CategoryName(c: Category): string {
    match c
    case Roads => "roads"
    case Water => "water"
    case Electricity => "electricity"
    case Sanitation => "sanitation"
    case Garbage => "garbage"
  }

  function PriorityName(p: Priority): string {
    match p
    case Low => "low"
    case Medium => "medium"
    case High => "high"
    case Emergency => "emergency"
  }

  function StatusName(s: Status): string {
    match s
    case Reported => "reported"
    case InProgress => "in_progress"
    case Resolved => "resolved"
  }

  /** The `enum` check on `category`: exactly the five names are accepted. */
  function ParseCategory(s: string): (c: Option<Category>)
    ensures c.Some? ==> CategoryName(c.value) == s
    ensures c.None? ==> forall k: Category :: CategoryName(k) != s
  {
    if s == "roads" then Some(Roads)
    else if s == "water" then Some(Water)
    else if s == "electricity" then Some(Electricity)
    else if s == "sanitation" then Some(Sanitation)
    else if s == "garbage" then Some(Garbage)
    else None
  }

  /** The `enum` check on `priority`. */
  function ParsePriority(s: string): (p: Option<Priority>)
    ensures p.Some? ==> PriorityName(p.value) == s
    ensures p.None? ==> forall k: Priority :: PriorityName(k) != s
  {
    if s == "low" then Some(Low)
    else if s == "medium" then Some(Medium)
    else if s == "high" then Some(High)
    else if s == "emergency" then Some(Emergency)
    else None
  }

  /** The `enum` check on `status`. */
  function ParseStatus(s: string): (st: Option<Status>)
    ensures st.Some? ==> StatusName(st.value) == s
    ensures st.None? ==> forall k: Status :: StatusName(k) != s
  {
    if s == "reported" then Some(Reported)
    else if s == "in_progress" then Some(InProgress)
    else if s == "resolved" then Some(Resolved)
    else None
  }

  /** Every enumeration value is accepted under its own name, and only under it. */
  lemma {:induction false} NamesRoundTrip(c: Category, p: Priority, s: Status)
    ensures ParseCategory(CategoryName(c)) == Some(c)
    ensures ParsePriority(PriorityName(p)) == Some(p)
    ensures ParseStatus(StatusName(s)) == Some(s)
  {
    match c {
      case Roads => case Water => case Electricity => case Sanitation => case Garbage =>
    }
  }

  /** The document handed to `Issue.create`, each path as supplied (`None` is `undefined`). */
  datatype IssueDoc = IssueDoc(
    category: Option<string>, description: Option<string>, location: Option<string>,
    priority: Option<string>, media: seq<string>, reportedBy: Option<UserId>,
    contactName: Option<string>, contactPhone: Option<string>, status: Option<string>)

  /** A stored issue: every enumerated path holds a member of its enumeration. */
  datatype Issue = Issue(
    category: Category, description: string, location: string, priority: Priority,
    media: seq<string>, reportedBy: UserId,
    contactName: Option<string>, contactPhone: Option<string>, status: Status)

  /** The `trim: true` setter on an optional string path. */
  function TrimmedPath(v: Option<string>): (r: Option<string>)
    ensures r.None? <==> v.None?
    ensures v.Some? ==> r.value == Trim(v.value)
  {
    match v
    case None => None
    case Some(s) => Some(Trim(s))
  }

  /** The document after the schema's defaults (`priority: 'medium'`, `status: 'reported'`)
      and `trim` setters have been applied: what the validators look at and what is stored. */
  function Prepared(doc: IssueDoc): IssueDoc {
    doc.(
      description := TrimmedPath(doc.description),
      location := TrimmedPath(doc.location),
      priority := Some(doc.priority.GetOr(PriorityName(Medium))),
      contactName := TrimmedPath(doc.contactName),
      contactPhone := TrimmedPath(doc.contactPhone),
      status := Some(doc.status.GetOr(StatusName(Reported))))
  }

  /** A required string path: present and not empty. */
  predicate Present(v: Option<string>) {
    v.Some? && v.value != ""
  }

  /** The schema paths that carry validators. */
  datatype Path = CategoryPath | DescriptionPath | LocationPath | PriorityPath | ReportedByPath | StatusPath

  const AllPaths := {CategoryPath, DescriptionPath, LocationPath, PriorityPath, ReportedByPath, StatusPath}

  /** The validators of one path (`required`, `enum`), run on the value the path holds once
      its setter and default have been applied, as in `Prepared`. */
  predicate Fails(doc: IssueDoc, path: Path) {
    match path
    case CategoryPath => !Present(doc.category) || ParseCategory(doc.category.value).None?
    case DescriptionPath => !Present(TrimmedPath(doc.description))
    case LocationPath => !Present(TrimmedPath(doc.location))
    case PriorityPath => ParsePriority(doc.priority.GetOr(PriorityName(Medium))).None?
    case ReportedByPath => doc.reportedBy.None?
    case StatusPath => ParseStatus(doc.status.GetOr(StatusName(Reported))).None?
  }

  /** The paths whose validators fail: the keys of the validation error's `errors` object. */
  function ErrorPaths(doc: IssueDoc): (paths: set<Path>)
    // category: required, one of five names
    ensures CategoryPath in paths <==> doc.category.None? || ParseCategory(doc.category.value).None?
    // description and location: required, checked after trimming, so white space alone is missing
    ensures DescriptionPath in paths <==> doc.description.None? || AllSpace(doc.description.value)
    ensures LocationPath in paths <==> doc.location.None? || AllSpace(doc.location.value)
    // priority: one of four names; absent means the default `medium`
    ensures PriorityPath in paths <==> doc.priority.Some? && ParsePriority(doc.priority.value).None?
    // reportedBy: required
    ensures ReportedByPath in paths <==> doc.reportedBy.None?
    // status: one of three names; absent means the default `reported`
    ensures StatusPath in paths <==> doc.status.Some? && ParseStatus(doc.status.value).None?
  {
    assert ParsePriority("medium") == Some(Medium);
    assert ParseStatus("reported") == Some(Reported);
    set path | path in AllPaths && Fails(doc, path)
  }

  /** Validation of a document against the schema: the failing paths, or else the issue that
      is stored, with its defaults filled in and its free text trimmed. */
  function Validate(doc: IssueDoc): (r: Result<Issue, set<Path>>)
    ensures r.Failure? <==> ErrorPaths(doc) != {}
    ensures r.Failure? ==> r.error == ErrorPaths(doc)
    ensures r.Success? ==>
              var issue := r.value;
              && CategoryName(issue.category) == doc.category.value
              && issue.description == Trim(doc.description.value) && issue.description != ""
              && issue.location == Trim(doc.location.value) && issue.location != ""
              && issue.priority == (if doc.priority.None? then Medium else ParsePriority(doc.priority.value).value)
              && issue.status == (if doc.status.None? then Reported else ParseStatus(doc.status.value).value)
              && issue.media == doc.media
              && Some(issue.reportedBy) == doc.reportedBy
              && issue.contactName == TrimmedPath(doc.contactName)
              && issue.contactPhone == TrimmedPath(doc.contactPhone)
  {
    var errors := ErrorPaths(doc);
    var p := Prepared(doc);
    if errors != {} then
      Failure(errors)
    else
      NamesRoundTrip(Roads, Medium, Reported);
      Success(Issue(
        ParseCategory(p.category.value).value,
        p.description.value,
        p.location.value,
        ParsePriority(p.priority.value).value,
        p.media,
        p.reportedBy.value,
        p.contactName,
        p.contactPhone,
        ParseStatus(p.status.value).value))
  }

  /** A category outside the enumeration, such as "weather", is refused whatever else the
      document holds. */
  lemma UnknownCategoryRejected(doc: IssueDoc)
    requires doc.category == Some("weather")
    ensures Validate(doc).Failure? && CategoryPath in Validate(doc).error
  {
  }
}
