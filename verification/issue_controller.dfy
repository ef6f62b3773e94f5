/** The issue intake handler (backend/controllers/issueController.js): the media files are
    uploaded first, all or nothing, and the issue is then created with the authenticated user
    as its reporter and `medium` standing in for a falsy priority. Every failure, a rejected
    upload or a rejected document alike, answers 500. */
module IssueController {
  import opened Common
  import opened IssueModel

  /** The route accepts at most this many files in the `media` field. */
  const MaxMediaFiles := 5

  const IssueReported := "Issue reported successfully."
  const ServerError := "Server Error"

  /** The text fields of the multipart request body (`None` is an absent field). The body has
      no reporter field: the reporter is the authenticated user. */
  datatype IssueBody = IssueBody(
    category: Option<string>, description: Option<string>, location: Option<string>,
    priority: Option<string>, contactName: Option<string>, contactPhone: Option<string>)

  /** `Promise.all` over the uploads, one result per file in file order: the secure URLs in
      the same order when every upload succeeds, and nothing as soon as one of them fails. */
  function UploadAll(results: seq<UploadResult>): (urls: Option<seq<string>>)
    ensures urls.Some? <==> forall i :: 0 <= i < |results| ==> results[i].Uploaded?
    ensures urls.Some? ==>
              && |urls.value| == |results|
              && forall i :: 0 <= i < |results| ==> urls.value[i] == results[i].secureUrl
  {
    if results == [] then Some([])
    else match results[0]
      case UploadFailed => None
      case Uploaded(url) =>
        match UploadAll(results[1..])
        case None => None
        case Some(rest) => Some([url] + rest)
  }

  /** `priority || 'medium'`: a falsy priority (absent or empty) becomes `medium`, any other
      value is passed on as it is, valid or not. */
  function DefaultPriority(priority: Option<string>): (p: string)
    ensures p != ""
    ensures Truthy(priority) ==> p == priority.value
    ensures !Truthy(priority) ==> p == PriorityName(Medium)
  {
    if Truthy(priority) then priority.value else PriorityName(Medium)
  }

  /** The document handed to `Issue.create`. */
  function IssueDocFor(user: UserId, body: IssueBody, mediaUrls: seq<string>): IssueDoc {
    IssueDoc(body.category, body.description, body.location, Some(DefaultPriority(body.priority)),
             mediaUrls, Some(user), body.contactName, body.contactPhone, None)
  }

  /** An empty priority, which the schema's `enum` alone would refuse, is stored as `medium`
      once it has passed through the handler. */
  lemma EmptyPriorityStoredAsMedium(user: UserId, body: IssueBody, mediaUrls: seq<string>)
    requires body.priority == Some("")
    ensures !Fails(IssueDocFor(user, body, mediaUrls), PriorityPath)
    ensures Validate(IssueDocFor(user, body, mediaUrls)).Success? ==>
              Validate(IssueDocFor(user, body, mediaUrls)).value.priority == Medium
  {
    NamesRoundTrip(Roads, Medium, Reported);
  }

  /** The issue collection. */
  class IssueStore {
    var issues: seq<Issue>

    constructor ()
      ensures issues == []
    {
      issues := [];
    }

    /** `createIssue` for the authenticated user `user`; `uploads` holds what the media host
        reports for each file of the request, in file order. The handler either appends exactly
        one issue and answers 201 with it, or appends nothing and answers 500. */
    method CreateIssue(user: UserId, body: IssueBody, uploads: seq<UploadResult>)
      returns (r: Response<Issue>)
      modifies this
      ensures r.Respond? <==>
                && UploadAll(uploads).Some?
                && Validate(IssueDocFor(user, body, UploadAll(uploads).value)).Success?
      ensures r.Reject? ==> r == Reject(500, ServerError) && issues == old(issues)
      ensures r.Respond? ==>
                && r.status == 201
                && issues == old(issues) + [r.body]
                && r.body == Validate(IssueDocFor(user, body, UploadAll(uploads).value)).value
                && r.body.reportedBy == user
                && r.body.media == UploadAll(uploads).value
                && |r.body.media| == |uploads|
                && r.body.status == Reported
                && r.body.priority == (if Truthy(body.priority) then ParsePriority(body.priority.value).value else Medium)
    {
      var mediaUrls: seq<string> := [];
      if |uploads| > 0 {
        var uploaded := UploadAll(uploads);
        if uploaded.None? {
          return Reject(500, ServerError);
        }
        mediaUrls := uploaded.value;
      }
      assert mediaUrls == UploadAll(uploads).value;
      var doc := IssueDocFor(user, body, mediaUrls);
      var created := Validate(doc);
      if created.Failure? {
        return Reject(500, ServerError);
      }
      NamesRoundTrip(Roads, Medium, Reported);
      issues := issues + [created.value];
      r := Respond(201, created.value);
    }
  }

  /** Without files the stored issue has no media; with files it has one URL per file, so at
      most `MaxMediaFiles` when the request came through the route. */
  lemma MediaMatchesFiles(uploads: seq<UploadResult>)
    requires UploadAll(uploads).Some?
    ensures uploads == [] ==> UploadAll(uploads).value == []
    ensures |uploads| <= MaxMediaFiles ==> |UploadAll(uploads).value| <= MaxMediaFiles
  {
  }

  /** One failed upload, wherever it sits among the files, means no URLs at all. */
  lemma {:induction false} OneFailureSpoilsAll(prefix: seq<UploadResult>, suffix: seq<UploadResult>)
    ensures UploadAll(prefix + [UploadFailed] + suffix).None?
  {
    var all := prefix + [UploadFailed] + suffix;
    assert !all[|prefix|].Uploaded?;
  }
}
