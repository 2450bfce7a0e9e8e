/** Missing-report ingestion and listing: the stored-file name generator for
    uploaded photos, the authenticated submit handler that caps uploads at
    five, replaces the photo list by the stored names, attaches the
    submitter and saves, and the listing with its owner lookup. */
module Reports {
  import opened Common
  import opened Text
  import Users

  /** One uploaded file: the name the client gave it and the clock reading
      (milliseconds) when the upload handler named it. */
  datatype Upload = Upload(originalName: string, receivedAt: nat)

  /** The most files the `photos` field accepts. */
  const MaxPhotos: nat := 5

  // ---------------------------------------------------------------------------
  // Stored-file names

  /** `Date.now() + '-' + file.originalname`. */
  function StoredName(f: Upload): (name: string)
    ensures Decimal(f.receivedAt) + "-" <= name
    ensures |name| >= |f.originalName| && name[|name| - |f.originalName|..] == f.originalName
  {
    Decimal(f.receivedAt) + "-" + f.originalName
  }

  /** The position of the first `c` in `s`, if any. */
  function FirstIndexOf(s: string, c: char): (k: Option<nat>)
    ensures k.Some? ==> k.value < |s| && s[k.value] == c && forall j :: 0 <= j < k.value ==> s[j] != c
    ensures k.None? ==> forall j :: 0 <= j < |s| ==> s[j] != c
  {
    if s == [] then None
    else if s[0] == c then Some(0)
    else
      match FirstIndexOf(s[1..], c)
      case None => None
      case Some(k) => Some(k + 1)
  }

  /** Reads a stored name back into the clock reading and the original name:
      digits up to the first '-', then everything after it. */
  function ParseStoredName(name: string): Option<(nat, string)> {
    match FirstIndexOf(name, '-')
    case None => None
    case Some(k) =>
      if k > 0 && forall j :: 0 <= j < k ==> IsDigit(name[j])
      then Some((DecimalValue(name[..k]), name[k + 1..]))
      else None
  }

  /** The stored name determines the upload: the original name may itself contain '-'. */
  lemma StoredNameRoundTrip(f: Upload)
    ensures ParseStoredName(StoredName(f)) == Some((f.receivedAt, f.originalName))
  {
    var digits := Decimal(f.receivedAt);
    var name := StoredName(f);
    assert name[|digits|] == '-';
    assert forall j :: 0 <= j < |digits| ==> name[j] == digits[j] && name[j] != '-';
    assert FirstIndexOf(name, '-') == Some(|digits|);
    assert name[..|digits|] == digits;
    assert name[|digits| + 1..] == f.originalName;
    DecimalRoundTrip(f.receivedAt);
  }

  /** Two uploads get the same stored name only if they have the same original
      name and were named at the same millisecond. */
  lemma StoredNameInjective(f: Upload, g: Upload)
    requires StoredName(f) == StoredName(g)
    ensures f == g
  {
    StoredNameRoundTrip(f);
    StoredNameRoundTrip(g);
  }

  /** `req.files.map(file => file.filename)`: the stored names, in upload order. */
  method StoredNames(files: seq<Upload>) returns (names: seq<string>)
    ensures |names| == |files|
    ensures forall i :: 0 <= i < |files| ==> names[i] == StoredName(files[i])
  {
    names := [];
    for i := 0 to |files|
      invariant |names| == i
      invariant forall k :: 0 <= k < i ==> names[k] == StoredName(files[k])
    {
      names := names + [StoredName(files[i])];
    }
  }

  // ---------------------------------------------------------------------------
  // Reports and the store

  /** The request body as submitted: its text fields, and the `photos` and
      `user` entries a client may have put in it. */
  datatype ReportBody = ReportBody(fields: map<string, string>, photos: Option<seq<string>>, user: Option<nat>)

  /** A stored report, owned by the user `user`. */
  datatype Report = Report(id: nat, fields: map<string, string>, photos: seq<string>, user: nat)

  datatype SubmitResponse = Submitted(report: Report) | Unauthorized | TooManyFiles | SubmitFailed {
    /** The handler's own responses; the other two come from the middleware in front of it. */
    predicate FromHandler() {
      Submitted? || SubmitFailed?
    }
    function StatusCode(): int
      requires FromHandler()
    {
      if Submitted? then 200 else 500
    }
    function Message(): string
      requires FromHandler()
    {
      if Submitted? then "Report submitted" else "Failed to submit report"
    }
  }

  /** The handler's two answers differ in status code and in message. */
  lemma SubmitResponsesDistinct(a: SubmitResponse, b: SubmitResponse)
    requires a.FromHandler() && b.FromHandler()
    ensures a.StatusCode() == b.StatusCode() <==> a.Submitted? == b.Submitted?
    ensures a.Message() == b.Message() <==> a.Submitted? == b.Submitted?
  {
  }

  /** A report as the listing returns it, with its owner resolved. */
  datatype ListedReport = ListedReport(report: Report, owner: Option<Users.Owner>)

  class ReportStore {
    var reports: seq<Report>
    var nextId: nat

    /** Report ids are handed out in increasing order below `nextId`. */
    ghost predicate Valid()
      reads this
    {
      && (forall i, j :: 0 <= i < j < |reports| ==> reports[i].id < reports[j].id)
      && (forall i :: 0 <= i < |reports| ==> reports[i].id < nextId)
    }

    constructor ()
      ensures Valid() && reports == [] && nextId == 0
    {
      reports := [];
      nextId := 0;
    }

    /** POST /: `auth` is the id the authentication middleware found (none when
        it refused), `files` the files the upload middleware parsed (none when
        the request is not multipart, such as a JSON body; a multipart request
        without files gives `Some([])`; a file sent under a field other than
        `photos` is refused by the middleware and is not expressible here),
        `saved` whether the store accepted the report. */
    method Submit(auth: Option<nat>, body: ReportBody, files: Option<seq<Upload>>, saved: bool)
      returns (response: SubmitResponse)
      requires Valid()
      modifies this
      ensures Valid()
      ensures auth.None? ==> response == Unauthorized
      ensures auth.Some? && files.Some? && |files.value| > MaxPhotos ==> response == TooManyFiles
      ensures response.Submitted? <==>
              auth.Some? && (files.None? || |files.value| <= MaxPhotos) && saved
      ensures response.FromHandler() <==> auth.Some? && (files.None? || |files.value| <= MaxPhotos)
      ensures auth.Some? && (files.None? || |files.value| <= MaxPhotos) && !saved ==> response == SubmitFailed
      ensures response.Submitted? ==>
              && response.report.id == old(nextId)
              && response.report.user == auth.value
              && response.report.fields == body.fields
              && (files.Some? ==> |response.report.photos| == |files.value|
                                  && forall i :: 0 <= i < |files.value| ==>
                                       response.report.photos[i] == StoredName(files.value[i]))
              && (files.None? ==> response.report.photos == body.photos.GetOr([]))
      ensures response.Submitted? ==> reports == old(reports) + [response.report] && nextId == old(nextId) + 1
      ensures response.Submitted? ==> forall i :: 0 <= i < |old(reports)| ==> old(reports)[i].id != response.report.id
      ensures !response.Submitted? ==> reports == old(reports) && nextId == old(nextId)
    {
      if auth.None? {
        return Unauthorized;
      }
      if files.Some? && |files.value| > MaxPhotos {
        return TooManyFiles;
      }
      var reportData := body;
      if files.Some? {
        var names := StoredNames(files.value);
        reportData := reportData.(photos := Some(names));
      }
      reportData := reportData.(user := Some(auth.value));
      if !saved {
        return SubmitFailed;
      }
      var report := Report(nextId, reportData.fields, reportData.photos.GetOr([]), reportData.user.value);
      reports := reports + [report];
      nextId := nextId + 1;
      response := Submitted(report);
    }

    /** GET /: every stored report in store order, each with its owner's name and email. */
    method List(users: seq<Users.User>) returns (listed: seq<ListedReport>)
      ensures |listed| == |reports|
      ensures forall i :: 0 <= i < |reports| ==>
                listed[i].report == reports[i] && listed[i].owner == Users.OwnerOf(users, reports[i].user)
    {
      listed := [];
      for i := 0 to |reports|
        invariant |listed| == i
        invariant forall k :: 0 <= k < i ==>
                    listed[k].report == reports[k] && listed[k].owner == Users.OwnerOf(users, reports[k].user)
      {
        listed := listed + [ListedReport(reports[i], Users.OwnerOf(users, reports[i].user))];
      }
    }
  }
}
