/** The career-document upload form (src/components/upload-career-doc.tsx):
    it derives an object name and a content type from the chosen file, the
    optional custom name and the signed-in user's name, validates them,
    asks for a presigned URL, uploads the file, and records its metadata.
    Each network exchange is a parameter: what the presigning route answered,
    whether the upload succeeded, whether the metadata was saved. */
module UploadCareerDoc {
  import opened Common
  import opened Text
  import opened PresignSchemas

  /** The limit `UploadFormSchema` puts on the custom name. */
  const MAX_CUSTOM_NAME: nat := 50
  const OCTET_STREAM: string := "application/octet-stream"

  /** The chosen `File`: its name, its MIME type ("" when the browser does
      not know it) and its size. */
  datatype Document = Document(name: string, mimeType: string, size: nat)

  /** `UploadFormSchema`: the custom name's JavaScript `length` is at most
      50, counted in UTF-16 code units. */
  predicate FormValid(customName: string)
  {
    Utf16Length(customName) <= MAX_CUSTOM_NAME
  }

  /** The bound is on code units, not characters: 50 characters of the Basic
      Multilingual Plane pass, while 30 characters beyond it (60 code units)
      are refused, and no name of more than 50 characters ever passes. */
  lemma FormLimitCountsCodeUnits(customName: string)
    ensures (forall i :: 0 <= i < |customName| ==> customName[i] as int <= 0xFFFF) ==>
      (FormValid(customName) <==> |customName| <= MAX_CUSTOM_NAME)
    ensures |customName| > MAX_CUSTOM_NAME ==> !FormValid(customName)
    ensures var astral := seq(30, _ => '\U{1F600}'); |astral| == 30 && !FormValid(astral)
  {
    var astral := seq(30, _ => '\U{1F600}');
    assert forall i :: 0 <= i < |astral| ==> astral[i] as int > 0xFFFF;
  }

  /** `session?.user.name?.replaceAll(" ", "-")`. */
  function UserSlug(userName: Option<string>): (slug: Option<string>)
    ensures slug.Some? <==> userName.Some?
    ensures slug.Some? ==> |slug.value| == |userName.value| && ' ' !in slug.value
  {
    match userName
    case None => None
    case Some(name) => Some(ReplaceChar(name, ' ', '-'))
  }

  /** The base name: the custom name when it is not blank (its spaces, even
      leading and trailing ones, turned into dashes), else the file's own
      name likewise. */
  function BaseFileName(customName: string, doc: Document): (base: string)
    ensures !IsBlank(customName) ==> base == ReplaceChar(customName, ' ', '-')
    ensures IsBlank(customName) ==> base == ReplaceChar(doc.name, ' ', '-')
    ensures ' ' !in base
  {
    TrimEmptyIffBlank(customName);
    if Trim(customName) != "" then ReplaceChar(customName, ' ', '-') else ReplaceChar(doc.name, ' ', '-')
  }

  /** `user ? `${user}-${base}` : base`: the user's slug prefixes the name
      when it is not empty. */
  function FileName(userName: Option<string>, customName: string, doc: Document): string
  {
    var base := BaseFileName(customName, doc);
    match UserSlug(userName)
    case Some(user) => if user != "" then user + "-" + base else base
    case None => base
  }

  /** `document.type || "application/octet-stream"`. */
  function ContentTypeOf(doc: Document): (t: string)
    ensures t != ""
    ensures doc.mimeType != "" ==> t == doc.mimeType
  {
    if doc.mimeType != "" then doc.mimeType else OCTET_STREAM
  }

  /** No derived file name contains a space. */
  lemma FileNameHasNoSpace(userName: Option<string>, customName: string, doc: Document)
    ensures ' ' !in FileName(userName, customName, doc)
  {
    var base := BaseFileName(customName, doc);
    var slug := UserSlug(userName);
    if slug.Some? && slug.value != "" {
      NoSpaceInJoin(slug.value, base);
    }
  }

  lemma NoSpaceInJoin(user: string, base: string)
    requires ' ' !in user && ' ' !in base
    ensures ' ' !in user + "-" + base
  {
    var f := user + "-" + base;
    forall i | 0 <= i < |f| ensures f[i] != ' ' {
      if i < |user| {
        assert f[i] == user[i];
      } else if i > |user| {
        assert f[i] == base[i - |user| - 1];
      }
    }
  }

  /** The derived name is empty — and the presign request refused for it —
      exactly when there is no user name to prefix, the custom name is blank
      and the file's own name is empty. */
  lemma FileNameEmptyIff(userName: Option<string>, customName: string, doc: Document)
    ensures FileName(userName, customName, doc) == "" <==>
      (userName.None? || userName.value == "") && IsBlank(customName) && doc.name == ""
  {
  }

  /** A file whose type the browser does not know is always refused: the
      fallback type is not one the presign schema accepts. */
  lemma UntypedDocumentRejected(userName: Option<string>, customName: string, doc: Document)
    requires doc.mimeType == ""
    ensures ParseRequest(PresignRequest(FileName(userName, customName, doc), ContentTypeOf(doc))).Rejected?
  {
    OctetStreamRejected(FileName(userName, customName, doc));
  }

  /** What the presigning route answered: a URL (and, when present, the
      object key), or an error status. */
  datatype PresignReply = Presigned(uploadURL: string, s3Key: Option<string>) | PresignError

  /** The metadata sent to be recorded once the upload succeeded. */
  datatype SaveFileRequest = SaveFileRequest(
    s3Key: Option<string>, fileName: string, fileSize: nat, contentType: string, userId: Option<string>)

  /** How one submission ended. */
  datatype SubmitOutcome =
    | FormRejected          // the custom name failed `UploadFormSchema`
    | NoDocument            // "Please select a file"
    | Invalid(issue: Issue) // the first issue of the presign request
    | PresignFailed
    | UploadFailed
    | SaveFailed
    | Saved
  {
    /** The presign request was sent. */
    predicate Requested() { PresignFailed? || UploadFailed? || SaveFailed? || Saved? }
    /** The file was sent to the presigned URL. */
    predicate Uploaded() { UploadFailed? || SaveFailed? || Saved? }
    /** The metadata was sent to be recorded. */
    predicate Recorded() { SaveFailed? || Saved? }
  }

  /** The presign request derived for a document. */
  function RequestFor(userName: Option<string>, customName: string, doc: Document): (req: PresignRequest)
    ensures ' ' !in req.fileName && req.contentType != ""
  {
    FileNameHasNoSpace(userName, customName, doc);
    PresignRequest(FileName(userName, customName, doc), ContentTypeOf(doc))
  }

  /** What the checks before any exchange decide: stop with an outcome, or
      go on with the request and the document. */
  datatype Validation = Stop(outcome: SubmitOutcome) | Ready(req: PresignRequest, doc: Document)

  /** The checks of a submission, in order: the custom name against
      `UploadFormSchema`, then the presence of a document, then the derived
      request against the presign schema, whose first issue is reported.
      Nothing is sent unless all three pass. */
  function Validate(userName: Option<string>, customName: string, document: Option<Document>): (v: Validation)
    ensures v.Stop? ==> !v.outcome.Requested()
    ensures v == Stop(FormRejected) <==> !FormValid(customName)
    ensures v == Stop(NoDocument) <==> FormValid(customName) && document.None?
    ensures v.Stop? && v.outcome.Invalid? <==>
      FormValid(customName) && document.Some? && ParseRequest(RequestFor(userName, customName, document.value)).Rejected?
    ensures v.Stop? && v.outcome.Invalid? ==>
      v.outcome.issue == RequestIssues(RequestFor(userName, customName, document.value))[0]
    ensures v.Ready? ==>
      && document == Some(v.doc)
      && v.req == RequestFor(userName, customName, v.doc)
      && ParseRequest(v.req) == Accepted(v.req)
  {
    if !FormValid(customName) then Stop(FormRejected)
    else if document.None? then Stop(NoDocument)
    else
      var req := RequestFor(userName, customName, document.value);
      match ParseRequest(req)
      case Rejected(issues) => Stop(Invalid(issues[0]))
      case Accepted(_) => Ready(req, document.value)
  }

  class UploadForm {
    /** The selected file (`document` state). */
    var document: Option<Document>
    /** The form's `customName` field. */
    var customName: string
    /** The presign requests sent, the uploads made (URL and content type),
        and the metadata records sent, each in order. */
    var presigned: seq<PresignRequest>
    var uploads: seq<(string, string)>
    var saves: seq<SaveFileRequest>

    constructor ()
      ensures document == None && customName == ""
      ensures presigned == [] && uploads == [] && saves == []
    {
      document, customName := None, "";
      presigned, uploads, saves := [], [], [];
    }

    /** A file was chosen in the input. */
    method SelectDocument(doc: Document)
      modifies this
      ensures document == Some(doc)
      ensures customName == old(customName)
      ensures presigned == old(presigned) && uploads == old(uploads) && saves == old(saves)
    {
      document := Some(doc);
    }

    /** The custom-name field changed. */
    method SetCustomName(name: string)
      modifies this
      ensures customName == name
      ensures document == old(document)
      ensures presigned == old(presigned) && uploads == old(uploads) && saves == old(saves)
    {
      customName := name;
    }

    /** `form.handleSubmit()` and then `handleFormSubmit`: the checks of
        `Validate`, in its order, and the exchanges of `Send` only once they
        all pass. Only a recorded upload clears the selected file and resets
        the form. */
    method Submit(userName: Option<string>, userId: Option<string>, presign: PresignReply, uploadOk: bool, saveOk: bool)
      returns (outcome: SubmitOutcome)
      modifies this
      ensures var v := Validate(userName, old(customName), old(document));
        && (v.Stop? ==>
              && outcome == v.outcome
              && presigned == old(presigned) && uploads == old(uploads) && saves == old(saves)
              && document == old(document) && customName == old(customName))
        && (v.Ready? ==>
              && outcome.Requested() && presigned == old(presigned) + [v.req]
              && (outcome == PresignFailed <==> presign.PresignError?)
              && (outcome.Uploaded() ==> presign.Presigned? && uploads == old(uploads) + [(presign.uploadURL, v.req.contentType)])
              && (!outcome.Uploaded() ==> uploads == old(uploads))
              && (outcome == UploadFailed ==> !uploadOk)
              && (outcome.Recorded() ==>
                    uploadOk && saves == old(saves) + [SaveFileRequest(presign.s3Key, v.req.fileName, v.doc.size, v.req.contentType, userId)])
              && (!outcome.Recorded() ==> saves == old(saves))
              && (outcome == Saved <==> outcome.Recorded() && saveOk)
              && (outcome == Saved ==> document == None && customName == "")
              && (outcome != Saved ==> document == old(document) && customName == old(customName)))
    {
      var v := Validate(userName, customName, document);
      if v.Stop? {
        return v.outcome;
      }
      outcome := Send(v.req, v.doc, userId, presign, uploadOk, saveOk);
    }

    /** The exchanges after validation: presign, upload, record, each only
        when the one before it succeeded, and the reset on success. */
    method Send(req: PresignRequest, doc: Document, userId: Option<string>, presign: PresignReply, uploadOk: bool, saveOk: bool)
      returns (outcome: SubmitOutcome)
      modifies this
      ensures outcome.Requested() && presigned == old(presigned) + [req]
      ensures outcome == PresignFailed <==> presign.PresignError?
      ensures outcome.Uploaded() ==> presign.Presigned? && uploads == old(uploads) + [(presign.uploadURL, req.contentType)]
      ensures !outcome.Uploaded() ==> uploads == old(uploads)
      ensures outcome == UploadFailed ==> !uploadOk
      ensures outcome.Recorded() ==>
        uploadOk && saves == old(saves) + [SaveFileRequest(presign.s3Key, req.fileName, doc.size, req.contentType, userId)]
      ensures !outcome.Recorded() ==> saves == old(saves)
      ensures outcome == Saved <==> outcome.Recorded() && saveOk
      ensures outcome == Saved ==> document == None && customName == ""
      ensures outcome != Saved ==> document == old(document) && customName == old(customName)
    {
      presigned := presigned + [req];
      if presign.PresignError? {
        return PresignFailed;
      }
      uploads := uploads + [(presign.uploadURL, req.contentType)];
      if !uploadOk {
        return UploadFailed;
      }
      saves := saves + [SaveFileRequest(presign.s3Key, req.fileName, doc.size, req.contentType, userId)];
      if !saveOk {
        return SaveFailed;
      }
      document := None;
      customName := "";
      outcome := Saved;
    }
  }
}
