/** The request and response validators of the upload presigning exchange
    (src/lib/zod-schemas.ts), as functions from a candidate object to the
    list of issues found, in the order of the schema's fields. */
module PresignSchemas {
  import opened Common

  const PDF: string := "application/pdf"
  const PLAIN_TEXT: string := "text/plain"
  const MS_WORD: string := "application/msword"
  const WORD_DOCX: string := "application/vnd.openxmlformats-officedocument.wordprocessingml.document"

  /** The four content types the enum lists; matched by exact string
      equality. */
  const ALLOWED_CONTENT_TYPES: seq<string> := [PDF, PLAIN_TEXT, MS_WORD, WORD_DOCX]

  datatype PresignRequest = PresignRequest(fileName: string, contentType: string)

  /** One failed check: the empty file name (whose message the schema sets)
      or a content type outside the enum. */
  datatype Issue = FileNameRequired | InvalidContentType(received: string)

  const FILE_NAME_REQUIRED_MESSAGE: string := "File name required"

  /** `PresignedURLRequestSchema` applied to a request: every issue, the
      file name's first. */
  function RequestIssues(req: PresignRequest): (issues: seq<Issue>)
    ensures issues == [] <==> |req.fileName| >= 1 && req.contentType in ALLOWED_CONTENT_TYPES
    ensures FileNameRequired in issues <==> req.fileName == ""
    ensures InvalidContentType(req.contentType) in issues <==> req.contentType !in ALLOWED_CONTENT_TYPES
    ensures forall i :: i in issues ==> i == FileNameRequired || i == InvalidContentType(req.contentType)
    ensures req.fileName == "" ==> issues[0] == FileNameRequired
  {
    (if req.fileName == "" then [FileNameRequired] else [])
    + (if req.contentType in ALLOWED_CONTENT_TYPES then [] else [InvalidContentType(req.contentType)])
  }

  /** `schema.parse`: the request itself when it has no issue, the issues
      otherwise. */
  datatype Parsed<T> = Accepted(value: T) | Rejected(issues: seq<Issue>)

  function ParseRequest(req: PresignRequest): (r: Parsed<PresignRequest>)
    ensures r.Accepted? <==> |req.fileName| >= 1 && req.contentType in ALLOWED_CONTENT_TYPES
    ensures r.Accepted? ==> r.value == req
    ensures r.Rejected? ==> r.issues != [] && r.issues == RequestIssues(req)
  {
    var issues := RequestIssues(req);
    if issues == [] then Accepted(req) else Rejected(issues)
  }

  /** Any non-empty file name is accepted with an allowed type: the schema
      places no restriction on its characters. */
  lemma AnyNonEmptyNameAccepted(fileName: string, k: nat)
    requires fileName != [] && k < |ALLOWED_CONTENT_TYPES|
    ensures ParseRequest(PresignRequest(fileName, ALLOWED_CONTENT_TYPES[k])) == Accepted(PresignRequest(fileName, ALLOWED_CONTENT_TYPES[k]))
  {
  }

  /** The generic binary type is not in the enum. */
  lemma OctetStreamRejected(fileName: string)
    ensures ParseRequest(PresignRequest(fileName, "application/octet-stream")).Rejected?
  {
    assert "application/octet-stream" != PDF by { assert "application/octet-stream"[0] != PDF[1]; }
  }

  /** A content type with parameters is a different string and is refused,
      even when its bare type is allowed. */
  lemma ParameterisedTypeRejected(fileName: string)
    ensures ParseRequest(PresignRequest(fileName, "text/plain; charset=utf-8")).Rejected?
  {
    assert |"text/plain; charset=utf-8"| != |PLAIN_TEXT|;
  }

  /** `PresignedURLResponseSchema`: `uploadURL` must be a string that parses
      as a URL. The body's `uploadURL` is None when it is missing or not a
      string; URL parsing belongs to the runtime and is a parameter. */
  function ParseResponse(uploadURL: Option<string>, isUrl: string -> bool): (r: Option<string>)
    ensures r.Some? <==> uploadURL.Some? && isUrl(uploadURL.value)
    ensures r.Some? ==> r == uploadURL
  {
    if uploadURL.Some? && isUrl(uploadURL.value) then uploadURL else None
  }
}
