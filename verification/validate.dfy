/** The validation middleware: runs a schema over the request and calls
    `next` once, with nothing or with a BadRequestError. */
module Validate {
  import opened Wrappers
  import opened Errors
  import opened Schemas

  /** One issue of a ZodError: its code and the library's message for it. */
  datatype Issue = Issue(code: IssueCode, message: string)

  /** How `schema.parseAsync(...)` ends: it resolves, it rejects with a
      ZodError (which always lists at least one issue), or it rejects with
      something else. */
  datatype ParseOutcome = Parsed | ZodFailure(first: Issue, rest: seq<Issue>) | OtherFailure(thrown: Thrown)

  const InvalidDataMessage := "Invalid request data"

  /** `validate(schema)(req, res, next)`: the argument of its single `next`
      call; None stands for `next()`. */
  function ValidateRequest(outcome: ParseOutcome): (r: Option<AppError>)
    ensures r.None? <==> outcome.Parsed?
    ensures r.Some? ==> r.value.IsBadRequestError() && r.value.statusCode == Some(400)
    ensures outcome.ZodFailure? ==> r == Some(BadRequestError(Some(outcome.first.message)))
    ensures outcome.OtherFailure? ==> r == Some(BadRequestError(Some(InvalidDataMessage)))
  {
    match outcome
    case Parsed => None
    case ZodFailure(first, _) => Some(BadRequestError(Some(first.message)))
    case OtherFailure(_) => Some(BadRequestError(Some(InvalidDataMessage)))
  }

  /** What `parseAsync` yields for a list of issues found by a schema;
      `messageOf` is the library's wording for each issue. */
  function OutcomeOf(issues: seq<IssueCode>, messageOf: IssueCode -> string): ParseOutcome
  {
    if issues == [] then Parsed
    else ZodFailure(Issue(issues[0], messageOf(issues[0])),
                    seq(|issues| - 1, i requires 0 <= i < |issues| - 1 => Issue(issues[i + 1], messageOf(issues[i + 1]))))
  }

  /** Validating a search request with `artistSearchSchema` lets it through
      exactly when `q` is a string of 1 to 100 characters; otherwise `next`
      gets a 400 error carrying the message of the first issue. */
  lemma ValidateSearchQuery(q: Param, messageOf: IssueCode -> string)
    ensures var r := ValidateRequest(OutcomeOf(SearchQueryIssues(q), messageOf));
            && (r.None? <==> q.Text? && 1 <= |q.s| <= 100)
            && (r.Some? ==> r.value == BadRequestError(Some(messageOf(SearchQueryIssues(q)[0]))))
  {
  }

  /** Validating an artist id lets it through exactly when it has 22
      characters. */
  lemma ValidateArtistId(id: Param, messageOf: IssueCode -> string)
    ensures var r := ValidateRequest(OutcomeOf(ArtistIdIssues(id), messageOf));
            && (r.None? <==> id.Text? && |id.s| == 22)
            && (r.Some? ==> r.value.statusCode == Some(400))
  {
  }
}
