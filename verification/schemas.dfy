/** The request schemas: a search query of 1 to 100 characters and an artist
    id of exactly 22 characters. Lengths are counted in `char`s. */
module Schemas {

  /** A request parameter as the query-string parser delivers it: absent, a
      string, or something else (an array for a repeated key, an object for
      bracket syntax). */
  datatype Param = Missing | Text(s: string) | NotText

  /** The kinds of issue the string checks report. */
  datatype IssueCode = Required | InvalidType | TooSmall(minimum: nat) | TooBig(maximum: nat)

  /** The issues `z.string().min(min).max(max)` reports for a value, in check
      order: a type issue alone, or one issue per failed length bound. */
  function StringIssues(p: Param, min: nat, max: nat): seq<IssueCode>
  {
    match p
    case Missing => [Required]
    case NotText => [InvalidType]
    case Text(s) =>
      (if |s| < min then [TooSmall(min)] else []) + (if |s| > max then [TooBig(max)] else [])
  }

  /** `artistSearchSchema`: `query.q` is a string of 1 to 100 characters. */
  function SearchQueryIssues(q: Param): (r: seq<IssueCode>)
    ensures r == [] <==> q.Text? && 1 <= |q.s| <= 100
    ensures q.Text? && q.s == "" ==> r == [TooSmall(1)]
    ensures q.Text? && |q.s| > 100 ==> r == [TooBig(100)]
    ensures q.Missing? ==> r == [Required]
    ensures q.NotText? ==> r == [InvalidType]
  {
    StringIssues(q, 1, 100)
  }

  /** `artistIdSchema`: `params.id` is a string of exactly 22 characters
      (`.length(22)` reports too-small or too-big against the same bound). */
  function ArtistIdIssues(id: Param): (r: seq<IssueCode>)
    ensures r == [] <==> id.Text? && |id.s| == 22
    ensures id.Text? && |id.s| < 22 ==> r == [TooSmall(22)]
    ensures id.Text? && |id.s| > 22 ==> r == [TooBig(22)]
  {
    StringIssues(id, 22, 22)
  }
}
