/** The request `generatePitch` accepts and the field validation its schema
    applies before anything else happens. */
module Schema {
  import opened Wrappers
  import opened Text

  /** `PitchFormData`: five required texts and two optional ones. */
  datatype PitchRequest = PitchRequest(
    prospectName: string,
    jobTitle: string,
    company: string,
    painPoint: string,
    description: string,
    customPrompt: Option<string>,
    stripeId: Option<string>)

  /** The length-bounded fields, in the order the schema declares them. */
  datatype Field = ProspectName | JobTitle | Company | PainPoint | Description

  function Value(req: PitchRequest, f: Field): string {
    match f
    case ProspectName => req.prospectName
    case JobTitle => req.jobTitle
    case Company => req.company
    case PainPoint => req.painPoint
    case Description => req.description
  }

  function MaxLength(f: Field): nat {
    if f == PainPoint || f == Description then 500 else 100
  }

  /** The message given to each field's `min(1)` check. */
  function RequiredMessage(f: Field): string {
    match f
    case ProspectName => "Prospect name is required."
    case JobTitle => "Job title is required."
    case Company => "Company name is required."
    case PainPoint => "Pain point is required."
    case Description => "Description of what you provide is required."
  }

  /** The validation library's own message for a failed `max` check (no message
      is given in the schema). */
  function TooLongMessage(f: Field): string {
    if MaxLength(f) == 500 then "String must contain at most 500 character(s)"
    else "String must contain at most 100 character(s)"
  }

  datatype Check = TooShort | TooLong

  /** One reported validation problem. */
  datatype Issue = Issue(field: Field, check: Check, message: string)

  /** The raw length (no trimming) lies in 1..MaxLength(f). */
  predicate InBounds(req: PitchRequest, f: Field) {
    1 <= |Value(req, f)| <= MaxLength(f)
  }

  predicate AllInBounds(req: PitchRequest) {
    forall f :: InBounds(req, f)
  }

  /** The problem a single field reports: `min` is checked first, and an empty
      text cannot also be too long, so each field reports at most one issue. */
  function FieldIssues(req: PitchRequest, f: Field): (r: seq<Issue>)
    ensures |r| <= 1
    ensures r == [] <==> InBounds(req, f)
    ensures forall k :: 0 <= k < |r| ==> r[k].field == f
    ensures forall k :: 0 <= k < |r| ==>
      r[k].message == if |Value(req, f)| == 0 then RequiredMessage(f) else TooLongMessage(f)
  {
    var v := Value(req, f);
    if |v| < 1 then [Issue(f, TooShort, RequiredMessage(f))]
    else if |v| > MaxLength(f) then [Issue(f, TooLong, TooLongMessage(f))]
    else []
  }

  /** The bounded fields in the order the schema declares them, which is the
      order in which their issues are reported. */
  const SchemaOrder: seq<Field> := [ProspectName, JobTitle, Company, PainPoint, Description]

  lemma SchemaOrderHasEveryField(f: Field)
    ensures f in SchemaOrder
  {
    match f
    case ProspectName => assert SchemaOrder[0] == f;
    case JobTitle => assert SchemaOrder[1] == f;
    case Company => assert SchemaOrder[2] == f;
    case PainPoint => assert SchemaOrder[3] == f;
    case Description => assert SchemaOrder[4] == f;
  }

  /** The issues of the fields `fs`, collected together, field after field. */
  function IssuesOf(req: PitchRequest, fs: seq<Field>): seq<Issue>
    decreases |fs|
  {
    if fs == [] then [] else FieldIssues(req, fs[0]) + IssuesOf(req, fs[1..])
  }

  /** Every issue of the request, all reported together. */
  function Issues(req: PitchRequest): seq<Issue> {
    IssuesOf(req, SchemaOrder)
  }

  /** Some issue in `issues` is about field `f`. */
  predicate Reports(issues: seq<Issue>, f: Field) {
    exists k :: 0 <= k < |issues| && issues[k].field == f
  }

  lemma ReportsAppend(a: seq<Issue>, b: seq<Issue>, f: Field)
    ensures Reports(a + b, f) <==> Reports(a, f) || Reports(b, f)
  {
    if Reports(a + b, f) {
      var k :| 0 <= k < |a + b| && (a + b)[k].field == f;
      if k >= |a| { assert b[k - |a|].field == f; }
    }
    if Reports(b, f) {
      var k :| 0 <= k < |b| && b[k].field == f;
      assert (a + b)[|a| + k].field == f;
    }
    if Reports(a, f) {
      var k :| 0 <= k < |a| && a[k].field == f;
      assert (a + b)[k].field == f;
    }
  }

  /** A field has an issue exactly when it is one of `fs` and out of bounds,
      and every issue belongs to one of `fs`. */
  lemma {:induction false} IssuesOfFields(req: PitchRequest, fs: seq<Field>, f: Field)
    ensures Reports(IssuesOf(req, fs), f) <==> f in fs && !InBounds(req, f)
    ensures forall k :: 0 <= k < |IssuesOf(req, fs)| ==> IssuesOf(req, fs)[k].field in fs
    decreases |fs|
  {
    if fs != [] {
      IssuesOfFields(req, fs[1..], f);
      var head, rest := FieldIssues(req, fs[0]), IssuesOf(req, fs[1..]);
      assert IssuesOf(req, fs) == head + rest;
      ReportsAppend(head, rest, f);
      assert Reports(head, f) <==> f == fs[0] && !InBounds(req, f) by {
        if f == fs[0] && !InBounds(req, f) { assert head[0].field == f; }
      }
      assert f in fs <==> f == fs[0] || f in fs[1..];
      forall k | 0 <= k < |IssuesOf(req, fs)| ensures IssuesOf(req, fs)[k].field in fs {
        if k >= |head| {
          assert rest[k - |head|].field in fs[1..];
        }
      }
    }
  }

  /** Fields listed once report their issues once. */
  lemma {:induction false} IssuesOfDistinct(req: PitchRequest, fs: seq<Field>)
    requires forall i, j :: 0 <= i < j < |fs| ==> fs[i] != fs[j]
    ensures forall k, l :: 0 <= k < l < |IssuesOf(req, fs)| ==> IssuesOf(req, fs)[k].field != IssuesOf(req, fs)[l].field
    decreases |fs|
  {
    if fs != [] {
      IssuesOfDistinct(req, fs[1..]);
      IssuesOfFields(req, fs[1..], fs[0]);
      var head, rest := FieldIssues(req, fs[0]), IssuesOf(req, fs[1..]);
      assert fs[0] !in fs[1..];
      assert IssuesOf(req, fs) == head + rest;
    }
  }

  /** `formSchema.parse`: the request itself when every field is in bounds,
      otherwise the list of issues. */
  function Validate(req: PitchRequest): (r: Result<PitchRequest, seq<Issue>>)
    ensures r.Ok? <==> AllInBounds(req)
    ensures r.Ok? ==> r.value == req
    ensures r.Err? ==> r.error == Issues(req) && r.error != []
  {
    var issues := Issues(req);
    assert issues == [] <==> AllInBounds(req) by {
      forall f ensures issues == [] ==> InBounds(req, f) {
        SchemaOrderHasEveryField(f);
        IssuesOfFields(req, SchemaOrder, f);
      }
      if !AllInBounds(req) {
        var f :| !InBounds(req, f);
        SchemaOrderHasEveryField(f);
        IssuesOfFields(req, SchemaOrder, f);
      }
    }
    if issues == [] then Ok(req) else Err(issues)
  }

  /** The schema lists each field once. */
  lemma SchemaOrderDistinct()
    ensures forall i, j :: 0 <= i < j < |SchemaOrder| ==> SchemaOrder[i] != SchemaOrder[j]
  {
  }

  /** The issues name exactly the fields that are out of bounds. */
  lemma IssuesNameEveryViolation(req: PitchRequest, f: Field)
    ensures !InBounds(req, f) <==> Reports(Issues(req), f)
  {
    SchemaOrderHasEveryField(f);
    IssuesOfFields(req, SchemaOrder, f);
  }

  /** No field is reported twice. */
  lemma IssuesNameEachFieldOnce(req: PitchRequest)
    ensures forall k, l :: 0 <= k < l < |Issues(req)| ==> Issues(req)[k].field != Issues(req)[l].field
  {
    SchemaOrderDistinct();
    IssuesOfDistinct(req, SchemaOrder);
  }

  /** The text reported when validation fails: every message, joined by ", ". */
  function IssueMessage(issues: seq<Issue>): string {
    Join(seq(|issues|, k requires 0 <= k < |issues| => issues[k].message), ", ")
  }

  /** The reported text is a single issue's message when there is one issue,
      and holds the message of every issue when there are several. */
  lemma IssueMessageListsEveryIssue(issues: seq<Issue>)
    ensures |issues| == 1 ==> IssueMessage(issues) == issues[0].message
    ensures forall k :: 0 <= k < |issues| ==> Occurs(IssueMessage(issues), issues[k].message)
  {
    var messages := seq(|issues|, k requires 0 <= k < |issues| => issues[k].message);
    forall k | 0 <= k < |issues| ensures Occurs(IssueMessage(issues), issues[k].message) {
      OccursItself(issues[k].message);
      OccursInJoin(messages, ", ", k, issues[k].message);
    }
  }
}
