/** The instruction text sent to the text-generation model: a Pro user's own
    prompt with its placeholders substituted, or the fixed default prompt. */
module Prompt {
  import opened Wrappers
  import opened Text
  import opened Schema

  /** The variable name a custom prompt uses for each field. */
  function Name(f: Field): string {
    match f
    case ProspectName => "prospect_name"
    case JobTitle => "job_title"
    case Company => "company"
    case PainPoint => "pain_point"
    case Description => "description"
  }

  /** `{{name}}`, the literal text that is replaced by the field's value. */
  function Placeholder(f: Field): (p: string)
    ensures |p| > 4 && p[0] == '{' && p[1] == '{' && '{' !in p[2..]
  {
    NameBraceFree(f);
    assert ("{{" + Name(f) + "}}")[2..] == Name(f) + "}}";
    "{{" + Name(f) + "}}"
  }

  /** The five global replacements, applied one after the other in this order,
      each to the output of the previous one. */
  function Substitute(template: string, req: PitchRequest): string {
    var s1 := ReplaceAll(template, Placeholder(ProspectName), req.prospectName);
    var s2 := ReplaceAll(s1, Placeholder(JobTitle), req.jobTitle);
    var s3 := ReplaceAll(s2, Placeholder(Company), req.company);
    var s4 := ReplaceAll(s3, Placeholder(PainPoint), req.painPoint);
    ReplaceAll(s4, Placeholder(Description), req.description)
  }

  /** The custom prompt is honoured only for a Pro user who supplied one whose
      `trim()` is not empty. */
  predicate UsesCustomPrompt(isPro: bool, customPrompt: Option<string>) {
    isPro && customPrompt.Some? && customPrompt.value != "" && Trim(customPrompt.value) != ""
  }

  /** The fixed prompt, with the five field values interpolated into its
      recipient, offer and pain-point lines; the template is kept as its lines. */
  function DefaultPrompt(req: PitchRequest): string {
    Concat([DefaultPromptHead, RecipientLine(req), OfferLine(req), PainPointLine(req)] + DefaultPromptTail)
  }

  const DefaultPromptHead: string := "\n      Write a 120-250 word professional cold email with:\n"

  function RecipientLine(req: PitchRequest): string {
    "      - Recipient: " + req.prospectName + ", " + req.jobTitle + " at " + req.company + "\n"
  }

  function OfferLine(req: PitchRequest): string {
    "      - What you provide: " + req.description + "\n"
  }

  function PainPointLine(req: PitchRequest): string {
    "      - Pain Point/Problem: " + req.painPoint + "\n"
  }

  /** The lines of the default prompt after the three field lines. */
  const DefaultPromptTail: seq<string> := [
    "      - Tone: Direct but polite\n",
    "      - Structure:\n",
    "        1. Personalized opener (reference their role/company)\n",
    "        2. Clear value proposition based on what you provide and how it solves their pain point\n",
    "        3. Specific call-to-action question\n",
    "      Avoid:\n",
    "      - Generic phrases (\"I hope you're doing well\")\n",
    "      - Overly salesy language\n",
    "      - Long paragraphs\n",
    "    "]

  /** The prompt handed to the model. */
  function ComposePrompt(req: PitchRequest, isPro: bool): string {
    if UsesCustomPrompt(isPro, req.customPrompt) then Substitute(req.customPrompt.value, req)
    else DefaultPrompt(req)
  }

  /** The custom prompt is used exactly for a Pro user whose prompt holds a
      non-whitespace character; everyone else silently gets the default prompt. */
  lemma ComposePromptChoice(req: PitchRequest, isPro: bool)
    ensures isPro && req.customPrompt.Some? && !IsBlank(req.customPrompt.value) ==>
      ComposePrompt(req, isPro) == Substitute(req.customPrompt.value, req)
    ensures !isPro || req.customPrompt.None? || IsBlank(req.customPrompt.value) ==>
      ComposePrompt(req, isPro) == DefaultPrompt(req)
  {
    TrimEmptyIffBlank(req.customPrompt.GetOr(""));
  }

  // ---------------------------------------------------------------------------
  // What the substitution does.

  /** A text with none of the five placeholders comes out unchanged, whatever the values. */
  lemma SubstituteLeavesPlainText(s: string, req: PitchRequest)
    requires forall f :: !Occurs(s, Placeholder(f))
    ensures Substitute(s, req) == s
  {
    ReplaceAllAbsent(s, Placeholder(ProspectName), req.prospectName);
    ReplaceAllAbsent(s, Placeholder(JobTitle), req.jobTitle);
    ReplaceAllAbsent(s, Placeholder(Company), req.company);
    ReplaceAllAbsent(s, Placeholder(PainPoint), req.painPoint);
    ReplaceAllAbsent(s, Placeholder(Description), req.description);
  }

  /** A text without `{` contains no placeholder. */
  lemma {:induction false} BraceFreeHasNoPlaceholder(s: string, f: Field)
    requires '{' !in s
    ensures !Occurs(s, Placeholder(f))
    decreases |s|
  {
    if s != [] {
      assert s[0] != Placeholder(f)[0];
      assert s[1..] <= s[1..] && forall c :: c in s[1..] ==> c in s;
      BraceFreeHasNoPlaceholder(s[1..], f);
    }
  }

  /** Two different placeholders already differ in their third or fourth character. */
  lemma PlaceholdersDiffer(f: Field, g: Field)
    requires f != g
    ensures Placeholder(f)[2] != Placeholder(g)[2] || Placeholder(f)[3] != Placeholder(g)[3]
  {
  }

  lemma NameBraceFree(f: Field)
    ensures '{' !in Name(f)
  {
    match f
    case ProspectName =>
    case JobTitle =>
    case Company =>
    case PainPoint =>
    case Description =>
  }

  /** Scanning for one placeholder passes over another placeholder unchanged. */
  lemma PlaceholderPassedOver(g: Field, f: Field, b: string, v: string)
    requires g != f
    ensures ReplaceAll(Placeholder(g) + b, Placeholder(f), v) == Placeholder(g) + ReplaceAll(b, Placeholder(f), v)
  {
    var p, q := Placeholder(f), Placeholder(g);
    forall i | 0 <= i < |q| ensures !(p <= q[i..] + b) {
      if i == 0 {
        PlaceholdersDiffer(f, g);
        assert (q[i..] + b)[2] == q[2] && (q[i..] + b)[3] == q[3];
      } else if i == 1 {
        assert q[2] in q[2..];
        assert (q[i..] + b)[1] == q[2] != '{';
      } else {
        assert q[i] in q[2..];
        assert (q[i..] + b)[0] == q[i] != '{';
      }
    }
    ReplaceAllPassesOver(q, b, p, v);
  }

  /** A custom prompt read as literal text (free of `{`) and field slots. */
  datatype Piece = Literal(text: string) | Slot(field: Field)

  /** The template's text with the slots of `filled` replaced by their values and
      every other slot shown as its placeholder. */
  function Render(t: seq<Piece>, filled: set<Field>, req: PitchRequest): string
    decreases |t|
  {
    if t == [] then []
    else
      (match t[0]
       case Literal(x) => x
       case Slot(f) => if f in filled then Value(req, f) else Placeholder(f))
      + Render(t[1..], filled, req)
  }

  /** The custom prompt as the user wrote it. */
  function TemplateText(t: seq<Piece>): string
    decreases |t|
  {
    if t == [] then []
    else (match t[0] case Literal(x) => x case Slot(f) => Placeholder(f)) + TemplateText(t[1..])
  }

  /** The prompt the user meant: every slot holding its field's value. */
  function Instantiate(t: seq<Piece>, req: PitchRequest): string
    decreases |t|
  {
    if t == [] then []
    else (match t[0] case Literal(x) => x case Slot(f) => Value(req, f)) + Instantiate(t[1..], req)
  }

  predicate LiteralsBraceFree(t: seq<Piece>) {
    forall k :: 0 <= k < |t| && t[k].Literal? ==> '{' !in t[k].text
  }

  predicate ValuesBraceFree(req: PitchRequest) {
    forall f :: '{' !in Value(req, f)
  }

  /** One replacement turns exactly the slots of its field into the value. */
  lemma {:induction false} ReplaceFillsSlot(t: seq<Piece>, filled: set<Field>, f: Field, req: PitchRequest)
    requires f !in filled && LiteralsBraceFree(t) && ValuesBraceFree(req)
    ensures ReplaceAll(Render(t, filled, req), Placeholder(f), Value(req, f)) == Render(t, filled + {f}, req)
    decreases |t|
  {
    if t != [] {
      var p, v := Placeholder(f), Value(req, f);
      var rest := Render(t[1..], filled, req);
      assert LiteralsBraceFree(t[1..]) by {
        forall k | 0 <= k < |t[1..]| && t[1..][k].Literal? ensures '{' !in t[1..][k].text {
          assert t[1..][k] == t[k + 1];
        }
      }
      ReplaceFillsSlot(t[1..], filled, f, req);
      match t[0]
      case Literal(x) =>
        assert '{' !in x by { assert t[0].Literal?; }
        ReplaceAllSkipsPrefix(x, rest, p, v);
      case Slot(g) =>
        if g in filled {
          ReplaceAllSkipsPrefix(Value(req, g), rest, p, v);
        } else if g == f {
          ReplaceAllAtFront(rest, p, v);
        } else {
          PlaceholderPassedOver(g, f, rest, v);
        }
    }
  }

  lemma {:induction false} RenderEnds(t: seq<Piece>, req: PitchRequest)
    ensures Render(t, {}, req) == TemplateText(t)
    ensures Render(t, {ProspectName, JobTitle, Company, PainPoint, Description}, req) == Instantiate(t, req)
    decreases |t|
  {
    if t != [] {
      RenderEnds(t[1..], req);
      if t[0].Slot? {
        var f := t[0].field;
        assert f in {ProspectName, JobTitle, Company, PainPoint, Description} by {
          SchemaOrderHasEveryField(f);
        }
      }
    }
  }

  /** Substituting into a custom prompt gives the prompt the user meant, provided
      its literal text and the field values hold no `{` (so that no placeholder
      can be formed across a boundary). */
  lemma SubstituteFillsTemplate(t: seq<Piece>, req: PitchRequest)
    requires LiteralsBraceFree(t) && ValuesBraceFree(req)
    ensures Substitute(TemplateText(t), req) == Instantiate(t, req)
  {
    RenderEnds(t, req);
    ReplaceFillsSlot(t, {}, ProspectName, req);
    ReplaceFillsSlot(t, {ProspectName}, JobTitle, req);
    ReplaceFillsSlot(t, {ProspectName, JobTitle}, Company, req);
    ReplaceFillsSlot(t, {ProspectName, JobTitle, Company}, PainPoint, req);
    ReplaceFillsSlot(t, {ProspectName, JobTitle, Company, PainPoint}, Description, req);
    assert {ProspectName} == {} + {ProspectName};
    assert {ProspectName, JobTitle} == {ProspectName} + {JobTitle};
    assert {ProspectName, JobTitle, Company} == {ProspectName, JobTitle} + {Company};
    assert {ProspectName, JobTitle, Company, PainPoint} == {ProspectName, JobTitle, Company} + {PainPoint};
    assert {ProspectName, JobTitle, Company, PainPoint, Description}
        == {ProspectName, JobTitle, Company, PainPoint} + {Description};
  }

  /** Because the replacements run in order, a value holding a later placeholder
      has that placeholder replaced too. */
  lemma SubstitutionOrderMatters(req: PitchRequest)
    requires req.prospectName == Placeholder(Company) && '{' !in req.company
    ensures Substitute(Placeholder(ProspectName), req) == req.company
  {
    var s0, s1 := Placeholder(ProspectName), Placeholder(Company);
    assert s0 + [] == s0 && s1 + [] == s1 && req.company + [] == req.company;
    ReplaceAllAtFront([], s0, req.prospectName);
    PlaceholderPassedOver(Company, JobTitle, [], req.jobTitle);
    ReplaceAllAtFront([], s1, req.company);
    BraceFreeHasNoPlaceholder(req.company, PainPoint);
    ReplaceAllAbsent(req.company, Placeholder(PainPoint), req.painPoint);
    BraceFreeHasNoPlaceholder(req.company, Description);
    ReplaceAllAbsent(req.company, Placeholder(Description), req.description);
  }

  /** Whatever occurs in one of the three field lines occurs in the default prompt. */
  lemma DefaultPromptContainsLines(req: PitchRequest, x: string)
    requires Occurs(RecipientLine(req), x) || Occurs(OfferLine(req), x) || Occurs(PainPointLine(req), x)
    ensures Occurs(DefaultPrompt(req), x)
  {
    var lines := [DefaultPromptHead, RecipientLine(req), OfferLine(req), PainPointLine(req)] + DefaultPromptTail;
    if Occurs(RecipientLine(req), x) {
      OccursInConcat(lines, 1, x);
    } else if Occurs(OfferLine(req), x) {
      OccursInConcat(lines, 2, x);
    } else {
      OccursInConcat(lines, 3, x);
    }
  }

  /** The recipient line names the prospect, their title and their company. */
  lemma RecipientLineMentions(req: PitchRequest)
    ensures Occurs(RecipientLine(req), req.prospectName)
    ensures Occurs(RecipientLine(req), req.jobTitle)
    ensures Occurs(RecipientLine(req), req.company)
  {
    var lead := "      - Recipient: ";
    OccursItself(req.prospectName);
    OccursAfter(lead, req.prospectName, req.prospectName);
    OccursBefore(lead + req.prospectName, ", ", req.prospectName);
    OccursBefore(lead + req.prospectName + ", ", req.jobTitle, req.prospectName);
    OccursBefore(lead + req.prospectName + ", " + req.jobTitle, " at ", req.prospectName);
    OccursBefore(lead + req.prospectName + ", " + req.jobTitle + " at ", req.company, req.prospectName);
    OccursBefore(lead + req.prospectName + ", " + req.jobTitle + " at " + req.company, "\n", req.prospectName);
    OccursItself(req.jobTitle);
    OccursAfter(lead + req.prospectName + ", ", req.jobTitle, req.jobTitle);
    OccursBefore(lead + req.prospectName + ", " + req.jobTitle, " at ", req.jobTitle);
    OccursBefore(lead + req.prospectName + ", " + req.jobTitle + " at ", req.company, req.jobTitle);
    OccursBefore(lead + req.prospectName + ", " + req.jobTitle + " at " + req.company, "\n", req.jobTitle);
    OccursItself(req.company);
    OccursAfter(lead + req.prospectName + ", " + req.jobTitle + " at ", req.company, req.company);
    OccursBefore(lead + req.prospectName + ", " + req.jobTitle + " at " + req.company, "\n", req.company);
  }

  /** The offer line and the pain-point line carry their field's value. */
  lemma OfferAndPainPointLinesMention(req: PitchRequest)
    ensures Occurs(OfferLine(req), req.description)
    ensures Occurs(PainPointLine(req), req.painPoint)
  {
    OccursItself(req.description);
    OccursAfter("      - What you provide: ", req.description, req.description);
    OccursBefore("      - What you provide: " + req.description, "\n", req.description);
    OccursItself(req.painPoint);
    OccursAfter("      - Pain Point/Problem: ", req.painPoint, req.painPoint);
    OccursBefore("      - Pain Point/Problem: " + req.painPoint, "\n", req.painPoint);
  }

  /** The default prompt holds the recipient, offer and pain-point lines, and so
      every one of the five field values. */
  lemma DefaultPromptMentionsEveryField(req: PitchRequest)
    ensures Occurs(DefaultPrompt(req), RecipientLine(req))
    ensures Occurs(DefaultPrompt(req), OfferLine(req))
    ensures Occurs(DefaultPrompt(req), PainPointLine(req))
    ensures forall f :: Occurs(DefaultPrompt(req), Value(req, f))
  {
    OccursItself(RecipientLine(req));
    DefaultPromptContainsLines(req, RecipientLine(req));
    OccursItself(OfferLine(req));
    DefaultPromptContainsLines(req, OfferLine(req));
    OccursItself(PainPointLine(req));
    DefaultPromptContainsLines(req, PainPointLine(req));
    RecipientLineMentions(req);
    OfferAndPainPointLinesMention(req);
    forall f ensures Occurs(DefaultPrompt(req), Value(req, f)) {
      DefaultPromptContainsLines(req, Value(req, f));
    }
  }
}
