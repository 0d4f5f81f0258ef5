/** The pitch form on the dashboard (`HomePage`): the free-tier gate, the
    request it sends to `generatePitch`, and how its state changes when the
    call succeeds, fails or throws. */
module HomePage {
  import opened Wrappers
  import opened Schema
  import opened Prompt
  import opened Ledger
  import opened PitchActions

  /** A free user may generate this many pitches. */
  const FREE_PITCH_LIMIT: int := 5

  /** The form's inputs. */
  datatype FormData = FormData(
    prospectName: string,
    jobTitle: string,
    companyName: string,
    description: string,
    painPoint: string,
    customPrompt: string)

  const InitialForm: FormData := FormData("", "", "", "", "", "")

  /** The `name` attribute of each input. */
  datatype Input = ProspectNameInput | JobTitleInput | CompanyNameInput | DescriptionInput | PainPointInput | CustomPromptInput

  function Entry(form: FormData, name: Input): string {
    match name
    case ProspectNameInput => form.prospectName
    case JobTitleInput => form.jobTitle
    case CompanyNameInput => form.companyName
    case DescriptionInput => form.description
    case PainPointInput => form.painPoint
    case CustomPromptInput => form.customPrompt
  }

  /** `{ ...prev, [name]: value }`. */
  function WithEntry(form: FormData, name: Input, value: string): (r: FormData)
    ensures Entry(r, name) == value
    ensures forall other :: other != name ==> Entry(r, other) == Entry(form, other)
  {
    match name
    case ProspectNameInput => form.(prospectName := value)
    case JobTitleInput => form.(jobTitle := value)
    case CompanyNameInput => form.(companyName := value)
    case DescriptionInput => form.(description := value)
    case PainPointInput => form.(painPoint := value)
    case CustomPromptInput => form.(customPrompt := value)
  }

  /** The reply to `generatePitch` as the page reads it: besides the fields the
      action returns, the page looks for a `pitchCount` and an `isPro`. */
  datatype GenerateReply = GenerateReply(success: bool, message: Option<string>, pitch: Option<string>,
                                         pitchCount: Option<int>, isPro: Option<bool>)

  /** The reply to `fetchLatestPitch` as the page reads it. */
  datatype LatestReply = LatestReply(success: bool, message: Option<string>, pitch: Option<PitchView>,
                                     pitchCount: Option<int>, isPro: Option<bool>)

  /** What the page receives from `generatePitch`: the action never sets the
      two extra fields. */
  function FromGenerate(r: GenerateResult): (reply: GenerateReply)
    ensures reply.pitchCount.None? && reply.isPro.None?
    ensures reply.success == r.success && reply.message == r.message && reply.pitch == r.pitch
  {
    GenerateReply(r.success, r.message, r.pitch, None, None)
  }

  /** What the page receives from `fetchLatestPitch`: again without the two extra fields. */
  function FromLatest(r: LatestPitchResult): (reply: LatestReply)
    ensures reply.pitchCount.None? && reply.isPro.None?
    ensures reply.success == r.success && reply.message == r.message && reply.pitch == r.pitch
  {
    LatestReply(r.success, r.message, r.pitch, None, None)
  }

  /** An awaited server call either resolves with a reply or rejects. */
  datatype Outcome<T> = Answered(reply: T) | Threw

  /** `result.success && result.pitch`: a successful reply with a non-empty pitch. */
  predicate Delivered(answer: Outcome<GenerateReply>) {
    answer.Answered? && answer.reply.success && answer.reply.pitch.Some? && answer.reply.pitch.value != ""
  }

  /** A free user's request never carries a custom prompt, so whatever Pro status
      the server looks up, the default prompt is the one used. */
  lemma NoCustomPromptMeansDefault(req: PitchRequest, serverPro: bool)
    requires req.customPrompt.None?
    ensures ComposePrompt(req, serverPro) == DefaultPrompt(req)
  {
    ComposePromptChoice(req, serverPro);
  }

  /** The component's state. */
  class Page {
    var form: FormData
    var loading: bool
    var currentPitch: string
    var latestPitch: Option<PitchView>
    var isPro: bool
    var pitchCount: int
    var showCustomPrompt: bool

    /** The state of a freshly mounted page, before its load completes. */
    constructor ()
      ensures form == InitialForm && !loading && currentPitch == "" && latestPitch == None
      ensures !isPro && pitchCount == 0 && !showCustomPrompt
    {
      form := InitialForm;
      loading := false;
      currentPitch := "";
      latestPitch := None;
      isPro := false;
      pitchCount := 0;
      showCustomPrompt := false;
    }

    /** A free user who has used up the free pitches; a Pro user never is. */
    predicate Blocked()
      reads this
      ensures isPro ==> !Blocked()
      ensures !isPro ==> (Blocked() <==> pitchCount >= FREE_PITCH_LIMIT)
    {
      !isPro && pitchCount >= FREE_PITCH_LIMIT
    }

    /** The submit button is disabled while a request is in flight and while the
        free limit is reached. */
    predicate SubmitDisabled()
      reads this
      ensures loading ==> SubmitDisabled()
      ensures !loading ==> (SubmitDisabled() <==> Blocked())
    {
      loading || (!isPro && pitchCount >= FREE_PITCH_LIMIT)
    }

    /** The upgrade notice under the form. It is shown exactly when the gate is
        closed, and then the button is disabled too. */
    predicate ShowLimitWarning()
      reads this
      ensures ShowLimitWarning() <==> Blocked()
      ensures ShowLimitWarning() ==> SubmitDisabled()
    {
      !isPro && pitchCount >= FREE_PITCH_LIMIT
    }

    /** The request `handleSubmit` sends: the form's fields, the company input
        as `company`, and the custom prompt only when a Pro user has opened it. */
    function Request(): (r: PitchRequest)
      reads this
      ensures r.customPrompt.Some? <==> isPro && showCustomPrompt
      ensures r.customPrompt.Some? ==> r.customPrompt.value == form.customPrompt
      ensures r.stripeId.None?
      ensures Value(r, ProspectName) == form.prospectName && Value(r, JobTitle) == form.jobTitle
      ensures Value(r, Company) == form.companyName && Value(r, PainPoint) == form.painPoint
      ensures Value(r, Description) == form.description
    {
      PitchRequest(form.prospectName, form.jobTitle, form.companyName, form.painPoint, form.description,
                   if isPro && showCustomPrompt then Some(form.customPrompt) else None, None)
    }

    /** `handleCopy`'s text: the pitch on screen, else the latest stored pitch, else nothing. */
    function CopyText(): (t: string)
      reads this
      ensures currentPitch != "" ==> t == currentPitch
      ensures currentPitch == "" && latestPitch.Some? ==> t == latestPitch.value.generatedPitch
      ensures t == "" <==> currentPitch == "" && (latestPitch.None? || latestPitch.value.generatedPitch == "")
    {
      if currentPitch != "" then currentPitch
      else if latestPitch.Some? && latestPitch.value.generatedPitch != "" then latestPitch.value.generatedPitch
      else ""
    }

    /** The load on mount: a successful reply shows the latest pitch, if any, and
        sets the Pro flag and the count from the reply, reading absent fields as
        false and 0. A failed or rejected load changes nothing. */
    method Mount(answer: Outcome<LatestReply>)
      modifies this
      ensures form == old(form) && loading == old(loading) && showCustomPrompt == old(showCustomPrompt)
      ensures answer.Answered? && answer.reply.success ==>
        && latestPitch == (if answer.reply.pitch.Some? then answer.reply.pitch else old(latestPitch))
        && currentPitch == (if answer.reply.pitch.Some? then answer.reply.pitch.value.generatedPitch else old(currentPitch))
        && isPro == (answer.reply.isPro == Some(true))
        && pitchCount == answer.reply.pitchCount.GetOr(0)
      ensures !(answer.Answered? && answer.reply.success) ==>
        && latestPitch == old(latestPitch) && currentPitch == old(currentPitch)
        && isPro == old(isPro) && pitchCount == old(pitchCount)
    {
      if answer.Answered? && answer.reply.success {
        var reply := answer.reply;
        if reply.pitch.Some? {
          latestPitch := reply.pitch;
          currentPitch := reply.pitch.value.generatedPitch;
        }
        isPro := reply.isPro == Some(true);
        pitchCount := reply.pitchCount.GetOr(0);
      }
    }

    /** `handleChange`: one input takes a new value. */
    method Change(name: Input, value: string)
      modifies this
      ensures form == WithEntry(old(form), name, value)
      ensures loading == old(loading) && currentPitch == old(currentPitch) && latestPitch == old(latestPitch)
      ensures isPro == old(isPro) && pitchCount == old(pitchCount) && showCustomPrompt == old(showCustomPrompt)
    {
      form := WithEntry(form, name, value);
    }

    /** The show/hide button of the custom prompt, which only Pro users see. */
    method ToggleCustomPrompt()
      requires isPro
      modifies this
      ensures showCustomPrompt == !old(showCustomPrompt)
      ensures form == old(form) && loading == old(loading) && currentPitch == old(currentPitch)
      ensures latestPitch == old(latestPitch) && isPro == old(isPro) && pitchCount == old(pitchCount)
    {
      showCustomPrompt := !showCustomPrompt;
    }

    /** `handleSubmit`. When the gate is closed nothing is sent and nothing
        changes. Otherwise the request is sent with the pitch cleared; `answer`
        is how `generatePitch` ended and `latestAfter` how the refetch of the
        latest pitch that follows a delivered pitch ended. A delivered pitch is
        shown and resets the form; anything else leaves the form as typed and
        the pitch area empty. */
    method Submit(answer: Outcome<GenerateReply>, latestAfter: Outcome<LatestReply>) returns (sent: Option<PitchRequest>)
      modifies this
      ensures sent.Some? <==> !old(Blocked())
      ensures sent.Some? ==> sent.value == old(Request()) && !loading
      ensures showCustomPrompt == old(showCustomPrompt)
      ensures sent.None? ==>
        && form == old(form) && loading == old(loading) && currentPitch == old(currentPitch)
        && latestPitch == old(latestPitch) && isPro == old(isPro) && pitchCount == old(pitchCount)
      ensures sent.Some? && Delivered(answer) ==>
        && currentPitch == answer.reply.pitch.value
        && form == InitialForm
        && pitchCount == answer.reply.pitchCount.GetOr(old(pitchCount))
        && isPro == answer.reply.isPro.GetOr(old(isPro))
        && latestPitch == (if latestAfter.Answered? && latestAfter.reply.success && latestAfter.reply.pitch.Some?
                           then latestAfter.reply.pitch else old(latestPitch))
      ensures sent.Some? && !Delivered(answer) ==>
        && currentPitch == "" && form == old(form)
        && latestPitch == old(latestPitch) && isPro == old(isPro) && pitchCount == old(pitchCount)
    {
      if !isPro && pitchCount >= FREE_PITCH_LIMIT {
        return None;
      }
      loading := true;
      currentPitch := "";
      sent := Some(Request());
      if Delivered(answer) {
        var reply := answer.reply;
        currentPitch := reply.pitch.value;
        if reply.pitchCount.Some? {
          pitchCount := reply.pitchCount.value;
        }
        if reply.isPro.Some? {
          isPro := reply.isPro.value;
        }
        form := InitialForm;
        if latestAfter.Answered? && latestAfter.reply.success && latestAfter.reply.pitch.Some? {
          latestPitch := latestAfter.reply.pitch;
        }
      }
      loading := false;
    }
  }

  /** What the page does between mount and leaving: type into an input, or
      submit the form, with how `generatePitch` and the refetch after it ended. */
  datatype Event =
    | Typed(name: Input, value: string)
    | Submitted(answer: Outcome<GenerateResult>, latestAfter: Outcome<LatestPitchResult>)

  /** How many of the events are submissions. */
  function Submissions(events: seq<Event>): nat {
    if events == [] then 0
    else Submissions(events[..|events| - 1]) + (if events[|events| - 1].Submitted? then 1 else 0)
  }

  /** A server reply as the page receives it. */
  function ReceivedGenerate(o: Outcome<GenerateResult>): Outcome<GenerateReply> {
    match o
    case Answered(r) => Answered(FromGenerate(r))
    case Threw => Threw
  }

  function ReceivedLatest(o: Outcome<LatestPitchResult>): Outcome<LatestReply> {
    match o
    case Answered(r) => Answered(FromLatest(r))
    case Threw => Threw
  }

  /** A whole visit as the server actually answers it: the page mounts and
      loads the latest pitch, then the user types and submits any number of
      times, each call resolving or rejecting. Since neither action returns a
      `pitchCount` or an `isPro`, the page keeps the free-tier flags it
      started with: every submission is sent, none carries a custom prompt,
      and the gate is open at the end, whatever the user has stored. */
  method ServerRepliesLeaveGateOpen(loaded: Outcome<LatestPitchResult>, events: seq<Event>)
    returns (page: Page, sent: seq<PitchRequest>)
    ensures |sent| == Submissions(events)
    ensures forall k :: 0 <= k < |sent| ==> sent[k].customPrompt.None? && sent[k].stripeId.None?
    ensures !page.isPro && page.pitchCount == 0 && !page.showCustomPrompt && !page.Blocked()
  {
    page := new Page();
    page.Mount(ReceivedLatest(loaded));
    sent := [];
    var i := 0;
    while i < |events|
      invariant 0 <= i <= |events|
      invariant fresh(page)
      invariant !page.isPro && page.pitchCount == 0 && !page.showCustomPrompt
      invariant |sent| == Submissions(events[..i])
      invariant forall k :: 0 <= k < |sent| ==> sent[k].customPrompt.None? && sent[k].stripeId.None?
    {
      assert events[..i + 1][..i] == events[..i];
      if events[i].Typed? {
        page.Change(events[i].name, events[i].value);
      } else {
        var request := page.Submit(ReceivedGenerate(events[i].answer), ReceivedLatest(events[i].latestAfter));
        sent := sent + [request.value];
      }
      i := i + 1;
    }
    assert events[..|events|] == events;
  }
}
