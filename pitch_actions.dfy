/** The server actions of the pitch generator: `generatePitch` (authenticate,
    validate, look up Pro status, compose the prompt, read the model's stream,
    assemble the email, store one row), the `users` lookup it relies on, and the
    two history reads. */
module PitchActions {
  import opened Wrappers
  import opened Text
  import opened Schema
  import opened Prompt
  import opened Ledger

  /** What a failing call throws: an `Error` object or some other value. */
  datatype Thrown = ErrorObject | OtherValue

  /** What `auth()` gives: a session with a user id, no session, or a thrown fault. */
  datatype Session = SignedIn(userId: string) | SignedOut | AuthFailed(fault: Thrown)

  /** `session?.userId` is truthy: there is a session and its id is not empty. */
  predicate HasUser(session: Session) {
    session.SignedIn? && session.userId != ""
  }

  /** The model's streamed answer: every chunk, or the chunks received before the
      stream (or the call that opens it) threw. */
  datatype Completion = Streamed(chunks: seq<string>) | Broken(received: seq<string>, fault: Thrown)

  /** `{ success, message?, pitch? }` as returned by `generatePitch`. */
  datatype GenerateResult = GenerateResult(success: bool, message: Option<string>, pitch: Option<string>)

  function Refusal(message: string): GenerateResult {
    GenerateResult(false, Some(message), None)
  }

  /** The message reported for a failure that is not a validation error. */
  function FaultMessage(fault: Thrown): string {
    match fault
    case ErrorObject => "An error occurred. Please try later."
    case OtherValue => "An unknown error occurred"
  }

  // ---------------------------------------------------------------------------
  // Assembly of the email.

  function SubjectLine(company: string): string {
    "Subject: Quick question about " + company + "\n\n"
  }

  /** The complete pitch: the subject line, then the model's text. */
  function Artifact(company: string, body: string): string {
    SubjectLine(company) + body
  }

  /** The model's text read back from a complete pitch, if it has the subject
      line for `company`. */
  function Body(pitch: string, company: string): Option<string> {
    var subject := SubjectLine(company);
    if subject <= pitch then Some(pitch[|subject|..]) else None
  }

  /** Reading the body back from an assembled pitch gives the model's text. */
  lemma BodyOfArtifact(company: string, body: string)
    ensures Body(Artifact(company, body), company) == Some(body)
    ensures |Artifact(company, body)| == |SubjectLine(company)| + |body|
  {
    var subject := SubjectLine(company);
    assert subject <= subject + body;
    assert (subject + body)[|subject|..] == body;
  }

  /** `for await (const chunk of result.stream) fullPitch += chunk.text()`. */
  method ReadStream(chunks: seq<string>) returns (full: string)
    ensures full == Concat(chunks)
    ensures |full| == TotalLength(chunks)
  {
    full := "";
    for i := 0 to |chunks|
      invariant full == Concat(chunks[..i])
    {
      assert chunks[..i + 1] == chunks[..i] + [chunks[i]];
      ConcatSnoc(chunks[..i], chunks[i]);
      full := full + chunks[i];
    }
    assert chunks[..|chunks|] == chunks;
    ConcatLength(chunks);
  }

  // ---------------------------------------------------------------------------
  // The stored row.

  /** The row `generatePitch` inserts (its id is assigned by the table). The
      billing reference is kept only for a Pro user, and then only when it is a
      non-empty text. */
  function NewRow(owner: string, req: PitchRequest, pitch: string, isPro: bool): PitchRow {
    PitchRow(0, owner, req.prospectName, req.jobTitle, req.company, req.painPoint,
             req.description, pitch, isPro, if isPro then NullIfEmpty(req.stripeId) else None)
  }

  /** The row is the owner's, records the request and the pitch, and carries the
      Pro flag the lookup gave; a non-Pro row never has a billing reference and
      no row has an empty one. */
  lemma NewRowEntitlement(owner: string, req: PitchRequest, pitch: string, isPro: bool)
    ensures var row := NewRow(owner, req, pitch, isPro);
      && row.isPro == isPro
      && (!isPro ==> row.stripeId == None)
      && (isPro ==> (row.stripeId.Some? <==> req.stripeId.Some? && req.stripeId.value != ""))
      && (row.stripeId.Some? ==> row.stripeId == req.stripeId)
      && row.stripeId != Some("")
      && row.userId == owner && row.generatedPitch == pitch
      && row.prospectName == Value(req, ProspectName) && row.prospectTitle == Value(req, JobTitle)
      && row.prospectCompany == Value(req, Company) && row.painPoint == Value(req, PainPoint)
      && row.yourOffer == Value(req, Description)
  {
  }

  // ---------------------------------------------------------------------------
  // Pro status from the `users` table.

  /** A row of `users`; its `is_pro` column may be NULL. */
  datatype UserRecord = UserRecord(id: string, isPro: Option<bool>)

  /** The result of a query: its rows, or the fault it raised. */
  datatype Query<T> = Rows(rows: seq<T>) | Faulted

  /** The position of the first row of `users` with this id. */
  function FirstWithId(users: seq<UserRecord>, userId: string): (r: Option<nat>)
    ensures r.Some? ==> (r.value < |users| && users[r.value].id == userId
      && forall j :: 0 <= j < r.value ==> users[j].id != userId)
    ensures r.None? ==> forall j :: 0 <= j < |users| ==> users[j].id != userId
    decreases |users|
  {
    if users == [] then None
    else if users[0].id == userId then Some(0)
    else match FirstWithId(users[1..], userId)
         case None => None
         case Some(k) => Some(k + 1)
  }

  /** `checkIfUserIsPro`: true only when the query succeeds and the user's row
      exists with `is_pro` exactly `true`; a missing row, a NULL or false
      column and a failed query all mean the free tier. */
  function CheckIfUserIsPro(users: Query<UserRecord>, userId: string): bool {
    match users
    case Faulted => false
    case Rows(rows) =>
      match FirstWithId(rows, userId)
      case None => false
      case Some(i) => rows[i].isPro == Some(true)
  }

  /** The lookup answers true exactly when the query succeeded and the first row
      with the user's id has `is_pro` equal to `true`. */
  lemma CheckIfUserIsProMeaning(users: Query<UserRecord>, userId: string)
    ensures CheckIfUserIsPro(users, userId) <==>
      (users.Rows? &&
       exists i :: (0 <= i < |users.rows| && users.rows[i].id == userId && users.rows[i].isPro == Some(true) &&
                    (forall j :: 0 <= j < i ==> users.rows[j].id != userId)))
  {
  }

  // ---------------------------------------------------------------------------
  // generatePitch.

  /** `generatePitch`. `session` is what `auth()` gave, `users` what the Pro
      lookup reads, `model` the text-generation model (prompt to stream) and
      `insertFault` what the insert throws, if anything. No usage quota is
      checked here. */
  method GeneratePitch(table: PitchTable, session: Session, req: PitchRequest, users: Query<UserRecord>,
                       model: string -> Completion, insertFault: Option<Thrown>)
    returns (r: GenerateResult)
    requires table.Valid()
    modifies table
    ensures table.Valid()
    ensures session.AuthFailed? ==> r == Refusal(FaultMessage(session.fault))
    ensures !session.AuthFailed? && !HasUser(session) ==> r == Refusal("Authentication required")
    ensures HasUser(session) && !AllInBounds(req) ==> r == Refusal(IssueMessage(Issues(req)))
    ensures HasUser(session) && AllInBounds(req) ==>
      var isPro := CheckIfUserIsPro(users, session.userId);
      match model(ComposePrompt(req, isPro))
      case Broken(_, fault) => r == Refusal(FaultMessage(fault))
      case Streamed(chunks) =>
        var pitch := Artifact(req.company, Concat(chunks));
        (if insertFault.Some? then r == Refusal(FaultMessage(insertFault.value))
         else (r == GenerateResult(true, None, Some(pitch))
           && table.rows == old(table.rows) + [NewRow(session.userId, req, pitch, isPro).(id := old(table.nextId))]))
    ensures !r.success ==> table.rows == old(table.rows) && table.nextId == old(table.nextId)
    ensures r.success ==> table.nextId == old(table.nextId) + 1
  {
    if session.AuthFailed? {
      return Refusal(FaultMessage(session.fault));
    }
    if !HasUser(session) {
      return Refusal("Authentication required");
    }
    var owner := session.userId;
    var checked := Validate(req);
    if checked.Err? {
      return Refusal(IssueMessage(checked.error));
    }
    var isPro := CheckIfUserIsPro(users, owner);
    var prompt := ComposePrompt(req, isPro);
    var reply := model(prompt);
    match reply {
      case Broken(received, fault) =>
        // The chunks read before the fault are dropped with it.
        var partial := ReadStream(received);
        return Refusal(FaultMessage(fault));
      case Streamed(chunks) =>
        var body := ReadStream(chunks);
        var pitch := Artifact(req.company, body);
        if insertFault.Some? {
          return Refusal(FaultMessage(insertFault.value));
        }
        var stored := table.Insert(NewRow(owner, req, pitch, isPro));
        return GenerateResult(true, None, Some(pitch));
    }
  }

  // ---------------------------------------------------------------------------
  // History reads.

  /** `{ success, message?, pitches? }` as returned by `fetchPitches`. */
  datatype PitchesResult = PitchesResult(success: bool, message: Option<string>, pitches: Option<seq<PitchView>>)

  /** `{ success, message?, pitch? }` as returned by `fetchLatestPitch`. */
  datatype LatestPitchResult = LatestPitchResult(success: bool, message: Option<string>, pitch: Option<PitchView>)

  function Views(rows: seq<PitchRow>): (r: seq<PitchView>)
    ensures |r| == |rows| && forall k :: 0 <= k < |r| ==> r[k] == View(rows[k])
  {
    seq(|rows|, k requires 0 <= k < |rows| => View(rows[k]))
  }

  /** `fetchPitches`: the signed-in user's pitches, newest first. `fault` says
      the query threw; a failing `auth()` is reported the same way. */
  function FetchPitches(rows: seq<PitchRow>, session: Session, fault: bool): (r: PitchesResult)
    ensures !session.AuthFailed? && !HasUser(session) ==> r == PitchesResult(false, Some("Authentication required"), None)
    ensures session.AuthFailed? || (HasUser(session) && fault) ==>
      r == PitchesResult(false, Some("Failed to fetch pitches"), None)
    ensures HasUser(session) && !fault ==>
      r == PitchesResult(true, None, Some(Views(NewestFirst(rows, session.userId))))
    ensures r.success ==> r.pitches.Some? && |r.pitches.value| == Count(rows, session.userId)
  {
    if session.AuthFailed? then PitchesResult(false, Some("Failed to fetch pitches"), None)
    else if !HasUser(session) then PitchesResult(false, Some("Authentication required"), None)
    else if fault then PitchesResult(false, Some("Failed to fetch pitches"), None)
    else
      NewestFirstShape(rows, session.userId);
      PitchesResult(true, None, Some(Views(NewestFirst(rows, session.userId))))
  }

  /** The history holds the view of every row of the owner exactly once, from
      the most recently stored to the first: its entries come from strictly
      decreasing positions, and those positions are exactly the owner's. */
  lemma {:induction false} FetchPitchesListsOwnedRowsNewestFirst(rows: seq<PitchRow>, owner: string)
    requires owner != ""
    ensures var history := FetchPitches(rows, SignedIn(owner), false).pitches.value;
      var pos := OwnedPositions(rows, owner);
      && |history| == |pos|
      && (forall k :: 0 <= k < |pos| ==> pos[k] < |rows| && history[k] == View(rows[pos[k]]))
      && (forall k, l :: 0 <= k < l < |pos| ==> pos[k] > pos[l])
      && (forall i :: i in OwnedAt(rows, owner) <==> i in pos)
  {
    NewestFirstPositions(rows, owner);
  }

  /** `fetchLatestPitch`: the signed-in user's most recent pitch, if any. */
  function FetchLatestPitch(rows: seq<PitchRow>, session: Session, fault: bool): (r: LatestPitchResult)
    ensures !session.AuthFailed? && !HasUser(session) ==> r == LatestPitchResult(false, Some("Authentication required"), None)
    ensures session.AuthFailed? || (HasUser(session) && fault) ==>
      r == LatestPitchResult(false, Some("Failed to fetch latest pitch"), None)
    ensures HasUser(session) && !fault ==> r.success && r.message == None
    ensures r.success ==> (r.pitch.None? <==> Count(rows, session.userId) == 0)
    ensures r.success && r.pitch.Some? ==>
      exists i :: (0 <= i < |rows| && rows[i].userId == session.userId && r.pitch.value == View(rows[i]) &&
                   (forall j :: i < j < |rows| ==> rows[j].userId != session.userId))
  {
    if session.AuthFailed? then LatestPitchResult(false, Some("Failed to fetch latest pitch"), None)
    else if !HasUser(session) then LatestPitchResult(false, Some("Authentication required"), None)
    else if fault then LatestPitchResult(false, Some("Failed to fetch latest pitch"), None)
    else
      LatestExistsIffCounted(rows, session.userId);
      LatestIsLastOwned(rows, session.userId);
      match Latest(rows, session.userId)
      case None => LatestPitchResult(true, None, None)
      case Some(row) => LatestPitchResult(true, None, Some(View(row)))
  }

  /** The latest pitch is the first entry of the history. */
  lemma LatestIsFirstOfHistory(rows: seq<PitchRow>, owner: string)
    requires owner != ""
    ensures var history := FetchPitches(rows, SignedIn(owner), false).pitches.value;
      FetchLatestPitch(rows, SignedIn(owner), false).pitch == if history == [] then None else Some(history[0])
  {
    NewestFirstShape(rows, owner);
  }

  /** Right after a successful generation, the latest pitch is the one just stored. */
  lemma StoredPitchIsLatest(rows: seq<PitchRow>, row: PitchRow)
    requires row.userId != ""
    ensures FetchLatestPitch(rows + [row], SignedIn(row.userId), false).pitch == Some(View(row))
  {
    LatestAppend(rows, row, row.userId);
  }
}
