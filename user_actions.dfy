/** The account actions: `checkProStatus` and `countUserPitches` read the
    `pitches` table, `updateProStatus` rewrites the entitlement columns of
    every row of the signed-in user. `session` is what `auth()` gives, and
    `fault` says the query threw; a failing `auth()` is caught by the same
    handler as a failing query. */
module UserActions {
  import opened Wrappers
  import opened Schema
  import opened Ledger
  import opened PitchActions

  /** `{ isPro, success, message?, stripe_id? }` as returned by `checkProStatus`. */
  datatype ProStatus = ProStatus(isPro: bool, success: bool, message: Option<string>, stripeId: Option<string>)

  /** `{ count, success, message? }` as returned by `countUserPitches`. */
  datatype PitchCount = PitchCount(count: nat, success: bool, message: Option<string>)

  /** `{ success, message? }` as returned by `updateProStatus`. */
  datatype UpdateResult = UpdateResult(success: bool, message: Option<string>)

  /** `checkProStatus`: the entitlement recorded on the user's most recent pitch row. */
  function CheckProStatus(rows: seq<PitchRow>, session: Session, fault: bool): (r: ProStatus)
    ensures !session.AuthFailed? && !HasUser(session) ==> r == ProStatus(false, false, Some("Authentication required"), None)
    ensures session.AuthFailed? || (HasUser(session) && fault) ==>
      r == ProStatus(false, false, Some("Failed to check Pro status"), None)
    ensures HasUser(session) && !fault ==> r.success && r.message == None
    ensures !r.success ==> !r.isPro && r.stripeId == None
  {
    if session.AuthFailed? then ProStatus(false, false, Some("Failed to check Pro status"), None)
    else if !HasUser(session) then ProStatus(false, false, Some("Authentication required"), None)
    else if fault then ProStatus(false, false, Some("Failed to check Pro status"), None)
    else
      match Latest(rows, session.userId)
      case None => ProStatus(false, true, None, None)
      case Some(row) => ProStatus(row.isPro, true, None, row.stripeId)
  }

  /** A user with no pitch row is on the free tier; otherwise the answer is Pro
      exactly when the last of their rows is a Pro row, and the flag and the
      billing reference are that row's. */
  lemma CheckProStatusMeaning(rows: seq<PitchRow>, owner: string)
    requires owner != ""
    ensures var r := CheckProStatus(rows, SignedIn(owner), false);
      && (Count(rows, owner) == 0 ==> r == ProStatus(false, true, None, None))
      && (r.isPro <==> exists i :: (0 <= i < |rows| && rows[i].userId == owner && rows[i].isPro &&
                                    (forall j :: i < j < |rows| ==> rows[j].userId != owner)))
      && (Count(rows, owner) > 0 ==>
            exists i :: (0 <= i < |rows| && rows[i].userId == owner &&
                         (forall j :: i < j < |rows| ==> rows[j].userId != owner) &&
                         r.isPro == rows[i].isPro && r.stripeId == rows[i].stripeId))
  {
    LatestExistsIffCounted(rows, owner);
    LatestIsLastOwned(rows, owner);
    var r := CheckProStatus(rows, SignedIn(owner), false);
    if r.isPro {
      var i :| 0 <= i < |rows| && rows[i] == Latest(rows, owner).value && rows[i].userId == owner
        && forall j :: i < j < |rows| ==> rows[j].userId != owner;
      assert rows[i].isPro;
    }
    if exists i :: (0 <= i < |rows| && rows[i].userId == owner && rows[i].isPro &&
                    (forall j :: i < j < |rows| ==> rows[j].userId != owner)) {
      var i :| 0 <= i < |rows| && rows[i].userId == owner && rows[i].isPro &&
               (forall j :: i < j < |rows| ==> rows[j].userId != owner);
      var k :| 0 <= k < |rows| && rows[k] == Latest(rows, owner).value && rows[k].userId == owner
        && forall j :: k < j < |rows| ==> rows[j].userId != owner;
      assert i == k;
    }
  }

  /** `countUserPitches`: how many pitch rows the user owns. */
  function CountUserPitches(rows: seq<PitchRow>, session: Session, fault: bool): (r: PitchCount)
    ensures !session.AuthFailed? && !HasUser(session) ==> r == PitchCount(0, false, Some("Authentication required"))
    ensures session.AuthFailed? || (HasUser(session) && fault) ==> r == PitchCount(0, false, Some("Failed to count pitches"))
    ensures HasUser(session) && !fault ==> r.success && r.message == None && r.count <= |rows|
    ensures !r.success ==> r.count == 0
  {
    if session.AuthFailed? then PitchCount(0, false, Some("Failed to count pitches"))
    else if !HasUser(session) then PitchCount(0, false, Some("Authentication required"))
    else if fault then PitchCount(0, false, Some("Failed to count pitches"))
    else PitchCount(Count(rows, session.userId), true, None)
  }

  /** The count is the number of rows carrying the user's id. */
  lemma CountUserPitchesMeaning(rows: seq<PitchRow>, owner: string)
    requires owner != ""
    ensures CountUserPitches(rows, SignedIn(owner), false).count == |OwnedAt(rows, owner)|
  {
    CountIsOwnedRows(rows, owner);
  }

  /** `updateProStatus`: one `UPDATE` of every row of the signed-in user to the
      given Pro flag and billing reference, where an absent or empty reference
      is stored as NULL. A failing update changes nothing. */
  method UpdateProStatus(table: PitchTable, session: Session, isPro: bool, stripeId: Option<string>, fault: bool)
    returns (r: UpdateResult)
    requires table.Valid()
    modifies table
    ensures table.Valid() && table.nextId == old(table.nextId)
    ensures !session.AuthFailed? && !HasUser(session) ==> r == UpdateResult(false, Some("Authentication required"))
    ensures session.AuthFailed? || (HasUser(session) && fault) ==> r == UpdateResult(false, Some("Failed to update Pro status"))
    ensures HasUser(session) && !fault ==> r == UpdateResult(true, None)
    ensures r.success ==> table.rows == Entitled(old(table.rows), session.userId, isPro, NullIfEmpty(stripeId))
    ensures !r.success ==> table.rows == old(table.rows)
  {
    if session.AuthFailed? {
      return UpdateResult(false, Some("Failed to update Pro status"));
    }
    if !HasUser(session) {
      return UpdateResult(false, Some("Authentication required"));
    }
    if fault {
      return UpdateResult(false, Some("Failed to update Pro status"));
    }
    table.SetEntitlement(session.userId, isPro, NullIfEmpty(stripeId));
    return UpdateResult(true, None);
  }

  /** After an update, a user who has pitch rows reads back exactly the flag and
      the (normalised) reference that were written; a user without rows is
      still on the free tier, since there was nothing to update. */
  lemma UpdateThenCheck(rows: seq<PitchRow>, owner: string, isPro: bool, stripeId: Option<string>)
    requires owner != ""
    ensures var after := CheckProStatus(Entitled(rows, owner, isPro, NullIfEmpty(stripeId)), SignedIn(owner), false);
      && (Count(rows, owner) > 0 ==> after == ProStatus(isPro, true, None, NullIfEmpty(stripeId)))
      && (Count(rows, owner) == 0 ==> after == ProStatus(false, true, None, None))
  {
    LatestExistsIffCounted(rows, owner);
    EntitledLatest(rows, owner, isPro, NullIfEmpty(stripeId), owner);
  }

  /** An update by one user changes nothing another user reads. */
  lemma UpdateLeavesOthers(rows: seq<PitchRow>, owner: string, isPro: bool, stripeId: Option<string>, other: string, fault: bool)
    requires other != owner && other != ""
    ensures var after := Entitled(rows, owner, isPro, NullIfEmpty(stripeId));
      && CheckProStatus(after, SignedIn(other), fault) == CheckProStatus(rows, SignedIn(other), fault)
      && FetchLatestPitch(after, SignedIn(other), fault) == FetchLatestPitch(rows, SignedIn(other), fault)
  {
    EntitledLatest(rows, owner, isPro, NullIfEmpty(stripeId), other);
  }

  /** An update never changes anybody's pitch count, nor the pitches the owner
      sees (their views carry no entitlement column). */
  lemma UpdateKeepsHistory(rows: seq<PitchRow>, owner: string, isPro: bool, stripeId: Option<string>, anyone: string)
    requires anyone != ""
    ensures var after := Entitled(rows, owner, isPro, NullIfEmpty(stripeId));
      && CountUserPitches(after, SignedIn(anyone), false) == CountUserPitches(rows, SignedIn(anyone), false)
      && FetchLatestPitch(after, SignedIn(anyone), false) == FetchLatestPitch(rows, SignedIn(anyone), false)
  {
    EntitledKeepsCounts(rows, owner, isPro, NullIfEmpty(stripeId), anyone);
    EntitledLatest(rows, owner, isPro, NullIfEmpty(stripeId), anyone);
  }

  /** Storing a generated pitch raises its owner's count by one and makes the
      stored row's entitlement the one `checkProStatus` reports. */
  lemma InsertThenRead(rows: seq<PitchRow>, owner: string, req: PitchRequest, pitch: string, isPro: bool, id: nat)
    requires owner != ""
    ensures var row := NewRow(owner, req, pitch, isPro).(id := id);
      && CountUserPitches(rows + [row], SignedIn(owner), false).count == CountUserPitches(rows, SignedIn(owner), false).count + 1
      && CheckProStatus(rows + [row], SignedIn(owner), false) == ProStatus(isPro, true, None, row.stripeId)
  {
    var row := NewRow(owner, req, pitch, isPro).(id := id);
    CountAppend(rows, row, owner);
    LatestAppend(rows, row, owner);
  }

  /** Rows stored by the pitch generator never carry a billing reference
      without the Pro flag, and neither does an update that grants Pro or
      clears the reference. */
  lemma StripeOnlyWhenProKept(rows: seq<PitchRow>, owner: string, req: PitchRequest, pitch: string, isPro: bool,
                              id: nat, stripeId: Option<string>)
    requires StripeOnlyWhenPro(rows)
    ensures StripeOnlyWhenPro(rows + [NewRow(owner, req, pitch, isPro).(id := id)])
    ensures StripeOnlyWhenPro(Entitled(rows, owner, true, NullIfEmpty(stripeId)))
    ensures NullIfEmpty(stripeId) == None ==> StripeOnlyWhenPro(Entitled(rows, owner, false, NullIfEmpty(stripeId)))
  {
    var row := NewRow(owner, req, pitch, isPro).(id := id);
    assert forall i :: 0 <= i < |rows| ==> (rows + [row])[i] == rows[i];
  }

  /** Revoking Pro while passing a billing reference leaves non-Pro rows that
      carry one: the update does not keep that property of inserted rows. */
  lemma RevokeWithReferenceKeepsReference(row: PitchRow)
    requires !row.isPro && row.stripeId == None
    ensures StripeOnlyWhenPro([row])
    ensures !StripeOnlyWhenPro(Entitled([row], row.userId, false, NullIfEmpty(Some("x"))))
  {
    var after := Entitled([row], row.userId, false, NullIfEmpty(Some("x")));
    assert after[0].stripeId == Some("x");
  }
}
