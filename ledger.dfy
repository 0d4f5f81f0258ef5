/** The `pitches` table: one row per generated pitch, appended by the pitch
    generator and bulk-updated by the Pro-status action. Rows are kept in
    insertion order, so "ORDER BY created_at DESC" is read as "last appended
    first". */
module Ledger {
  import opened Wrappers

  /** One row of `pitches`. `stripeId` is SQL NULL when `None`. */
  datatype PitchRow = PitchRow(
    id: nat,
    userId: string,
    prospectName: string,
    prospectTitle: string,
    prospectCompany: string,
    painPoint: string,
    yourOffer: string,
    generatedPitch: string,
    isPro: bool,
    stripeId: Option<string>)

  /** The columns the two pitch queries select (user and entitlement columns are not). */
  datatype PitchView = PitchView(
    id: nat,
    prospectName: string,
    prospectTitle: string,
    prospectCompany: string,
    painPoint: string,
    yourOffer: string,
    generatedPitch: string)

  function View(row: PitchRow): PitchView {
    PitchView(row.id, row.prospectName, row.prospectTitle, row.prospectCompany,
              row.painPoint, row.yourOffer, row.generatedPitch)
  }

  /** JavaScript's `s || null` on an optional string: absent and empty both become NULL. */
  function NullIfEmpty(s: Option<string>): (r: Option<string>)
    ensures r.Some? <==> s.Some? && s.value != ""
    ensures r.Some? ==> r == s
  {
    if s.Some? && s.value != "" then s else None
  }

  /** `SELECT COUNT(*) FROM pitches WHERE user_id = owner`. */
  function Count(rows: seq<PitchRow>, owner: string): (n: nat)
    ensures n <= |rows|
    decreases |rows|
  {
    if rows == [] then 0
    else Count(rows[..|rows| - 1], owner) + (if rows[|rows| - 1].userId == owner then 1 else 0)
  }

  /** The owner's most recent row: `… WHERE user_id = owner ORDER BY created_at DESC LIMIT 1`. */
  function Latest(rows: seq<PitchRow>, owner: string): Option<PitchRow>
    decreases |rows|
  {
    if rows == [] then None
    else if rows[|rows| - 1].userId == owner then Some(rows[|rows| - 1])
    else Latest(rows[..|rows| - 1], owner)
  }

  /** The owner's rows, most recent first: `… WHERE user_id = owner ORDER BY created_at DESC`. */
  function NewestFirst(rows: seq<PitchRow>, owner: string): seq<PitchRow>
    decreases |rows|
  {
    if rows == [] then []
    else (if rows[|rows| - 1].userId == owner then [rows[|rows| - 1]] else [])
         + NewestFirst(rows[..|rows| - 1], owner)
  }

  /** A row with its entitlement columns blanked: the columns an update must not touch. */
  function Columns(row: PitchRow): PitchRow {
    row.(isPro := false, stripeId := None)
  }

  /** `UPDATE pitches SET is_pro = isPro, stripe_id = stripeId WHERE user_id = owner`. */
  function Entitled(rows: seq<PitchRow>, owner: string, isPro: bool, stripeId: Option<string>): (r: seq<PitchRow>)
    ensures |r| == |rows|
    ensures forall i :: 0 <= i < |r| ==> Columns(r[i]) == Columns(rows[i])
    ensures forall i :: 0 <= i < |r| && rows[i].userId == owner ==> r[i].isPro == isPro && r[i].stripeId == stripeId
    ensures forall i :: 0 <= i < |r| && rows[i].userId != owner ==> r[i] == rows[i]
  {
    seq(|rows|, i requires 0 <= i < |rows| =>
      if rows[i].userId == owner then rows[i].(isPro := isPro, stripeId := stripeId) else rows[i])
  }

  /** Inserted rows carry no billing reference unless they are Pro rows. */
  ghost predicate StripeOnlyWhenPro(rows: seq<PitchRow>) {
    forall i :: 0 <= i < |rows| && !rows[i].isPro ==> rows[i].stripeId == None
  }

  /** The positions of the owner's rows. */
  ghost function OwnedAt(rows: seq<PitchRow>, owner: string): set<nat> {
    set i: nat | i < |rows| && rows[i].userId == owner
  }

  /** The count is the number of positions holding one of the owner's rows. */
  lemma {:induction false} CountIsOwnedRows(rows: seq<PitchRow>, owner: string)
    ensures Count(rows, owner) == |OwnedAt(rows, owner)|
    decreases |rows|
  {
    if rows != [] {
      var n := |rows| - 1;
      var front := rows[..n];
      CountIsOwnedRows(front, owner);
      var last: set<nat> := if rows[n].userId == owner then {n} else {};
      assert OwnedAt(rows, owner) == OwnedAt(front, owner) + last;
      assert n !in OwnedAt(front, owner);
    }
  }

  lemma CountAppend(rows: seq<PitchRow>, row: PitchRow, owner: string)
    ensures Count(rows + [row], owner) == Count(rows, owner) + (if row.userId == owner then 1 else 0)
  {
    assert (rows + [row])[..|rows|] == rows;
  }

  lemma LatestAppend(rows: seq<PitchRow>, row: PitchRow, owner: string)
    ensures Latest(rows + [row], owner) == if row.userId == owner then Some(row) else Latest(rows, owner)
  {
    assert (rows + [row])[..|rows|] == rows;
  }

  /** An owner has a latest row exactly when they have at least one row. */
  lemma {:induction false} LatestExistsIffCounted(rows: seq<PitchRow>, owner: string)
    ensures Latest(rows, owner).Some? <==> Count(rows, owner) > 0
    decreases |rows|
  {
    if rows != [] {
      LatestExistsIffCounted(rows[..|rows| - 1], owner);
    }
  }

  /** The latest row is one of the owner's rows and no later row belongs to them;
      when there is none, the owner has no row at all. */
  lemma {:induction false} LatestIsLastOwned(rows: seq<PitchRow>, owner: string)
    ensures Latest(rows, owner).None? ==> forall i :: 0 <= i < |rows| ==> rows[i].userId != owner
    ensures Latest(rows, owner).Some? ==>
      exists i :: 0 <= i < |rows| && rows[i] == Latest(rows, owner).value && rows[i].userId == owner
        && forall j :: i < j < |rows| ==> rows[j].userId != owner
    decreases |rows|
  {
    if rows != [] {
      var n := |rows| - 1;
      var front := rows[..n];
      LatestIsLastOwned(front, owner);
      if rows[n].userId != owner {
        assert forall i :: 0 <= i < n ==> rows[i] == front[i];
        if Latest(front, owner).Some? {
          var i :| 0 <= i < |front| && front[i] == Latest(front, owner).value && front[i].userId == owner
            && forall j :: i < j < |front| ==> front[j].userId != owner;
          assert forall j :: i < j < |rows| ==> rows[j].userId != owner;
        }
      }
    }
  }

  /** The owner's history has one entry per owned row, all of them the owner's,
      and starts with the latest row. */
  lemma {:induction false} NewestFirstShape(rows: seq<PitchRow>, owner: string)
    ensures |NewestFirst(rows, owner)| == Count(rows, owner)
    ensures forall k :: 0 <= k < |NewestFirst(rows, owner)| ==> NewestFirst(rows, owner)[k].userId == owner
    ensures NewestFirst(rows, owner) != [] ==> Latest(rows, owner) == Some(NewestFirst(rows, owner)[0])
    ensures NewestFirst(rows, owner) == [] ==> Latest(rows, owner) == None
    decreases |rows|
  {
    if rows != [] {
      NewestFirstShape(rows[..|rows| - 1], owner);
    }
  }

  /** The positions of the owner's rows, from the last one back to the first. */
  ghost function OwnedPositions(rows: seq<PitchRow>, owner: string): seq<nat>
    decreases |rows|
  {
    if rows == [] then []
    else (if rows[|rows| - 1].userId == owner then [|rows| - 1] else []) + OwnedPositions(rows[..|rows| - 1], owner)
  }

  /** Every entry of the history is the row at the matching owned position. */
  lemma {:induction false} NewestFirstAtPositions(rows: seq<PitchRow>, owner: string)
    ensures |NewestFirst(rows, owner)| == |OwnedPositions(rows, owner)|
    ensures forall k :: 0 <= k < |OwnedPositions(rows, owner)| ==>
      OwnedPositions(rows, owner)[k] < |rows| && NewestFirst(rows, owner)[k] == rows[OwnedPositions(rows, owner)[k]]
    decreases |rows|
  {
    if rows != [] {
      var n := |rows| - 1;
      var front := rows[..n];
      NewestFirstAtPositions(front, owner);
      var history0, pos0 := NewestFirst(front, owner), OwnedPositions(front, owner);
      if rows[n].userId == owner {
        var history, pos := NewestFirst(rows, owner), OwnedPositions(rows, owner);
        assert history == [rows[n]] + history0 && pos == [n] + pos0;
        forall k | 0 <= k < |pos| ensures pos[k] < |rows| && history[k] == rows[pos[k]] {
          if k > 0 {
            assert pos[k] == pos0[k - 1] && history[k] == history0[k - 1];
            assert front[pos0[k - 1]] == rows[pos0[k - 1]];
          }
        }
      } else {
        forall k | 0 <= k < |pos0| ensures front[pos0[k]] == rows[pos0[k]] {
        }
      }
    }
  }

  /** The owned positions are exactly the owner's, listed from the last one down. */
  lemma {:induction false} OwnedPositionsDescend(rows: seq<PitchRow>, owner: string)
    ensures forall k, l :: 0 <= k < l < |OwnedPositions(rows, owner)| ==>
      OwnedPositions(rows, owner)[k] > OwnedPositions(rows, owner)[l]
    ensures forall i: nat :: i in OwnedPositions(rows, owner) <==> i < |rows| && rows[i].userId == owner
    decreases |rows|
  {
    if rows != [] {
      var n := |rows| - 1;
      var front := rows[..n];
      OwnedPositionsDescend(front, owner);
      var pos0 := OwnedPositions(front, owner);
      if rows[n].userId == owner {
        var pos := OwnedPositions(rows, owner);
        assert pos == [n] + pos0;
        forall k, l | 0 <= k < l < |pos| ensures pos[k] > pos[l] {
          assert pos[l] == pos0[l - 1] && pos0[l - 1] in pos0;
          if k > 0 { assert pos[k] == pos0[k - 1]; }
        }
      }
    }
  }

  /** The history takes the owner's rows from strictly decreasing positions,
      and those positions are exactly the owner's: every owned row appears
      once, newest first. */
  lemma {:induction false} NewestFirstPositions(rows: seq<PitchRow>, owner: string)
    ensures var history, pos := NewestFirst(rows, owner), OwnedPositions(rows, owner);
      && |history| == |pos|
      && (forall k :: 0 <= k < |pos| ==> pos[k] < |rows| && history[k] == rows[pos[k]])
      && (forall k, l :: 0 <= k < l < |pos| ==> pos[k] > pos[l])
      && (forall i :: i in OwnedAt(rows, owner) <==> i in pos)
  {
    NewestFirstAtPositions(rows, owner);
    OwnedPositionsDescend(rows, owner);
  }

  lemma EntitledPrefix(rows: seq<PitchRow>, owner: string, isPro: bool, stripeId: Option<string>)
    requires rows != []
    ensures Entitled(rows, owner, isPro, stripeId)[..|rows| - 1] == Entitled(rows[..|rows| - 1], owner, isPro, stripeId)
  {
  }

  /** The update changes nobody's row count. */
  lemma {:induction false} EntitledKeepsCounts(rows: seq<PitchRow>, owner: string, isPro: bool, stripeId: Option<string>, anyone: string)
    ensures Count(Entitled(rows, owner, isPro, stripeId), anyone) == Count(rows, anyone)
    decreases |rows|
  {
    if rows != [] {
      EntitledPrefix(rows, owner, isPro, stripeId);
      EntitledKeepsCounts(rows[..|rows| - 1], owner, isPro, stripeId, anyone);
    }
  }

  /** After the update the owner's latest row is their previous latest row with
      the new entitlement; every other owner's latest row is unchanged. */
  lemma {:induction false} EntitledLatest(rows: seq<PitchRow>, owner: string, isPro: bool, stripeId: Option<string>, anyone: string)
    ensures Latest(Entitled(rows, owner, isPro, stripeId), anyone) ==
      match Latest(rows, anyone)
      case None => None
      case Some(row) => Some(if anyone == owner then row.(isPro := isPro, stripeId := stripeId) else row)
    decreases |rows|
  {
    if rows != [] {
      EntitledPrefix(rows, owner, isPro, stripeId);
      EntitledLatest(rows[..|rows| - 1], owner, isPro, stripeId, anyone);
    }
  }

  /** Applying the same update twice gives the same table as applying it once. */
  lemma EntitledIdempotent(rows: seq<PitchRow>, owner: string, isPro: bool, stripeId: Option<string>)
    ensures Entitled(Entitled(rows, owner, isPro, stripeId), owner, isPro, stripeId) == Entitled(rows, owner, isPro, stripeId)
  {
  }

  /** The table the server actions share. Rows are only ever appended or have
      their entitlement columns rewritten; ids grow with insertion order. */
  class PitchTable {
    var rows: seq<PitchRow>
    var nextId: nat

    ghost predicate Valid()
      reads this
    {
      && (forall i :: 0 <= i < |rows| ==> rows[i].id < nextId)
      && (forall i, j :: 0 <= i < j < |rows| ==> rows[i].id < rows[j].id)
    }

    constructor ()
      ensures Valid() && rows == []
    {
      rows := [];
      nextId := 1;
    }

    /** `INSERT INTO pitches (…) VALUES (…)`: the row is stored with a fresh id. */
    method Insert(row: PitchRow) returns (stored: PitchRow)
      requires Valid()
      modifies this
      ensures Valid()
      ensures stored == row.(id := old(nextId))
      ensures rows == old(rows) + [stored]
      ensures nextId == old(nextId) + 1
    {
      stored := row.(id := nextId);
      rows := rows + [stored];
      nextId := nextId + 1;
    }

    /** Rewrites `is_pro` and `stripe_id` on every row of `owner`, one row at a time. */
    method SetEntitlement(owner: string, isPro: bool, stripeId: Option<string>)
      requires Valid()
      modifies this
      ensures Valid() && nextId == old(nextId)
      ensures rows == Entitled(old(rows), owner, isPro, stripeId)
    {
      ghost var target := Entitled(rows, owner, isPro, stripeId);
      var i := 0;
      while i < |rows|
        invariant 0 <= i <= |rows| == |old(rows)|
        invariant nextId == old(nextId)
        invariant forall k :: 0 <= k < i ==> rows[k] == target[k]
        invariant forall k :: i <= k < |rows| ==> rows[k] == old(rows)[k]
      {
        if rows[i].userId == owner {
          rows := rows[i := rows[i].(isPro := isPro, stripeId := stripeId)];
        }
        i := i + 1;
      }
    }
  }
}
