/**
 * The workout-assignment table and the update `select_workout_template`
 * applies to it: every active row of the caller is flagged inactive in
 * place, then one new active row is appended.
 */
module Workouts {
  import opened Wrappers
  import opened Schema

  /** The table invariant: no user has two active assignments. */
  predicate AtMostOneActive(rows: seq<UserWorkout>)
  {
    forall i, j :: 0 <= i < j < |rows| && rows[i].isActive && rows[j].isActive ==> rows[i].userId != rows[j].userId
  }

  /** True when row `i` is an active assignment of `uid`. */
  predicate ActiveFor(rows: seq<UserWorkout>, uid: nat, i: int)
    requires 0 <= i < |rows|
  {
    rows[i].userId == uid && rows[i].isActive
  }

  /**
   * The indices of `uid`'s active rows, in table order: what
   * `UserWorkout.query.filter_by(user_id=uid, is_active=True)` selects.
   */
  function ActiveRows(rows: seq<UserWorkout>, uid: nat): (r: seq<nat>)
    ensures forall k :: 0 <= k < |r| ==> r[k] < |rows| && ActiveFor(rows, uid, r[k])
    ensures forall i :: 0 <= i < |rows| && ActiveFor(rows, uid, i) ==> i in r
    ensures forall k, l :: 0 <= k < l < |r| ==> r[k] < r[l]
  {
    if |rows| == 0 then []
    else
      var n := |rows| - 1;
      ActiveRows(rows[..n], uid) + (if ActiveFor(rows, uid, n) then [n] else [])
  }

  /**
   * `UPDATE user_workout SET is_active = false WHERE user_id = uid AND is_active`:
   * the rows keep their place and only the flag of `uid`'s active rows changes.
   */
  function Deactivate(rows: seq<UserWorkout>, uid: nat): (r: seq<UserWorkout>)
    ensures |r| == |rows|
    ensures forall i :: 0 <= i < |r| && r[i].userId == uid ==> !r[i].isActive
    ensures forall i :: 0 <= i < |r| && rows[i].userId != uid ==> r[i] == rows[i]
    ensures forall i :: 0 <= i < |r| ==> r[i] == rows[i].(isActive := r[i].isActive)
  {
    seq(|rows|, i requires 0 <= i < |rows| =>
      if ActiveFor(rows, uid, i) then rows[i].(isActive := false) else rows[i])
  }

  /** The table after `select_workout_template(templateId, customPlan)` by `uid`. */
  function SelectTemplate(rows: seq<UserWorkout>, uid: nat, templateId: int,
                          customPlan: Option<Json>, now: Timestamp): (r: seq<UserWorkout>)
    ensures |r| == |rows| + 1
    ensures r[|rows|] == UserWorkout(|rows| + 1, uid, templateId, customPlan, now, true)
    ensures forall i :: 0 <= i < |rows| && rows[i].userId == uid ==> !r[i].isActive
    ensures forall i :: 0 <= i < |rows| && rows[i].userId != uid ==> r[i] == rows[i]
    ensures forall i :: 0 <= i < |rows| && !rows[i].isActive ==> r[i] == rows[i]
    ensures forall i :: 0 <= i < |rows| ==> r[i] == rows[i].(isActive := r[i].isActive)
  {
    Deactivate(rows, uid) + [UserWorkout(|rows| + 1, uid, templateId, customPlan, now, true)]
  }

  /** A table holding no active row of `uid` selects nothing for `uid`. */
  lemma {:induction false} NoneActive(rows: seq<UserWorkout>, uid: nat)
    requires forall i :: 0 <= i < |rows| ==> !ActiveFor(rows, uid, i)
    ensures ActiveRows(rows, uid) == []
  {
    if |rows| > 0 {
      var n := |rows| - 1;
      var prefix := rows[..n];
      assert forall i :: 0 <= i < n ==> prefix[i] == rows[i] && !ActiveFor(rows, uid, i);
      assert forall i :: 0 <= i < n ==> !ActiveFor(prefix, uid, i);
      NoneActive(prefix, uid);
    }
  }

  /** After the update the caller has exactly one active row: the one just appended. */
  lemma {:induction false} SelectLeavesOneActive(rows: seq<UserWorkout>, uid: nat, templateId: int,
                                                 customPlan: Option<Json>, now: Timestamp)
    ensures ActiveRows(SelectTemplate(rows, uid, templateId, customPlan, now), uid) == [|rows|]
  {
    var r := SelectTemplate(rows, uid, templateId, customPlan, now);
    assert r[..|rows|] == Deactivate(rows, uid);
    NoneActive(r[..|rows|], uid);
    assert ActiveFor(r, uid, |rows|);
  }

  /** Every row belongs to one of the `userCount` registered users. */
  predicate OwnedByUsers(rows: seq<UserWorkout>, userCount: nat)
  {
    forall i :: 0 <= i < |rows| ==> 1 <= rows[i].userId <= userCount
  }

  /** The assignment table's constraints and invariant, for a user table of `userCount` rows. */
  predicate TableValid(rows: seq<UserWorkout>, userCount: nat)
  {
    SequentialIds(rows, (w: UserWorkout) => w.id) && OwnedByUsers(rows, userCount) && AtMostOneActive(rows)
  }

  /**
   * The update keeps the table invariant, whatever the table held before,
   * and the primary keys and owners stay well formed.
   */
  lemma SelectKeepsInvariants(rows: seq<UserWorkout>, uid: nat, templateId: int,
                              customPlan: Option<Json>, now: Timestamp, userCount: nat)
    requires TableValid(rows, userCount)
    requires 1 <= uid <= userCount
    ensures TableValid(SelectTemplate(rows, uid, templateId, customPlan, now), userCount)
  {
  }

  /** Under the invariant the update deactivates at most one row: the caller's previous assignment. */
  lemma {:induction false} AtMostOnePreviouslyActive(rows: seq<UserWorkout>, uid: nat)
    requires AtMostOneActive(rows)
    ensures |ActiveRows(rows, uid)| <= 1
  {
    if |rows| > 0 {
      var n := |rows| - 1;
      var prefix := rows[..n];
      assert forall i :: 0 <= i < n ==> prefix[i] == rows[i];
      AtMostOnePreviouslyActive(prefix, uid);
      if ActiveFor(rows, uid, n) {
        NoneActive(prefix, uid);
      }
    }
  }

  /** The rows whose flag the update changes are exactly the caller's active rows. */
  lemma ChangedRowsAreActiveRows(rows: seq<UserWorkout>, uid: nat)
    ensures forall i :: 0 <= i < |rows| ==> (Deactivate(rows, uid)[i] != rows[i] <==> i in ActiveRows(rows, uid))
  {
  }
}
