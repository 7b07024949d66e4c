/**
 * Progress logging and the progress-series projection of
 * `get_progress_data`: the caller's logs in ascending date order, shown
 * as parallel date and weight arrays plus the filtered body-fat array.
 */
module Progress {
  import opened Wrappers
  import opened Schema

  /** `ProgressLog.query.filter_by(user_id=uid)`, in table order. */
  function UserLogs(logs: seq<ProgressLog>, uid: nat): (r: seq<ProgressLog>)
    ensures forall l :: l in r <==> l in logs && l.userId == uid
    ensures |r| <= |logs|
  {
    if |logs| == 0 then []
    else
      var n := |logs| - 1;
      assert logs == logs[..n] + [logs[n]];
      UserLogs(logs[..n], uid) + (if logs[n].userId == uid then [logs[n]] else [])
  }

  ghost predicate SortedByDate(s: seq<ProgressLog>)
  {
    forall i, j :: 0 <= i < j < |s| ==> s[i].date <= s[j].date
  }

  /** Inserts `x` before the first log not dated earlier than it. */
  function InsertByDate(x: ProgressLog, s: seq<ProgressLog>): (r: seq<ProgressLog>)
    ensures multiset(r) == multiset(s) + multiset{x}
    ensures |r| == |s| + 1
    ensures forall k :: 0 <= k < |r| ==> r[k] == x || r[k] in s
  {
    if |s| == 0 || x.date <= s[0].date then [x] + s
    else
      assert s == [s[0]] + s[1..];
      [s[0]] + InsertByDate(x, s[1..])
  }

  /** Inserting into a sorted sequence keeps it sorted. */
  lemma {:induction false} InsertKeepsSorted(x: ProgressLog, s: seq<ProgressLog>)
    requires SortedByDate(s)
    ensures SortedByDate(InsertByDate(x, s))
  {
    if |s| > 0 && x.date > s[0].date {
      var rest := InsertByDate(x, s[1..]);
      InsertKeepsSorted(x, s[1..]);
      assert forall k :: 0 <= k < |rest| ==> s[0].date <= rest[k].date;
      assert InsertByDate(x, s) == [s[0]] + rest;
    }
  }

  /** `.order_by(ProgressLog.date)`: a sort by date. */
  function SortByDate(s: seq<ProgressLog>): (r: seq<ProgressLog>)
    ensures SortedByDate(r)
    ensures multiset(r) == multiset(s)
    ensures |r| == |s|
  {
    if |s| == 0 then []
    else
      assert s == [s[0]] + s[1..];
      InsertKeepsSorted(s[0], SortByDate(s[1..]));
      InsertByDate(s[0], SortByDate(s[1..]))
  }

  /** The caller's logs as the query returns them: ascending by date. */
  function OrderedLogs(logs: seq<ProgressLog>, uid: nat): (r: seq<ProgressLog>)
    ensures SortedByDate(r)
    ensures multiset(r) == multiset(UserLogs(logs, uid))
    ensures forall l :: l in r <==> l in logs && l.userId == uid
  {
    var u := UserLogs(logs, uid);
    var r := SortByDate(u);
    assert forall l :: l in r <==> l in multiset(u);
    r
  }

  /** Python's truthiness of `log.body_fat_percentage`: present and non-zero. */
  predicate Truthy(b: Option<real>)
  {
    b.Some? && b.value != 0.0
  }

  /** `[log.body_fat_percentage for log in s if log.body_fat_percentage]` */
  function BodyFatValues(s: seq<ProgressLog>): (r: seq<real>)
    ensures |r| <= |s|
    ensures forall k :: 0 <= k < |r| ==> r[k] != 0.0
  {
    if |s| == 0 then []
    else
      var n := |s| - 1;
      BodyFatValues(s[..n]) +
        (if Truthy(s[n].bodyFatPercentage) then [s[n].bodyFatPercentage.value] else [])
  }

  /** The filter keeps order: filtering a concatenation concatenates the filtered parts. */
  lemma {:induction false} BodyFatValuesAppend(a: seq<ProgressLog>, b: seq<ProgressLog>)
    ensures BodyFatValues(a + b) == BodyFatValues(a) + BodyFatValues(b)
  {
    if |b| == 0 {
      assert a + b == a;
    } else {
      var n := |b| - 1;
      assert (a + b)[..|a| + n] == a + b[..n];
      BodyFatValuesAppend(a, b[..n]);
    }
  }

  /** A single log contributes its body fat exactly when it is truthy. */
  lemma BodyFatValuesSingle(l: ProgressLog)
    ensures BodyFatValues([l]) == if Truthy(l.bodyFatPercentage) then [l.bodyFatPercentage.value] else []
  {
    assert [l][..0] == [];
  }

  /** The JSON body of `get_progress_data`. */
  datatype Series = Series(dates: seq<Date>, weights: seq<real>, bodyFat: seq<real>)

  /** The series for user `uid`: dates and weights side by side, body fat filtered. */
  function ProgressSeries(logs: seq<ProgressLog>, uid: nat): (r: Series)
    ensures |r.dates| == |r.weights| == |UserLogs(logs, uid)|
    ensures forall i, j :: 0 <= i < j < |r.dates| ==> r.dates[i] <= r.dates[j]
    ensures forall i :: 0 <= i < |r.dates| ==>
              r.dates[i] == OrderedLogs(logs, uid)[i].date && r.weights[i] == OrderedLogs(logs, uid)[i].weight
    ensures r.bodyFat == BodyFatValues(OrderedLogs(logs, uid))
    ensures |r.bodyFat| <= |r.dates|
  {
    var s := OrderedLogs(logs, uid);
    Series(seq(|s|, i requires 0 <= i < |s| => s[i].date),
           seq(|s|, i requires 0 <= i < |s| => s[i].weight),
           BodyFatValues(s))
  }

  /** The progress table's constraints, for a user table of `userCount` rows. */
  predicate TableValid(logs: seq<ProgressLog>, userCount: nat)
  {
    SequentialIds(logs, (l: ProgressLog) => l.id) && forall i :: 0 <= i < |logs| ==> 1 <= logs[i].userId <= userCount
  }

  /**
   * The log `log_progress` appends for `uid`. `data.get('notes', '')` gives
   * "" for a missing field but `None` for an explicit `null`, which the
   * nullable column stores as NULL.
   */
  function NewLog(id: nat, uid: nat, weight: real, bodyFat: Option<real>, notes: Field<string>,
                  today: Date): (l: ProgressLog)
    ensures l.id == id && l.userId == uid && l.weight == weight && l.date == today
    ensures l.bodyFatPercentage == bodyFat
    ensures notes.Absent? ==> l.notes == Some("")
    ensures notes.Null? ==> l.notes == None
    ensures notes.Given? ==> l.notes == Some(notes.value)
  {
    var stored := match notes
      case Absent => Some("")
      case Null => None
      case Given(text) => Some(text);
    ProgressLog(id, uid, weight, bodyFat, stored, today)
  }

  /** `user.current_weight = weight` for the user with primary key `uid`. */
  function UpdateWeight(users: seq<User>, uid: nat, weight: real): (r: seq<User>)
    requires 1 <= uid <= |users|
    ensures |r| == |users|
    ensures r[uid - 1] == users[uid - 1].(currentWeight := weight)
    ensures forall i :: 0 <= i < |users| && i != uid - 1 ==> r[i] == users[i]
  {
    users[uid - 1 := users[uid - 1].(currentWeight := weight)]
  }

  /** A new log joins the end of its owner's logs, in table order, and no other user's logs. */
  lemma NewLogOnlyInOwnSeries(logs: seq<ProgressLog>, l: ProgressLog, uid: nat)
    ensures UserLogs(logs + [l], uid) == UserLogs(logs, uid) + (if l.userId == uid then [l] else [])
  {
    assert (logs + [l])[..|logs|] == logs;
  }
}
