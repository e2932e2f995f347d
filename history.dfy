/** Sequences of approve, reject and flag calls on one ModeratedObject, and what the
    record and the notification log look like after them. */
module History {
  import opened Models

  /** One call on the record: who made it and when. */
  datatype Action = Approve(user: UserId, at: Time) | Reject(user: UserId, at: Time) | Flag(user: UserId, at: Time)

  predicate IsDecision(a: Action) { a.Approve? || a.Reject? }

  /** The saved record after one call, and the notification the call sends: it carries
      the record as just saved, and it is post_moderation exactly for approve and reject. */
  function Step(m: Record, statusOnFlag: Option<int>, a: Action): (r: (Record, Event))
    ensures r.1.instance == r.0
    ensures r.1.PostModeration? <==> IsDecision(a)
    ensures a.Approve? ==> r.0.status == Approved
    ensures a.Reject? ==> r.0.status == Rejected
    ensures IsDecision(a) ==> r.0.moderatedBy == Some(a.user) && r.0.moderationDate == Some(a.at)
    ensures IsDecision(a) ==> r.0.flagged == m.flagged && r.0.flaggedBy == m.flaggedBy && r.0.flaggedDate == m.flaggedDate
    ensures a.Flag? ==> r.0.flagged && r.0.flaggedBy == Some(a.user) && r.0.flaggedDate == Some(a.at)
    ensures a.Flag? ==> r.0.moderationDate == m.moderationDate
    ensures a.Flag? && AutoStatusOn(statusOnFlag) ==> r.0.status == statusOnFlag.value && r.0.moderatedBy == Some(a.user)
    ensures a.Flag? && !AutoStatusOn(statusOnFlag) ==> r.0.status == m.status && r.0.moderatedBy == m.moderatedBy
    ensures r.0.timestamp == m.timestamp && r.0.target == m.target
  {
    match a
    case Approve(u, t) => var m' := Moderated(m, Approved, u, t); (m', PostModeration(m'))
    case Reject(u, t) => var m' := Moderated(m, Rejected, u, t); (m', PostModeration(m'))
    case Flag(u, t) => var m' := Flagged(m, statusOnFlag, u, t); (m', PostFlag(m'))
  }

  /** The saved record after a sequence of calls, and the notifications they send, in
      order: one per call, the last one carrying the final record. */
  function Run(m: Record, statusOnFlag: Option<int>, actions: seq<Action>): (r: (Record, seq<Event>))
    ensures |r.1| == |actions|
    ensures actions == [] ==> r.0 == m
    ensures actions != [] ==> r.1[|r.1| - 1].instance == r.0
    decreases |actions|
  {
    if actions == [] then (m, [])
    else
      var (m1, e) := Step(m, statusOnFlag, actions[0]);
      var (m2, log) := Run(m1, statusOnFlag, actions[1..]);
      (m2, [e] + log)
  }

  /** Every call sends exactly one notification: post_moderation for approve and
      reject, post_flag for flag, which never sends post_moderation. */
  lemma {:induction false} RunSendsOneEventPerCall(m: Record, statusOnFlag: Option<int>, actions: seq<Action>)
    ensures |Run(m, statusOnFlag, actions).1| == |actions|
    ensures forall i :: 0 <= i < |actions| ==>
      (Run(m, statusOnFlag, actions).1[i].PostModeration? <==> IsDecision(actions[i]))
    decreases |actions|
  {
    if actions != [] {
      var (m1, e) := Step(m, statusOnFlag, actions[0]);
      RunSendsOneEventPerCall(m1, statusOnFlag, actions[1..]);
      var log := Run(m, statusOnFlag, actions).1;
      assert log == [e] + Run(m1, statusOnFlag, actions[1..]).1;
      forall i | 0 < i < |actions|
        ensures log[i].PostModeration? <==> IsDecision(actions[i])
      {
        assert log[i] == Run(m1, statusOnFlag, actions[1..]).1[i - 1];
        assert actions[i] == actions[1..][i - 1];
      }
    }
  }

  /** No call changes the creation time or the target. */
  lemma {:induction false} RunKeepsIdentity(m: Record, statusOnFlag: Option<int>, actions: seq<Action>)
    ensures Run(m, statusOnFlag, actions).0.timestamp == m.timestamp
    ensures Run(m, statusOnFlag, actions).0.target == m.target
    decreases |actions|
  {
    if actions != [] {
      RunKeepsIdentity(Step(m, statusOnFlag, actions[0]).0, statusOnFlag, actions[1..]);
    }
  }

  /** The record ends flagged exactly when it started flagged or some call was a flag:
      nothing clears the flag. */
  lemma {:induction false} RunFlaggedSticky(m: Record, statusOnFlag: Option<int>, actions: seq<Action>)
    ensures Run(m, statusOnFlag, actions).0.flagged <==>
      m.flagged || exists i :: 0 <= i < |actions| && actions[i].Flag?
    decreases |actions|
  {
    if actions != [] {
      var m1 := Step(m, statusOnFlag, actions[0]).0;
      RunFlaggedSticky(m1, statusOnFlag, actions[1..]);
      if exists i :: 0 <= i < |actions[1..]| && actions[1..][i].Flag? {
        var i :| 0 <= i < |actions[1..]| && actions[1..][i].Flag?;
        assert actions[i + 1].Flag?;
      }
      if exists i :: 0 <= i < |actions| && actions[i].Flag? {
        var i :| 0 <= i < |actions| && actions[i].Flag?;
        if i > 0 {
          assert actions[1..][i - 1].Flag?;
        }
      }
    }
  }

  /** The decision time after a sequence of calls: the time of the last approve or
      reject, or the original one when there was none. A flag never sets it. */
  lemma {:induction false} RunDecisionTime(m: Record, statusOnFlag: Option<int>, actions: seq<Action>)
    ensures (forall i :: 0 <= i < |actions| ==> !IsDecision(actions[i])) ==>
      Run(m, statusOnFlag, actions).0.moderationDate == m.moderationDate
    ensures forall j :: (0 <= j < |actions| && IsDecision(actions[j]) &&
                         (forall k :: j < k < |actions| ==> !IsDecision(actions[k]))) ==>
      Run(m, statusOnFlag, actions).0.moderationDate == Some(actions[j].at)
    decreases |actions|
  {
    if actions != [] {
      var m1 := Step(m, statusOnFlag, actions[0]).0;
      var rest := actions[1..];
      RunDecisionTime(m1, statusOnFlag, rest);
      var final := Run(m, statusOnFlag, actions).0;
      assert final == Run(m1, statusOnFlag, rest).0;
      forall j | 0 <= j < |actions| && IsDecision(actions[j]) &&
          (forall k :: j < k < |actions| ==> !IsDecision(actions[k]))
        ensures final.moderationDate == Some(actions[j].at)
      {
        if j == 0 {
          forall k | 0 <= k < |rest| ensures !IsDecision(rest[k]) {
            assert rest[k] == actions[k + 1];
          }
        } else {
          assert rest[j - 1] == actions[j];
          forall k | j - 1 < k < |rest| ensures !IsDecision(rest[k]) {
            assert rest[k] == actions[k + 1];
          }
        }
      }
      if forall i :: 0 <= i < |actions| ==> !IsDecision(actions[i]) {
        assert !IsDecision(actions[0]);
        forall k | 0 <= k < |rest| ensures !IsDecision(rest[k]) {
          assert rest[k] == actions[k + 1];
        }
      }
    }
  }

  /** A record whose status is one of the choices keeps a choice status through any
      calls, as long as the configured auto-status is unset or itself a choice. */
  lemma {:induction false} RunKeepsStatusChoice(m: Record, statusOnFlag: Option<int>, actions: seq<Action>)
    requires IsStatusChoice(m.status)
    requires statusOnFlag.Some? ==> IsStatusChoice(statusOnFlag.value)
    ensures IsStatusChoice(Run(m, statusOnFlag, actions).0.status)
    decreases |actions|
  {
    if actions != [] {
      RunKeepsStatusChoice(Step(m, statusOnFlag, actions[0]).0, statusOnFlag, actions[1..]);
    }
  }

  /** Repeating a call with the same user and time leaves the same record, but sends
      a second notification. */
  lemma RepeatSameRecordTwoEvents(m: Record, statusOnFlag: Option<int>, a: Action)
    ensures Run(m, statusOnFlag, [a, a]).0 == Run(m, statusOnFlag, [a]).0
    ensures |Run(m, statusOnFlag, [a, a]).1| == 2 && |Run(m, statusOnFlag, [a]).1| == 1
  {
  }
}
