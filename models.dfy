/** The moderation record of django-gatekeeper: one ModeratedObject per moderated
    target, its status codes and their labels, the approve/reject/flag transitions
    with the notifications they send, and the manager's lookup by target. */
module Models {

  datatype Option<+T> = None | Some(value: T)

  /** A user's primary key (the moderator or the flagger). */
  type UserId = nat

  /** A point in time; the clock is passed in by the caller. */
  type Time = int

  /** A content-type primary key: the tag naming the target's model. */
  type ContentTypeId = nat

  // ---------------------------------------------------------------------------
  // Status codes and their labels (STATUS_CHOICES)
  // ---------------------------------------------------------------------------

  const Approved: int := 1
  const Pending: int := 0
  const Rejected: int := -1

  /** The status choices in declaration order: code and display label. */
  const StatusChoices: seq<(int, string)> := [(Approved, "Approved"), (Pending, "Pending"), (Rejected, "Rejected")]

  predicate IsStatusChoice(code: int) {
    code == Approved || code == Pending || code == Rejected
  }

  /** The label a choice list gives a code: that of the first choice with the code, or
      None when no choice has it. (Django's dict of the choices keeps the last one; the
      status choices have no repeated code, so the two agree.) */
  function ChoiceLabel(choices: seq<(int, string)>, code: int): (r: Option<string>)
    ensures r.None? <==> forall i :: 0 <= i < |choices| ==> choices[i].0 != code
    ensures r.Some? ==> exists i :: 0 <= i < |choices| && choices[i] == (code, r.value)
  {
    if choices == [] then None
    else if choices[0].0 == code then Some(choices[0].1)
    else
      var r := ChoiceLabel(choices[1..], code);
      assert r.Some? ==> exists i :: 0 <= i < |choices[1..]| && choices[1..][i] == (code, r.value);
      r
  }

  /** The label of a status code: exactly the three status choices have one. */
  function StatusLabel(code: int): (r: Option<string>)
    ensures r.Some? <==> IsStatusChoice(code)
    ensures code == Approved ==> r == Some("Approved")
    ensures code == Pending ==> r == Some("Pending")
    ensures code == Rejected ==> r == Some("Rejected")
  {
    assert |StatusChoices| == 3;
    assert StatusChoices[0].0 == Approved && StatusChoices[1].0 == Pending && StatusChoices[2].0 == Rejected;
    ChoiceLabel(StatusChoices, code)
  }

  predicate IsDigit(c: char) { '0' <= c <= '9' }

  predicate IsCapital(c: char) { 'A' <= c <= 'Z' }

  predicate AllDigits(s: string) {
    forall i :: 0 <= i < |s| ==> IsDigit(s[i])
  }

  /** The number a string of decimal digits denotes, most significant digit first. */
  function DigitsValue(s: string): nat
    requires AllDigits(s)
    decreases |s|
  {
    if s == [] then 0
    else DigitsValue(s[..|s| - 1]) * 10 + (s[|s| - 1] as int - '0' as int)
  }

  /** A decimal integer text: digits, optionally after a leading '-'. */
  predicate IsDecimal(s: string) {
    |s| > 0 && AllDigits(if s[0] == '-' then s[1..] else s)
  }

  /** The integer a decimal text denotes. */
  function DecimalValue(s: string): int
    requires IsDecimal(s)
  {
    if s[0] == '-' then -(DigitsValue(s[1..]) as int) else DigitsValue(s)
  }

  /** The character of one decimal digit. */
  function DigitChar(d: nat): (c: char)
    requires d < 10
    ensures IsDigit(c) && c as int - '0' as int == d
  {
    ('0' as int + d) as char
  }

  /** The decimal digits of a natural number, most significant first, without
      leading zeros. */
  function NatText(n: nat): (s: string)
    ensures |s| > 0 && AllDigits(s)
    ensures DigitsValue(s) == n
    ensures s[0] == '0' ==> s == "0"
    decreases n
  {
    if n < 10 then [DigitChar(n)]
    else
      var s := NatText(n / 10) + [DigitChar(n % 10)];
      assert s[..|s| - 1] == NatText(n / 10);
      s
  }

  /** The decimal rendering of an integer (Python's "%s" of an int): a leading '-'
      exactly when it is negative, and the text denotes the integer. */
  function DecimalText(n: int): (s: string)
    ensures IsDecimal(s) && DecimalValue(s) == n
    ensures s[0] == '-' <==> n < 0
    ensures var d := if n < 0 then s[1..] else s; |d| > 0 && (d[0] == '0' ==> d == "0")
  {
    if n < 0 then
      var s := "-" + NatText(-n);
      assert s[1..] == NatText(-n);
      s
    else NatText(n)
  }

  /** get_status_display: the choice label of the code, or the code itself rendered
      in decimal when no choice has it. Only the three choices render as a word. */
  function StatusDisplay(code: int): (s: string)
    ensures |s| > 0
    ensures IsStatusChoice(code) ==> StatusLabel(code) == Some(s)
    ensures !IsStatusChoice(code) ==> s == DecimalText(code)
    ensures IsCapital(s[0]) <==> IsStatusChoice(code)
    ensures forall i :: 0 <= i < |s| ==> s[i] != ']'
  {
    match StatusLabel(code)
    case Some(word) => word
    case None => DecimalText(code)
  }

  /** Different statuses display differently. */
  lemma StatusDisplayInjective(c1: int, c2: int)
    requires StatusDisplay(c1) == StatusDisplay(c2)
    ensures c1 == c2
  {
  }

  /** The position of the first `c` in `s`, or |s| when there is none. */
  function FirstIndex(s: string, c: char): (k: nat)
    ensures k <= |s|
    ensures forall i :: 0 <= i < k ==> s[i] != c
    ensures k < |s| ==> s[k] == c
    decreases |s|
  {
    if s == [] then 0
    else if s[0] == c then 0
    else 1 + FirstIndex(s[1..], c)
  }

  /** Reads a "[<label>] <rest>" text back into its label and its rest, the label
      ending at the first ']'. */
  function ParseDisplay(s: string): Option<(string, string)> {
    if |s| == 0 || s[0] != '[' then None
    else
      var k := FirstIndex(s[1..], ']');
      if k + 2 < |s| && s[k + 2] == ' ' then Some((s[1..k + 1], s[k + 3..])) else None
  }

  /** __unicode__: "[<status label>] <target representation>". The target's own
      string form is supplied by the caller. The status label holds no ']', so the
      text reads back into the label and the target. */
  function Display(status: int, target: string): (s: string)
    ensures ParseDisplay(s) == Some((StatusDisplay(status), target))
  {
    var word := StatusDisplay(status);
    var s := "[" + word + "] " + target;
    assert s[1..] == word + "] " + target;
    assert FirstIndex(s[1..], ']') == |word| by {
      assert s[1..][|word|] == ']';
    }
    assert s[1..|word| + 1] == word;
    assert s[|word| + 3..] == target;
    s
  }

  /** The display string determines both the status and the target's representation. */
  lemma DisplayInjective(s1: int, a: string, s2: int, b: string)
    requires Display(s1, a) == Display(s2, b)
    ensures s1 == s2 && a == b
  {
  }

  /** A pending record whose target renders as "Widget #3". */
  lemma DisplayPendingWidget()
    ensures Display(Pending, "Widget #3") == "[Pending] Widget #3"
  {
  }

  // ---------------------------------------------------------------------------
  // The persisted record and its transitions, as values
  // ---------------------------------------------------------------------------

  /** The generic reference: the target's content type and primary key. */
  datatype Target = Target(contentType: ContentTypeId, objectId: nat)

  /** The database fields of one ModeratedObject. */
  datatype Record = Record(
    timestamp: Option<Time>,
    status: int,
    moderatedBy: Option<UserId>,
    moderationDate: Option<Time>,
    flagged: bool,
    flaggedBy: Option<UserId>,
    flaggedDate: Option<Time>,
    target: Target)

  /** The two notifications, each carrying the record as it was saved just before. */
  datatype Event = PostModeration(instance: Record) | PostFlag(instance: Record)

  /** The effect of _moderate on the saved fields: status, moderator and decision time
      are written together; flagging, creation time and target are left alone. */
  function Moderated(m: Record, status: int, user: UserId, now: Time): (m': Record)
    ensures m'.status == status && m'.moderatedBy == Some(user) && m'.moderationDate == Some(now)
    ensures m'.flagged == m.flagged && m'.flaggedBy == m.flaggedBy && m'.flaggedDate == m.flaggedDate
    ensures m'.timestamp == m.timestamp && m'.target == m.target
  {
    m.(status := status, moderatedBy := Some(user), moderationDate := Some(now))
  }

  /** The test `if STATUS_ON_FLAG:` on the configured auto-status: an unset value and
      a configured 0 (Pending) are both false. */
  predicate AutoStatusOn(statusOnFlag: Option<int>) {
    match statusOnFlag
    case None => false
    case Some(code) => code != 0
  }

  /** The effect of flag on the saved fields. The flag fields are always written. With
      the auto-status on, status and moderator change too, but the decision time does
      not: the source writes the flag time to a misspelled attribute that is not a field. */
  function Flagged(m: Record, statusOnFlag: Option<int>, user: UserId, now: Time): (m': Record)
    ensures m'.flagged && m'.flaggedBy == Some(user) && m'.flaggedDate == Some(now)
    ensures AutoStatusOn(statusOnFlag) ==> m'.status == statusOnFlag.value && m'.moderatedBy == Some(user)
    ensures !AutoStatusOn(statusOnFlag) ==> m'.status == m.status && m'.moderatedBy == m.moderatedBy
    ensures m'.moderationDate == m.moderationDate
    ensures m'.timestamp == m.timestamp && m'.target == m.target
  {
    var m1 := m.(flagged := true, flaggedBy := Some(user), flaggedDate := Some(now));
    if AutoStatusOn(statusOnFlag) then m1.(status := statusOnFlag.value, moderatedBy := Some(user))
    else m1
  }

  /** A configured auto-status of Pending is ignored by flag. */
  lemma FlagIgnoresPendingAutoStatus(m: Record, user: UserId, now: Time)
    ensures Flagged(m, Some(Pending), user, now).status == m.status
    ensures Flagged(m, Some(Pending), user, now).moderatedBy == m.moderatedBy
    ensures Flagged(m, Some(Pending), user, now) == Flagged(m, None, user, now)
  {
  }

  /** Any configured auto-status other than Pending is applied by flag, with the
      flagging user as moderator, while the decision time stays as it was. */
  lemma FlagAppliesNonZeroAutoStatus(m: Record, code: int, user: UserId, now: Time)
    requires code != Pending
    ensures Flagged(m, Some(code), user, now).status == code
    ensures Flagged(m, Some(code), user, now).moderatedBy == Some(user)
    ensures Flagged(m, Some(code), user, now).moderationDate == m.moderationDate
  {
  }

  /** With auto-status Rejected, flagging a never-moderated record leaves it with a
      moderator and status but no decision time. */
  lemma FlagAutoRejectLeavesNoDecisionTime(m: Record, user: UserId, now: Time)
    requires m.moderatedBy.None? && m.moderationDate.None?
    ensures Flagged(m, Some(Rejected), user, now).status == Rejected
    ensures Flagged(m, Some(Rejected), user, now).moderatedBy == Some(user)
    ensures Flagged(m, Some(Rejected), user, now).moderationDate.None?
  {
  }

  // ---------------------------------------------------------------------------
  // The notification channels
  // ---------------------------------------------------------------------------

  /** The post_moderation and post_flag signals, as the log of what was sent. */
  class Signals {
    var sent: seq<Event>

    constructor ()
      ensures sent == []
    {
      sent := [];
    }

    method Send(e: Event)
      modifies this
      ensures sent == old(sent) + [e]
    {
      sent := sent + [e];
    }
  }

  // ---------------------------------------------------------------------------
  // ModeratedObject
  // ---------------------------------------------------------------------------

  class ModeratedObject {
    var timestamp: Option<Time>
    var status: int
    var moderatedBy: Option<UserId>
    var moderationDate: Option<Time>
    var flagged: bool
    var flaggedBy: Option<UserId>
    var flaggedDate: Option<Time>
    var contentType: ContentTypeId
    var objectId: nat

    /** The attribute `moderated_date` that flag assigns: not a database field, so it
        is never saved and never read back. */
    var strayModeratedDate: Option<Time>

    /** How many times the record was saved. */
    var saves: nat

    /** The configured GATEKEEPER_STATUS_ON_FLAG, read once at start-up. */
    const statusOnFlag: Option<int>

    /** The saved fields: the abstraction the transitions are specified through. */
    function State(): Record
      reads this
    {
      Record(timestamp, status, moderatedBy, moderationDate, flagged, flaggedBy, flaggedDate,
             Target(contentType, objectId))
    }

    /** A record created and saved at `now` with the given status for `target`: not
        moderated, not flagged. */
    constructor (status: int, target: Target, now: Time, statusOnFlag: Option<int>)
      ensures State() == Record(Some(now), status, None, None, false, None, None, target)
      ensures this.statusOnFlag == statusOnFlag
      ensures strayModeratedDate.None? && saves == 1
    {
      this.timestamp := Some(now);
      this.status := status;
      this.moderatedBy := None;
      this.moderationDate := None;
      this.flagged := false;
      this.flaggedBy := None;
      this.flaggedDate := None;
      this.contentType := target.contentType;
      this.objectId := target.objectId;
      this.strayModeratedDate := None;
      this.saves := 1;
      this.statusOnFlag := statusOnFlag;
    }

    method Save()
      modifies this`saves
      ensures saves == old(saves) + 1
    {
      saves := saves + 1;
    }

    /** _moderate: record the decision, save, then send post_moderation. */
    method Moderate(status: int, user: UserId, now: Time, signals: Signals)
      modifies this, signals
      ensures State() == Moderated(old(State()), status, user, now)
      ensures signals.sent == old(signals.sent) + [PostModeration(State())]
      ensures saves == old(saves) + 1 && strayModeratedDate == old(strayModeratedDate)
    {
      this.status := status;
      this.moderatedBy := Some(user);
      this.moderationDate := Some(now);
      Save();
      signals.Send(PostModeration(State()));
    }

    method Approve(user: UserId, now: Time, signals: Signals)
      modifies this, signals
      ensures status == Approved && moderatedBy == Some(user) && moderationDate == Some(now)
      ensures State() == Moderated(old(State()), Approved, user, now)
      ensures signals.sent == old(signals.sent) + [PostModeration(State())]
      ensures saves == old(saves) + 1 && strayModeratedDate == old(strayModeratedDate)
    {
      Moderate(Approved, user, now, signals);
    }

    method Reject(user: UserId, now: Time, signals: Signals)
      modifies this, signals
      ensures status == Rejected && moderatedBy == Some(user) && moderationDate == Some(now)
      ensures State() == Moderated(old(State()), Rejected, user, now)
      ensures signals.sent == old(signals.sent) + [PostModeration(State())]
      ensures saves == old(saves) + 1 && strayModeratedDate == old(strayModeratedDate)
    {
      Moderate(Rejected, user, now, signals);
    }

    /** flag: mark the record, optionally apply the configured status, save, then send
        post_flag and never post_moderation. */
    method Flag(user: UserId, now: Time, signals: Signals)
      modifies this, signals
      ensures flagged && flaggedBy == Some(user) && flaggedDate == Some(now)
      ensures moderationDate == old(moderationDate)
      ensures State() == Flagged(old(State()), statusOnFlag, user, now)
      ensures signals.sent == old(signals.sent) + [PostFlag(State())]
      ensures strayModeratedDate == if AutoStatusOn(statusOnFlag) then Some(now) else old(strayModeratedDate)
      ensures saves == old(saves) + 1
    {
      this.flagged := true;
      this.flaggedBy := Some(user);
      this.flaggedDate := Some(now);
      if AutoStatusOn(statusOnFlag) {
        this.status := statusOnFlag.value;
        this.moderatedBy := Some(user);
        this.strayModeratedDate := this.flaggedDate;
      }
      Save();
      signals.Send(PostFlag(State()));
    }
  }

  // ---------------------------------------------------------------------------
  // ModeratedObjectManager.get_for_instance
  // ---------------------------------------------------------------------------

  /** A target instance: its content type and its primary key, None while unsaved. */
  datatype Instance = Instance(contentType: ContentTypeId, pk: Option<int>)

  predicate Matches(r: Record, obj: Instance) {
    r.target.contentType == obj.contentType && obj.pk == Some(r.target.objectId)
  }

  /** At most one stored record refers to the instance. */
  predicate UniqueFor(table: seq<Record>, obj: Instance) {
    forall i, j :: 0 <= i < j < |table| && Matches(table[i], obj) ==> !Matches(table[j], obj)
  }

  /** The moderation record of `obj` among the stored records, or None when it has none. */
  function GetForInstance(table: seq<Record>, obj: Instance): (r: Option<Record>)
    requires UniqueFor(table, obj)
    ensures r.None? <==> forall i :: 0 <= i < |table| ==> !Matches(table[i], obj)
    ensures r.Some? ==> r.value in table && Matches(r.value, obj)
    ensures r.Some? ==> forall i :: 0 <= i < |table| && Matches(table[i], obj) ==> table[i] == r.value
  {
    if table == [] then None
    else if Matches(table[0], obj) then Some(table[0])
    else
      assert forall i :: 0 < i < |table| ==> table[i] == table[1..][i - 1];
      GetForInstance(table[1..], obj)
  }
}
