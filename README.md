# django-gatekeeper: the ModeratedObject record in Dafny

django-gatekeeper attaches a moderation record, `ModeratedObject`, to any other
record of a Django site. The record points at its target through a generic reference
(content type and object id). It holds the moderation status: 1 Approved, 0 Pending
or −1 Rejected. It also holds who took the last decision and when, and whether the
target was flagged, by whom and when. Three calls change it:

- `approve` and `reject` go through `_moderate`. They write the status, the moderator and the decision time, save, and send `post_moderation`.
- `flag` marks the record, records the flagger and the flag time, saves, and sends `post_flag`.
- When the site setting `GATEKEEPER_STATUS_ON_FLAG` is truthy, `flag` also writes that status and the moderator. It still sends no `post_moderation`.

The model has two modules:

- `Models` (`models.dfy`) covers the status choices and their display labels, and the `__unicode__` display string.
  - The saved fields are a value (`Record`). `Moderated` and `Flagged` give the effect of each transition on it.
  - `ModeratedObject` is a class whose methods change its fields in place. `State()` reads its nine saved fields back as a `Record`, and each method's contract gives the new `State()` as `Moderated` or `Flagged` of the old one.
  - `Signals` is the log of notifications sent. Each entry carries a snapshot of the record as it was just saved.
  - `GetForInstance` is the manager's lookup of a record by target.
- `History` (`history.dfy`) runs a sequence of approve, reject and flag calls from a given record. Lemmas there state what every such sequence does to the record and to the notification log.

Behaviour kept exactly as the code has it:

- The guard `if STATUS_ON_FLAG:` tests truthiness (`AutoStatusOn`, the definition of that test). A configured 0 (Pending) is therefore ignored, like an unset value (`FlagIgnoresPendingAutoStatus`), and every other configured value is applied (`FlagAppliesNonZeroAutoStatus`).
- In the auto-status branch, `flag` assigns the flag time to `moderated_date`. That is not the field `moderation_date`. The model keeps it as the separate attribute `strayModeratedDate`, which is never saved, so the saved decision time is left unchanged. As a result, a never-moderated record flagged with auto-status Rejected ends with a moderator but no decision time (`FlagAutoRejectLeavesNoDecisionTime`). This is kept for compatibility, not corrected.
- `get_status_display` gives the raw value when the status is not one of the choices. Such a value can come from several paths: the status supplied at creation, the auto-status branch of `flag`, a call of `_moderate` with any integer, or code that assigns `status` directly. The model renders it in decimal (`DecimalText`).

Inputs from outside the code become parameters: the clock (`now`), the acting user's id, the configured auto-status (`Option<int>`, `None` when unset), the target's string form for the display, and the table of stored records for the lookup.

## Model

| member | source | states |
|---|---|---|
| Models.ChoiceLabel | gatekeeper/models.py:9-13 | the label is found exactly when some choice has the code, and it is that choice's label |
| Models.StatusLabel | gatekeeper/models.py:9-13 | exactly the codes 1, 0, −1 have a label, and they are "Approved", "Pending" and "Rejected" |
| Models.NatText | gatekeeper/models.py:50 | the rendering of a natural number is all digits, without leading zeros, and the digits denote the number |
| Models.DecimalText | gatekeeper/models.py:50 | the rendering of an integer is canonical decimal text that denotes the integer: a leading '-' exactly when it is negative, and no leading zeros |
| Models.StatusDisplay | gatekeeper/models.py:50 | a choice code shows as its STATUS_CHOICES label; any other code shows as its canonical decimal rendering. The text has no ']' and starts with a capital letter exactly for the three choices |
| Models.StatusDisplayInjective | gatekeeper/models.py:50 | two statuses with the same display text are the same status |
| Models.Display | gatekeeper/models.py:49-50 | the definition of `__unicode__`, "[label] target"; its contract is that the text reads back into the status display and the target's string. Its consequences are `DisplayInjective` and `DisplayPendingWidget` |
| Models.DisplayInjective | gatekeeper/models.py:49-50 | for every status, equal display strings mean equal statuses and equal target strings |
| Models.DisplayPendingWidget | gatekeeper/models.py:49-50 | a Pending record whose target shows as "Widget #3" displays as "[Pending] Widget #3" |
| Models.Moderated | gatekeeper/models.py:56-59 | a decision writes status, moderator and decision time together and leaves the flag fields, the timestamp and the target unchanged |
| Models.Flagged | gatekeeper/models.py:63-70 | flag sets flagged, flagger and flag time. With the auto-status on it sets status to the configured value and the moderator to the user. Otherwise status and moderator are unchanged. The decision time, timestamp and target are never changed |
| Models.FlagIgnoresPendingAutoStatus | gatekeeper/models.py:67 | flagging with a configured Pending gives the same record as flagging with no auto-status, so status and moderator are unchanged |
| Models.FlagAppliesNonZeroAutoStatus | gatekeeper/models.py:67-70 | for every configured auto-status other than 0, flag sets status to it and the moderator to the flagging user, and leaves the decision time as it was |
| Models.FlagAutoRejectLeavesNoDecisionTime | gatekeeper/models.py:67-70 | flagging a never-moderated record with auto-status Rejected gives status Rejected and a moderator, but still no decision time |
| Models.Signals.Send | gatekeeper/models.py:61 | a sent notification is appended to the log, and nothing else in the log changes |
| Models.ModeratedObject.constructor | gatekeeper/models.py:31-43 | a new record has the given status, target and creation time. It is not moderated and not flagged, and it has been saved once |
| Models.ModeratedObject.Save | gatekeeper/models.py:60 | each save is counted once |
| Models.ModeratedObject.Moderate | gatekeeper/models.py:56-61 | the new saved fields are `Moderated` of the old ones. The record is saved once, and exactly one post_moderation carrying the new fields is appended |
| Models.ModeratedObject.Approve | gatekeeper/models.py:75-76 | status becomes 1, the moderator becomes the user and the decision time becomes now. Nothing else changes. One save and exactly one post_moderation |
| Models.ModeratedObject.Reject | gatekeeper/models.py:78-79 | status becomes −1, the moderator becomes the user and the decision time becomes now. Nothing else changes. One save and exactly one post_moderation |
| Models.ModeratedObject.Flag | gatekeeper/models.py:63-73 | the new saved fields are `Flagged` of the old ones, and the decision time is unchanged. The stray `moderated_date` gets the flag time only when the auto-status is on. One save and exactly one post_flag, never a post_moderation |
| Models.GetForInstance | gatekeeper/models.py:19-25 | gives None exactly when no stored record has the instance's content type and primary key. Otherwise it gives a stored record that has them, and every record that has them equals it |
| History.Step | gatekeeper/models.py:56-79 | one approve, reject or flag call. The notification carries the record as just saved and is post_moderation exactly for approve and reject. Approve writes status 1 and reject −1, each with its user and time as moderator and decision time, leaving the flag fields alone. Flag records its user and time as flagger and flag time, keeps the decision time, and writes the auto-status and moderator only when the auto-status is on. No call changes the timestamp or the target |
| History.Run | gatekeeper/models.py:56-79 | a sequence of calls sends one notification per call, the last one carrying the final record; no calls leave the record as it was |
| History.RunSendsOneEventPerCall | gatekeeper/models.py:56-79 | any sequence of calls sends one notification per call, in order. The i-th is post_moderation exactly when the i-th call is approve or reject, so flag never sends one |
| History.RunKeepsIdentity | gatekeeper/models.py:56-79 | no sequence of calls changes the timestamp or the target |
| History.RunFlaggedSticky | gatekeeper/models.py:63-65 | after any sequence of calls, the record is flagged exactly when it was flagged before or one of the calls was a flag |
| History.RunDecisionTime | gatekeeper/models.py:56-70 | after any sequence of calls, the decision time is that of the last approve or reject. It is unchanged when there was none, whatever the flags did |
| History.RunKeepsStatusChoice | gatekeeper/models.py:9-15 | a record with a choice status keeps a choice status through any calls, as long as the auto-status is unset or is itself a choice |
| History.RepeatSameRecordTwoEvents | gatekeeper/models.py:56-61 | repeating a call with the same user and time gives the same record, but two notifications instead of one |

## Left out

- Persistence: `save()` is modelled only as a counter. Database storage, `objects.get` and the `Meta.ordering` by timestamp are not modelled, because they are the ORM's behaviour (gatekeeper/models.py:46-47, 60, 72).
- Resolving the generic reference to a live object is not modelled, because it belongs to Django's content-types framework. The target is a (content type id, object id) pair, and `ContentType.objects.get_for_model` is taken to give the instance's content type id directly.
- `__unicode__` receives the target's string form as a parameter. It is not computed from the target.
- `get_absolute_url` is not modelled, because it only forwards to a method that the unknown target may or may not have.
- Signal dispatch to receivers is not modelled. Only the emission is recorded, with a snapshot of the saved fields as it was at the send. Receivers that later read the live instance (or its unsaved `moderated_date` attribute) are outside the model.
- `datetime.datetime.now()` is not modelled. Each transition receives the current time as `now`.
- The setting `GATEKEEPER_STATUS_ON_FLAG` is read once at start-up. It is modelled as an `Option<int>` fixed when the object is built. Settings values that are not integers are not modelled.
- Models.GetForInstance: a precondition assumes at most one stored record per target. The uniqueness is a convention only, and `MultipleObjectsReturned`, which the code does not catch, is not modelled.
- `get_for_instance` is declared without `self`, so it cannot be called through the manager as written. The model gives the lookup the behaviour its body describes.
- A `None` user passed to a transition is not modelled. Actors are user ids.
- Concurrent updates of one record (last write wins) are not modelled, because each call runs to completion in one request.
