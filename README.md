# Contest countdown command: a verified model

This project models the `contest` slash command of a single-guild chat bot. An
administrator gives a duration and a competition link. The bot then posts a
countdown message with three embed fields (End Time, Status, Participants) and
two buttons (Attend, Withdraw). While the timer runs it keeps a set of
attending users. Attend opens a popup form whose submission is matched to the
click by a nonce. Withdraw removes an attending user. When the timer expires
the message reads "Ended", the buttons are removed and the final count is
announced.

The model has two layers:

- `ContestSpec` holds the value-level description. `Snapshot` is the contest
  state. `AttendStep`, `WithdrawStep`, `EndStep` and `CollectStep` say what
  each collector callback does to the state and which messages it makes the
  bot send (`Effect`). `Run` applies a sequence of clicks.
- `ContestCommand.Contest` is the object the command keeps. Its fields are the
  participant set, the collector's status and the content of the posted
  message, and its methods change them in place. Each method is proved to
  produce exactly the state and messages of the matching step. `Valid()`
  states that the posted message always shows the current state.

Supporting modules:

- `Decimal` models how integers render inside template literals, with the
  inverse `Value`.
- `Rendering` builds the embed fields, the buttons and the texts.
- `Modal` covers the form id `github_modal_<nonce>` and the wait for the
  matching submission.
- `Router` covers the bootstrap's fallback form handler.

Inputs that come from outside the command are parameters:

- the current time in milliseconds;
- the duration as the parser returns it (`None` when it cannot read it);
- the submissions that arrive during a form wait, in order;
- whether the results channel is found.

The duration check follows the code, not the looser wording "positive
duration". Only a falsy result is refused: an unreadable duration or zero. A
negative duration is accepted, and its end time lies in the past.

Timestamps are rounded down as `Math.floor` rounds them, negatives included.
Dafny's `/` by the positive divisor 1000 agrees with that. The current time
and the duration are each rounded before they are added. So the end time can
be one second earlier than the rounded sum; see `EndTimestampNearSum` and
`EndTimestampCanLagSum`.

## Model

| member | source | states |
|---|---|---|
| `ContestSpec.Validate` | commands/contest.js:34-40 | rejected with the format hint exactly when the duration is unreadable or zero; otherwise the end timestamp of the two floored second counts |
| `ContestSpec.FloorSeconds` | commands/contest.js:40 | the result is the floor of ms/1000: `sec*1000 <= ms < sec*1000 + 1000` |
| `ContestSpec.EndTimestampNearSum` | commands/contest.js:40 | flooring now and the duration separately gives the floored sum or one second less |
| `ContestSpec.EndTimestampCanLagSum` | commands/contest.js:40 | the one-second lag happens (999 ms + 999 ms) |
| `ContestSpec.InitialView` | commands/contest.js:49-67 | a fresh contest shows the End Time field, Status "Ongoing", Participants "0" and buttons `attend`, `unattend` |
| `ContestSpec.CollectStep` | commands/contest.js:74-78 | a click never changes end time or link, and the contest stays Ongoing while collecting |
| `ContestSpec.ContestButtonsCollected` | commands/contest.js:57-74 | both buttons the message offers pass the collector's filter |
| `ContestSpec.AttendIdempotent` | commands/contest.js:100-131 | a first successful attend adds exactly the user; a second leaves the state as it was, while each still posts its own join notice |
| `ContestSpec.TwoUsersCounted` | commands/contest.js:108-131 | two distinct users who submit their forms give a count of 2 shown in the field, with one join notice each |
| `ContestSpec.AttendWithoutSubmission` | commands/contest.js:98-136 | with no submission carrying this click's form id, the state is unchanged, the message is not edited and only the follow-up is sent |
| `ContestSpec.WithdrawRemovesOnlyMember` | commands/contest.js:139-154 | a non-member is rejected with no change; a member is removed and nothing else, and the count drops by one |
| `ContestSpec.AttendThenWithdrawRestores` | commands/contest.js:108-143 | attend by a new user followed by their withdraw restores the original state |
| `ContestSpec.AttendEditsAreViews` | commands/contest.js:108-118 | the edit a successful attend makes shows the state it leaves |
| `ContestSpec.WithdrawEditsAreViews` | commands/contest.js:143-153 | the edit a withdrawal makes shows the state it leaves |
| `ContestSpec.CollectEditsAreViews` | commands/contest.js:77-153 | every edit any click makes shows the state the click leaves |
| `ContestSpec.OngoingViewShowsState` | commands/contest.js:111-116 | a running contest's message keeps the End Time field, reads "Ongoing", offers the buttons and shows the count |
| `ContestSpec.CollectEditsShowState` | commands/contest.js:111-153 | every edit a click makes shows the new state, keeps the End Time field, reads "Ongoing", keeps the buttons and shows the participant count |
| `ContestSpec.EndShowsFinalCount` | commands/contest.js:170-186 | at the end the message reads "Ended" without buttons, and both its count and the announcement give the number of participants |
| `ContestSpec.ClosingForThree` | commands/contest.js:181 | with three participants the announcement closes with "3 participants have attended this contest." |
| `ContestSpec.Run` | commands/contest.js:77-168 | a run of clicks keeps end time and link and leaves the contest Ongoing |
| `ContestSpec.CollectStepJoined` | commands/contest.js:100-108 | one click adds no user except the clicker after their own form was submitted |
| `ContestSpec.RunParticipantsJoined` | commands/contest.js:100-108 | anyone attending after a run attended before it or made an attend click whose own form was submitted |
| `ContestSpec.LifetimeAnnouncesAttendees` | commands/contest.js:72-186 | over a whole contest the announcement states the final count, and every counted user joined through their own form |
| `Decimal.FromNat` | commands/contest.js:115 | a count renders as digits with no leading zero, and starts with '0' only for zero |
| `Decimal.FromInt` | commands/contest.js:50 | an integer renders as non-empty text |
| `Decimal.ValueOfFromNat` | commands/contest.js:115 | reading a rendered count back gives the count |
| `Decimal.FromNatOfValue` | commands/contest.js:150 | every canonical digit string is the rendering of its value (together with the row above: a bijection) |
| `Decimal.FromNatInjective` | commands/contest.js:175 | distinct counts render differently |
| `Decimal.FromIntInjective` | commands/contest.js:50 | distinct end timestamps render differently, negatives included |
| `Rendering.ParticipantsShowCount` | commands/contest.js:111-116 | the Participants field is canonical and reads back as exactly the count |
| `Rendering.EndTimeTextInjective` | commands/contest.js:50 | the End Time markup determines the timestamp |
| `Rendering.RenderDeterminesState` | commands/contest.js:171-177 | two renderings are equal exactly when end time, status and count are equal |
| `Rendering.ClosingTextStatesCount` | commands/contest.js:179-182 | two announcements for the same link are equal exactly when their counts are |
| `Modal.NonceOf` | commands/contest.js:83 | a recognised form id is the form id of the nonce returned |
| `Modal.NonceOfModalId` | commands/contest.js:80-83 | every form id built from a nonce is recognised with that nonce |
| `Modal.ModalIdInjective` | commands/contest.js:83 | two clicks get the same form id exactly when their nonces are equal |
| `Modal.FirstWithId` | commands/contest.js:100-103 | the index of the first submission carrying the id, with none before it, or the length when there is none |
| `Modal.AwaitModalCorrelates` | commands/contest.js:100-105 | the wait yields nothing exactly when no submission carries this click's form id; a yielded link comes from a submission carrying it, whose nonce is the click's |
| `Modal.OtherClicksIgnored` | commands/contest.js:102 | submissions of forms with other nonces never complete the wait |
| `Router.FallbackIgnoresContestForms` | index.js:54-56 | no contest form id equals the fallback's `github_modal`, and the fallback id is not a contest form id |
| `ContestCommand.Contest.constructor` | commands/contest.js:45-72 | a new contest is Ongoing with no participants and its message shows that |
| `ContestCommand.Contest.Attend` | commands/contest.js:78-136 | the new state and the messages sent are those of `AttendStep`, and the message still shows the state |
| `ContestCommand.Contest.Withdraw` | commands/contest.js:138-166 | `Withdrawn` exactly for a member, and the new state and messages are those of `WithdrawStep` |
| `ContestCommand.Contest.End` | commands/contest.js:170-186 | the new state and messages are those of `EndStep` |
| `ContestCommand.Contest.Collect` | commands/contest.js:74-78 | a click dispatched by its button id has the effect of `CollectStep` |
| `ContestCommand.Execute` | commands/contest.js:31-75 | a falsy duration gives only the private hint and no contest; otherwise a fresh contest in its initial state, its message posted, then the private "Contest started!" |

## Left out

- The duration parser is a library outside this repository. Its result is an input: `None` for unreadable text, otherwise whole milliseconds. Fractional millisecond results are not modelled.
- Floating point: JavaScript numbers are doubles. The model uses unbounded integers, which agree for the safe-integer timestamps involved.
- The clock is an input (`nowMs`).
- Platform I/O is modelled only as the `Effect` log: channel lookups, sends, edits, replies, follow-ups and showing the form. Colours, titles, footers, the logo attachment and button styles are not modelled. Failures of these calls are not modelled either; a failed edit would leave the count stale. A form wait that fails for any reason is treated as a wait with no matching submission.
- Asynchronous interleaving is not modelled. Each callback runs to completion as one step. So overlapping form waits, and a form wait that outlives the collector, are not covered. The source lets such a late submission still add the user and rewrite the status as "Ongoing" after the end; the model's `Attend` requires a running collector.
- The timer itself is not modelled. `End` is the collector's end callback, fired once.
- The bootstrap in index.js is not modelled beyond the fallback id check: loading command files, logging in, registering commands, command dispatch with its error reply, and the fallback's forwarding of a field to the results channel.
