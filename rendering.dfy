/** What the contest message and its notices look like: the three embed fields
    (End Time, Status, Participants), the Attend/Withdraw buttons, and the texts
    the bot posts. Colours, title, footer and the logo attachment are not part
    of this model. */
module Rendering {
  import opened Decimal

  /** A user's platform identifier (a snowflake, kept as text). */
  type UserId = string

  datatype Status = Ongoing | Ended

  datatype Field = Field(name: string, value: string, inline: bool)

  datatype Button = Button(customId: string, caption: string)

  /** The part of the posted message the bot edits: description, fields and
      the component row (empty once the buttons are removed). */
  datatype Embed = Embed(description: string, fields: seq<Field>, buttons: seq<Button>)

  const ATTEND_ID := "attend"
  const WITHDRAW_ID := "unattend"

  const CONTEST_BUTTONS := [Button(ATTEND_ID, "Attend"), Button(WITHDRAW_ID, "Withdraw")]

  const INVALID_TIME_REPLY := "Invalid time format. Please use a valid format (e.g., 1d, 1h, 1m)."
  const STARTED_REPLY := "Contest started!"
  const THANKS_REPLY := "Thank you for submitting your GitHub link! You are now participating."
  const SUBMISSION_FAILED_REPLY := "Something went wrong while handling your submission."
  const NOT_ATTENDING_REPLY := "You are not currently attending."
  const WITHDRAWN_REPLY := "You have withdrawn from the contest."

  function StatusText(status: Status): string {
    match status
    case Ongoing => "Ongoing"
    case Ended => "Ended"
  }

  /** The platform's full-date timestamp markup for a time in whole seconds. */
  function EndTimeText(endTs: int): string {
    "<t:" + FromInt(endTs) + ":F>"
  }

  function Description(link: string): string {
    "This contest has been started [here](" + link
      + "). To attend, please press the attend button and link us your GitHub repository there."
  }

  function Fields(endTs: int, status: Status, count: nat): seq<Field> {
    [ Field("End Time", EndTimeText(endTs), false),
      Field("Status", StatusText(status), true),
      Field("Participants", FromNat(count), true) ]
  }

  /** The message as it stands for a contest in the given state: the buttons
      are attached while the contest runs and stripped when it has ended. */
  function Render(link: string, endTs: int, status: Status, count: nat): Embed {
    Embed(Description(link), Fields(endTs, status, count),
          if status == Ongoing then CONTEST_BUTTONS else [])
  }

  /** A user mention, as a user object renders inside a template literal. */
  function Mention(user: UserId): string {
    "<@" + user + ">"
  }

  function JoinNotice(user: UserId, githubLink: string): string {
    Mention(user) + " has joined the contest with their GitHub repository link: " + githubLink
  }

  function WithdrawNotice(user: UserId): string {
    Mention(user) + " has withdrawn from the contest."
  }

  function ClosingPrefix(link: string): string {
    "[This competition](" + link
      + ") has come to an end! I wish everyone the best who attended! "
  }

  const CLOSING_SUFFIX := " participants have attended this contest."

  /** The public announcement that closes a contest. */
  function ClosingText(link: string, count: nat): string {
    ClosingPrefix(link) + FromNat(count) + CLOSING_SUFFIX
  }

  /** The Participants field reads back as exactly the count it was drawn from. */
  lemma ParticipantsShowCount(link: string, endTs: int, status: Status, count: nat)
    ensures var e := Render(link, endTs, status, count);
      |e.fields| == 3 && e.fields[2].name == "Participants"
      && IsCanonical(e.fields[2].value) && Value(e.fields[2].value) == count
  {
    ValueOfFromNat(count);
  }

  lemma EndTimeTextInjective(a: int, b: int)
    ensures EndTimeText(a) == EndTimeText(b) <==> a == b
  {
    if EndTimeText(a) == EndTimeText(b) {
      var ta, tb := EndTimeText(a), EndTimeText(b);
      assert FromInt(a) == ta[3..|ta| - 3];
      assert FromInt(b) == tb[3..|tb| - 3];
      FromIntInjective(a, b);
    }
  }

  /** The rendered message determines the end time, the status and the count:
      two contests state that look alike on screen are the same state. */
  lemma RenderDeterminesState(link: string, endTs: int, status: Status, count: nat,
                              endTs': int, status': Status, count': nat)
    ensures Render(link, endTs, status, count) == Render(link, endTs', status', count')
            <==> endTs == endTs' && status == status' && count == count'
  {
    if Render(link, endTs, status, count) == Render(link, endTs', status', count') {
      var f, f' := Fields(endTs, status, count), Fields(endTs', status', count');
      assert f[0].value == f'[0].value && f[2].value == f'[2].value;
      EndTimeTextInjective(endTs, endTs');
      FromNatInjective(count, count');
      assert StatusText(status) == f[1].value;
    }
  }

  /** The closing announcement names the count it was given and no other. */
  lemma ClosingTextStatesCount(link: string, m: nat, n: nat)
    ensures ClosingText(link, m) == ClosingText(link, n) <==> m == n
  {
    if ClosingText(link, m) == ClosingText(link, n) {
      var p, tm, tn := ClosingPrefix(link), ClosingText(link, m), ClosingText(link, n);
      var k := |CLOSING_SUFFIX|;
      assert FromNat(m) == tm[|p|..|tm| - k];
      assert FromNat(n) == tn[|p|..|tn| - k];
      FromNatInjective(m, n);
    }
  }
}
