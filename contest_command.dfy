/** The `contest` command as the bot runs it: one object per invocation whose
    participant set and posted message the collector's callbacks change in
    place. Each method is one callback, run to completion, and does exactly
    what the matching step of ContestSpec describes. */
module ContestCommand {
  import opened Wrappers
  import opened Rendering
  import opened Modal
  import opened ContestSpec

  datatype WithdrawOutcome = NotAttending | Withdrawn

  class Contest {
    const endTs: int
    const link: string
    var participants: set<UserId>
    var status: Status
    /** The current content of the posted contest message. */
    var message: Embed

    ghost function State(): Snapshot
      reads this
    {
      Snapshot(endTs, link, participants, status)
    }

    /** The posted message always shows the current state. */
    ghost predicate Valid()
      reads this
    {
      message == View(State())
    }

    constructor (endTs: int, link: string)
      ensures Valid() && State() == Initial(endTs, link)
    {
      this.endTs := endTs;
      this.link := link;
      participants := {};
      status := Ongoing;
      message := Render(link, endTs, Ongoing, 0);
    }

    method Attend(user: UserId, clickId: string, arrivals: seq<Submission>, resultsChannel: bool)
      returns (out: seq<Effect>)
      requires Valid() && status == Ongoing
      modifies this
      ensures Valid()
      ensures var t := AttendStep(old(State()), user, clickId, arrivals, resultsChannel);
        State() == t.next && out == t.effects
    {
      out := [ShowModal(ModalId(clickId))];
      var submitted := AwaitModal(arrivals, clickId);
      match submitted
      case None =>
        out := out + [FollowUp(SUBMISSION_FAILED_REPLY)];
      case Some(githubLink) =>
        participants := participants + {user};
        message := Render(link, endTs, Ongoing, |participants|);
        out := out + [EditMessage(message), Reply(THANKS_REPLY)];
        if resultsChannel {
          out := out + [NotifyResults(JoinNotice(user, githubLink))];
        }
    }

    method Withdraw(user: UserId, resultsChannel: bool)
      returns (outcome: WithdrawOutcome, out: seq<Effect>)
      requires Valid() && status == Ongoing
      modifies this
      ensures Valid()
      ensures outcome == if user in old(participants) then Withdrawn else NotAttending
      ensures var t := WithdrawStep(old(State()), user, resultsChannel);
        State() == t.next && out == t.effects
    {
      if user !in participants {
        return NotAttending, [Reply(NOT_ATTENDING_REPLY)];
      }
      participants := participants - {user};
      message := Render(link, endTs, Ongoing, |participants|);
      out := [EditMessage(message), Reply(WITHDRAWN_REPLY)];
      if resultsChannel {
        out := out + [NotifyResults(WithdrawNotice(user))];
      }
      outcome := Withdrawn;
    }

    method End() returns (out: seq<Effect>)
      requires Valid() && status == Ongoing
      modifies this
      ensures Valid()
      ensures var t := EndStep(old(State())); State() == t.next && out == t.effects
    {
      status := Ended;
      message := Render(link, endTs, Ended, |participants|);
      out := [EditMessage(message), Announce(ClosingText(link, |participants|))];
    }

    /** The collector's callback for one click on the contest message. */
    method Collect(click: Click, arrivals: seq<Submission>, resultsChannel: bool)
      returns (out: seq<Effect>)
      requires Valid() && status == Ongoing
      modifies this
      ensures Valid()
      ensures var t := CollectStep(old(State()), click, arrivals, resultsChannel);
        State() == t.next && out == t.effects
    {
      if !Collected(click.customId) {
        return [];
      }
      if click.customId == ATTEND_ID {
        out := Attend(click.user, click.id, arrivals, resultsChannel);
      } else {
        var outcome;
        outcome, out := Withdraw(click.user, resultsChannel);
      }
    }
  }

  /** The command itself: a falsy duration is refused with a private hint and
      nothing is posted; otherwise the contest message is posted with its
      buttons and the invoker is told privately that it started. The current
      time and the parsed duration (None when unparsable) are inputs. */
  method Execute(nowMs: int, duration: Option<int>, link: string)
    returns (contest: Contest?, out: seq<Effect>)
    ensures Validate(nowMs, duration).Rejected? ==>
              contest == null && out == [Reply(INVALID_TIME_REPLY)]
    ensures Validate(nowMs, duration).Started? ==>
              contest != null && fresh(contest) && contest.Valid()
              && contest.State() == Initial(Validate(nowMs, duration).endTs, link)
              && out == [PostMessage(contest.message), Reply(STARTED_REPLY)]
  {
    if duration == None || duration == Some(0) {
      return null, [Reply(INVALID_TIME_REPLY)];
    }
    var endTs := EndTimestamp(nowMs, duration.value);
    contest := new Contest(endTs, link);
    out := [PostMessage(contest.message), Reply(STARTED_REPLY)];
  }
}
