/** Correlating a popup form submission with the Attend click that opened it:
    the form's custom id is the prefix "github_modal_" followed by the click's
    own interaction id (the nonce), and the wait accepts only a submission
    carrying that id. */
module Modal {
  import opened Wrappers

  const MODAL_PREFIX := "github_modal_"

  /** The custom id of the form opened for the click with this nonce. */
  function ModalId(nonce: string): string {
    MODAL_PREFIX + nonce
  }

  /** The nonce a contest form id carries, if it is one. */
  function NonceOf(customId: string): (r: Option<string>)
    ensures r.Some? ==> ModalId(r.value) == customId
  {
    if |customId| >= |MODAL_PREFIX| && customId[..|MODAL_PREFIX|] == MODAL_PREFIX
    then Some(customId[|MODAL_PREFIX|..])
    else None
  }

  /** Every form id the command builds is recognised, with its own nonce. */
  lemma NonceOfModalId(nonce: string)
    ensures NonceOf(ModalId(nonce)) == Some(nonce)
  {
    assert ModalId(nonce)[..|MODAL_PREFIX|] == MODAL_PREFIX;
    assert ModalId(nonce)[|MODAL_PREFIX|..] == nonce;
  }

  /** Two clicks get the same form id exactly when they have the same nonce. */
  lemma ModalIdInjective(a: string, b: string)
    ensures ModalId(a) == ModalId(b) <==> a == b
  {
    NonceOfModalId(a);
    NonceOfModalId(b);
  }

  /** A form submission as it reaches the bot: its custom id and the single
      text field holding the repository link. */
  datatype Submission = Submission(customId: string, githubLink: string)

  /** The position of the first submission with the given custom id, or the
      length of the sequence when there is none. */
  function FirstWithId(arrivals: seq<Submission>, customId: string): (k: nat)
    ensures k <= |arrivals|
    ensures forall j :: 0 <= j < k ==> arrivals[j].customId != customId
    ensures k < |arrivals| ==> arrivals[k].customId == customId
    decreases |arrivals|
  {
    if arrivals == [] then 0
    else if arrivals[0].customId == customId then 0
    else 1 + FirstWithId(arrivals[1..], customId)
  }

  /** Waiting for the form of the click with this nonce: `arrivals` are the
      submissions that reach the bot before the wait times out, in order; the
      first whose id is this click's form id is taken, and None stands for a
      timeout with no such submission. */
  function AwaitModal(arrivals: seq<Submission>, nonce: string): Option<string> {
    var k := FirstWithId(arrivals, ModalId(nonce));
    if k < |arrivals| then Some(arrivals[k].githubLink) else None
  }

  /** A link is accepted only from a submission that carries this click's own
      nonce, and nothing is accepted when no such submission arrives. */
  lemma AwaitModalCorrelates(arrivals: seq<Submission>, nonce: string)
    ensures AwaitModal(arrivals, nonce).None?
            <==> forall i :: 0 <= i < |arrivals| ==> arrivals[i].customId != ModalId(nonce)
    ensures AwaitModal(arrivals, nonce).Some? ==>
              exists i :: 0 <= i < |arrivals|
                && arrivals[i] == Submission(ModalId(nonce), AwaitModal(arrivals, nonce).value)
                && NonceOf(arrivals[i].customId) == Some(nonce)
  {
    var k := FirstWithId(arrivals, ModalId(nonce));
    if k < |arrivals| {
      NonceOfModalId(nonce);
      assert arrivals[k] == Submission(ModalId(nonce), AwaitModal(arrivals, nonce).value);
    }
  }

  /** Submissions of forms opened by other clicks never complete this wait. */
  lemma OtherClicksIgnored(arrivals: seq<Submission>, nonce: string)
    requires forall i :: 0 <= i < |arrivals| ==> NonceOf(arrivals[i].customId) != Some(nonce)
    ensures AwaitModal(arrivals, nonce) == None
  {
    NonceOfModalId(nonce);
    AwaitModalCorrelates(arrivals, nonce);
  }
}
