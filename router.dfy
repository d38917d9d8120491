/** The bootstrap's fallback handler for form submissions: it acts only on the
    fixed custom id "github_modal". */
module Router {
  import opened Modal

  const FALLBACK_MODAL_ID := "github_modal"

  predicate FallbackClaims(customId: string) {
    customId == FALLBACK_MODAL_ID
  }

  /** No contest form id is the fallback's id, whatever the nonce, so the
      fallback never takes over a contest submission. */
  lemma FallbackIgnoresContestForms(nonce: string)
    ensures !FallbackClaims(ModalId(nonce))
    ensures NonceOf(FALLBACK_MODAL_ID).None?
  {
  }
}
