/** Command ids by the tickets that they are taken from: the counter's values, which the 16-bit id wraps. */
module TicketIds {
  import opened IoProtocol

  /** The id that a request shows, idle or not, whose last ticket is `own`. */
  function IdOf(own: Option<nat>): nat {
    match own
    case None => UNUSED_ID
    case Some(ticket) => ticket % ID_COUNT
  }

  /** A request shows a ticket's id without having the ticket: its own last ticket is a multiple of 65536 away, or it
   was never used and the id is 0xFFFF. */
  predicate Shadows(own: Option<nat>, ticket: nat) {
    match own
    case None => ticket % ID_COUNT == UNUSED_ID
    case Some(other) => other != ticket && (ticket - other) % ID_COUNT == 0
  }

  lemma ShowsIff(own: Option<nat>, ticket: nat)
    requires own != Some(ticket)
    ensures IdOf(own) == ticket % ID_COUNT <==> Shadows(own, ticket)
  {
  }

  /** Different tickets less than 65536 apart have different ids. */
  lemma NearIds(a: nat, b: nat)
    requires a != b && a - b < ID_COUNT && b - a < ID_COUNT
    ensures a % ID_COUNT != b % ID_COUNT
  {
  }
}
