/**
 The event call-to-action panel of a single event page, lifted out of its
 component as total functions over an explicit party snapshot.

 Given the party, the viewer's own participant entry (if any) and whether the
 viewer administers the party, the panel shows three things: what sits in the
 RSVP slot, which body message appears below it, and whether the admin
 "finalize" control appears. Each is a datatype variant here instead of
 rendered markup.
 */
module EventCta {
  import opened Wrappers
  import opened JsValues

  /** The participant-status constants the panel switches on. Their exact
      spellings live outside this model; all the panel relies on is that they
      are three distinct non-empty strings. */
  const Registered: JsValue := Str("REGISTERED")
  const ShowedUp: JsValue := Str("SHOWED_UP")
  const WithdrawnPayout: JsValue := Str("WITHDRAWN_PAYOUT")

  /** The status is one of the three constants above. */
  predicate IsNamedStatus(status: JsValue) {
    status == Registered || status == ShowedUp || status == WithdrawnPayout
  }

  /** A participant entry; its `status` is whatever value the entry holds,
      `Undefined` when it has none. */
  datatype Participant = Participant(address: string, status: JsValue)

  /** The read-only party snapshot the panel is rendered from. `deposit` is an
      amount in the smallest unit; `participantLimit` is taken as given, with
      no positivity check, because the panel performs none. */
  datatype Party = Party(
    address: string,
    deposit: nat,
    participants: seq<Participant>,
    participantLimit: int,
    ended: bool,
    cancelled: bool)

  /** The three party helpers the panel calls, whose definitions are not part
      of this model. They are parameters, so no attendance rule or share
      formula is assumed; only their result types are fixed here (an integer
      count, an integer share, a list of natural-number maps). */
  datatype PartyUtils = PartyUtils(
    numAttended: seq<Participant> -> int,
    winningShare: (nat, nat, int) -> int,
    finalizeMaps: seq<Participant> -> seq<nat>)

  /** What the RSVP slot shows. */
  datatype RsvpSlot =
    | NoRsvp                                        // the empty string
    | Missed                                        // "You didn't show up"
    | WithdrawPayout(party: string, amount: int)    // the payout withdrawal action
    | PayoutWithdrawn                               // "You have withdrawn your payout!"
    | Rsvp(party: string)                           // the RSVP action
    | Going                                         // "You're going"
    | ShowedUpNotice                                // "You have showed up!"
  {
    /** Variants only the ended event can produce. */
    predicate IsEndedVariant() { Missed? || WithdrawPayout? || PayoutWithdrawn? }

    /** Variants only the active event can produce. */
    predicate IsActiveVariant() { Rsvp? || Going? || ShowedUpNotice? }
  }

  /** The body message under the RSVP slot. */
  datatype Body =
    | CancelledNotice
    | EndedSummary(numWent: int, totalReg: nat, showNote: bool)
    | JoinPrompt(going: nat, spotsLeft: int, showNote: bool)
    | EventFull

  /** The mutation variables and refetch request of the finalize control. */
  datatype FinalizeRequest = FinalizeRequest(address: string, maps: seq<nat>, refetchAddress: string)

  /** The admin area: absent for non-admins, an empty container for the admin
      of an ended party, the finalize control otherwise. */
  datatype AdminArea = NoAdminArea | EmptyAdminArea | FinalizeControl(request: FinalizeRequest)

  /** The whole panel. */
  datatype Panel = Panel(slot: RsvpSlot, body: Body, admin: AdminArea)

  /** RSVP slot of an ended party: nothing for a non-participant, otherwise
      decided by the viewer's status, the attendee getting the payout action. */
  function EndedRsvp(party: Party, entry: Option<Participant>, utils: PartyUtils): (r: RsvpSlot)
    ensures entry.None? ==> r == NoRsvp
    ensures r.Missed? <==> entry.Some? && entry.value.status == Registered
    ensures r.WithdrawPayout? <==> entry.Some? && entry.value.status == ShowedUp
    ensures r.WithdrawPayout? ==>
              && r.party == party.address
              && r.amount == utils.winningShare(party.deposit, |party.participants|,
                                                utils.numAttended(party.participants))
    ensures r.PayoutWithdrawn? <==> entry.Some? && entry.value.status == WithdrawnPayout
    ensures r.NoRsvp? <==> entry.None? || !IsNamedStatus(entry.value.status)
    ensures !r.IsActiveVariant()
  {
    match entry
    case None => NoRsvp
    case Some(me) =>
      var totalReg := |party.participants|;
      var numWent := utils.numAttended(party.participants);
      var myShare := utils.winningShare(party.deposit, totalReg, numWent);
      if StrictEquals(me.status, Registered) then Missed
      else if StrictEquals(me.status, ShowedUp) then WithdrawPayout(party.address, myShare)
      else if StrictEquals(me.status, WithdrawnPayout) then PayoutWithdrawn
      else NoRsvp
  }

  /** RSVP slot of an active party: the RSVP action for a non-participant
      while there is room, otherwise decided by the viewer's status. A viewer
      who has already withdrawn sees nothing. */
  function ActiveRsvp(party: Party, entry: Option<Participant>): (r: RsvpSlot)
    ensures r.Rsvp? <==> entry.None? && |party.participants| < party.participantLimit
    ensures r.Rsvp? ==> r.party == party.address
    ensures r.Going? <==> entry.Some? && entry.value.status == Registered
    ensures r.ShowedUpNotice? <==> entry.Some? && entry.value.status == ShowedUp
    ensures r.NoRsvp? <==>
              || (entry.None? && |party.participants| >= party.participantLimit)
              || (entry.Some? && (entry.value.status == WithdrawnPayout || !IsNamedStatus(entry.value.status)))
    ensures !r.IsEndedVariant()
  {
    match entry
    case None =>
      if |party.participants| < party.participantLimit then Rsvp(party.address) else NoRsvp
    case Some(me) =>
      if StrictEquals(me.status, Registered) then Going
      else if StrictEquals(me.status, ShowedUp) then ShowedUpNotice
      else NoRsvp
  }

  /** The join prompt. The note is guarded by the truthiness of the remaining
      spot count, so it is hidden exactly when that count is zero; the count
      plus the participants always makes up the limit. */
  function Join(party: Party): (r: Body)
    ensures r.JoinPrompt?
    ensures r.going == |party.participants|
    ensures r.going + r.spotsLeft == party.participantLimit
    ensures r.showNote <==> |party.participants| != party.participantLimit
  {
    var spotsLeft := party.participantLimit - |party.participants|;
    JoinPrompt(|party.participants|, spotsLeft, Truthy(Num(spotsLeft)))
  }

  /** Whether the ended summary shows its note: the truthiness of
      `_.get(entry, 'status', '' === SHOWED_UP)`. The comparison is the
      lookup's fallback, not a test of the status, so the note follows the
      truthiness of the viewer's status and is shown for every named status. */
  function EndedNote(entry: Option<Participant>): (shown: bool)
    ensures shown <==> entry.Some? && Truthy(entry.value.status)
    ensures entry.Some? && IsNamedStatus(entry.value.status) ==> shown
  {
    var fallback := Bool(StrictEquals(Str(""), ShowedUp));
    var status := match entry case None => None case Some(me) => Some(me.status);
    Truthy(Get(status, fallback))
  }

  /** The ended summary: attendance against registrations, plus the note. */
  function Ended(party: Party, entry: Option<Participant>, utils: PartyUtils): (r: Body)
    ensures r.EndedSummary?
    ensures r.totalReg == |party.participants|
    ensures r.numWent == utils.numAttended(party.participants)
    ensures r.showNote <==> entry.Some? && Truthy(entry.value.status)
  {
    EndedSummary(utils.numAttended(party.participants), |party.participants|, EndedNote(entry))
  }

  /** The body: cancellation wins once ended, and only then; an active party
      shows the join prompt while there is room and "event full" otherwise. */
  function RenderBody(party: Party, entry: Option<Participant>, utils: PartyUtils): (r: Body)
    ensures r.CancelledNotice? <==> party.ended && party.cancelled
    ensures r.EndedSummary? <==> party.ended && !party.cancelled
    ensures r.JoinPrompt? <==> !party.ended && |party.participants| < party.participantLimit
    ensures r.EventFull? <==> !party.ended && |party.participants| >= party.participantLimit
    ensures r.JoinPrompt? ==> r.spotsLeft > 0 && r.showNote
  {
    if party.ended then
      if party.cancelled then CancelledNotice else Ended(party, entry, utils)
    else if |party.participants| < party.participantLimit then Join(party)
    else EventFull
  }

  /** The admin area: the finalize control appears exactly for the admin of a
      party that has not ended, and it finalizes and refetches that party. */
  function Admin(party: Party, amAdmin: bool, utils: PartyUtils): (r: AdminArea)
    ensures r.NoAdminArea? <==> !amAdmin
    ensures r.FinalizeControl? <==> amAdmin && !party.ended
    ensures r.FinalizeControl? ==>
              && r.request.address == party.address
              && r.request.refetchAddress == party.address
              && r.request.maps == utils.finalizeMaps(party.participants)
  {
    if !amAdmin then NoAdminArea
    else if !party.ended then
      FinalizeControl(FinalizeRequest(party.address, utils.finalizeMaps(party.participants), party.address))
    else EmptyAdminArea
  }

  /** The whole panel. A non-empty RSVP slot reveals which lifecycle branch
      produced it. */
  function Render(party: Party, entry: Option<Participant>, amAdmin: bool, utils: PartyUtils): (r: Panel)
    ensures r.slot.IsEndedVariant() ==> party.ended
    ensures r.slot.IsActiveVariant() ==> !party.ended
    ensures party.ended && entry.None? ==> r.slot == NoRsvp
    ensures r.body.JoinPrompt? ==> r.slot.Rsvp? || entry.Some?
  {
    var slot := if party.ended then EndedRsvp(party, entry, utils) else ActiveRsvp(party, entry);
    Panel(slot, RenderBody(party, entry, utils), Admin(party, amAdmin, utils))
  }

  /** The RSVP slot is the ended one exactly when the party has ended,
      whatever the viewer and the admin flag. */
  lemma SlotFollowsLifecycle(party: Party, entry: Option<Participant>, amAdmin: bool, utils: PartyUtils)
    ensures party.ended ==> Render(party, entry, amAdmin, utils).slot == EndedRsvp(party, entry, utils)
    ensures !party.ended ==> Render(party, entry, amAdmin, utils).slot == ActiveRsvp(party, entry)
  {
  }

  /** `cancelled` matters only once the party has ended: flipping it on an
      active party changes nothing in the panel. */
  lemma CancelledIgnoredWhileActive(party: Party, entry: Option<Participant>, amAdmin: bool, utils: PartyUtils, c: bool)
    requires !party.ended
    ensures Render(party.(cancelled := c), entry, amAdmin, utils) == Render(party, entry, amAdmin, utils)
  {
  }

  /** An ended, cancelled party shows the cancelled notice whoever looks and
      whoever registered. */
  lemma CancelledNoticeForEveryone(party: Party, entry: Option<Participant>, amAdmin: bool, utils: PartyUtils,
                                   others: seq<Participant>, otherEntry: Option<Participant>)
    requires party.ended && party.cancelled
    ensures Render(party, entry, amAdmin, utils).body == CancelledNotice
    ensures Render(party.(participants := others), otherEntry, amAdmin, utils).body
            == Render(party, entry, amAdmin, utils).body
  {
  }

  /** The admin area does not depend on the viewer's entry, and the RSVP slot
      and body do not depend on the admin flag. */
  lemma AdminIndependentOfViewer(party: Party, entry: Option<Participant>, other: Option<Participant>,
                                 amAdmin: bool, utils: PartyUtils)
    ensures Render(party, entry, amAdmin, utils).admin == Render(party, other, amAdmin, utils).admin
    ensures Render(party, entry, amAdmin, utils).slot == Render(party, entry, !amAdmin, utils).slot
    ensures Render(party, entry, amAdmin, utils).body == Render(party, entry, !amAdmin, utils).body
  {
  }

  /** The ended summary's note is shown to a viewer who registered and did
      not show up, and to every viewer with a named status: the status is
      never compared with `ShowedUp`. */
  lemma EndedNoteShownToNoShow(party: Party, me: Participant, utils: PartyUtils)
    requires party.ended && !party.cancelled
    requires me.status == Registered
    ensures Render(party, Some(me), false, utils).slot == Missed
    ensures Render(party, Some(me), false, utils).body.showNote
  {
  }

  /** Ten places, seven taken, an outsider looking: the RSVP action is
      offered, three spots are left and the note is shown. */
  lemma JoinExample(party: Party, utils: PartyUtils)
    requires !party.ended && party.participantLimit == 10 && |party.participants| == 7
    ensures Render(party, None, false, utils) ==
            Panel(Rsvp(party.address), JoinPrompt(7, 3, true), NoAdminArea)
  {
  }

  /** Along the status order Registered, ShowedUp, WithdrawnPayout the ended
      slot moves from "missed" through the payout action to "withdrawn", and
      the active slot from "going" through "showed up" to nothing. */
  lemma SlotsAlongStatusOrder(party: Party, address: string, utils: PartyUtils)
    ensures EndedRsvp(party, Some(Participant(address, Registered)), utils) == Missed
    ensures EndedRsvp(party, Some(Participant(address, ShowedUp)), utils).WithdrawPayout?
    ensures EndedRsvp(party, Some(Participant(address, WithdrawnPayout)), utils) == PayoutWithdrawn
    ensures ActiveRsvp(party, Some(Participant(address, Registered))) == Going
    ensures ActiveRsvp(party, Some(Participant(address, ShowedUp))) == ShowedUpNotice
    ensures ActiveRsvp(party, Some(Participant(address, WithdrawnPayout))) == NoRsvp
  {
  }
}
