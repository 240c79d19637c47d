# Event call-to-action and sign-up payload, modelled in Dafny

This project models two small decision procedures of an event/meetup front end
backed by a blockchain contract. Both are written as total, pure functions over
explicit inputs, with no rendering:

- **The event call-to-action panel** (`EventCta`, in `event_cta.dfy`). It reads a
  party snapshot: address, deposit, participants, participant limit, and the
  `ended` and `cancelled` flags. It also reads the viewer's own participant entry,
  which may be absent, and the admin flag. From these it decides three things:
  - what sits in the RSVP slot (`RsvpSlot`);
  - which body message appears (`Body`);
  - whether the admin area and its finalize control appear (`AdminArea`).

  The party helpers that count attendees, compute the winning share and build
  the finalize maps are defined outside this model. They are passed in as a
  `PartyUtils` record of total functions. No attendance rule or share formula is
  assumed; only their result types are fixed.
- **The sign-in / sign-up form** (`SignIn`, in `sign_in.dfy`). It covers:
  - the choice between the two forms, made from the profile query result;
  - the profile payload that sign-up submits: `email`, the one-entry `social`
    list, and the `legal` list;
  - the form-state updates made by the change handlers.

  The `legal` list is a reduce over the fixed document order: terms and
  conditions, privacy policy, marketing info. It keeps the flagged documents and
  stamps each one with a single shared `accepted` value. The clock reading
  behind that stamp is a parameter.

`wrappers.dfy` holds `Option`, which stands for a JavaScript value that may be
`null` or `undefined`. `js_values.dfy` holds the JavaScript values the panel
compares and tests (`JsValue`), their truthiness, strict equality, and a
one-key lodash `_.get`. `sequences.dfy` holds generic subsequence and
duplicate-freedom predicates, with lemmas about them.

Behaviour of the code worth knowing, which the model reproduces:

- **The ended-summary note** (`EventCta.EndedNote`). The note's condition is
  `_.get(myParticipantEntry, 'status', '' === PARTICIPANT_STATUS.SHOWED_UP)`.
  The comparison sits inside the call, so it is the lookup's *fallback*, and it
  evaluates to `false`. The model computes exactly this: the fallback as the
  strict comparison, then `JsValues.Get`, then truthiness. So the note is shown
  exactly when the viewer has an entry whose status is truthy. The status is
  never compared with `SHOWED_UP`. `EventCta.EndedNoteShownToNoShow` shows the
  consequence: a registered no-show gets the note.
- **The join note.** `_renderJoin` guards its note with the truthiness of the
  number of spots left, so the note is hidden exactly when that number is zero.
  On every path that reaches the join prompt the number is positive, so the
  note always shows.
- **No error results.** The panel never checks for a missing party or a
  non-positive limit. The model accepts any `participantLimit` and has no error
  results.
- **Statuses.** A participant's status is whatever JavaScript value the entry
  holds, and `Undefined` when it holds none. The three status constants come
  from `utils/status`, which is not part of this model. The model assumes they
  are three distinct non-empty strings, and therefore truthy.
- **Legal document keys.** `TERMS_AND_CONDITIONS`, `PRIVACY_POLICY` and
  `MARKETING_INFO` come from `utils/legal`, which is not part of this model. The
  model assumes they are three distinct keys, none of them `name`, `email` or
  `twitter`. Each therefore has its own state flag (`LegalKey` and the three
  flags of `FormState`). The duplicate-freedom of `legal` depends on this
  assumption, and so does the rule that each handler changes only its own key.
- **The name field.** The sign-up form binds its name input to a handler
  (`handleNameChange`) that the component never defines. So no event changes
  `name`, and the model has no name-change event. `SignIn.NameStaysEmpty`
  states the consequence. `name` is not in the payload either, which
  `SignIn.PayloadIgnoresName` states.

## Model

| member | source | states |
|---|---|---|
| EventCta.EndedRsvp | src/components/SingleEvent/EventCTA.js:68-93 | An ended party shows no RSVP for a viewer without an entry. For a viewer with an entry: registered gives "missed"; showed-up gives the payout action for the party address with the winning share of (deposit, registrations, attendees); withdrawn gives "payout withdrawn"; any other status gives nothing. Each of these is stated as an if-and-only-if. |
| EventCta.ActiveRsvp | src/components/SingleEvent/EventCTA.js:95-117 | An active party offers the RSVP action exactly when the viewer has no entry and participants < limit. Registered gives "going" and showed-up gives "showed up". Withdrawn, unrecognised, or full with no entry gives an empty slot. |
| EventCta.Join | src/components/SingleEvent/EventCTA.js:119-141 | The join prompt reports the participant count, and spots left plus participants equals the limit. The note is hidden exactly when spots left is zero, so an over-full party still shows it. |
| EventCta.EndedNote | src/components/SingleEvent/EventCTA.js:160 | The note is computed as written: `_.get` on the status, with the fallback `'' === SHOWED_UP`. This is proved to show the note exactly when the viewer has an entry with a truthy status, which includes all three named statuses. It is never tied to the status being SHOWED_UP. |
| JsValues.Get | src/components/SingleEvent/EventCTA.js:160 | The lookup gives the fallback exactly when the object is absent, the property is undefined, or the property already equals the fallback. A present, defined property, even `null`, `false` or `''`, is returned as it is. |
| EventCta.Ended | src/components/SingleEvent/EventCTA.js:151-175 | The ended summary reports the attendee count from the helper, the number of registrations, and the note decided by the viewer's status truthiness. |
| EventCta.RenderBody | src/components/SingleEvent/EventCTA.js:200-206 | Cancelled notice if and only if ended and cancelled. Ended summary if and only if ended and not cancelled. Join prompt if and only if not ended and participants < limit. Event full if and only if not ended and the party is full. In the join prompt, spots left > 0 and the note is shown. |
| EventCta.Admin | src/components/SingleEvent/EventCTA.js:207-231 | No admin area if and only if the viewer is not admin. The finalize control appears if and only if admin and not ended. It carries the party address and the finalize maps of the participants, and refetches that same address. |
| EventCta.Render | src/components/SingleEvent/EventCTA.js:177-234 | A slot variant only an ended party produces implies ended, and an active-only variant implies not ended. Ended with no entry gives an empty slot. A join prompt comes only with the RSVP action or an existing entry. |
| EventCta.SlotFollowsLifecycle | src/components/SingleEvent/EventCTA.js:198 | The RSVP slot is the ended-party slot when ended and the active-party slot otherwise, whatever the viewer and admin flag. |
| EventCta.CancelledIgnoredWhileActive | src/components/SingleEvent/EventCTA.js:200-206 | On a party that has not ended, changing `cancelled` leaves the whole panel unchanged. |
| EventCta.CancelledNoticeForEveryone | src/components/SingleEvent/EventCTA.js:200-203 | An ended, cancelled party shows the cancelled notice for any participant list and any viewer. |
| EventCta.AdminIndependentOfViewer | src/components/SingleEvent/EventCTA.js:198-231 | The admin area does not depend on the viewer's entry. The slot and the body do not depend on the admin flag. |
| EventCta.EndedNoteShownToNoShow | src/components/SingleEvent/EventCTA.js:160-171 | A registered viewer of an ended, uncancelled party sees "missed" and still gets the note. |
| EventCta.JoinExample | src/components/SingleEvent/EventCTA.js:101-141 | Limit 10, 7 participants, no entry, not admin: the panel is the RSVP action, a join prompt with 7 going and 3 left, the note shown, and no admin area. |
| EventCta.SlotsAlongStatusOrder | src/components/SingleEvent/EventCTA.js:83-116 | Along registered, showed up, withdrawn: the ended slot goes missed, payout action, withdrawn; the active slot goes going, showed up, nothing. |
| SignIn.HasProfile | src/components/Auth/SignIn.js:67 | A profile exists exactly when data, profile and social are all present and the social list is non-empty. A missing level counts as no profile. |
| SignIn.Render | src/components/Auth/SignIn.js:66-73 | The sign-in form is shown if and only if a profile exists. Otherwise the sign-up form is shown with the current payload. |
| SignIn.Social | src/components/Auth/SignIn.js:85-90 | The social list is exactly one entry of type twitter holding the current handle, even an empty one. |
| SignIn.LegalFold | src/components/Auth/SignIn.js:93-105 | The reduce keeps its accumulator as a prefix and adds at most as many entries as there are keys. Every added entry has a visited, flagged key and the shared stamp. |
| SignIn.LegalFoldIsFilter | src/components/Auth/SignIn.js:93-105 | The reduce with an accumulator equals the accumulator followed by the flagged keys' entries, in key order. |
| SignIn.KeptMembers | src/components/Auth/SignIn.js:97-103 | An entry is kept if and only if its key is listed and flagged and it carries the shared stamp. |
| SignIn.KeptIsSubsequence | src/components/Auth/SignIn.js:93-97 | The kept kinds are an order-preserving subsequence of the keys. |
| SignIn.FoldFromEmpty | src/components/Auth/SignIn.js:93-105 | Over a duplicate-free key order, the reduce from an empty list holds an entry for key k if and only if k is listed and flagged. Its kinds are an order-preserving, duplicate-free subsequence of the keys. |
| SignIn.LegalKeysComplete | src/components/Auth/SignIn.js:93-97 | The fixed document order lists every legal document. |
| SignIn.LegalKeysDistinct | src/components/Auth/SignIn.js:93-97 | The fixed document order lists no legal document twice. |
| SignIn.Legal | src/components/Auth/SignIn.js:92-105 | For each document k, `legal` holds an entry for k if and only if k's flag is set. Every entry carries the one `accepted` stamp. Its kinds are an order-preserving subsequence of terms, privacy, marketing with no duplicates, so it has at most three entries. |
| SignIn.SignUpProfile | src/components/Auth/SignIn.js:82-167 | The submitted profile has the typed email. Its social list is exactly one twitter entry holding the current handle. For each document k, its legal list holds the entry for k if and only if k's flag is set. Every legal entry carries the one `accepted` stamp. The legal kinds are an order-preserving, duplicate-free subsequence of terms, privacy, marketing. The name appears nowhere. |
| SignIn.LegalListUnique | src/components/Auth/SignIn.js:93-105 | Any list with an entry exactly for each flagged document, stamped alike, in document order, is the legal list the form builds. So the payload's legal clauses fix it completely. |
| SignIn.FoldDeterminedByContents | src/components/Auth/SignIn.js:93-105 | Over any duplicate-free key order, a list of stamped entries whose kinds are an order-preserving subsequence holding exactly the flagged keys equals the reduce's result. |
| SignIn.FlaggedKindsDetermined | src/components/Auth/SignIn.js:93-105 | Over a duplicate-free key order, an order-preserving subsequence that holds exactly the flagged keys is the flagged keys in key order. |
| SignIn.HandleEmailChange | src/components/Auth/SignIn.js:228-232 | The email becomes the input value, and restoring the old email gives back the old state exactly. |
| SignIn.HandleTwitterChange | src/components/Auth/SignIn.js:234-238 | The twitter handle becomes the input value, and restoring the old handle gives back the old state exactly. |
| SignIn.HandleLegalCheck | src/components/Auth/SignIn.js:240-256 | The checkbox's own document flag becomes `checked`. Every other flag, and the name, email and twitter fields, are unchanged. |
| SignIn.Handle | src/components/Auth/SignIn.js:228-256 | Each event changes only its own key: the email, the twitter handle, or its document's flag. The name never changes. |
| SignIn.Replay | src/components/Auth/SignIn.js:228-256 | No sequence of handled events changes the name. |
| SignIn.ReplayFlag | src/components/Auth/SignIn.js:240-256 | After any event sequence, a document's flag is set if and only if one of two things holds. Either the last change of its checkbox checked it, or the flag was set before and its checkbox never changed. |
| SignIn.SubmittedLegalAfterEvents | src/components/Auth/SignIn.js:93-105 | From a fresh form, the submitted legal list holds a document if and only if the last change of its checkbox checked it. |
| SignIn.InitialPayload | src/components/Auth/SignIn.js:51-55 | A fresh form submits an empty email, one empty twitter entry and an empty legal list. |
| SignIn.PayloadIgnoresName | src/components/Auth/SignIn.js:167 | Changing the name leaves the submitted profile unchanged. |
| SignIn.NameStaysEmpty | src/components/Auth/SignIn.js:117-121 | The name input has no defined handler, so from a fresh form the name stays empty under every event sequence. |

## Left out

- Rendering, styling and message text: outputs are datatype variants, not markup or strings.
- `pluralize` and deposit formatting: display formatting only, and defined in files that are not part of this model.
- `calculateNumAttended`, `calculateWinningShare`, `calculateFinalizeMaps`: their definitions are not part of this model. They are parameters (`PartyUtils`), so no attendance rule and no share formula is assumed. Monotonicity of the attendance count is a property of that helper and is not stated.
- Helper result types: the deposit is a `nat`, the attendee count and the share are `int`s, and the finalize maps are a `seq<nat>`. The source's own representations, probably strings or big numbers, belong to the helpers.
- GraphQL queries and mutations, refetch execution, and the framework's query and mutation wrappers: network plumbing. The model keeps only the mutation variables and the refetch request.
- The sign-in/sign-up click flow (`signInOrSignUp`): it is asynchronous and calls foreign code (token refresh, then the modal toggle).
- `Date.now()`: the clock is I/O, so `accepted` is a parameter.
- The global context provider: `userAddress` only reaches display and query variables, which are not modelled.
- `src/routes/SingleEventAdmin.js`: routing glue and a search-text setter, with no decision logic.
