/**
 The sign-in / sign-up form, lifted out of its component: the choice between
 the two forms from the profile lookup, the profile payload the sign-up form
 submits, and the form-state updates made by its change handlers.

 The clock reading that stamps accepted legal documents is a parameter
 (`accepted`, the timestamp already written as a string).
 */
module SignIn {
  import opened Wrappers
  import opened Sequences

  /** The three legal documents a new user can accept. */
  datatype LegalKey = TermsAndConditions | PrivacyPolicy | MarketingInfo

  /** The fixed order in which the legal documents are considered. */
  const LegalKeys: seq<LegalKey> := [TermsAndConditions, PrivacyPolicy, MarketingInfo]

  /** Form state. A legal flag starts unset (falsy) and becomes the
      checkbox's `checked` value once that checkbox changes. */
  datatype FormState = FormState(
    name: string,
    email: string,
    twitter: string,
    terms: bool,
    privacy: bool,
    marketing: bool)

  /** The state a fresh form starts in. */
  const Initial: FormState := FormState("", "", "", false, false, false)

  /** The flag kept for legal document `k`. */
  function Flag(s: FormState, k: LegalKey): bool {
    match k
    case TermsAndConditions => s.terms
    case PrivacyPolicy => s.privacy
    case MarketingInfo => s.marketing
  }

  datatype SocialEntry = SocialEntry(kind: string, value: string)
  datatype LegalEntry = LegalEntry(kind: LegalKey, accepted: string)

  /** The profile the sign-up mutation sends. */
  datatype Profile = Profile(email: string, social: seq<SocialEntry>, legal: seq<LegalEntry>)

  // ---------------------------------------------------------------------------
  // Choosing the form

  /** The stored profile as far as the form reads it: its social list, which
      may be missing. */
  datatype StoredProfile = StoredProfile(social: Option<seq<SocialEntry>>)
  datatype ProfileData = ProfileData(profile: Option<StoredProfile>)

  /** The result of the profile query; `data` may be missing. */
  datatype QueryResult = QueryResult(data: Option<ProfileData>)

  /** What the component shows. */
  datatype View = SignInForm | SignUpForm(profile: Profile)

  /** True when the lookup found a profile with at least one social entry;
      a missing `data`, `profile` or `social` counts as no profile. */
  function HasProfile(result: QueryResult): (b: bool)
    ensures b <==> exists social :: result == QueryResult(Some(ProfileData(Some(StoredProfile(Some(social)))))) && |social| > 0
  {
    match result.data
    case None => false
    case Some(data) =>
      match data.profile
      case None => false
      case Some(profile) =>
        match profile.social
        case None => false
        case Some(social) =>
          assert result == QueryResult(Some(ProfileData(Some(StoredProfile(Some(social))))));
          |social| != 0
  }

  // ---------------------------------------------------------------------------
  // The sign-up payload

  /** The social list: always exactly the twitter handle, even when empty. */
  function Social(s: FormState): (r: seq<SocialEntry>)
    ensures |r| == 1
    ensures forall e :: e in r <==> e == SocialEntry("twitter", s.twitter)
  {
    [SocialEntry("twitter", s.twitter)]
  }

  /** The reduce step: visit `keys` in order, appending a stamped entry to
      `acc` for every key whose flag is set. */
  function LegalFold(keys: seq<LegalKey>, s: FormState, accepted: string, acc: seq<LegalEntry>): (r: seq<LegalEntry>)
    ensures |acc| <= |r| <= |acc| + |keys|
    ensures r[..|acc|] == acc
    ensures forall i :: |acc| <= i < |r| ==> r[i].accepted == accepted && r[i].kind in keys && Flag(s, r[i].kind)
    decreases |keys|
  {
    if keys == [] then acc
    else
      var acc' := if Flag(s, keys[0]) then acc + [LegalEntry(keys[0], accepted)] else acc;
      var r := LegalFold(keys[1..], s, accepted, acc');
      assert r[..|acc|] == acc' [..|acc|];
      r
  }

  /** Reference definition: the entries for the flagged keys, in key order. */
  function Kept(keys: seq<LegalKey>, s: FormState, accepted: string): seq<LegalEntry>
    decreases |keys|
  {
    if keys == [] then []
    else (if Flag(s, keys[0]) then [LegalEntry(keys[0], accepted)] else []) + Kept(keys[1..], s, accepted)
  }

  /** The kinds of a list of legal entries, in order. */
  function Kinds(entries: seq<LegalEntry>): (r: seq<LegalKey>)
    ensures |r| == |entries|
    ensures forall i :: 0 <= i < |entries| ==> r[i] == entries[i].kind
    decreases |entries|
  {
    if entries == [] then [] else [entries[0].kind] + Kinds(entries[1..])
  }

  /** The fold with an accumulator computes the filter. */
  lemma {:induction false} LegalFoldIsFilter(keys: seq<LegalKey>, s: FormState, accepted: string, acc: seq<LegalEntry>)
    ensures LegalFold(keys, s, accepted, acc) == acc + Kept(keys, s, accepted)
    decreases |keys|
  {
    if keys != [] {
      var head := if Flag(s, keys[0]) then [LegalEntry(keys[0], accepted)] else [];
      var tail := Kept(keys[1..], s, accepted);
      assert acc + head == if Flag(s, keys[0]) then acc + [LegalEntry(keys[0], accepted)] else acc;
      assert LegalFold(keys, s, accepted, acc) == LegalFold(keys[1..], s, accepted, acc + head);
      LegalFoldIsFilter(keys[1..], s, accepted, acc + head);
      assert Kept(keys, s, accepted) == head + tail;
      assert (acc + head) + tail == acc + (head + tail);
    }
  }

  /** An entry is kept exactly when its key is listed and flagged and it
      carries the shared stamp. */
  lemma {:induction false} KeptMembers(keys: seq<LegalKey>, s: FormState, accepted: string, e: LegalEntry)
    ensures e in Kept(keys, s, accepted) <==> e.kind in keys && Flag(s, e.kind) && e.accepted == accepted
    decreases |keys|
  {
    if keys != [] {
      KeptMembers(keys[1..], s, accepted, e);
      assert keys == [keys[0]] + keys[1..];
    }
  }

  /** The kept kinds are the keys with some deleted, in the same order. */
  lemma {:induction false} KeptIsSubsequence(keys: seq<LegalKey>, s: FormState, accepted: string)
    ensures IsSubsequence(Kinds(Kept(keys, s, accepted)), keys)
    decreases |keys|
  {
    if keys != [] {
      KeptIsSubsequence(keys[1..], s, accepted);
      var kept := Kept(keys, s, accepted);
      if Flag(s, keys[0]) {
        assert kept == [LegalEntry(keys[0], accepted)] + Kept(keys[1..], s, accepted);
        assert kept[1..] == Kept(keys[1..], s, accepted);
        assert Kinds(kept)[1..] == Kinds(kept[1..]);
      } else {
        assert kept == Kept(keys[1..], s, accepted);
      }
    }
  }

  /** What the fold from an empty accumulator yields over any duplicate-free
      key order. */
  lemma FoldFromEmpty(keys: seq<LegalKey>, s: FormState, accepted: string)
    requires Distinct(keys)
    ensures var r := LegalFold(keys, s, accepted, []);
      && (forall k :: LegalEntry(k, accepted) in r <==> k in keys && Flag(s, k))
      && IsSubsequence(Kinds(r), keys)
      && Distinct(Kinds(r))
  {
    var r := LegalFold(keys, s, accepted, []);
    LegalFoldIsFilter(keys, s, accepted, []);
    assert r == Kept(keys, s, accepted);
    forall k ensures LegalEntry(k, accepted) in r <==> k in keys && Flag(s, k) {
      KeptMembers(keys, s, accepted, LegalEntry(k, accepted));
    }
    KeptIsSubsequence(keys, s, accepted);
    SubsequenceDistinct(Kinds(r), keys);
  }

  /** The fixed document order lists every document. */
  lemma LegalKeysComplete(k: LegalKey)
    ensures k in LegalKeys
  {
    match k
    case TermsAndConditions => assert LegalKeys[0] == k;
    case PrivacyPolicy => assert LegalKeys[1] == k;
    case MarketingInfo => assert LegalKeys[2] == k;
  }

  /** The fixed document order lists no document twice. */
  lemma LegalKeysDistinct()
    ensures Distinct(LegalKeys)
  {
  }

  /** The legal list of the sign-up payload: one entry per flagged document,
      in document order, none twice, all with the same acceptance stamp. */
  function Legal(s: FormState, accepted: string): (r: seq<LegalEntry>)
    ensures forall k :: LegalEntry(k, accepted) in r <==> Flag(s, k)
    ensures forall i :: 0 <= i < |r| ==> r[i].accepted == accepted
    ensures IsSubsequence(Kinds(r), LegalKeys)
    ensures Distinct(Kinds(r))
    ensures |r| <= |LegalKeys|
  {
    LegalKeysDistinct();
    FoldFromEmpty(LegalKeys, s, accepted);
    forall k ensures k in LegalKeys {
      LegalKeysComplete(k);
    }
    LegalFold(LegalKeys, s, accepted, [])
  }

  /** The profile the sign-up form submits: the email as typed, the twitter
      handle as the one social entry, and one entry per flagged document, in
      document order, none twice, all stamped alike. The name is not part of
      it. `LegalListUnique` shows these clauses fix the legal list. */
  function SignUpProfile(s: FormState, accepted: string): (p: Profile)
    ensures p.email == s.email
    ensures p.social == [SocialEntry("twitter", s.twitter)]
    ensures forall k :: LegalEntry(k, accepted) in p.legal <==> Flag(s, k)
    ensures forall e :: e in p.legal ==> e.accepted == accepted
    ensures IsSubsequence(Kinds(p.legal), LegalKeys)
    ensures Distinct(Kinds(p.legal))
  {
    Profile(s.email, Social(s), Legal(s, accepted))
  }

  /** Over a duplicate-free key order, a subsequence holding exactly the
      flagged keys is the list of flagged keys in key order. */
  lemma {:induction false} FlaggedKindsDetermined(xs: seq<LegalKey>, keys: seq<LegalKey>, s: FormState, accepted: string)
    requires Distinct(keys)
    requires IsSubsequence(xs, keys)
    requires forall k :: k in xs <==> k in keys && Flag(s, k)
    ensures xs == Kinds(Kept(keys, s, accepted))
    decreases |keys|
  {
    if keys == [] {
      assert xs == [];
    } else {
      DistinctTail(keys);
      SubsequenceDistinct(xs, keys);
      var rest := Kept(keys[1..], s, accepted);
      assert keys[0] !in keys[1..];
      if Flag(s, keys[0]) {
        assert keys[0] in xs;
        if !(xs[0] == keys[0] && IsSubsequence(xs[1..], keys[1..])) {
          assert IsSubsequence(xs, keys[1..]);
          SubsequenceMembers(xs, keys[1..], keys[0]);
          assert false;
        }
        assert xs == [xs[0]] + xs[1..];
        forall k ensures k in xs[1..] <==> k in keys[1..] && Flag(s, k) {
          assert keys == [keys[0]] + keys[1..];
          if k in xs[1..] {
            var i :| 0 <= i < |xs[1..]| && xs[1..][i] == k;
            assert xs[i + 1] == k && xs[0] == keys[0];
            assert xs[0] != xs[i + 1];
            assert k in xs;
            assert k in keys && k != keys[0];
            assert k in keys[1..];
          }
          if k in keys[1..] && Flag(s, k) {
            assert k != keys[0] && k in xs;
            var i :| 0 <= i < |xs| && xs[i] == k;
            assert i != 0 && xs[1..][i - 1] == k;
          }
        }
        FlaggedKindsDetermined(xs[1..], keys[1..], s, accepted);
        assert Kept(keys, s, accepted) == [LegalEntry(keys[0], accepted)] + rest;
        assert Kinds(Kept(keys, s, accepted))[1..] == Kinds(Kept(keys, s, accepted)[1..]);
        assert Kept(keys, s, accepted)[1..] == rest;
      } else {
        assert keys[0] !in xs;
        assert xs == [] || xs[0] != keys[0];
        assert IsSubsequence(xs, keys[1..]);
        forall k ensures k in xs <==> k in keys[1..] && Flag(s, k) {
          assert keys == [keys[0]] + keys[1..];
        }
        FlaggedKindsDetermined(xs, keys[1..], s, accepted);
        assert Kept(keys, s, accepted) == rest;
      }
    }
  }

  /** With every entry stamped alike, a document's kind is listed exactly
      when its stamped entry is. */
  lemma StampedKinds(s: FormState, accepted: string, r: seq<LegalEntry>)
    requires forall k :: LegalEntry(k, accepted) in r <==> Flag(s, k)
    requires forall e :: e in r ==> e.accepted == accepted
    ensures forall k :: k in Kinds(r) <==> k in LegalKeys && Flag(s, k)
  {
    forall k ensures k in Kinds(r) <==> k in LegalKeys && Flag(s, k) {
      LegalKeysComplete(k);
      if k in Kinds(r) {
        var i :| 0 <= i < |r| && Kinds(r)[i] == k;
        assert r[i] in r;
      }
      if Flag(s, k) {
        var i :| 0 <= i < |r| && r[i] == LegalEntry(k, accepted);
        assert Kinds(r)[i] == k;
      }
    }
  }

  /** Two lists of entries with the same kinds, each entry stamped alike,
      are equal. */
  lemma SameKindsSameStamp(r: seq<LegalEntry>, t: seq<LegalEntry>, accepted: string)
    requires Kinds(r) == Kinds(t)
    requires forall e :: e in r ==> e.accepted == accepted
    requires forall e :: e in t ==> e.accepted == accepted
    ensures r == t
  {
    assert |r| == |t|;
    forall i | 0 <= i < |r| ensures r[i] == t[i] {
      assert r[i] in r && t[i] in t;
      assert r[i].kind == Kinds(r)[i] == Kinds(t)[i] == t[i].kind;
    }
  }

  /** Over any duplicate-free key order, a list of stamped entries whose
      kinds are an order-preserving subsequence holding exactly the flagged
      keys is what the fold builds. */
  lemma FoldDeterminedByContents(keys: seq<LegalKey>, s: FormState, accepted: string, r: seq<LegalEntry>)
    requires Distinct(keys)
    requires forall k :: k in Kinds(r) <==> k in keys && Flag(s, k)
    requires forall e :: e in r ==> e.accepted == accepted
    requires IsSubsequence(Kinds(r), keys)
    ensures r == LegalFold(keys, s, accepted, [])
  {
    var kept := Kept(keys, s, accepted);
    LegalFoldIsFilter(keys, s, accepted, []);
    assert LegalFold(keys, s, accepted, []) == kept;
    FlaggedKindsDetermined(Kinds(r), keys, s, accepted);
    forall e | e in kept ensures e.accepted == accepted {
      KeptMembers(keys, s, accepted, e);
    }
    SameKindsSameStamp(r, kept, accepted);
  }

  /** The legal list is pinned down by its contract: any list with one entry
      per flagged document, every entry stamped alike, in document order, is
      the legal list the form builds. */
  lemma LegalListUnique(s: FormState, accepted: string, r: seq<LegalEntry>)
    requires forall k :: LegalEntry(k, accepted) in r <==> Flag(s, k)
    requires forall e :: e in r ==> e.accepted == accepted
    requires IsSubsequence(Kinds(r), LegalKeys)
    ensures r == Legal(s, accepted)
  {
    LegalKeysDistinct();
    StampedKinds(s, accepted, r);
    FoldDeterminedByContents(LegalKeys, s, accepted, r);
  }

  /** The form shown for a query result: sign-in for an existing profile,
      otherwise sign-up carrying the current payload. */
  function Render(result: QueryResult, s: FormState, accepted: string): (v: View)
    ensures v.SignInForm? <==> HasProfile(result)
    ensures v.SignUpForm? ==> v.profile == SignUpProfile(s, accepted)
  {
    if HasProfile(result) then SignInForm else SignUpForm(SignUpProfile(s, accepted))
  }

  // ---------------------------------------------------------------------------
  // Change handlers

  /** The change events the form has handlers for. The name field has none. */
  datatype FormEvent =
    | EmailChange(value: string)
    | TwitterChange(value: string)
    | TermsCheck(checked: bool)
    | PrivacyCheck(checked: bool)
    | MarketingCheck(checked: bool)
  {
    /** The legal document a checkbox event is about, if any. */
    function Checkbox(): Option<LegalKey> {
      match this
      case TermsCheck(_) => Some(TermsAndConditions)
      case PrivacyCheck(_) => Some(PrivacyPolicy)
      case MarketingCheck(_) => Some(MarketingInfo)
      case _ => None
    }
  }

  function HandleEmailChange(s: FormState, value: string): (r: FormState)
    ensures r.email == value
    ensures r.(email := s.email) == s
  {
    s.(email := value)
  }

  function HandleTwitterChange(s: FormState, value: string): (r: FormState)
    ensures r.twitter == value
    ensures r.(twitter := s.twitter) == s
  {
    s.(twitter := value)
  }

  /** A checkbox handler: the flag of its own document becomes `checked`. */
  function HandleLegalCheck(s: FormState, k: LegalKey, checked: bool): (r: FormState)
    ensures Flag(r, k) == checked
    ensures forall k' :: k' != k ==> Flag(r, k') == Flag(s, k')
    ensures r.name == s.name && r.email == s.email && r.twitter == s.twitter
  {
    match k
    case TermsAndConditions => s.(terms := checked)
    case PrivacyPolicy => s.(privacy := checked)
    case MarketingInfo => s.(marketing := checked)
  }

  /** Dispatches an event to its handler. */
  function Handle(s: FormState, e: FormEvent): (r: FormState)
    ensures r.name == s.name
    ensures r.email == (if e.EmailChange? then e.value else s.email)
    ensures r.twitter == (if e.TwitterChange? then e.value else s.twitter)
    ensures forall k :: Flag(r, k) == (if e.Checkbox() == Some(k) then e.checked else Flag(s, k))
  {
    match e
    case EmailChange(v) => HandleEmailChange(s, v)
    case TwitterChange(v) => HandleTwitterChange(s, v)
    case TermsCheck(c) => HandleLegalCheck(s, TermsAndConditions, c)
    case PrivacyCheck(c) => HandleLegalCheck(s, PrivacyPolicy, c)
    case MarketingCheck(c) => HandleLegalCheck(s, MarketingInfo, c)
  }

  /** The state after handling `events` in order. */
  function Replay(s: FormState, events: seq<FormEvent>): (r: FormState)
    ensures r.name == s.name
    decreases |events|
  {
    if events == [] then s else Handle(Replay(s, events[..|events| - 1]), events[|events| - 1])
  }

  /** Event `i` is the last one in `events` that touches the checkbox of `k`. */
  ghost predicate LastCheckOf(events: seq<FormEvent>, k: LegalKey, i: int) {
    && 0 <= i < |events|
    && events[i].Checkbox() == Some(k)
    && forall j :: i < j < |events| ==> events[j].Checkbox() != Some(k)
  }

  /** The last change of the checkbox of `k` in `events` checked it. */
  ghost predicate LastCheckChecked(events: seq<FormEvent>, k: LegalKey) {
    exists i :: LastCheckOf(events, k, i) && events[i].checked
  }

  /** No event in `events` touches the checkbox of `k`. */
  ghost predicate Untouched(events: seq<FormEvent>, k: LegalKey) {
    forall j :: 0 <= j < |events| ==> events[j].Checkbox() != Some(k)
  }

  /** An event that does not touch the checkbox of `k` changes neither
      characterisation. */
  lemma ExtendUntouching(prefix: seq<FormEvent>, e: FormEvent, k: LegalKey)
    requires e.Checkbox() != Some(k)
    ensures LastCheckChecked(prefix + [e], k) <==> LastCheckChecked(prefix, k)
    ensures Untouched(prefix + [e], k) <==> Untouched(prefix, k)
  {
    var events := prefix + [e];
    assert forall j :: 0 <= j < |prefix| ==> events[j] == prefix[j];
    if LastCheckChecked(events, k) {
      var i :| LastCheckOf(events, k, i) && events[i].checked;
      assert LastCheckOf(prefix, k, i);
    }
    if LastCheckChecked(prefix, k) {
      var i :| LastCheckOf(prefix, k, i) && prefix[i].checked;
      assert LastCheckOf(events, k, i);
    }
  }

  /** An event that touches the checkbox of `k` decides the first
      characterisation alone and falsifies the second. */
  lemma ExtendTouching(prefix: seq<FormEvent>, e: FormEvent, k: LegalKey)
    requires e.Checkbox() == Some(k)
    ensures LastCheckChecked(prefix + [e], k) <==> e.checked
    ensures !Untouched(prefix + [e], k)
  {
    var events := prefix + [e];
    assert LastCheckOf(events, k, |prefix|);
    if LastCheckChecked(events, k) {
      var i :| LastCheckOf(events, k, i) && events[i].checked;
      assert i == |prefix|;
    }
  }

  /** After any sequence of events, a document's flag is set exactly when the
      last change of its checkbox checked it, or when it was set before and
      its checkbox never changed. */
  lemma {:induction false} ReplayFlag(s: FormState, events: seq<FormEvent>, k: LegalKey)
    ensures Flag(Replay(s, events), k) <==>
              LastCheckChecked(events, k) || (Flag(s, k) && Untouched(events, k))
    decreases |events|
  {
    if events != [] {
      var n := |events| - 1;
      var prefix := events[..n];
      assert events == prefix + [events[n]];
      ReplayFlag(s, prefix, k);
      if events[n].Checkbox() == Some(k) {
        ExtendTouching(prefix, events[n], k);
      } else {
        ExtendUntouching(prefix, events[n], k);
      }
    }
  }

  /** From a fresh form, the submitted legal list holds a document exactly
      when the last change of its checkbox checked it. */
  lemma {:induction false} SubmittedLegalAfterEvents(events: seq<FormEvent>, k: LegalKey, accepted: string)
    ensures LegalEntry(k, accepted) in SignUpProfile(Replay(Initial, events), accepted).legal <==>
              LastCheckChecked(events, k)
  {
    ReplayFlag(Initial, events, k);
  }

  /** A fresh form submits no legal entries, an empty email and an empty
      twitter handle. */
  lemma InitialPayload(accepted: string)
    ensures SignUpProfile(Initial, accepted) == Profile("", [SocialEntry("twitter", "")], [])
  {
  }

  /** The name never reaches the payload: changing it changes nothing sent. */
  lemma PayloadIgnoresName(s: FormState, name: string, accepted: string)
    ensures SignUpProfile(s.(name := name), accepted) == SignUpProfile(s, accepted)
  {
  }

  /** No handled event changes the name, so from a fresh form it stays empty. */
  lemma NameStaysEmpty(events: seq<FormEvent>)
    ensures Replay(Initial, events).name == ""
  {
  }
}
