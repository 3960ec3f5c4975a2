/** The chat widget's dialogue engine: a per-session state machine over the
    modes normal and emergency with two slots (blood group and city), driven
    one user turn at a time by a priority-ordered chain of rules.

    `Respond` is the transition of one turn as a value; `ChatSession` is the
    widget's state, updated in place by `HandleSend` and `ProcessBotResponse`,
    whose contracts tie each update to `Respond`. The donor query, the login
    status and the user's input are parameters. */
module Chatbot {
  import opened Seqs
  import opened Text

  // ---------------------------------------------------------------------
  // Data model
  // ---------------------------------------------------------------------

  datatype Mode = Normal | Emergency

  datatype Sender = User | Bot

  /** A quick-reply button: the text shown and the text it sends. */
  datatype Action = Action(labelText: string, value: string)

  /** The summary of a donor shown in a reply. */
  datatype Donor = Donor(id: string, name: string, phone: string, bloodType: string, city: string)

  /** The parts of a user document the donor search reads. */
  datatype DonorProfile = DonorProfile(phone: Option<string>, bloodType: string, city: Option<string>)
  datatype UserDoc = UserDoc(id: string, name: Option<string>, donorProfile: Option<DonorProfile>)

  /** What the donor query returned: the matching documents in query order, or a failure. */
  datatype QueryResult = Fetched(docs: seq<UserDoc>) | QueryFailed

  /** An entry of the chat log. `actions` and `donors` are absent when the
      source leaves them `null`/`undefined`. */
  datatype Message = Message(text: string, sender: Sender, actions: Option<seq<Action>>,
                             donors: Option<seq<Donor>>, isSystem: bool)

  /** The dialogue state; an empty slot is the empty string, as in the source. */
  datatype Session = Session(mode: Mode, bloodGroup: string, city: string)

  /** The bot's answer to one turn, and the page to navigate to afterwards. */
  datatype Reply = Reply(text: string, actions: Option<seq<Action>>, donors: Option<seq<Donor>>,
                         redirect: Option<string>)

  /** The outcome of one turn: the new session, the status messages posted
      while the turn ran, and the reply. */
  datatype Turn = Turn(session: Session, status: seq<Message>, reply: Reply)

  // ---------------------------------------------------------------------
  // Constants
  // ---------------------------------------------------------------------

  const QuickActions: seq<Action> := [
    Action("Emergency Help 🚨", "Emergency Help"),
    Action("Check Eligibility ✅", "Check Eligibility"),
    Action("Find Camps 📍", "Find Camps")
  ]

  const BloodGroups: seq<string> := ["A+", "A-", "B+", "B-", "AB+", "AB-", "O+", "O-"]

  /** `values.map(v => ({ label: v, value: v }))`: one button per value, in order. */
  function ChoicesFor(values: seq<string>): (r: seq<Action>)
    ensures |r| == |values|
    ensures forall i :: 0 <= i < |values| ==> r[i] == Action(values[i], values[i])
  {
    if values == [] then [] else [Action(values[0], values[0])] + ChoicesFor(values[1..])
  }

  /** The blood-group buttons. */
  const BloodGroupActions: seq<Action> := ChoicesFor(BloodGroups)

  const NotifyAction := Action("Notify Me When Available 🔔", "Notify Me")

  const Greeting := Message("Hello! How can I help you today?", Bot, Some(QuickActions), None, false)

  const PanicPrompt := "🚨 I’m here to help. Please select the required blood group below."
  const InvalidBloodGroupText := "Please select a valid blood group from the options."
  const SearchErrorText := "Sorry, I encountered an error while searching. Please try again later."
  const LoginNeededText := "You need to be logged in to set alerts. Redirecting you to login..."
  const SearchAlertText := "Redirecting to the Search page. Please click the 'Notify Me' button there to confirm your alert."
  const NoDetailsText := "I don't have the details to set an alert. Please try the Emergency Help flow again."
  const HelloText := "Hello! I'm here to assist. You can use the buttons below for quick actions."
  const EligibilityText := "To be eligible: 18-65 years old, >50kg weight, healthy. I'm redirecting you to the eligibility quiz."
  const DonateText := "You can donate by finding a nearby camp. Redirecting you to the camps locator."
  const CampsText := "Searching for donation camps... Redirecting you to the map."
  const NotSureText := "I'm not sure I understand. Would you like Emergency Help?"

  function CityPromptText(bloodGroup: string): string
  {
    "Got it (" + bloodGroup + "). Please tell me your city or location to find nearby donors."
  }

  function FoundText(count: nat, city: string): string
  {
    "Found " + NatToString(count) + " potential donor(s) matching \"" + city + "\"!"
  }

  function NoDonorsText(bloodGroup: string, city: string): string
  {
    "I couldn't find any registered donors for " + bloodGroup + " in \"" + city + "\" right now."
  }

  function SearchingMessage(city: string): Message
  {
    Message("Searching for heroes in " + city + "...", Bot, None, None, true)
  }

  function UserMessage(text: string): Message
  {
    Message(text, User, None, None, false)
  }

  function BotMessage(reply: Reply): Message
  {
    Message(reply.text, Bot, reply.actions, reply.donors, false)
  }

  /** The value of a decimal digit character. */
  function DigitValue(c: char): nat
  {
    if '0' <= c <= '9' then c as nat - '0' as nat else 0
  }

  /** The number a string of decimal digits spells, most significant first. */
  function DigitsValue(r: string): nat
  {
    if r == [] then 0 else 10 * DigitsValue(r[..|r| - 1]) + DigitValue(r[|r| - 1])
  }

  /** Decimal digits of `n`, as template literals print a number: digits
      only, no leading zero, spelling `n`. */
  function NatToString(n: nat): (r: string)
    ensures r != [] && forall i :: 0 <= i < |r| ==> '0' <= r[i] <= '9'
    ensures r[0] == '0' ==> r == "0"
    ensures DigitsValue(r) == n
  {
    var d := ('0' as nat + n % 10) as char;
    if n < 10 then [d]
    else
      var r := NatToString(n / 10) + [d];
      assert r[..|r| - 1] == NatToString(n / 10);
      r
  }

  /** `v || fallback` for an optional string: the empty string is falsy too. */
  function OrElse(v: Option<string>, fallback: string): (r: string)
    ensures r == fallback || (v.Some? && r == v.value && r != "")
    ensures v.Some? && v.value != "" ==> r == v.value
  {
    if v.Some? && v.value != "" then v.value else fallback
  }

  // ---------------------------------------------------------------------
  // Slot values: blood group and city
  // ---------------------------------------------------------------------

  /** A city in the form the engine stores: trimmed, no lower-case letter
      first and no upper-case letter after that. */
  predicate IsNormalizedCity(city: string)
  {
    IsTrimmed(city) && (city != [] ==> !IsLowerLetter(city[0])) &&
    forall i :: 1 <= i < |city| ==> !IsUpperLetter(city[i])
  }

  /** The city as the engine stores it: the input trimmed, its first
      character upper-cased and the rest lower-cased. It is a normalized
      city equal to the trimmed input up to case. */
  function NormalizeCity(input: string): (city: string)
    ensures IsNormalizedCity(city)
    ensures Lower(city) == Lower(Trim(input))
  {
    var t := Trim(input);
    if t == [] then []
    else
      CapitalizedLower(t);
      [UpperChar(t[0])] + Lower(t[1..])
  }

  /** Capitalizing a string keeps it the same up to case. */
  lemma CapitalizedLower(t: string)
    requires t != []
    ensures Lower([UpperChar(t[0])] + Lower(t[1..])) == Lower(t)
  {
    var c := [UpperChar(t[0])] + Lower(t[1..]);
    forall i | 0 <= i < |t| ensures Lower(c)[i] == Lower(t)[i] {
      if i > 0 {
        assert c[i] == Lower(t[1..])[i - 1];
      }
    }
  }

  /** Normalizing leaves a normalized city as it is. */
  lemma NormalizedCityIsFixed(city: string)
    requires IsNormalizedCity(city)
    ensures NormalizeCity(city) == city
  {
    TrimOfTrimmed(city);
    if city != [] {
      var rest := city[1..];
      forall i | 0 <= i < |rest| ensures !IsUpperLetter(rest[i]) {
        assert rest[i] == city[i + 1];
      }
      LowerOfNoUpper(rest);
      assert UpperChar(city[0]) == city[0];
      assert city == [city[0]] + rest;
    }
  }

  /** Normalizing twice is normalizing once. */
  lemma NormalizeCityIdempotent(input: string)
    ensures NormalizeCity(NormalizeCity(input)) == NormalizeCity(input)
  {
    NormalizedCityIsFixed(NormalizeCity(input));
  }

  // ---------------------------------------------------------------------
  // Donor search
  // ---------------------------------------------------------------------

  /** The summary the source builds for a document that has a donor profile. */
  function Summarize(doc: UserDoc): Donor
    requires doc.donorProfile.Some?
  {
    var p := doc.donorProfile.value;
    Donor(doc.id, OrElse(doc.name, "Anonymous Hero"), OrElse(p.phone, "N/A"), p.bloodType, OrElse(p.city, ""))
  }

  /** The donors built from the query's documents: one per document that has
      a donor profile, in query order; documents without one are dropped. */
  function Donors(docs: seq<UserDoc>): (all: seq<Donor>)
    ensures |all| <= |docs|
    ensures forall d :: d in all <==>
              exists k :: 0 <= k < |docs| && docs[k].donorProfile.Some? && Summarize(docs[k]) == d
  {
    if docs == [] then []
    else
      var init := docs[..|docs| - 1];
      var last := docs[|docs| - 1];
      if last.donorProfile.Some? then Donors(init) + [Summarize(last)] else Donors(init)
  }

  /** Donor building works document by document: the donors of a
      concatenation are the donors of each part, in order. */
  lemma {:induction false} DonorsAppend(a: seq<UserDoc>, b: seq<UserDoc>)
    ensures Donors(a + b) == Donors(a) + Donors(b)
    decreases |b|
  {
    if b != [] {
      var b' := b[..|b| - 1];
      assert (a + b)[..|a + b| - 1] == a + b';
      DonorsAppend(a, b');
    } else {
      assert a + b == a;
    }
  }

  /** The `forEach` over the query snapshot that collects the donors. */
  method CollectDonors(docs: seq<UserDoc>) returns (all: seq<Donor>)
    ensures all == Donors(docs)
  {
    all := [];
    var i := 0;
    while i < |docs|
      invariant 0 <= i <= |docs|
      invariant all == Donors(docs[..i])
    {
      var doc := docs[i];
      assert docs[..i + 1][..i] == docs[..i];
      if doc.donorProfile.Some? {
        all := all + [Summarize(doc)];
      }
      i := i + 1;
    }
    assert docs[..|docs|] == docs;
  }

  /** The client-side city match: a donor's city, lower-cased, includes the
      searched city, lower-cased. A donor without a city has city "". */
  predicate CityMatches(d: Donor, city: string)
  {
    Contains(Lower(d.city), Lower(city))
  }

  /** The matched donors are exactly the donors whose city matches, in the
      order of `all`. */
  function MatchDonors(all: seq<Donor>, city: string): (matched: seq<Donor>)
    ensures forall d :: d in matched <==> d in all && CityMatches(d, city)
    ensures matched == [] <==> forall d :: d in all ==> !CityMatches(d, city)
    ensures forall d :: multiset(matched)[d] == if CityMatches(d, city) then multiset(all)[d] else 0
    ensures IsSubsequence(matched, all)
  {
    FilterIsSubsequence(all, (d: Donor) => CityMatches(d, city));
    Filter(all, (d: Donor) => CityMatches(d, city))
  }

  /** `matched.slice(0, 3)`: the first three matches, or all when fewer. */
  function TopDonors(matched: seq<Donor>): (top: seq<Donor>)
    ensures top <= matched
    ensures |top| == if |matched| < 3 then |matched| else 3
  {
    if |matched| <= 3 then matched else matched[..3]
  }

  /** The donors shown are matches of the searched city, at most three, and
      they appear in the order the query returned them. */
  lemma ShownDonorsKeepQueryOrder(all: seq<Donor>, city: string)
    ensures var shown := TopDonors(MatchDonors(all, city));
            |shown| <= 3 && IsSubsequence(shown, all) &&
            forall d :: d in shown ==> d in all && CityMatches(d, city)
  {
    var matched := MatchDonors(all, city);
    var shown := TopDonors(matched);
    SubsequencePrefix(matched, all, |shown|);
    assert shown == matched[..|shown|];
    forall d | d in shown ensures d in matched {
      var k :| 0 <= k < |shown| && shown[k] == d;
      assert matched[k] == d;
    }
  }

  /** The reply to the city turn, given what the donor query returned. */
  function SearchReply(bloodGroup: string, city: string, query: QueryResult): (r: Reply)
    ensures query.QueryFailed? ==>
              r == Reply(SearchErrorText, None, None, None)
    ensures query.Fetched? && MatchDonors(Donors(query.docs), city) != [] ==>
              r.actions == None && r.redirect == Some("/search") &&
              r.donors == Some(TopDonors(MatchDonors(Donors(query.docs), city)))
    ensures query.Fetched? && MatchDonors(Donors(query.docs), city) == [] ==>
              r.donors == None && r.redirect == None &&
              r.actions == Some([NotifyAction]) && r.actions.value[0].value == "Notify Me"
  {
    match query
    case QueryFailed => Reply(SearchErrorText, None, None, None)
    case Fetched(docs) =>
      var matched := MatchDonors(Donors(docs), city);
      if |matched| > 0 then
        Reply(FoundText(|matched|, city), None, Some(TopDonors(matched)), Some("/search"))
      else
        Reply(NoDonorsText(bloodGroup, city), Some([NotifyAction]), None, None)
  }

  // ---------------------------------------------------------------------
  // One turn
  // ---------------------------------------------------------------------

  predicate IsPanic(lowerText: string)
  {
    Contains(lowerText, "urgent") || Contains(lowerText, "emergency") ||
    Contains(lowerText, "need blood") || Contains(lowerText, "help")
  }

  /** Rule A applies: normal mode and a panic word in the lower-cased input. */
  predicate StartsEmergency(s: Session, userText: string)
  {
    s.mode == Normal && IsPanic(Lower(userText))
  }

  /** Rule B applies: emergency mode, no blood group yet. */
  predicate AwaitingBloodGroup(s: Session)
  {
    s.mode == Emergency && s.bloodGroup == ""
  }

  /** Rule C applies: emergency mode, a blood group, no city yet. */
  predicate AwaitingCity(s: Session)
  {
    s.mode == Emergency && s.bloodGroup != "" && s.city == ""
  }

  /** The "Notify Me" test, case-sensitive, on the raw input. */
  predicate AsksNotify(userText: string)
  {
    userText == "Notify Me" || Contains(userText, "Notify Me")
  }

  /** Rule D applies: none of A to C does, and the input asks to be notified. */
  predicate ReachesNotify(s: Session, userText: string)
  {
    !StartsEmergency(s, userText) && !AwaitingBloodGroup(s) && !AwaitingCity(s) && AsksNotify(userText)
  }

  /** No rule from A to D applies: the keyword fallback answers. */
  predicate ReachesFallback(s: Session, userText: string)
  {
    !StartsEmergency(s, userText) && !AwaitingBloodGroup(s) && !AwaitingCity(s) && !AsksNotify(userText)
  }

  /** The keyword fallback, tried in order: greeting, eligibility, donating,
      camps, and otherwise "not sure" with the quick actions. */
  function FallbackReply(lowerText: string): (r: Reply)
    ensures r.donors == None
    ensures r.redirect == None <==> r.actions == Some(QuickActions)
    ensures r.redirect != None ==> r.actions == None
    ensures r.redirect == None || r.redirect == Some("/dashboard") || r.redirect == Some("/camps")
    ensures Contains(lowerText, "hello") || Contains(lowerText, "hi") ==>
              r == Reply(HelloText, Some(QuickActions), None, None)
    ensures !(Contains(lowerText, "hello") || Contains(lowerText, "hi")) &&
            (Contains(lowerText, "eligible") || Contains(lowerText, "eligibility")) ==>
              r == Reply(EligibilityText, None, None, Some("/dashboard"))
    ensures !(Contains(lowerText, "hello") || Contains(lowerText, "hi")) &&
            !(Contains(lowerText, "eligible") || Contains(lowerText, "eligibility")) &&
            (Contains(lowerText, "donate") || Contains(lowerText, "donation")) ==>
              r == Reply(DonateText, None, None, Some("/camps"))
    ensures !(Contains(lowerText, "hello") || Contains(lowerText, "hi")) &&
            !(Contains(lowerText, "eligible") || Contains(lowerText, "eligibility")) &&
            !(Contains(lowerText, "donate") || Contains(lowerText, "donation")) &&
            (Contains(lowerText, "camp") || Contains(lowerText, "location")) ==>
              r == Reply(CampsText, None, None, Some("/camps"))
    ensures !(Contains(lowerText, "hello") || Contains(lowerText, "hi") ||
              Contains(lowerText, "eligible") || Contains(lowerText, "eligibility") ||
              Contains(lowerText, "donate") || Contains(lowerText, "donation") ||
              Contains(lowerText, "camp") || Contains(lowerText, "location")) ==>
              r == Reply(NotSureText, Some(QuickActions), None, None)
  {
    if Contains(lowerText, "hello") || Contains(lowerText, "hi") then
      Reply(HelloText, Some(QuickActions), None, None)
    else if Contains(lowerText, "eligible") || Contains(lowerText, "eligibility") then
      Reply(EligibilityText, None, None, Some("/dashboard"))
    else if Contains(lowerText, "donate") || Contains(lowerText, "donation") then
      Reply(DonateText, None, None, Some("/camps"))
    else if Contains(lowerText, "camp") || Contains(lowerText, "location") then
      Reply(CampsText, None, None, Some("/camps"))
    else
      Reply(NotSureText, Some(QuickActions), None, None)
  }

  /** The reply to "Notify Me": log in first; with both slots filled, go to
      the search page to confirm the alert; otherwise offer the quick actions. */
  function NotifyReply(s: Session, loggedIn: bool): (r: Reply)
    ensures r.donors == None
    ensures !loggedIn ==> r.redirect == Some("/login") && r.actions == None
    ensures loggedIn && s.bloodGroup != "" && s.city != "" ==> r.redirect == Some("/search") && r.actions == None
    ensures loggedIn && (s.bloodGroup == "" || s.city == "") ==> r.redirect == None && r.actions == Some(QuickActions)
  {
    if !loggedIn then Reply(LoginNeededText, None, None, Some("/login"))
    else if s.bloodGroup != "" && s.city != "" then Reply(SearchAlertText, None, None, Some("/search"))
    else Reply(NoDetailsText, Some(QuickActions), None, None)
  }

  /** One turn of the dialogue: the rules A to D and the fallback, tried in
      that order against the session and the raw input. */
  function Respond(s: Session, userText: string, loggedIn: bool, query: QueryResult): (t: Turn)
    // A: a panic word in normal mode starts the emergency flow and offers the 8 groups
    ensures StartsEmergency(s, userText) ==>
              t.session == s.(mode := Emergency) && t.status == [] &&
              t.reply.actions == Some(BloodGroupActions) && t.reply.donors == None && t.reply.redirect == None
    // B: the slot is filled iff the upper-cased input is one of the 8 groups; else re-offer them
    ensures AwaitingBloodGroup(s) ==>
              t.session.mode == Emergency && t.session.city == s.city && t.status == [] &&
              t.reply.donors == None && t.reply.redirect == None &&
              (t.session.bloodGroup != "" <==> Upper(userText) in BloodGroups) &&
              (t.session.bloodGroup != "" ==>
                 t.session.bloodGroup == Upper(userText) && t.reply.actions == None &&
                 t.reply.text == CityPromptText(Upper(userText))) &&
              (t.session.bloodGroup == "" ==>
                 t.reply.actions == Some(BloodGroupActions) && t.reply.text == InvalidBloodGroupText)
    // C: the city is stored normalized, a status message is posted, the mode goes back to normal
    ensures AwaitingCity(s) ==>
              t.session == Session(Normal, s.bloodGroup, NormalizeCity(userText)) &&
              t.status == [SearchingMessage(NormalizeCity(userText))] &&
              t.reply == SearchReply(s.bloodGroup, NormalizeCity(userText), query)
    // D: both slots are cleared and the mode is kept; the redirect depends on login and the slots
    ensures ReachesNotify(s, userText) ==>
              t.session == Session(s.mode, "", "") && t.status == [] && t.reply.donors == None &&
              (!loggedIn ==> t.reply.redirect == Some("/login") && t.reply.actions == None) &&
              (loggedIn && s.bloodGroup != "" && s.city != "" ==>
                 t.reply.redirect == Some("/search") && t.reply.actions == None) &&
              (loggedIn && (s.bloodGroup == "" || s.city == "") ==>
                 t.reply.redirect == None && t.reply.actions == Some(QuickActions))
    // fallback: the session is left as it was
    ensures ReachesFallback(s, userText) ==>
              t.session == s && t.status == [] && t.reply == FallbackReply(Lower(userText))
    // only rules A and C write the mode
    ensures t.session.mode != s.mode ==> StartsEmergency(s, userText) || AwaitingCity(s)
  {
    if s.mode == Normal && IsPanic(Lower(userText)) then
      Turn(Session(Emergency, s.bloodGroup, s.city), [], Reply(PanicPrompt, Some(BloodGroupActions), None, None))
    else if s.mode == Emergency && s.bloodGroup == "" then
      if Upper(userText) in BloodGroups then
        Turn(Session(s.mode, Upper(userText), s.city), [], Reply(CityPromptText(Upper(userText)), None, None, None))
      else
        Turn(s, [], Reply(InvalidBloodGroupText, Some(BloodGroupActions), None, None))
    else if s.mode == Emergency && s.bloodGroup != "" && s.city == "" then
      Turn(Session(Normal, s.bloodGroup, NormalizeCity(userText)), [SearchingMessage(NormalizeCity(userText))],
           SearchReply(s.bloodGroup, NormalizeCity(userText), query))
    else if userText == "Notify Me" || Contains(userText, "Notify Me") then
      Turn(Session(s.mode, "", ""), [], NotifyReply(s, loggedIn))
    else
      Turn(s, [], FallbackReply(Lower(userText)))
  }

  // ---------------------------------------------------------------------
  // Properties of turns
  // ---------------------------------------------------------------------

  /** The session invariant: the blood-group slot is empty or one of the 8
      groups, and the city slot is empty or a normalized city. */
  predicate WellFormed(s: Session)
  {
    (s.bloodGroup == "" || s.bloodGroup in BloodGroups) && IsNormalizedCity(s.city)
  }

  lemma InitialWellFormed()
    ensures WellFormed(Session(Normal, "", ""))
  {
  }

  /** Every turn keeps the session invariant. */
  lemma RespondPreservesWellFormed(s: Session, userText: string, loggedIn: bool, query: QueryResult)
    requires WellFormed(s)
    ensures WellFormed(Respond(s, userText, loggedIn, query).session)
  {
    if StartsEmergency(s, userText) {
    } else if AwaitingBloodGroup(s) {
    } else if AwaitingCity(s) {
    }
  }

  /** The two spellings of the "Notify Me" test agree: it is a substring test. */
  lemma AsksNotifyIsContains(userText: string)
    ensures AsksNotify(userText) <==> Contains(userText, "Notify Me")
  {
    if userText == "Notify Me" {
      ContainsAt(userText, "Notify Me", 0);
    }
  }

  /** After the city turn, whatever the query returned, the session is back in
      normal mode with the blood group kept and the city stored. */
  lemma CityTurnEndsEmergency(s: Session, userText: string, loggedIn: bool, query: QueryResult)
    requires AwaitingCity(s)
    ensures var t := Respond(s, userText, loggedIn, query);
            t.session.mode == Normal && t.session.bloodGroup == s.bloodGroup &&
            t.session.city == NormalizeCity(userText) &&
            (query.QueryFailed? ==> t.reply.actions == None && t.reply.donors == None && t.reply.redirect == None)
  {
  }

  /** In emergency mode with both slots filled no rule A to C applies, so the
      session stays in emergency mode with its slots until an input asks to
      be notified. */
  lemma FilledEmergencyPersists(s: Session, userText: string, loggedIn: bool, query: QueryResult)
    requires s.mode == Emergency && s.bloodGroup != "" && s.city != ""
    ensures var t := Respond(s, userText, loggedIn, query);
            t.session.mode == Emergency &&
            (t.session == s <==> !AsksNotify(userText))
  {
    if AsksNotify(userText) {
      assert Respond(s, userText, loggedIn, query).session.bloodGroup == "";
    }
  }

  // ---------------------------------------------------------------------
  // Scenarios
  // ---------------------------------------------------------------------

  /** "I need blood" in normal mode starts the emergency flow with 8 choices. */
  lemma NeedBloodScenario(bloodGroup: string, city: string, loggedIn: bool, query: QueryResult)
    ensures var t := Respond(Session(Normal, bloodGroup, city), "I need blood", loggedIn, query);
            t.session.mode == Emergency && t.reply.actions.Some? && |t.reply.actions.value| == 8
  {
    var lower := Lower("I need blood");
    assert lower == "i need blood";
    ContainsAt(lower, "need blood", 2);
  }

  /** Any capitalization of "o+" fills the blood-group slot with "O+". */
  lemma BloodGroupScenario(userText: string, loggedIn: bool, query: QueryResult)
    requires userText == "O+" || userText == "o+"
    ensures Respond(Session(Emergency, "", ""), userText, loggedIn, query).session ==
            Session(Emergency, "O+", "")
    ensures Respond(Session(Emergency, "", ""), userText, loggedIn, query).reply.text == CityPromptText("O+")
  {
    assert Upper(userText) == "O+";
  }

  /** With "O+" chosen, the input "mumbai" stores "Mumbai"; when no fetched
      donor's city includes "mumbai", the reply offers "Notify Me" and the
      mode returns to normal. */
  lemma NoDonorScenario(docs: seq<UserDoc>, loggedIn: bool)
    requires forall d :: d in Donors(docs) ==> !Contains(Lower(d.city), "mumbai")
    ensures var t := Respond(Session(Emergency, "O+", ""), "mumbai", loggedIn, Fetched(docs));
            t.session == Session(Normal, "O+", "Mumbai") &&
            t.reply.actions == Some([NotifyAction]) && t.reply.redirect == None
  {
    MumbaiNormalized();
    assert MatchDonors(Donors(docs), "Mumbai") == [];
    assert AwaitingCity(Session(Emergency, "O+", ""));
  }

  /** "mumbai" is stored as "Mumbai", which lower-cases back to "mumbai". */
  lemma MumbaiNormalized()
    ensures NormalizeCity("mumbai") == "Mumbai" && Lower("Mumbai") == "mumbai"
  {
    TrimOfTrimmed("mumbai");
    assert Lower("umbai") == "umbai";
  }

  /** "Notify Me" from a user who is not logged in redirects to login and
      only clears the slots. */
  lemma NotifyLoggedOutScenario(s: Session, query: QueryResult)
    requires !AwaitingBloodGroup(s) && !AwaitingCity(s)
    ensures var t := Respond(s, "Notify Me", false, query);
            t.session == Session(s.mode, "", "") && t.reply.redirect == Some("/login")
  {
    assert !IsPanic(Lower("Notify Me")) by {
      assert Lower("Notify Me") == "notify me";
      NotifyMeHasNoPanicWord();
    }
  }

  lemma NotifyMeHasNoPanicWord()
    ensures !IsPanic("notify me")
  {
    var s := "notify me";
    LacksCharacter(s, "urgent", 0);
    LacksCharacter(s, "emergency", 3);
    LacksCharacter(s, "need blood", 3);
    LacksCharacter(s, "help", 0);
  }

  /** The eight groups are distinct and each is its own upper-case form, so
      rule B accepts a group typed in lower case. */
  lemma BloodGroupsAcceptAnyCase()
    ensures |BloodGroups| == 8
    ensures forall i, j :: 0 <= i < j < |BloodGroups| ==> BloodGroups[i] != BloodGroups[j]
    ensures forall g :: g in BloodGroups ==> Upper(g) == g && Upper(Lower(g)) == g
  {
    forall g | g in BloodGroups ensures Upper(g) == g && Upper(Lower(g)) == g {
      assert g == "A+" || g == "A-" || g == "B+" || g == "B-" || g == "AB+" || g == "AB-" || g == "O+" || g == "O-";
      assert forall k :: 0 <= k < |g| ==> !IsLowerLetter(g[k]);
      UpperOfNoLower(g);
    }
  }

  /** The "Emergency Help" quick action holds a panic word. */
  lemma EmergencyHelpIsPanic()
    ensures QuickActions[0].value == "Emergency Help" && IsPanic(Lower("Emergency Help"))
  {
    var e := Lower("Emergency Help");
    assert e == "emergency help";
    ContainsAt(e, "emergency", 0);
  }

  /** The only 'h' of "check eligibility" is followed by an 'e'. */
  lemma CheckEligibilityHasNoHi()
    ensures !Contains("check eligibility", "hi")
  {
    var c := "check eligibility";
    var tail := c[2..];
    assert tail == "eck eligibility";
    assert 'h' !in tail;
    forall i | 0 <= i <= |c| ensures !OccursAt(c, "hi", i) {
      if i + 2 <= |c| {
        assert "hi"[0] == 'h' && "hi"[1] == 'i';
        if i == 0 {
          assert c[0] == 'c';
        } else if i == 1 {
          assert c[2] == 'e';
        } else {
          assert c[i] == tail[i - 2];
        }
      }
    }
  }

  lemma LowerCheckEligibility()
    ensures Lower("Check Eligibility") == "check eligibility"
  {
    var c := "check eligibility";
    forall i | 0 <= i < |c| ensures Lower("Check Eligibility")[i] == c[i] {
    }
  }

  /** "check eligibility" holds the word "eligibility". */
  lemma CheckEligibilityHasEligibility()
    ensures Contains("check eligibility", "eligibility")
  {
    var c := "check eligibility";
    assert c[6..17] == "eligibility";
    ContainsAt(c, "eligibility", 6);
  }

  lemma CheckEligibilityHasNoPanicWord()
    ensures !IsPanic("check eligibility")
  {
    var c := "check eligibility";
    LacksCharacter(c, "urgent", 0);
    LacksCharacter(c, "emergency", 1);
    LacksCharacter(c, "need blood", 0);
    LacksCharacter(c, "help", 3);
  }

  /** The words of the lower-cased "Check Eligibility": no panic word, no
      greeting, and "eligibility". */
  lemma CheckEligibilityWords()
    ensures !IsPanic("check eligibility")
    ensures !Contains("check eligibility", "hello") && !Contains("check eligibility", "hi")
    ensures Contains("check eligibility", "eligibility")
  {
    CheckEligibilityHasNoPanicWord();
    LacksCharacter("check eligibility", "hello", 4);
    CheckEligibilityHasNoHi();
    CheckEligibilityHasEligibility();
  }

  /** The "Check Eligibility" quick action holds no panic word, does not ask
      to be notified, and the fallback sends it to the dashboard. */
  lemma CheckEligibilityGoesToDashboard()
    ensures QuickActions[1].value == "Check Eligibility"
    ensures !IsPanic(Lower("Check Eligibility")) && !AsksNotify("Check Eligibility")
    ensures FallbackReply(Lower("Check Eligibility")).redirect == Some("/dashboard")
  {
    LowerCheckEligibility();
    CheckEligibilityWords();
    LacksCharacter("Check Eligibility", "Notify Me", 0);
  }

  /** The words of the lower-cased "Find Camps": no panic word, none of the
      earlier fallback keywords, and "camp". */
  lemma FindCampsWords()
    ensures !IsPanic("find camps")
    ensures !Contains("find camps", "hello") && !Contains("find camps", "hi")
    ensures !Contains("find camps", "eligible") && !Contains("find camps", "eligibility")
    ensures Contains("find camps", "camp")
  {
    var f := "find camps";
    LacksCharacter(f, "urgent", 0);
    LacksCharacter(f, "emergency", 0);
    LacksCharacter(f, "need blood", 1);
    LacksCharacter(f, "help", 1);
    LacksCharacter(f, "hello", 0);
    LacksCharacter(f, "hi", 0);
    LacksCharacter(f, "eligible", 0);
    LacksCharacter(f, "eligibility", 0);
    ContainsAt(f, "camp", 5);
  }

  /** The "Find Camps" quick action holds no panic word, does not ask to be
      notified, and the fallback sends it to the camps page. */
  lemma FindCampsGoesToCamps()
    ensures QuickActions[2].value == "Find Camps"
    ensures !IsPanic(Lower("Find Camps")) && !AsksNotify("Find Camps")
    ensures FallbackReply(Lower("Find Camps")).redirect == Some("/camps")
  {
    assert Lower("Find Camps") == "find camps";
    FindCampsWords();
    LacksCharacter("Find Camps", "Notify Me", 0);
  }

  // ---------------------------------------------------------------------
  // The widget's state
  // ---------------------------------------------------------------------

  /** The chat widget's state, as the component keeps it between renders. */
  class ChatSession {
    var mode: Mode
    var bloodGroup: string
    var city: string
    var inputValue: string
    var messages: seq<Message>

    function Current(): Session
      reads this
    {
      Session(mode, bloodGroup, city)
    }

    ghost predicate Valid()
      reads this
    {
      WellFormed(Current()) && messages != [] && messages[0] == Greeting
    }

    /** A fresh widget: normal mode, empty slots and input, the greeting. */
    constructor ()
      ensures Valid()
      ensures Current() == Session(Normal, "", "") && inputValue == "" && messages == [Greeting]
    {
      mode, bloodGroup, city := Normal, "", "";
      inputValue := "";
      messages := [Greeting];
      InitialWellFormed();
    }

    /** Typing into the input box. */
    method EditInput(text: string)
      modifies this`inputValue
      ensures inputValue == text
    {
      inputValue := text;
    }

    /** Sending the typed text, or the value of a quick-action button: input
        whose trim is empty is ignored; otherwise one user message is logged,
        the input box is cleared and the turn is processed. */
    method HandleSend(textOverride: Option<string>, loggedIn: bool, query: QueryResult)
      returns (redirect: Option<string>)
      requires Valid()
      modifies this
      ensures Valid()
      ensures var text := OrElse(textOverride, old(inputValue));
              if Trim(text) == "" then
                unchanged(this) && redirect == None
              else
                var t := Respond(old(Current()), text, loggedIn, query);
                Current() == t.session && inputValue == "" && redirect == t.reply.redirect &&
                messages == old(messages) + [UserMessage(text)] + t.status + [BotMessage(t.reply)]
    {
      var text := OrElse(textOverride, inputValue);
      if Trim(text) == "" {
        return None;
      }
      ghost var before := Current();
      messages := messages + [UserMessage(text)];
      inputValue := "";
      assert Current() == before && messages[0] == Greeting;
      redirect := ProcessBotResponse(text, loggedIn, query);
    }

    /** One bot turn: the rules A to D and the fallback decide the new
        session, the status and reply messages are appended to the log, and
        the page to navigate to is returned. The handler reads the state as
        it was when the turn began and its setters take effect together. */
    method ProcessBotResponse(userText: string, loggedIn: bool, query: QueryResult)
      returns (redirect: Option<string>)
      requires Valid()
      modifies this
      ensures Valid()
      ensures var t := Respond(old(Current()), userText, loggedIn, query);
              Current() == t.session && redirect == t.reply.redirect &&
              messages == old(messages) + t.status + [BotMessage(t.reply)]
      ensures inputValue == old(inputValue)
    {
      var s := Current();
      var t := TakeTurn(s, userText, loggedIn, query);
      RespondPreservesWellFormed(s, userText, loggedIn, query);
      assert WellFormed(t.session);
      mode, bloodGroup, city := t.session.mode, t.session.bloodGroup, t.session.city;
      messages := messages + t.status + [BotMessage(t.reply)];
      redirect := t.reply.redirect;
      assert Current() == t.session;
    }
  }

  /** The rules of one turn, applied to a snapshot of the session: the
      branches set the reply's text, actions, donors and redirect one local
      at a time, as the handler does, and the turn is assembled at the end. */
  method TakeTurn(s: Session, userText: string, loggedIn: bool, query: QueryResult) returns (t: Turn)
    ensures t == Respond(s, userText, loggedIn, query)
  {
    var lowerText := Lower(userText);
    var next := s;
    var status: seq<Message> := [];
    var botResponseText := "";
    var nextActions: Option<seq<Action>> := None;
    var donorsFound: Option<seq<Donor>> := None;
    var shouldRedirect: Option<string> := None;

    if s.mode == Normal && IsPanic(lowerText) {
      next := Session(Emergency, s.bloodGroup, s.city);
      botResponseText := PanicPrompt;
      nextActions := Some(BloodGroupActions);
    } else if s.mode == Emergency && s.bloodGroup == "" {
      var bg := Upper(userText);
      if bg in BloodGroups {
        next := Session(s.mode, bg, s.city);
        botResponseText := CityPromptText(bg);
      } else {
        botResponseText := InvalidBloodGroupText;
        nextActions := Some(BloodGroupActions);
      }
    } else if s.mode == Emergency && s.bloodGroup != "" && s.city == "" {
      var city := NormalizeCity(userText);
      next := Session(s.mode, s.bloodGroup, city);
      status := [SearchingMessage(city)];
      match query {
        case Fetched(docs) =>
          var allDonors := CollectDonors(docs);
          var matched := MatchDonors(allDonors, city);
          if |matched| > 0 {
            botResponseText := FoundText(|matched|, city);
            donorsFound := Some(TopDonors(matched));
            shouldRedirect := Some("/search");
          } else {
            botResponseText := NoDonorsText(s.bloodGroup, city);
            nextActions := Some([NotifyAction]);
          }
        case QueryFailed =>
          botResponseText := SearchErrorText;
      }
      next := Session(Normal, next.bloodGroup, next.city);
    } else if userText == "Notify Me" || Contains(userText, "Notify Me") {
      if !loggedIn {
        botResponseText := LoginNeededText;
        shouldRedirect := Some("/login");
      } else if s.bloodGroup != "" && s.city != "" {
        botResponseText := SearchAlertText;
        shouldRedirect := Some("/search");
      } else {
        botResponseText := NoDetailsText;
        nextActions := Some(QuickActions);
      }
      next := Session(s.mode, "", "");
    } else {
      if Contains(lowerText, "hello") || Contains(lowerText, "hi") {
        botResponseText := HelloText;
        nextActions := Some(QuickActions);
      } else if Contains(lowerText, "eligible") || Contains(lowerText, "eligibility") {
        botResponseText := EligibilityText;
        shouldRedirect := Some("/dashboard");
      } else if Contains(lowerText, "donate") || Contains(lowerText, "donation") {
        botResponseText := DonateText;
        shouldRedirect := Some("/camps");
      } else if Contains(lowerText, "camp") || Contains(lowerText, "location") {
        botResponseText := CampsText;
        shouldRedirect := Some("/camps");
      } else {
        botResponseText := NotSureText;
        nextActions := Some(QuickActions);
      }
    }
    t := Turn(next, status, Reply(botResponseText, nextActions, donorsFound, shouldRedirect));
  }
}
