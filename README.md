# Blood-donation chat widget and camp listing

This project models two parts of a browser application that coordinates
blood donation:

- **The chat widget's dialogue engine** (module `Chatbot`). It is a
  state machine per session. There are two modes, normal and emergency,
  and two slots, blood group and city. Each user turn is tried against a
  chain of rules in priority order:
  - A: a panic word in normal mode starts the emergency flow;
  - B: in emergency mode with no blood group, the input fills the
    blood-group slot;
  - C: in emergency mode with a blood group but no city, the input fills
    the city slot and runs the donor search;
  - D: "Notify Me" sends the user to log in, or to the search page to
    confirm an alert there, or offers the quick actions; it clears both
    slots;
  - otherwise a keyword fallback answers.

  `Respond` is one turn as a value. `ChatSession` is the widget's state,
  and its methods `HandleSend` and `ProcessBotResponse` update that state
  in place. Their contracts tie each update to `Respond`. `TakeTurn`
  computes the turn step by step, the way the handler does, and the
  `forEach` over the query snapshot is the loop in `CollectDonors`. Both
  are proved equal to their specification functions.
- **The camp listing** (module `Camps`):
  - `LoadCamps` splits the loaded camps into upcoming and past by
    comparing ISO date strings with today;
  - `FilterCamps` keeps the camps that match a case-insensitive substring
    search and sorts them by date or by name;
  - `DirectionsFor`, `DirectionsAction` and `Timings` are the camp card's
    choices.

Two helper modules supply the JavaScript behaviour these rely on.
`Seqs` has `Option`, the order-preserving `filter`, and the subsequence
relation. `Text` has ASCII case mapping, `trim`, `includes`, and the
relational operators on strings.

What is proved, besides each operation's contract:

- Every turn keeps the session invariant: the blood-group slot is empty or
  one of the eight groups, and the city slot is empty or a normalized
  city.
- City normalization is idempotent under the ASCII case mapping modelled
  here. Under the full Unicode mapping it is not: "ßa" becomes "SSa" and
  then "Ssa" (see the `Text.Upper` line under "Left out").
- The donors shown are at most three matches, in query order.
- After the city turn the session is back in normal mode, whether the
  query succeeded or failed.
- In emergency mode with both slots filled, no rule from A to C applies.
  This state is reached by a panic word after a finished search. The
  session stays in emergency mode, unchanged, until an input asks to be
  notified (`FilledEmergencyPersists`).
- On the camp side:
  - the upcoming and past lists split the dated, non-archived camps
    between them, each camp counted once;
  - a camp dated today is upcoming;
  - an empty search keeps every camp that has a name, an address or an
    organizer;
  - sorting is ordered and a permutation;
  - on the matching tab the date sort keeps the loaded order;
  - "All Day" is shown exactly when a time is missing.

The handler resets the mode to normal after the query whatever its
outcome (src/components/Chatbot.jsx:145), and `Respond` and
`CityTurnEndsEmergency` state that.

In step D, the alert text and `/dashboard` redirect set at
src/components/Chatbot.jsx:154-155 are overwritten before use at
lines 162-163. Only the values that take effect are modelled.

## Model

| member | source | states |
|---|---|---|
| `Seqs.Filter` | src/components/Chatbot.jsx:123-125 | `filter` keeps exactly the elements satisfying the test, every copy of each: an element that passes occurs as often as in the input, one that fails not at all; it is empty iff none passes |
| `Seqs.FilterIsSubsequence` | src/components/Chatbot.jsx:123-125 | a filter keeps the relative order of the elements it keeps |
| `Seqs.SubsequencePrefix` | src/components/Chatbot.jsx:129 | taking a prefix of an order-preserving selection keeps it order-preserving |
| `Seqs.FilterSplit` | src/pages/DonationCampsPage.jsx:27-31 | two disjoint filters whose union is a third one split that third filter's elements with their multiplicities |
| `Text.Lower` | src/components/Chatbot.jsx:52 | `toLowerCase` keeps the length, maps every upper-case letter to its lower-case letter and leaves every other character |
| `Text.Upper` | src/components/Chatbot.jsx:72 | `toUpperCase` keeps the length, maps every lower-case letter to its upper-case letter and leaves every other character |
| `Text.LowerIdempotent` | src/components/Chatbot.jsx:52 | a property of `toLowerCase` (ASCII mapping): lower-casing an already lower-cased string changes nothing |
| `Text.Trim` | src/components/Chatbot.jsx:84 | `trim` returns a string no longer than its input with no whitespace at either end |
| `Text.TrimIsCut` | src/components/Chatbot.jsx:84 | the trimmed string is a middle slice of the input and everything cut off is whitespace |
| `Text.TrimOfTrimmed` | src/components/Chatbot.jsx:84 | trimming a string with no whitespace at its ends returns it unchanged |
| `Text.Contains` | src/components/Chatbot.jsx:65 | `s.includes(sub)`: `sub` occurs in `s` at some position (a predicate, no contract) |
| `Text.ContainsEmpty` | src/pages/DonationCampsPage.jsx:46-48 | every string includes the empty string |
| `Text.Less` | src/pages/DonationCampsPage.jsx:30 | `a < b` on strings: the first differing character decides, and a proper prefix comes first (a predicate, no contract) |
| `Text.AtMost` | src/pages/DonationCampsPage.jsx:50-60 | `a <= b` on sort keys is `!(b < a)` (a predicate, no contract) |
| `Text.LessIrreflexive` | src/pages/DonationCampsPage.jsx:27-30 | no string is less than itself, so a date equal to today is not `< today` |
| `Text.LessTransitive` | src/pages/DonationCampsPage.jsx:28 | the string `<` is transitive |
| `Text.LessTrichotomous` | src/pages/DonationCampsPage.jsx:28 | of two strings, one is less or they are equal |
| `Text.AtMostTotal` | src/pages/DonationCampsPage.jsx:50-60 | any two sort keys are ordered one way or the other |
| `Text.AtMostTransitive` | src/pages/DonationCampsPage.jsx:50-60 | the order on sort keys is transitive |
| `Chatbot.ChoicesFor` | src/components/Chatbot.jsx:68 | the blood-group buttons are one per group, in order, each labelled and valued with the group |
| `Chatbot.OrElse` | src/components/Chatbot.jsx:114-117 | the `or` default yields the value when present and non-empty, else the fallback |
| `Chatbot.NatToString` | src/components/Chatbot.jsx:128 | the match count prints as a non-empty string of decimal digits, with no leading zero, whose decimal value is the count |
| `Chatbot.NormalizeCity` | src/components/Chatbot.jsx:84-85 | the stored city is trimmed, equal to the trimmed input up to case, with no lower-case letter first and no upper-case letter after |
| `Chatbot.NormalizedCityIsFixed` | src/components/Chatbot.jsx:84-85 | normalizing a city already in stored form returns it unchanged |
| `Chatbot.NormalizeCityIdempotent` | src/components/Chatbot.jsx:84-85 | normalizing twice is normalizing once |
| `Chatbot.Summarize` | src/components/Chatbot.jsx:111-117 | the donor record of a document: its id, its name or "Anonymous Hero", its phone or "N/A", its blood type, its city or "" (a function, no contract) |
| `Chatbot.Donors` | src/components/Chatbot.jsx:109-120 | a donor is collected exactly for each document with a donor profile, with name, phone and city defaulted |
| `Chatbot.DonorsAppend` | src/components/Chatbot.jsx:109-120 | the donors of consecutive documents are the donors of each part, in order |
| `Chatbot.CollectDonors` | src/components/Chatbot.jsx:107-120 | the `forEach` loop builds exactly the donors of the snapshot |
| `Chatbot.CityMatches` | src/components/Chatbot.jsx:124 | a donor matches iff its lower-cased city includes the lower-cased searched city (a predicate, no contract) |
| `Chatbot.MatchDonors` | src/components/Chatbot.jsx:123-125 | the matches are the donors whose city matches, each as often as in the collected list, in query order; they are empty iff no donor matches |
| `Chatbot.TopDonors` | src/components/Chatbot.jsx:129 | the shown donors are the first `min(3, n)` matches |
| `Chatbot.ShownDonorsKeepQueryOrder` | src/components/Chatbot.jsx:123-129 | the shown donors are at most three, all match the city, and appear in query order |
| `Chatbot.SearchReply` | src/components/Chatbot.jsx:127-140 | a failed query gives only the error text; matches give the top donors and the `/search` redirect; no match offers "Notify Me" |
| `Chatbot.FallbackReply` | src/components/Chatbot.jsx:172-189 | the keywords are tried in order hello/hi, eligible/eligibility, donate/donation, camp/location, each with its reply text and redirect; otherwise "not sure" with the quick actions; the quick actions appear exactly when there is no redirect, and a redirect comes with no actions at all |
| `Chatbot.NotifyReply` | src/components/Chatbot.jsx:149-167 | logged out goes to `/login`; with both slots filled, to `/search`; otherwise the quick actions |
| `Chatbot.IsPanic` | src/components/Chatbot.jsx:65 | the lower-cased input includes "urgent", "emergency", "need blood" or "help" (a predicate, no contract) |
| `Chatbot.AsksNotify` | src/components/Chatbot.jsx:149 | the raw input is "Notify Me" or includes it, case-sensitively (a predicate, no contract) |
| `Chatbot.Respond` | src/components/Chatbot.jsx:64-189 | rules A, B, C, D and the fallback, each with its new session, status messages and reply (rule B with the city prompt or the invalid-group text); only A and C change the mode |
| `Chatbot.InitialWellFormed` | src/components/Chatbot.jsx:30-31 | the initial session satisfies the session invariant |
| `Chatbot.RespondPreservesWellFormed` | src/components/Chatbot.jsx:72-87 | every turn keeps the blood-group slot empty or a valid group and the city slot empty or normalized |
| `Chatbot.AsksNotifyIsContains` | src/components/Chatbot.jsx:149 | the "Notify Me" test is exactly a substring test |
| `Chatbot.CityTurnEndsEmergency` | src/components/Chatbot.jsx:137-145 | after the city turn the mode is normal, the group is kept and the city stored, also when the query failed |
| `Chatbot.FilledEmergencyPersists` | src/components/Chatbot.jsx:65-83 | in emergency mode with both slots filled the mode stays emergency, and the session is unchanged unless the input asks to be notified |
| `Chatbot.NeedBloodScenario` | src/components/Chatbot.jsx:65-68 | "I need blood" in normal mode starts the emergency flow with eight choices |
| `Chatbot.BloodGroupScenario` | src/components/Chatbot.jsx:72-75 | "o+" or "O+" fills the blood-group slot with "O+" and the reply asks for the city |
| `Chatbot.NoDonorScenario` | src/components/Chatbot.jsx:84-135 | "mumbai" with no matching donor stores "Mumbai", returns to normal mode and offers "Notify Me" |
| `Chatbot.NotifyLoggedOutScenario` | src/components/Chatbot.jsx:149-152 | "Notify Me" while logged out redirects to login and clears both slots |
| `Chatbot.NotifyMeHasNoPanicWord` | src/components/Chatbot.jsx:65 | "notify me" contains none of the panic words |
| `Chatbot.BloodGroupsAcceptAnyCase` | src/components/Chatbot.jsx:48 | the eight groups are distinct, and each is its own upper-case form even after lower-casing, so rule B accepts a group typed in either case |
| `Chatbot.EmergencyHelpIsPanic` | src/components/Chatbot.jsx:42-46 | the "Emergency Help" quick action holds a panic word, so in normal mode it starts the emergency flow |
| `Chatbot.CheckEligibilityGoesToDashboard` | src/components/Chatbot.jsx:42-46 | the "Check Eligibility" quick action holds no panic word, does not ask to be notified, and the fallback redirects it to `/dashboard` |
| `Chatbot.FindCampsGoesToCamps` | src/components/Chatbot.jsx:42-46 | the "Find Camps" quick action holds no panic word, does not ask to be notified, and the fallback redirects it to `/camps` |
| `Text.LacksCharacter` | src/components/Chatbot.jsx:65 | a string lacking one character of a word does not include the word |
| `Chatbot.ChatSession.constructor` | src/components/Chatbot.jsx:16-31 | a fresh widget is in normal mode with empty slots and input and only the greeting |
| `Chatbot.ChatSession.EditInput` | src/components/Chatbot.jsx:351 | typing sets the input box's text |
| `Chatbot.ChatSession.HandleSend` | src/components/Chatbot.jsx:210-224 | input whose trim is empty changes nothing; otherwise one user message is appended, the input cleared, and the turn's messages, session and redirect follow `Respond` |
| `Chatbot.ChatSession.ProcessBotResponse` | src/components/Chatbot.jsx:50-207 | the session becomes the turn's session, the status and bot messages are appended, the redirect is returned, and the invariant is kept |
| `Chatbot.TakeTurn` | src/components/Chatbot.jsx:57-189 | the handler's step-by-step assignments compute exactly `Respond` |
| `Camps.IsArchived` | src/pages/DonationCampsPage.jsx:27 | the camp's status is 'archived' (a predicate, no contract) |
| `Camps.IsUpcoming` | src/pages/DonationCampsPage.jsx:27 | the camp has a date not before today and is not archived; an undated camp fails, as `undefined >= today` is false (a predicate, no contract) |
| `Camps.IsPast` | src/pages/DonationCampsPage.jsx:30 | the camp has a date before today and is not archived (a predicate, no contract) |
| `Camps.UpcomingOf` | src/pages/DonationCampsPage.jsx:27 | a camp is upcoming iff it has a date not before today and is not archived; each upcoming camp occurs as often as in the store |
| `Camps.PastOf` | src/pages/DonationCampsPage.jsx:30 | a camp is past iff it has a date before today and is not archived; each past camp occurs as often as in the store |
| `Camps.ListedOf` | src/pages/DonationCampsPage.jsx:27-30 | the listable camps are the dated, non-archived ones, each as often as in the store |
| `Camps.SplitCountsEachCampOnce` | src/pages/DonationCampsPage.jsx:27-31 | the upcoming and past lists together hold each listable camp as often as the store does, and no other camp |
| `Camps.CampTodayIsUpcoming` | src/pages/DonationCampsPage.jsx:25-30 | a non-archived camp dated today is upcoming and not past |
| `Camps.DateKey` | src/pages/DonationCampsPage.jsx:28 | the date a date comparison reads, "" for an undated camp (a function, no contract) |
| `Camps.NameKey` | src/pages/DonationCampsPage.jsx:52 | the name a name comparison reads, "" for a nameless camp (a function, no contract) |
| `Camps.Before` | src/pages/DonationCampsPage.jsx:50-59 | the comparator returns zero or less: dates ascending, dates descending, or names ascending (a predicate, no contract) |
| `Camps.BeforeTotal` | src/pages/DonationCampsPage.jsx:50-60 | each comparator orders any two camps one way or the other |
| `Camps.BeforeTransitive` | src/pages/DonationCampsPage.jsx:50-60 | each comparator is transitive |
| `Camps.SortedCons` | src/pages/DonationCampsPage.jsx:50-60 | putting a camp that goes no later than all others in front keeps a list sorted |
| `Camps.Insert` | src/pages/DonationCampsPage.jsx:50-60 | inserting adds exactly the one camp |
| `Camps.SortCamps` | src/pages/DonationCampsPage.jsx:28 | the sort is a permutation of its input |
| `Camps.InsertSorted` | src/pages/DonationCampsPage.jsx:50-60 | inserting into a sorted list keeps it sorted |
| `Camps.SortCampsSorted` | src/pages/DonationCampsPage.jsx:28-31 | the sort's result is ordered by its comparator |
| `Camps.SortOfSorted` | src/pages/DonationCampsPage.jsx:55-59 | sorting a list already in order leaves it unchanged |
| `Camps.FilterKeepsSorted` | src/pages/DonationCampsPage.jsx:43-50 | filtering a sorted list keeps it sorted |
| `Camps.LoadCamps` | src/pages/DonationCampsPage.jsx:19-39 | a successful load stores permutations of the upcoming and past camps; a failed one keeps the lists; loading ends either way |
| `Camps.FailedFirstLoadShowsNothing` | src/pages/DonationCampsPage.jsx:6-8 | a failed first load leaves both lists empty and stops loading |
| `Camps.LoadedListsPartition` | src/pages/DonationCampsPage.jsx:25-34 | after a load the upcoming list is nearest first and the past list newest first; together they hold each listable camp as often as the store does, and archived or undated camps are in neither |
| `Camps.OrderFor` | src/pages/DonationCampsPage.jsx:50-59 | the name order is chosen iff the option is 'name', whatever the tab; otherwise ascending dates iff the tab is 'upcoming' |
| `Camps.FieldIncludes` | src/pages/DonationCampsPage.jsx:46-48 | an optional field is present and its lower-cased text includes the term, as `?.toLowerCase().includes` gives (a predicate, no contract) |
| `Camps.MatchesSearch` | src/pages/DonationCampsPage.jsx:45-49 | the name, the address or the organizer includes the term (a predicate, no contract) |
| `Camps.FilterCamps` | src/pages/DonationCampsPage.jsx:42-61 | the result holds exactly the camps whose name, address or organizer includes the lower-cased term, each as often as in the input, reordered |
| `Camps.FilterCampsSorted` | src/pages/DonationCampsPage.jsx:50-60 | the result is ordered by the order the option and the tab choose |
| `Camps.EmptySearchKeepsCampsWithAField` | src/pages/DonationCampsPage.jsx:43-49 | an empty search keeps exactly the camps with a name, an address or an organizer |
| `Camps.DateSearchOfSortedKeepsOrder` | src/pages/DonationCampsPage.jsx:42-61 | on a list already in the tab's date order, the date-sorted search result is the filtered list in its own order |
| `Camps.DateSearchKeepsLoadedOrder` | src/pages/DonationCampsPage.jsx:55-64 | with the date sort on the matching tab, the displayed list is the loaded list filtered, in the loaded order |
| `Camps.Truthy` | src/pages/DonationCampsPage.jsx:186 | a coordinate is truthy when present and non-zero (a predicate, no contract) |
| `Camps.DirectionsFor` | src/pages/DonationCampsPage.jsx:185-191 | the route to the coordinates is chosen iff both are truthy; otherwise the address search |
| `Camps.DirectionsAction` | src/pages/DonationCampsPage.jsx:247-249 | a past camp's button does nothing; an upcoming camp's gives the directions |
| `Camps.Present` | src/pages/DonationCampsPage.jsx:220 | a time is truthy when present and non-empty (a predicate, no contract) |
| `Camps.Timings` | src/pages/DonationCampsPage.jsx:220 | "start - end" when both times are present, else "All Day" |
| `Camps.AllDayIffTimeMissing` | src/pages/DonationCampsPage.jsx:220 | "All Day" is shown exactly when a time is missing |

## Left out

- The Firestore donor query (src/components/Chatbot.jsx:99-106) is a parameter: the documents it returned, in order, or a failure. The server-side conditions (donor, eligible, blood type) are not modelled, and the documents are taken as given.
- The camp store calls `getDonationCamps` and `deleteOldCamps` are not modelled. `LoadCamps` receives the fetched camps, or `None` for a failed fetch.
- The clock: today's date is a parameter of `LoadCamps`.
- The `setTimeout` delays (typing 1000 ms, redirect 3500 ms), `navigate`, `scrollIntoView` and `window.open` are browser effects. A redirect is the returned target page. A directions link is a `Directions` value, not a URL string.
- `encodeURIComponent` and the Google Maps URL formats are not modelled.
- Message ids from `Date.now()`, the `isTyping` and `isOpen` flags, and all rendering and styling are not modelled.
- Authentication is a boolean `loggedIn`. `addToWatchlist` is imported by the component but never called.
- Chatbot.ChatSession.ProcessBotResponse: overlapping asynchronous turns that read a stale session are not modelled; turns run one after another, and each reads the session as it was when the turn began.
- Text.Lower: maps only the ASCII letters, not the full Unicode case mapping of `toLowerCase`.
- Text.Upper: maps only the ASCII letters, not the full Unicode case mapping of `toUpperCase` (for example "ß" to "SS").
- Camps.Before: `localeCompare` is modelled as lexicographic order by character, not locale collation. `new Date(a.date) - new Date(b.date)` is modelled as comparing the ISO date strings, which agree for well-formed `YYYY-MM-DD` dates.
- Camps.NameKey: a camp without a name sorts as "". Under the name sort, the source throws a `TypeError` when such a camp is the left operand of `localeCompare`; when it is the right operand, `localeCompare(undefined)` compares with the string "undefined", not with "".
- Camps.SortCamps: the sort is the stable insertion order `Array.prototype.sort` guarantees. Its contracts and lemmas state order and permutation, not stability.
- Camps.Truthy: a coordinate is truthy when present and not zero. A `NaN` coordinate is not modelled.
- Camp fields that are only displayed or used only as a list key (`contact`, `id`) are not part of `Camp`.
