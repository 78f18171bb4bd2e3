# AI ticket system: classifier and ticket store

A Dafny model of the data logic of a small help-desk application. Users
submit free-text support requests. A keyword classifier assigns each request
one of five categories, a priority, a colour tag, a canned response and a
confidence. The store keeps the tickets newest first and marks each ticket
Responded after a simulated auto-response. A search view filters the list,
and a statistics view counts tickets per category and shows rounded
percentages.

Files (one module each):

- `text.dfy` (`Text`): `toLowerCase` (ASCII letters only), `trim` with the
  ECMAScript white-space set, the blank-field test, and `includes` as
  substring containment.
- `registry.dfy` (`Registry`): the categories in declaration order and the
  table of keywords, priorities, colours and response texts (`TABLE`).
- `classifier.dfy` (`Classifier`): keyword scores, the selection rule, and
  confidence in hundredths. `Classify` is the source's loop. `ClassificationOf`
  is the function that specifies it.
- `tickets.dfy` (`Tickets`): tickets, the status update, and the
  `TicketStore` class with its submission gate.
- `search.dfy` (`Search`): the search-and-category filter.
- `stats.dfy` (`Stats`): per-category counts and percentages.

The classifier is a stateless function of a table value. The application
keeps the classifier from its first render (`useState(new TicketClassifier())`)
and never changes it. So the classifier operations take the table as a
parameter, and the store holds it as the constant field `classifier`, which
its constructor sets to `TABLE`.

Four behaviours of the source are easy to misread; the model follows the
source in each:

- The status update marks every ticket with the matching id Responded, whatever
  its current status. It does not check that the status was Processing.
- The ids are `TKT-` plus the current millisecond clock, so they are not
  guaranteed unique. The model takes the id from the caller and promises
  nothing about uniqueness.
- A blank field shows an alert and returns. It does not raise an error. The
  model returns `Err(MissingField)`.
- `submitTicket` itself never reads the processing flag. The only gate is the
  submit button, which is disabled while a submission is in flight. The model
  puts that check at the start of `BeginSubmit`.

## Model

| member | source | states |
|---|---|---|
| Text.Lower | src/App.jsx:42 | lower-casing keeps the length and maps each character by itself: A-Z to a-z, everything else unchanged |
| Text.IsBlank | src/App.jsx:150 | `!s.trim()` holds exactly when every character of `s` is white space |
| Text.Contains | src/App.jsx:50 | the empty string occurs in every text, and nothing longer than the text occurs in it |
| Text.ContainsIff | src/App.jsx:50 | `includes` holds exactly when the substring occurs at some position |
| Text.ContainsExtend | src/App.jsx:50 | an occurrence survives adding text before and after |
| Text.ContainsNeedsChars | src/App.jsx:50 | a substring with a character the text lacks does not occur |
| Text.LowerIdempotent | src/App.jsx:42 | lower-casing twice equals lower-casing once |
| Text.LowerAppend | src/App.jsx:42 | lower-casing distributes over concatenation |
| Registry.Index | src/App.jsx:7-38 | each category has one position in declaration order, and only one |
| Registry.FallbackIsOnlyKeywordless | src/App.jsx:7-38 | in the table, General_Inquiry is the one category without keywords |
| Registry.NamesDistinct | src/App.jsx:189 | category names are pairwise distinct and none equals the wildcard "All" |
| Registry.TemplateIgnoresText | src/App.jsx:67-123 | a row's template gives the same response for any two texts |
| Classifier.Hits | src/App.jsx:49-51 | a keyword count is at most the list length; it is 0 iff no keyword occurs, and full iff every keyword occurs |
| Classifier.MaxScore | src/App.jsx:43-56 | the result bounds every category's score and is the score of some category, or 0 |
| Classifier.FirstWith | src/App.jsx:53-56 | the first position whose score is the given value: no earlier category reaches that value |
| Classifier.Score | src/App.jsx:45-51 | a score is at most the number of the row's keywords; the fallback scores 0; any other category scores 0 iff none of its keywords occurs |
| Classifier.Confidence | src/App.jsx:60 | confidence is between 30 and 98 hundredths, and at least 85 for a positive score |
| Classifier.ClassificationOf | src/App.jsx:40-68 | the confidence is that of the winner's own score; priority and colour come from the winner's row; the response is the winner's template, on any text |
| Classifier.Classify | src/App.jsx:40-68 | the loop returns `ClassificationOf(text)`, whose category meets the selection rule `IsFirstBest` |
| Classifier.SelectionUnique | src/App.jsx:43-57 | the chosen category is exactly the one that either is the fallback when nothing scores, or has a positive, maximal score with every earlier category scoring strictly less |
| Classifier.FallbackResult | src/App.jsx:43-60 | when no category scores, the result is General_Inquiry with confidence 30 and the fallback row's priority |
| Classifier.MatchResult | src/App.jsx:53-60 | when some category scores, the result is not the fallback, and its confidence is min(80 + 5 * score, 98) of the winner's positive score |
| Classifier.ConfidenceMonotone | src/App.jsx:60 | confidence never decreases as the score grows |
| Classifier.CaseInsensitive | src/App.jsx:42 | classifying the lower-cased text gives the same result |
| Classifier.HitsGrow | src/App.jsx:49-51 | adding text around the input never lowers a keyword count |
| Classifier.MaxScoreGrows | src/App.jsx:43-56 | adding text around the input never lowers the best score |
| Classifier.ConfidenceGrows | src/App.jsx:49-60 | adding text around a request never lowers its confidence |
| Classifier.LetterlessTextFallsBack | src/App.jsx:7-60 | with the application's table, text lacking the letters b c g h i l m n r t u v y is General_Inquiry, confidence 30, priority Low |
| Classifier.UnrelatedTextFallsBack | src/App.jsx:43-60 | "asdkjf qpwoe" is General_Inquiry with confidence 30 and priority Low |
| Tickets.NewTicket | src/App.jsx:160-169 | a new ticket is Processing and keeps the given id, user, text and time; its category is the first best-scoring one for its text; its confidence is that of its score; priority, colour and response come from its category's row |
| Tickets.WithResponded | src/App.jsx:180-182 | same length and order; tickets with the id become Responded with all other fields unchanged; other tickets are untouched |
| Tickets.WithRespondedAbsent | src/App.jsx:180-182 | an id no ticket carries leaves the list unchanged |
| Tickets.WithRespondedIdempotent | src/App.jsx:180-182 | marking twice equals marking once |
| Tickets.SubmittedThenResponded | src/App.jsx:171-183 | a prepended ticket that is then marked stays first and becomes Responded with the same id and classification; older tickets with other ids are unchanged |
| Tickets.TicketStore.constructor | src/App.jsx:128-135 | the store starts with no tickets, no submission in flight, and the application's table as its classifier |
| Tickets.TicketStore.BeginSubmit | src/App.jsx:150-155 | refused while busy; refused with the list unchanged when text or user is blank; otherwise raises the busy flag and keeps the fields |
| Tickets.TicketStore.CompleteSubmit | src/App.jsx:160-175 | the classified ticket built from the kept fields becomes element 0, the old list follows, and the busy flag drops |
| Tickets.TicketStore.Submit | src/App.jsx:149-175 | a whole submission: the busy and blank cases leave the list and the kept fields unchanged; otherwise the new Processing ticket is prepended to the unchanged old list |
| Tickets.TicketStore.MarkResponded | src/App.jsx:179-183 | the list becomes `WithResponded` of the old list; the flag is unchanged |
| Tickets.TicketStore.List | src/App.jsx:128 | returns the current list, newest first |
| Search.Matches | src/App.jsx:187-190 | the empty term with "All" matches every ticket; a match needs a term no longer than the text or the user name |
| Search.Filter | src/App.jsx:186-191 | the result is an order-preserving subsequence; every element matches; every matching ticket is in it; it is the whole list iff every ticket matches |
| Search.FilterCounts | src/App.jsx:186-191 | each matching ticket is kept exactly as many times as it occurs in the list, and a non-matching one not at all |
| Search.FilterNothing | src/App.jsx:186-191 | an empty term with "All" returns the whole list in order |
| Search.SubsequenceSameLength | src/App.jsx:186-191 | a filtered view as long as the list is the list |
| Search.FilterByCategory | src/App.jsx:189 | filtering by a category's name keeps only tickets of that category |
| Search.FilterIgnoresCase | src/App.jsx:187-188 | lower-casing the search term does not change the result |
| Stats.CountOf | src/App.jsx:142-145 | a count is at most the number of tickets; it is 0 iff no ticket has the category, and the whole list iff every ticket has it |
| Stats.TallyFrom | src/App.jsx:142-145 | the reduce adds exactly the categories that occur as keys, and adds each category's ticket count to its entry |
| Stats.Tally | src/App.jsx:141-146 | the stats hold an entry exactly for the categories that occur, and each category's entry, 0 when absent, is its number of tickets |
| Stats.CountsSumToTotal | src/App.jsx:142-145 | the per-category counts add up to the number of tickets |
| Stats.Percentage | src/App.jsx:514 | 0 with no tickets; otherwise the nearest whole percent of count/total, halves up, at most 100 when count is at most total |
| Stats.SumPercentagesBounds | src/App.jsx:514 | a sum of k rounded shares is within k/2 percent of the exact sum |
| Stats.PercentagesNearHundred | src/App.jsx:512-514 | with at least one ticket, the percentages of all categories add up to between 98 and 102 |

## Left out

- Rendering is not modelled: tabs, icons, CSS classes, `alert`, the clipboard and clearing the form fields are presentation only.
- There are no real timers. The 1500 ms processing delay is the gap between `BeginSubmit` and `CompleteSubmit`. The 2000 ms auto-response is a call to `MarkResponded` made by the caller. Any interleaving of those calls is allowed; nothing forces `MarkResponded` to come after the submission.
- `Date.now()` and `new Date()` are not modelled. The id and the timestamp are parameters, and the timestamp is an integer.
- Confidence is a whole number of hundredths, not a float. In JavaScript, `0.8 + 0.05 * score` can differ from the exact hundredth in its last bits.
- Classifier.Confidence: does not model that floating-point error.
- Stats.Percentage: uses exact rational rounding, so a floating-point quotient that falls just below or above a half is not modelled.
- `toLowerCase` maps only the ASCII letters A-Z, because full Unicode case mapping is out of scope. `trim` uses the full ECMAScript white-space and line-terminator set.
- The stats are a function of the list. The source stores them in component state through an effect that runs after each list change; that intermediate stale state is not modelled.
- The Escalated status is declared but never produced. No operation produces it in the model either.
- The classification of "I forgot my password and I'm locked out" (Authentication, confidence 95) is not proved. It needs a non-occurrence proof on that literal for every keyword of every other category, which is too costly for the verifier. The fallback text "asdkjf qpwoe" is proved to give General_Inquiry.
- `tailwind.config.js` is styling configuration with no logic.
