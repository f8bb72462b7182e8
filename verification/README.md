# WhatsApp check-in webhook, modelled in Dafny

The repository is a single serverless webhook. The messaging relay (Twilio)
posts each WhatsApp message to it. The handler:

1. classifies the text as a morning (`AM`) or an evening (`PM`) check-in;
2. extracts the fields of a fixed free-text grammar with a list of
   case-insensitive regular expressions;
3. stores the record in an Airtable table;
4. replies to the sender with a confirmation, or with an apology that carries
   the error message.

Two near-identical copies exist: `pages/api/whatsapp.js` (it also serves a
diagnostics report for any request other than a POST that carries
`diag=1`) and `api/whatsapp.js`. Both are modelled.

The model is functional:

- **`Chars`, `Text`, `Scan`.** The character classes of non-`u` ECMAScript
  patterns:
  - `\s` is the full WhiteSpace and LineTerminator set. The same set is what
    `trim` removes.
  - `\w` is `[A-Za-z0-9_]`.
  - Under the `i` flag no non-ASCII character folds onto an ASCII one, so for
    these all-ASCII patterns folding the ASCII letters alone is exact.

  These modules also hold greedy runs, `trim`, `replace(/\s+/g, " ")`, and the
  leftmost search of `String.prototype.match`.
- **The regex shapes.** `ClassMatch`, `NumberMatch`, `FreeTextMatch` and
  `TrainingMatch` are hand-written matchers for the shapes the patterns take.
  - Each has an attempt function that mirrors the engine's backtracking
    priority.
  - Each has a ghost predicate that describes every match the pattern admits
    at a position.
  - Lemmas prove that the attempt succeeds exactly where the pattern matches,
    and that it returns the capture of the match the engine prefers. The search
    returns the capture at the leftmost matching position.
- **`Classify`.** `detectEntryType`.
- **`Entry`.** `parseAM` and `parsePM`. Both produce a typed record,
  `Fields = Morning(...) | Evening(...)`. A field is `None` exactly when the
  parser leaves that property off its object.
  - `parseInt` results are exact naturals.
  - `parseFloat` results are kept as the captured digits (`Decimal`).
- **`Handler`.** The handler is a pure function. Its inputs are:
  - the environment variables;
  - the request (method, `diag` query, decoded form, signature verdict);
  - a `World` that gives what `todayISO(TIMEZONE)` returns (two dates, or
    the error an unknown zone makes it throw) and how the store, the
    confirmation and the apology calls end.

  It returns the response and the ordered trace of outside calls
  (`Insert`, `Send`).

The confirmation in `pages/api/whatsapp.js` ends in the three characters
`âœ…`. These are the UTF-8 bytes of U+2705 read as Windows-1252. They are
modelled as written (`Handler.PagesMark`). `api/whatsapp.js` sends U+2705
itself (`Handler.ApiMark`).

Three behaviours of the error path:

- **A failed confirmation is caught** like any other error in the try block.
  The record is already stored; the catch block apologises and answers 200
  "ERR" (`Handler.ConfirmFails`).
- **A failed apology is not caught.** The handler's catch block has no catch
  of its own, so a failed apology rejects the handler (api/whatsapp.js:95-101;
  `Crash`, `Handler.ApologyFails`).
- **An unknown `TIMEZONE` is caught too.** `todayISO` runs inside the try
  block, before the insert, so its error leads to one apology and nothing
  stored (`Handler.ZoneFails`).

## Model

| member | source | states |
|---|---|---|
| `Chars.Upper` | pages/api/whatsapp.js:17 | `toUpperCase` of an ASCII letter is the upper-case letter of the same name (itself, or the letter 32 code points below); every other character is left unchanged. `toUpperCase` is applied only to captured ASCII letters, so this is exact there; on other text `Upper` is reached only through `Chars.Fold` |
| `Chars.Fold` | pages/api/whatsapp.js:13 | the `i` flag's canonical form: an ASCII letter folds to its upper-case letter and nothing else changes; a character below U+0080 stays below it and one at or above it stays at or above it. Without the `u` flag nothing at or above U+0080 folds onto an ASCII character, and every keyword is ASCII, so comparing folded characters decides each keyword match as JavaScript does, even where JavaScript would upper-case a character such as é |
| `Text.RunEnd` | pages/api/whatsapp.js:12 | a greedy run stops where the class ends: every character before the stop is in the class, and the one at the stop is not |
| `Text.RunEndExact` | pages/api/whatsapp.js:12 | a run followed by a character outside the class (or by the end of the text) is the greedy run |
| `Text.Trim` | api/whatsapp.js:76 | the trimmed text neither starts nor ends with whitespace |
| `Text.TrimSlice` | api/whatsapp.js:76 | `trim` keeps one contiguous piece of its input and removes only whitespace on either side |
| `Text.Squeeze` | api/whatsapp.js:12 | `replace(/\s+/g, " ")` keeps a non-empty text non-empty, and turns its first character into a space exactly when it was whitespace |
| `Text.SqueezeJoin` | api/whatsapp.js:12 | a whitespace run between two pieces that do not touch it with whitespace becomes exactly one space, and each piece is squeezed on its own |
| `Text.SqueezeNoSpace` | api/whatsapp.js:12 | a text without whitespace is left unchanged |
| `Text.SqueezeSingleSpaced` | api/whatsapp.js:12 | after the replacement the only whitespace left is a lone `' '` |
| `Text.CollapseIsCollapsed` | pages/api/whatsapp.js:11 | the collapsed text parsers match against is single-spaced with no whitespace at either end |
| `Text.CollapseFixes` | pages/api/whatsapp.js:16 | a text that is already collapsed is left unchanged |
| `Text.CollapseIdempotent` | api/whatsapp.js:18 | collapsing twice is collapsing once |
| `Text.CollapseKeepsVisible` | api/whatsapp.js:12 | the collapse changes whitespace only: every non-whitespace character survives, in order |
| `Scan.Search` | pages/api/whatsapp.js:13 | `match` succeeds exactly when an attempt at some position succeeds, and then it returns the attempt at the leftmost such position |
| `ClassMatch.ClassAtMeaning` | pages/api/whatsapp.js:13 | `Mood\s+([1-5])` at one position: the attempt succeeds exactly when the pattern matches there, and it captures the class character of that match |
| `ClassMatch.ClassFindMeaning` | pages/api/whatsapp.js:14 | the capture exists exactly when the pattern matches somewhere, and it comes from the leftmost match |
| `NumberMatch.FractionEnd` | pages/api/whatsapp.js:21 | `(?:\.\d+)?` takes a point only when at least one digit follows it and fractions are allowed; it always takes it then, with every digit that follows |
| `NumberMatch.NumberAtMeaning` | pages/api/whatsapp.js:12 | `Sleep\s+(\d{1,2}(?:\.\d+)?)\s*h` at one position: the attempt succeeds exactly when the pattern matches there; every match there has the capture the attempt returns |
| `NumberMatch.NumberFindMeaning` | pages/api/whatsapp.js:19-24 | the unit-suffixed number patterns capture exactly when they match somewhere, taking the leftmost match |
| `NumberMatch.NumberFindFits` | pages/api/whatsapp.js:19 | every capture respects the pattern's digit counts: `\d{1,4}` gives one to four digits, `\d{1,2}(?:\.\d+)?` gives one or two integer digits |
| `NumberMatch.DigitsFind` | pages/api/whatsapp.js:18 | the `Steps\s+(\d+)` capture is a non-empty string of digits |
| `NumberMatch.DigitsAtMeaning` | pages/api/whatsapp.js:18 | the attempt succeeds exactly where `Steps\s+(\d+)` matches, and it takes the longest digit run |
| `NumberMatch.DigitsFindMeaning` | api/whatsapp.js:20 | leftmost-match semantics of `Steps\s+(\d+)` |
| `FreeTextMatch.LastStart` | pages/api/whatsapp.js:15 | a greedy `\s*` or `\s+` gives back one character at a time: the capture starts at the last position where the rest can still match |
| `FreeTextMatch.TextAtMeaning` | pages/api/whatsapp.js:25 | the free-text attempt succeeds exactly where the pattern matches, and it returns the capture of the preferred match (longest whitespace part, then longest capture) |
| `FreeTextMatch.TextFindMeaning` | pages/api/whatsapp.js:25-27 | leftmost-match semantics of the Notes, GI, Supplements/Creatine and Flags patterns |
| `FreeTextMatch.TextFindShape` | pages/api/whatsapp.js:26 | every free-text capture lies in its class (any character but a bar, or any character but a line terminator) and has the minimum length the pattern demands |
| `TrainingMatch.TrainingAtMeaning` | pages/api/whatsapp.js:17 | `Training\s+([SCMR])\s*@RPE\s*(\d{1,2})` at one position: the attempt succeeds exactly when the pattern matches, with the captures of the match that has the most RPE digits |
| `TrainingMatch.TrainingFindMeaning` | api/whatsapp.js:19 | leftmost-match semantics of the Training pattern |
| `TrainingMatch.TrainingFindShape` | pages/api/whatsapp.js:17 | the Training captures are a letter of `[SCMRscmr]` and one or two digits |
| `Classify.WordFrom` | pages/api/whatsapp.js:31 | `/\bword\b/i` tried from position i: true exactly when the word occurs at word boundaries at or after i |
| `Classify.HasWord` | pages/api/whatsapp.js:32 | `/\bword\b/i.test(t)` holds exactly when the word occurs somewhere at word boundaries |
| `Classify.Detect` | pages/api/whatsapp.js:28-34 | AM exactly when the text has the AM tag, or has no PM tag but has the word Sleep; PM exactly when it has no AM tag and either the PM tag or Training without Sleep; UNKNOWN exactly when no tag and neither word occurs |
| `Classify.TagsExclusive` | pages/api/whatsapp.js:29-30 | no text carries both the AM and the PM tag |
| `Classify.TagDecides` | pages/api/whatsapp.js:29 | a two-letter AM or PM tag in any mix of cases, followed by `:` or `-` at the start, decides the type, whatever follows |
| `Classify.EmptyIsUnknown` | api/whatsapp.js:31-32 | the empty text is UNKNOWN |
| `Classify.SleepWordMeansAM` | pages/api/whatsapp.js:31 | without a PM tag, the word Sleep anywhere makes an AM entry |
| `Classify.SleepyIsUnknown` | api/whatsapp.js:32 | "sleep" inside a longer word does not count: "sleepy" is UNKNOWN |
| `Entry.DigitsValue` | pages/api/whatsapp.js:18 | `parseInt` of n decimal digits is below 10^n |
| `Entry.DigitsValueConcat` | pages/api/whatsapp.js:18 | digits are read left to right: the value of a + b is the value of a shifted past the digits of b, plus the value of b |
| `Entry.DigitsBelow` | pages/api/whatsapp.js:19 | at most k digits are worth less than 10^k |
| `Entry.RatingFieldMeaning` | pages/api/whatsapp.js:13-14 | Mood and Energy are present exactly when their pattern matches, and are then between 1 and 5 |
| `Entry.WholeFieldMeaning` | pages/api/whatsapp.js:19-22 | Protein_g, Fiber_g and Caffeine_mg are present exactly when their pattern matches, and are then at most 9999 |
| `Entry.TextFieldMeaning` | pages/api/whatsapp.js:25-27 | a free-text field is present exactly when its pattern matches; it is trimmed and keeps the class of its capture |
| `Entry.StepsFieldMeaning` | pages/api/whatsapp.js:18 | Steps is present exactly when its pattern matches |
| `Entry.RatingFieldCapture` | pages/api/whatsapp.js:13-14 | Mood and Energy are `parseInt` of the digit captured by the leftmost match |
| `Entry.WholeFieldCapture` | pages/api/whatsapp.js:19-22 | Protein_g, Fiber_g and Caffeine_mg are `parseInt` of the digits captured by the leftmost match |
| `Entry.TextFieldCapture` | pages/api/whatsapp.js:15-27 | Notes, GI_Symptoms, Supplements and Flags are the trimmed capture of the leftmost match, the one the engine prefers there |
| `Entry.StepsFieldCapture` | pages/api/whatsapp.js:18 | Steps is `parseInt` of the whole digit run captured by the leftmost match |
| `Entry.AfterFieldMeaning` | pages/api/whatsapp.js:23 | CaffeineAfter2pm is present exactly when its pattern matches, and is then "Y" or "N" |
| `Entry.AfterFieldCapture` | pages/api/whatsapp.js:23 | CaffeineAfter2pm comes from the leftmost match: "Y" exactly when the captured letter is `y` or `Y`, "N" exactly when it is `n` or `N` |
| `Entry.TrainingFieldsMeaning` | pages/api/whatsapp.js:17 | TrainingType is present exactly when the pattern matches; RPE is present exactly when TrainingType is; the type is one upper-case letter of S, C, M, R; RPE is at most 99 |
| `Entry.TrainingFieldsCapture` | pages/api/whatsapp.js:17 | TrainingType is the type letter of the leftmost match, upper-cased |
| `Entry.RpeFieldCapture` | pages/api/whatsapp.js:17 | RPE is the value of the digits of the same leftmost match |
| `Entry.AmFieldsPresence` | pages/api/whatsapp.js:11-15 | each of SleepHours, Mood, Energy and Notes is present exactly when its pattern matches the collapsed text |
| `Entry.AmFieldsValues` | pages/api/whatsapp.js:12-15 | SleepHours has one or two integer digits; Mood and Energy are between 1 and 5; Notes is trimmed |
| `Entry.PmActivityPresence` | pages/api/whatsapp.js:17-18 | TrainingType and Steps are present exactly when their patterns match; RPE is present exactly when TrainingType is |
| `Entry.PmFoodPresence` | pages/api/whatsapp.js:19-21 | Protein_g, Fiber_g and Water_L are present exactly when their patterns match |
| `Entry.PmDrinkPresence` | pages/api/whatsapp.js:22-24 | Caffeine_mg, CaffeineAfter2pm and Alcohol_units are present exactly when their patterns match |
| `Entry.PmTextPresence` | pages/api/whatsapp.js:25-27 | GI_Symptoms, Supplements and Flags are present exactly when their patterns match |
| `Entry.PmActivityValues` | api/whatsapp.js:19 | TrainingType is one of "S", "C", "M", "R"; RPE is at most 99 |
| `Entry.PmFoodValues` | api/whatsapp.js:21-23 | Protein_g and Fiber_g are at most 9999; Water_L has one or two integer digits |
| `Entry.PmDrinkValues` | api/whatsapp.js:24-26 | Caffeine_mg is at most 9999; CaffeineAfter2pm is "Y" or "N"; Alcohol_units is a decimal with at least one integer digit |
| `Entry.PmBarValues` | pages/api/whatsapp.js:25-26 | GI_Symptoms and Supplements contain no bar character and carry no whitespace at either end |
| `Entry.PmFlagsValue` | pages/api/whatsapp.js:27 | Flags is trimmed |
| `Entry.ParseCollapsed` | api/whatsapp.js:12-29 | both parsers depend only on the collapsed text: parsing the collapsed text gives the same record |
| `Handler.TableName` | api/whatsapp.js:50 | the table defaults to "Daily Logs" only when the variable is unset |
| `Handler.Catch` | api/whatsapp.js:95-101 | the catch block adds exactly one apology, carrying the error message, to the calls made so far |
| `Handler.ParseKinds` | api/whatsapp.js:12-18 | `parseAM` builds a morning record and `parsePM` an evening one |
| `Handler.ParsedKind` | api/whatsapp.js:80-83 | the try block throws exactly for an UNKNOWN message; otherwise it uses the parser of the detected type, whose EntryType is that type |
| `Handler.RespondUnknown` | pages/api/whatsapp.js:119-141 | an UNKNOWN message: no insert, one apology naming the expected prefixes, then 200 "ERR" (or the apology's failure) |
| `Handler.RespondSuccess` | api/whatsapp.js:85-94 | a stored and confirmed message: exactly the insert of `{Date, Source: "WhatsApp", ...fields}`, then the confirmation, then 200 "OK" |
| `Handler.RespondZoneError` | api/whatsapp.js:85 | an unknown time zone: no insert, no confirmation, one apology with the clock's error message |
| `Handler.RespondStoreFails` | pages/api/whatsapp.js:125-140 | a failed store: the insert, then one apology with the store's error message, and no confirmation |
| `Handler.RespondConfirmFails` | api/whatsapp.js:88-100 | a failed confirmation: the insert, the confirmation, then one apology with the confirmation's error message |
| `Handler.RespondReply` | api/whatsapp.js:79-102 | 200 "OK" exactly when the message parsed, the clock gave a date and both calls succeeded; 200 "ERR" exactly when something failed and the apology went out; a rejection, with the apology's message, exactly when the apology failed too |
| `Handler.RespondEffects` | pages/api/whatsapp.js:118-142 | the try block makes one to three calls: an insert first exactly when the message parsed and the clock gave a date, and after it only messages from the configured number to the sender |
| `Handler.RespondMark` | pages/api/whatsapp.js:127-131 | the confirmation's mark changes only the confirmation text: the reply, the number of calls, the record and the apologies are the same |
| `Handler.ApiNotPost` | api/whatsapp.js:41 | any method but POST gets 200 "up" with no configuration check and no call |
| `Handler.PagesNotPost` | pages/api/whatsapp.js:50-94 | any method but POST makes no insert and no message; it gets the diagnostics report exactly for `diag=1`, and 200 "up" otherwise |
| `Handler.MissingConfig` | api/whatsapp.js:56-61 | a missing credential gets 500 and no call; the body names Airtable exactly when its key or base id is missing |
| `Handler.BadSignature` | api/whatsapp.js:69-74 | with validation on, an invalid signature gets 403 "Invalid signature" and no call |
| `Handler.MissingOrRefused` | pages/api/whatsapp.js:102-113 | a POST stopped by a guard makes no call |
| `Handler.ParsedNone` | api/whatsapp.js:76-83 | the request's message has no parse result exactly when it classifies as UNKNOWN |
| `Handler.StoredFields` | api/whatsapp.js:80-86 | for a known type, once the clock gives a date, the stored record is `{Date, Source, ...fields}` with the fields of the parser the type picks |
| `Handler.Success` | api/whatsapp.js:79-94 | a known type, a date from the clock and both calls succeeding: exactly [insert, confirmation] and 200 "OK" |
| `Handler.UnknownKind` | pages/api/whatsapp.js:119-141 | an UNKNOWN message is never stored: one apology with `Start with "AM:" or "PM:"`, then 200 "ERR" when it went out |
| `Handler.ZoneFails` | pages/api/whatsapp.js:124 | an unknown time zone is caught before the insert: one apology with the clock's message, nothing stored, and 200 "ERR" when the apology went out |
| `Handler.StoreFails` | api/whatsapp.js:86-101 | a failed store: [insert, apology with the store's message], no confirmation |
| `Handler.ConfirmFails` | api/whatsapp.js:88-101 | a failed confirmation is caught after the insert: [insert, confirmation, apology with the confirmation's message] |
| `Handler.ApologyFails` | api/whatsapp.js:95-101 | the catch block has no catch of its own: a failed apology rejects the handler with its message |
| `Handler.PostReply` | api/whatsapp.js:56-102 | a POST gets 200 "OK" exactly when it passes the guards, its type is known, the clock gives a date and both calls succeed; 200 "ERR" exactly when it passes the guards, something in the try block fails and the apology goes out |
| `Handler.PostEffects` | api/whatsapp.js:56-102 | a POST stores exactly when it passes the guards, its type is known and the clock gives a date; the record is then the first call and the only insert; every message goes from the configured number to the sender; at most three calls |
| `Handler.DeploymentsAgree` | pages/api/whatsapp.js:96-143 | both deployments answer every POST alike, with the same number of calls, the same record and the same apologies; only the confirmation's mark differs |
| `Handler.EmptyBody` | api/whatsapp.js:76-83 | a missing Body, or one of only whitespace, classifies as UNKNOWN, so nothing is stored |
| `Handler.FieldColumns` | api/whatsapp.js:12-29 | a parsed record has EntryType = its type, and only the properties of that type: SleepHours, Mood, Energy, Notes for AM; the training, nutrition and free-text properties for PM |
| `Handler.PayloadSpread` | api/whatsapp.js:85 | the spread never overwrites Date or Source; every parsed property reaches the stored object unchanged |
| `Handler.NamesDistinct` | pages/api/whatsapp.js:124 | distinct columns have distinct property names |

## Left out

- `parseForm`: reading the request stream and `URLSearchParams` decoding are I/O and a library. The form is an input map.
- `todayISO`: it reads the wall clock and formats in a time zone with `Intl`. What it returns is an input (`World.clock`): the two dates, or the error an unknown zone makes it throw. Which zones are known, and the date formatting, are not modelled.
- `twilio.validateRequest`: an HMAC check inside a library, so `TWILIO_WEBHOOK_URL` and the signature header play no part. Its verdict is the input `Request.signatureValid`.
- Airtable `create` and Twilio `messages.create`: outside services. Each is an outcome (`Done` or `Failed(message)`) given by `World`, and each attempted call is an entry in the trace.
- The diagnostics report of `pages/api/whatsapp.js` (lines 52-90): its contents come from network probes and dynamic imports. Only its selection (`DiagReport`) is modelled.
- The lazy `import` of the two libraries runs before the configuration guards (api/whatsapp.js:44-46, pages/api/whatsapp.js:98-100). The Twilio and Airtable client construction runs after them and before the signature check (api/whatsapp.js:63-64, pages/api/whatsapp.js:105-106). A failure of either is not modelled.
- `Handler.PagesNotPost`: the diagnostics report reads one record of the table (pages/api/whatsapp.js:69). That read is not a call in the trace, which holds only inserts and messages.
- `console.error` logging: it has no effect on the response or the trace.
- `parseFloat`: SleepHours, Water_L and Alcohol_units keep the digits they were parsed from, so floating-point rounding is not modelled.
- `Entry.StepsFieldCapture`: `parseInt` of a digit run worth more than 2^53 can lose precision in JavaScript. The model keeps the exact value. Steps is the only `parseInt` field with an unbounded digit run.
- `Entry.DigitsValue`: the bound "n digits are worth less than 10^n" holds for the exact value only. In JavaScript it can fail above 2^53: `parseInt("99999999999999999")` gives 10^17.
- `Handler.Catch`: `e?.message` of a thrown value without a message renders as "undefined". The model always has a message string.
- Strings are sequences of Unicode scalar values, not UTF-16 code units. Astral characters and lone surrogates are not modelled.
- The order of keys in the stored object is not modelled. Only which properties it has, and their values, are modelled.
