# Student login gate: a verified model of the login handler

The portal's login form asks for a student's full name (surname, given name,
patronymic: the ПІБ) and a password. The handler `login` of `login_page`
(main.py:224-269) is the only part of the program that makes decisions:

1. it strips both field values;
2. it refuses a name with fewer than three whitespace-separated tokens, with a
   warning banner;
3. it refuses a password shorter than six characters, with a warning banner;
4. it shows the loading bar and looks the student up under the title-cased
   name (`full_name.title()`). Only the ends of the name are stripped, so
   whitespace between the words stays in the key: a name typed with two
   spaces between two of its words passes the check but is looked up with
   both spaces;
5. it ends in exactly one of three outcomes:
   - the student is not found: the form shakes;
   - the stored password (field index 2 of the row) differs from the typed
     one: the password field is cleared;
   - the passwords match: the page is replaced by the main view.

The handler drives two small stateful helpers. `LoadingOverlay` (main.py:33-57)
puts a progress bar into the page's overlay list. `Message` (main.py:59-97)
keeps one notification banner in the page's control list.

The project has four modules:

- `Wrappers` (wrappers.dfy): `Option`, the lookup's `None`-or-record result.
- `PyText` (text.dfy): the three Python string built-ins the handler uses.
  - `Strip` is `str.strip()`.
  - `Words` is `str.split()`: the maximal runs of non-whitespace characters,
    with CPython's whitespace set written out.
  - `TitleCase` is `str.title()` under CPython's rule. A character is
    title-cased when the character before it is uncased, and lower-cased
    otherwise, so an apostrophe or a hyphen also starts a word. The case
    tables are a parameter (`CaseMapping`), with an ASCII instance for
    examples.
- `Widgets` (widgets.dfy): the page (its `controls` and `overlay` lists), the
  banner palette, and the classes `Message` and `LoadingOverlay`. Their
  methods update the page's lists in place.
- `LoginFlow` (login.dfy): the pure decision (`Validate`, `LookupKey`,
  `Decide`, `Evaluate`), the observable event sequence of one run (`Run`,
  `Trace`), the page state a press can change as a value (`Form`) with the
  pure effect of one press on it (`Press`), and the class `LoginPage`. Its
  method `Login` performs one press of the button against a student lookup
  given as a parameter. It is proved to return the attempt `Evaluate`
  decides and to leave the page in the state `Press` computes. The lemma
  `PressEffects` states what that state is: the events of `Run`, the fields,
  the banner and the loading bar.

The student database (`get_student_by_full_name`) is a parameter: a
function from the lookup key to an optional `Student` row. Python's case
tables are a parameter too.

## Model

| member | source | states |
|---|---|---|
| `PyText.Strip` | main.py:225-226 | the stripped value is no longer than the field and neither starts nor ends with whitespace |
| `PyText.TrimLeft` | main.py:225-226 | `lstrip()`: drops a whitespace prefix, keeps the rest, and the result does not start with whitespace |
| `PyText.TrimRight` | main.py:225-226 | `rstrip()`: drops a whitespace suffix, keeps the rest, and the result does not end with whitespace |
| `PyText.StripShape` | main.py:225-226 | `strip()` removes exactly a whitespace prefix and a whitespace suffix and keeps the middle of the value unchanged |
| `PyText.StripIdempotent` | main.py:225-226 | stripping a stripped value changes nothing |
| `PyText.Words` | main.py:228 | `split()`: skip leading whitespace, take the maximal run of non-whitespace characters as the next token, repeat until only whitespace is left |
| `PyText.WordsAreTokens` | main.py:228 | every token of `split()` is non-empty and free of whitespace |
| `PyText.WordsOfToken` | main.py:228 | a token followed by nothing or by whitespace is the first token of `split()`, and the rest splits as before |
| `PyText.WordsAppendSpaces` | main.py:228 | trailing whitespace adds no token to `split()` |
| `PyText.WordsOfStrip` | main.py:228 | `s.strip().split() == s.split()`, so the name check counts the tokens of the raw field |
| `PyText.WordsOfJoin` | main.py:228 | splitting whitespace-free words joined by single spaces gives the words back |
| `PyText.TitleFrom` | main.py:239 | CPython's title-casing loop over the characters, carrying whether the previous input character is cased; the result has the input's length |
| `PyText.TitleCase` | main.py:239 | `title()`: the loop started with no cased predecessor; the result has the input's length |
| `PyText.TitleCaseAt` | main.py:239 | position by position, `title()` title-cases a character exactly when it is first or follows an uncased character, and lower-cases every other one |
| `PyText.TitleCaseIdempotent` | main.py:239 | under coherent case tables, `s.title().title() == s.title()` |
| `PyText.TitleCaseOfJoin` | main.py:239 | under coherent case tables, title-casing words joined by spaces is joining the separately title-cased words |
| `PyText.TitleCaseExample` | main.py:239 | with ASCII tables, `"o'neil-SMITH x".title() == "O'Neil-Smith X"`: apostrophes and hyphens also start words |
| `PyText.AsciiCoherent` | main.py:239 | the ASCII case tables are coherent: whitespace is uncased and the mappings are idempotent and keep casedness |
| `LoginFlow.Validate` | main.py:225-234 | the two input checks on the stripped values, in the source's order: the name check (empty or fewer than 3 tokens) first, then the password check (empty or shorter than 6) |
| `LoginFlow.ValidateCases` | main.py:225-234 | the verdict is `InvalidName` exactly when the name has fewer than 3 tokens; `WeakPassword` exactly when the name has 3 or more and the stripped password has fewer than 6 characters; `Valid` exactly when both checks pass |
| `LoginFlow.NameShort` | main.py:228 | the name check on the stripped name fails exactly when the raw name has fewer than 3 tokens; the emptiness test adds nothing |
| `LoginFlow.NameCheckFirst` | main.py:228-234 | with a short name, the run is the one name warning, whatever the password and the database |
| `LoginFlow.RefusalIsQuiet` | main.py:228-234 | a refused submission emits a single warning banner, the name warning when the name is short and the password warning otherwise, and nothing else: no loading bar, no lookup |
| `LoginFlow.JoinedNamePasses` | main.py:228 | any three or more whitespace-free words, joined by single spaces, pass the name check together with a password of 6 or more characters |
| `LoginFlow.TwoWordsRefused` | main.py:228-230 | `"OnlyTwo Tokens"` is refused as an incomplete name whatever the password and the database |
| `LoginFlow.LookupKey` | main.py:239 | the lookup key `full_name.strip().title()`; it is as long as the stripped name |
| `LoginFlow.LookupKeyCanonical` | main.py:239 | the lookup key is canonical: typing the key itself looks up the same key |
| `LoginFlow.LookupKeyOfJoin` | main.py:239 | a name typed as words joined by spaces is looked up under the same words, each title-cased |
| `LoginFlow.TitleCaseWord` | main.py:239 | a lower-case ASCII word is looked up with its first letter upper-cased |
| `LoginFlow.Decide` | main.py:241-258 | the three-way branch on the lookup result: no row, a stored password (field 2) unequal to the typed one, or an equal one |
| `LoginFlow.DecideCases` | main.py:241-258 | no record gives `NotFound`; a record whose field-2 password differs from the stripped password gives `WrongPassword`; an equal one gives `Success`; each holds exactly under its own condition |
| `LoginFlow.Evaluate` | main.py:225-258 | the whole decision for one submission: the verdict of the checks when one fails, otherwise the outcome `Decide` gives for the record under the title-cased key and the stripped password |
| `LoginFlow.RefusalIgnoresDatabase` | main.py:228-234 | a refused submission returns before the lookup: its attempt is a refusal and is the same whatever the database holds |
| `LoginFlow.OnlyKeyMatters` | main.py:239-258 | only the record stored under the lookup key matters: two databases that agree on that key give the same attempt |
| `LoginFlow.EvaluateFound` | main.py:236-258 | when both checks pass and the key names a stored record, only that record's password decides between success and a wrong password |
| `LoginFlow.JoinedNameFindsRecord` | main.py:225-258 | three or more words typed in any case finds the record stored under their title-cased spelling; the stored password then decides between success and a wrong password |
| `LoginFlow.FeedbackFor` | main.py:228-259 | the text and level of the banner each attempt ends with: the two warnings of the input checks, the two errors of a failed lookup, and the success notice |
| `LoginFlow.FeedbackDistinguishes` | main.py:228-259 | the five banners are pairwise different; the level is "warning" exactly for refused input and "success" exactly for a successful login |
| `LoginFlow.Ending` | main.py:241-269 | the events of each outcome branch in the source's order: hide, error banner, shake; hide, error banner, clear; success banner, hide, main view |
| `LoginFlow.Run` | main.py:224-269 | the events of one run: the warning banner alone for a refused attempt; bar shown, lookup, then the outcome's ending for a resolved one |
| `LoginFlow.Trace` | main.py:224-269 | the events of one run on the raw field values: `Run` of the attempt `Evaluate` decides, with the title-cased stripped name as key |
| `LoginFlow.RunShape` | main.py:224-269 | a refused run is one warning banner; a resolved run has five events |
| `LoginFlow.RunLookups` | main.py:236-239 | a resolved run issues exactly one lookup, with the run's key; a refused run issues none |
| `LoginFlow.LookupOnlyWhenValid` | main.py:228-239 | a submission issues exactly one lookup, keyed by the title-cased stripped name, when it passes both checks, and none otherwise |
| `LoginFlow.RunFeedbacks` | main.py:228-259 | every run shows exactly one banner, the one its attempt calls for |
| `LoginFlow.RunLoading` | main.py:236-266 | the loading bar is shown only after the checks pass, as the first event before the lookup, and is hidden again in every outcome branch |
| `LoginFlow.RunSideEffects` | main.py:241-269 | the password field is cleared exactly on a wrong password; the form shakes exactly when the name is not found; the main view is shown exactly on success |
| `LoginFlow.Banner` | main.py:64-97 | `message.show(text, color)` on the page state: the held banner leaves the control list, and the new banner, coloured by `Palette`, is appended and becomes the held one |
| `LoginFlow.AfterShake` | main.py:245-250 | the shake on the page state: the offsets of `ShakeOffsets(3)` and then 0 are rendered, and the form ends at rest |
| `LoginFlow.AfterRefuse` | main.py:228-234 | a failed check on the page state: the warning banner and its one event, nothing else |
| `LoginFlow.AfterReject` | main.py:241-256 | a failed lookup on the page state: the bar hidden, the error banner, then the shake or the cleared password field, with the events of `Ending` |
| `LoginFlow.AfterAdmit` | main.py:258-269 | a successful login on the page state: the success banner, the bar hidden, the control list replaced by the main view, with the events of `Ending` |
| `LoginFlow.AfterLookup` | main.py:236-269 | everything after the checks on the page state: the bar shown, the lookup of the key recorded, then `AfterAdmit` or `AfterReject` for the outcome |
| `LoginFlow.Press` | main.py:224-269 | the page state after one press, as a value: `AfterRefuse` when a check fails, otherwise the bar shown, the lookup under the key, and `AfterAdmit` or `AfterReject` for the outcome |
| `LoginFlow.RefuseEffects` | main.py:228-234 | a refused press only replaces the banner with the warning and records that one event; the fields, the offset, the rendered offsets and the loading bar are unchanged, and the page stays at rest with one banner |
| `LoginFlow.LookupEffects` | main.py:236-269 | a press that reaches the lookup records the bar shown, the lookup of the key and the outcome's ending. It leaves the bar hidden and the overlay list as before. It clears the password exactly on a wrong password, shakes exactly on an unknown name, and shows the outcome's banner. On failure the page is back at rest with that banner only; on success the page holds only the main view |
| `LoginFlow.PressEffects` | main.py:224-269 | one press on a page at rest has exactly the effects of the attempt `Evaluate` decides, with the events of `Run` for the title-cased key |
| `LoginFlow.LoginPage.constructor` | main.py:171-173 | a new login page has empty fields, no events and no rendered offsets, shares the page with its `Message` and `LoadingOverlay`, and is at rest: no banner held, the loading bar hidden and absent from the overlay, the form not displaced |
| `LoginFlow.ShakeOffsets` | main.py:245-248 | the first `n` shake offsets alternate -2, +2, ... (hundredths), starting with -2 on even steps |
| `LoginFlow.LoginPage.Shake` | main.py:245-250 | the shake renders the three alternating offsets -2, +2, -2 (hundredths) and then 0, and leaves the form at rest |
| `LoginFlow.LoginPage.Refuse` | main.py:228-234 | a failed check shows the warning banner, records it, and changes nothing else; the page stays at rest |
| `LoginFlow.LoginPage.Reject` | main.py:241-256 | not found: hide the bar, show the error, shake. Wrong password: hide the bar, show the error, clear the password field. Each step's event is recorded right after the step, so the events are `Ending`'s in the source's order. The page ends at rest |
| `LoginFlow.LoginPage.Admit` | main.py:258-269 | success: show the success banner, hide the bar, and replace the page content by the main view; each step's event is recorded right after the step, so the events are `Ending`'s in the source's order |
| `LoginFlow.LoginPage.Authenticate` | main.py:236-269 | after the checks: show the bar, look the key up once, decide with `Decide`, then reject or admit; the page is at rest again unless the login succeeded |
| `LoginFlow.LoginPage.Login` | main.py:224-269 | one press yields the attempt `Evaluate` gives, and the page's new state is the pure `Press` of its old state, whose effects `PressEffects` states; the page is at rest again unless the login succeeded |
| `Widgets.Palette` | main.py:65-70 | `colors.get(color, colors["error"])` over the three banner palettes |
| `Widgets.PaletteFallback` | main.py:65-70 | "warning" and "success" pick their own colours; every other key, "error" included, falls back to the error colours |
| `Widgets.ReplaceKeepsOneNotice` | main.py:72-95 | removing the previous banner and adding a new one leaves exactly one banner on the page, the new one |
| `Widgets.Message.constructor` | main.py:60-62 | a new `Message` has no current banner |
| `Widgets.Message.Show` | main.py:64-97 | the previous banner, if any, is removed from the page before the new one, coloured from the palette, is appended. The new banner becomes the current one and remains the only banner on the page |
| `Widgets.ShowStep` | main.py:47-51 | `show` on the bar's state: append the bar and mark it visible unless it is already visible |
| `Widgets.HideStep` | main.py:53-57 | `hide` on the bar's state: remove the bar and mark it hidden only when it is visible |
| `Widgets.ShowStepConsistent` | main.py:47-51 | `show` leaves the bar visible and in the overlay list exactly once |
| `Widgets.HideStepConsistent` | main.py:53-57 | `hide` leaves the bar hidden and absent from the overlay list |
| `Widgets.StepsIdempotent` | main.py:47-57 | a second `show` or a second `hide` changes nothing |
| `Widgets.HideUndoesShow` | main.py:47-57 | hiding after showing gives back the overlay list as it was |
| `Widgets.LoadingOverlay.constructor` | main.py:34-45 | a new loading bar is hidden and not in the overlay list |
| `Widgets.LoadingOverlay.Show` | main.py:47-51 | `show` appends the bar only when it is hidden; afterwards it is visible, and `visible` holds exactly when the bar is in the overlay list, once |
| `Widgets.LoadingOverlay.Hide` | main.py:53-57 | `hide` removes the bar only when it is visible; afterwards it is hidden and absent from the overlay list |
| `Widgets.RemoveFirst` | main.py:55 | `list.remove(x)` on a list that holds `x` shortens it by one; a list without `x` is returned as it is, where Python raises (see Left out) |
| `Widgets.RemoveFirstCount` | main.py:55 | `list.remove(x)` takes away exactly one occurrence of `x`, when there is one, and keeps every other element as often as it was there |
| `Widgets.CountPositive` | main.py:47-57 | an element is in a list exactly when it occurs in it at least once |
| `Widgets.CountAppend` | main.py:49 | appending `x` adds one occurrence of `x` and none of anything else |
| `Widgets.NoticesIn` | main.py:72-77 | every banner the page lists is one of its controls, so removing the current banner never raises |

## Left out

- Presentation: the colour table apart from the three banner palettes,
  `create_input_field` and its focus handler, `create_button`, the layout of
  `login_page` and the window setup in `main` (main.py:8-31, 99-222,
  271-319). They build widgets and make no decisions.
- Timing and animation. The model does not keep the `asyncio.sleep` pauses,
  the banner fade, or the scale, opacity and rotation of the success
  transition. Each await point is a plain step in sequence. The shake keeps
  only the offsets it renders.
- The `database` module is not part of this model. `create_table` runs at
  import time and is not modelled. `get_student_by_full_name` is the
  parameter `db`, which returns a row with an id, a full name and a
  password. The handler reads only the password.
- main_page.py is not part of this model. The main view is the single
  control `MainView`, and `logout` is navigation with no decision in it.
- LoginFlow.LoginPage.Login: requires the loading bar to be hidden and the
  form to be at rest when a press starts. A second press that interleaves
  with the first at an await point is not modelled. The source has no guard
  against one.
- LoginFlow.LoginPage.Login: on success `page.clean()` removes the banner
  while `Message` still holds it as its current banner. So the method does not
  re-establish the banner invariant on that branch; it promises only that
  the page holds the main view.
- A lookup that raises is not modelled. The source has no `try` around
  main.py:239, so the exception would leave the handler with the loading
  bar shown. `db` is a total function.
- The source has no password hashing, and the model has none either: the
  comparison at main.py:252 is exact string inequality on the stored
  plaintext.
- PyText.TitleCase: uses one-character case mappings. CPython's full
  mappings can turn one character into several (`"ß".title()` is `"Ss"`), so
  the length of a title-cased string can differ in Python. The model does
  not capture that. Nor does it capture context-dependent mappings: CPython
  lower-cases U+03A3 (capital sigma) to final sigma at the end of a word, and
  a `toLower` of one character cannot express that. The case tables themselves are a parameter, and the
  key-related properties require only that they are coherent.
- Widgets.RemoveFirst: returns a list without `x` unchanged, where Python's
  `list.remove` raises `ValueError`. Both callers (`Message.Show`, at
  main.py:77, and `LoadingOverlay.Hide`, at main.py:55) prove that the
  element is present, so the difference is never reached.
- The `not student` test (main.py:241) is modelled as "no row". A row is a
  non-empty tuple, so it is always truthy.
