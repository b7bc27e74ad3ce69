# OmniCard card finder — a Dafny model

OmniCard is a one-page credit-card finder. A user types a free-text prompt;
the page turns it into a three-field filter (search term, category, zero-fee
toggle) and lists the catalog cards that pass all three tests. The catalog
comes from a spreadsheet cleaner that flags student and ITIN cards and sorts
each card's rewards into "Cashback", "Travel" or "General".

This project models that logic and proves what it promises:

- `text.dfy` (module `Text`): ASCII lower-casing and substring containment.
  `Contains` scans from the left. `IsSubstring` is the declarative meaning
  ("some position holds the needle"). `ContainsIsSubstring` proves the two
  agree, so every other contract is stated through `IsSubstring`.
- `matcher.dfy` (module `Matcher`): the card record, the filter, the three
  tests and `Filter`, the stable filter behind `filteredCards`.
- `intent.dfy` (module `Intent`): `Translate`, the filter a prompt leaves
  behind. It is stated through the declarative keyword tests and checked on
  the page's own placeholder prompt and other examples.
- `page.dfy` (module `Page`): the page state as a class `Session`, with one
  method per event handler. `HandleAiSearch` overwrites the fields step by
  step, as the page does, and is proved to end with `Translate` of the prompt.
- `clean_data.dfy` (module `CleanData`): the cleaner's row rules
  (`is_student`, `accepts_itin`, `Reward_Type`), the kept columns and the
  outcomes of one run over an already-read sheet.
- `pipeline.dfy` (module `Pipeline`): the CSV hand-off from cleaner to page.
  It shows that the page's "Travel" category can only list cards whose
  Rewards text says "Travel" and not "Cashback".

The page's placeholder prompt, "I am a student and I dont have a ssn", does not
switch the zero-fee toggle on. The code looks for the literal text "no ssn",
which that prompt does not contain (`Intent.PlaceholderPrompt`).

## Model

| member | source | states |
|---|---|---|
| `Text.ContainsIsSubstring` | src/App.jsx:42-43 | The computable containment used for `includes` holds exactly when some position of the text holds the needle (both directions) |
| `Matcher.MatchesMeaning` | src/App.jsx:41-47 | A card passes iff (the lower-cased term occurs in the lower-cased product name or institution name, missing names read as "") and (category is "All" or equals Reward_Type exactly) and (toggle off or Annual Fee is exactly "$0", "0" or "") |
| `Matcher.EmptyTermMatchesEveryCard` | src/App.jsx:42-43 | The empty search term matches every card, including cards with missing names |
| `Matcher.MissingNamesMatchOnlyEmptyTerm` | src/App.jsx:42-43 | A card with both names missing causes no error and passes the text test exactly when the term is empty |
| `Matcher.SearchIgnoresCase` | src/App.jsx:42-43 | The text test gives the same answer for a term and its lower-cased form |
| `Matcher.CategoryTest` | src/App.jsx:44 | "All" never excludes a card; any other category passes iff Reward_Type equals it exactly (case-sensitive), and a missing Reward_Type never equals it |
| `Matcher.ZeroFeeTest` | src/App.jsx:45 | With the toggle off every card passes; with it on a card passes iff its Annual Fee is exactly "$0", "0" or "" (a missing fee fails) |
| `Matcher.Filter` | src/App.jsx:41-47 | The result is an order-preserving subsequence of the catalog, and every card in it passes all three tests |
| `Matcher.FilterCounts` | src/App.jsx:41-47 | Each card occurs in the result as often as in the catalog if it passes, and never if it fails: no passing card is dropped |
| `Matcher.FilterMembership` | src/App.jsx:41-47 | A card is in the result iff it is in the catalog and passes all three tests |
| `Matcher.FilterAppend` | src/App.jsx:41 | Filtering a concatenated catalog is the concatenation of the filtered parts (the filter looks at each card alone, in order) |
| `Matcher.FilterIdempotent` | src/App.jsx:41-47 | Filtering the result again with the same filter changes nothing |
| `Matcher.DefaultFilterKeepsAll` | src/App.jsx:7-9 | The initial filter (empty term, "All", toggle off) lists the whole catalog in order |
| `Matcher.ZeroFeeNarrows` | src/App.jsx:45 | Turning the zero-fee toggle on never adds a card to the result |
| `Matcher.KeepsOrder` | src/App.jsx:41-47 | Of five cards where the first, third and fifth pass, the result is exactly those three in that order |
| `Intent.Translate` | src/App.jsx:22-37 | The toggle is on iff the lower-cased prompt contains "budget", "no fee" or "no ssn"; if it contains "travel" or "points" the category is "Travel" and the term ""; else if it contains "student" the term is "Student" and the category "All"; else the term is the raw prompt with its case kept and the category "All" |
| `Intent.OneTopicalBranch` | src/App.jsx:31-37 | Exactly one topical outcome results, and the category is "Travel" iff the prompt mentions travel or points |
| `Intent.TravelPromptShowsTravelCards` | src/App.jsx:31-44 | After a travel or points prompt every listed card has Reward_Type exactly "Travel" |
| `Intent.KeywordsIgnoreCase` | src/App.jsx:23-33 | Two prompts equal after lower-casing get the same toggle and the same category |
| `Intent.PlaceholderPrompt` | src/App.jsx:28-37 | The placeholder prompt of line 75 gives term "Student", category "All" and the toggle off, since it does not literally contain "no ssn" |
| `Intent.TravelPrompt` | src/App.jsx:28-37 | "best travel points card" gives category "Travel", term "" and the toggle off |
| `Intent.PlainPrompt` | src/App.jsx:28-37 | "Chase Sapphire" (no keyword) becomes the search term unchanged, with "All" and the toggle off |
| `Intent.BudgetStudentPrompt` | src/App.jsx:28-37 | The fee rule combines with a topical branch: "Budget card for a Student" gives term "Student" with the toggle on |
| `Page.Session.constructor` | src/App.jsx:6-11 | The page starts on the prompt screen with no cards, an empty prompt and the filter "", "All", off |
| `Page.Session.Load` | src/App.jsx:18 | The parsed rows become the catalog; the filter, prompt and mode are unchanged |
| `Page.Session.EditPrompt` | src/App.jsx:77 | Typing replaces the prompt and nothing else |
| `Page.Session.HandleAiSearch` | src/App.jsx:22-39 | After the step-by-step overwrites the filter equals `Translate` of the prompt, whatever the filter was before; the page is in results mode; catalog and prompt are unchanged |
| `Page.Session.PromptKeyPress` | src/App.jsx:78 | Enter submits the prompt as above; any other key changes neither the filter nor the mode |
| `Page.Session.ReturnToPrompt` | src/App.jsx:54-59 | The brand, the Home link and the Back button (line 105) switch to the prompt screen and change no filter field, the prompt or the catalog |
| `Page.Session.FilteredCards` | src/App.jsx:41-47 | The listed cards are exactly the catalog cards that pass the current filter |
| `Page.SubmitForgetsPreviousFilter` | src/App.jsx:23-26 | Two page states with the same prompt and catalog but any filters end with the same filter and the same list after a submit |
| `CleanData.AnyFieldContains` | clean_data.py:30-31 | True iff some field of the row contains the pattern, ignoring ASCII case |
| `CleanData.RewardType` | clean_data.py:37-39 | Always "Cashback", "Travel" or "General"; "Cashback" iff the text contains "Cashback"; "Travel" iff it contains "Travel" but not "Cashback" (case-sensitive) |
| `CleanData.BlankRewardsIsGeneral` | clean_data.py:37 | A blank Rewards cell is read as "None" and classified "General" |
| `CleanData.CashbackBeatsTravel` | clean_data.py:38 | Rewards text containing both "Cashback" and "Travel" is classified "Cashback" |
| `CleanData.LowerCaseTravelIsGeneral` | clean_data.py:38 | The rule is case-sensitive: a text with only lower-case "travel" is "General" |
| `CleanData.AcceptsItin` | clean_data.py:31 | accepts_itin is true iff some cell of the row contains "itin" in any case; the is_student column the scanned row already holds never raises it |
| `CleanData.ItinIgnoresStudentFlag` | clean_data.py:30-31 | The text of the is_student column, "True" or "False", never contains "itin" in any case |
| `CleanData.BlankCellRaisesNoFlag` | clean_data.py:30-31 | A blank cell, read as "nan", contains neither "student" nor "itin" in any case |
| `CleanData.FirstMissing` | clean_data.py:34 | Names a kept column absent from the sheet, and is None iff every kept column is present |
| `CleanData.CleanRow` | clean_data.py:27-39 | The five kept cells are the row's cells under Institution Name, Product Name, State, Annual Fee and Rewards; Reward_Type is computed from that Rewards cell; is_student is true iff some cell contains "student" in any case, and accepts_itin iff some cell contains "itin" in any case |
| `CleanData.ProcessCards` | clean_data.py:8-43 | The outcome is "input missing" exactly when there is no input file, and "read failed" exactly when the file exists but reading raised; after a successful read the rows are written exactly when every kept column is present, and otherwise a missing kept column is named; written output has the eight columns in order and one cleaned row per input row, in order |
| `Pipeline.WrittenRowsAreClassified` | clean_data.py:37-39 | Every row the cleaner writes carries the category computed from its own Rewards cell |
| `Pipeline.TravelCardsHaveTravelRewards` | clean_data.py:37-39 | For rows classified that way, the page under category "Travel" can list only cards whose Rewards text contains "Travel" and not "Cashback" |
| `Pipeline.BlankFeeCountsAsZero` | src/App.jsx:45 | A blank Annual Fee cell reaches the page as "" and passes the zero-fee test |
| `Pipeline.LoadedCardsHaveNames` | src/App.jsx:42-43 | Every card loaded from the cleaned file has both names and a Reward_Type |

## Left out

- Downloading and parsing the CSV file with Papa.parse inside `useEffect` (src/App.jsx:13-20): this is network and file I/O through a library. `Page.Session.Load` receives the parsed rows.
- All rendering and layout (src/App.jsx:49-137), including the 100-character Rewards excerpt, the "$0" shown for an empty fee and the search-engine fallback link. They are presentation only. The Compare and Resources links have no handlers.
- React's batching of state setters and re-rendering. `HandleAiSearch` performs the setters as sequential assignments where the last write wins, which gives the same final state.
- Full Unicode lower-casing (JavaScript `toLowerCase`, Python's case-insensitive regular-expression match). The model lower-cases ASCII letters only.
- `str.contains` in clean_data.py is a regular-expression search. It is modelled as substring search, which is the same for the patterns "Student" and "ITIN" because they hold no metacharacters.
- Spreadsheet and file I/O in clean_data.py: `os.path.exists`, `read_excel` with `header=9` and the openpyxl engine, `to_csv`, and the printed messages. Whether the file exists and what reading it gave are parameters of `ProcessCards`; a reader exception is the `ReadFailed` outcome.
- `astype(str)` formatting. Cells are taken as already-converted text, and a blank cell reads "nan". How numbers are printed (for example a numeric fee becoming "95.0") is not modelled.
- A non-text Rewards value (a number), for which Python's `in` would raise, is not modelled: Rewards cells are text or blank.
- ProcessCards: a missing kept column is reported by the first such name only. pandas raises one KeyError naming every missing column, and that message is not modelled.
- The CSV round trip in `Pipeline` (quoting, escaping, line breaks inside fields) is taken to be lossless. Blank cells are written as empty fields and read back as "".
- Duplicate column names in the sheet: the reader renames them, and the model reads the first column of a name.
