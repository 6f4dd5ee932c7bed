# Card catalogue browser: filtering and card attributes

This project models the core of a client-side catalogue browser, `js/main.js`. The core has two parts.

- The **card reader** (`CardReader`) holds the loaded records (`jsonData`) and the mutable filter selections (`filters`). `applyFilters` narrows the records in seven stages: sector, AI capability, free-text search, challenge, and the Impact, AISuitability and Novelty scores. A stage runs only when its selection is set and non-empty. The stages combine by AND. Inside the sector and AI dimensions, the selected values combine by OR.
- The **card presenter** (`Card`) derives what a card shows from one record. That is the colour theme, the icon paths, the background image name, the hide flags and the star ratings.

Modules:

- `Wrappers`: `Option`, standing for `null` or an absent key.
- `Strings`: ASCII `toLowerCase`, `includes`, `replaceAll` and `replace` with a one-character pattern. `IndexOf` is the search for the pattern inside `replace`.
- `Sequences`: `Array.prototype.filter`. `Where` is its meaning. `Filter` is the loop that computes it. `IsSubsequence` is the order it keeps.
- `CardData`: the `Record` datatype. Its fields are the JSON keys.
- `Reader`: the `Filters` datatype, what each stage accepts (`Matches`), the specification `Select`, and the `CardReader` class. `ApplyFilters` is proved equal to `Select(jsonData, filters)`. It runs the seven stages one after another. Each stage is proved to add exactly its own dimension to the selection.
- `Card`: the presenter functions over a `Record`. `Theme` is an enumeration, and `StarRating` returns a sequence of `Filled`/`Empty` slots instead of `<img>` markup.
- `Scenario`: lemmas that connect the two parts, and the two-record example (an "Energy" record and an "Agriculture" record filtered by sector).

`ApplyFilters` has no `modifies` clause. So it changes neither `jsonData` nor `filters`, and two calls with unchanged state return the same sequence (`Scenario.EnergyScenarioThroughReader` shows this).

## Model

| member | source | states |
|---|---|---|
| `Strings.Lower` | js/main.js:36 | `toLowerCase`: same length, every character ASCII lower-cased |
| `Strings.LowerOfUpper` | js/main.js:125 | lower-casing does not depend on the input's case |
| `Strings.LowerIdempotent` | js/main.js:125 | lower-casing an already lower-cased string changes nothing |
| `Strings.LowerHasNoUpper` | js/main.js:36 | a lower-cased string holds no upper-case letter |
| `Strings.Includes` | js/main.js:54 | `includes` is true iff the text occurs as a contiguous block at some position |
| `Strings.IndexOf` | js/main.js:145 | the first position of the character, or -1 exactly when it is absent |
| `Strings.IndexOfFirst` | js/main.js:145 | a position holding the character with none before it is the one found |
| `Strings.RemoveAll` | js/main.js:145 | `replaceAll(" ", "")`: no occurrence is left, every other character is kept with its count |
| `Strings.RemoveAllIsWhere` | js/main.js:145 | `replaceAll(" ", "")` is the filter that drops the character: the rest is kept in its original order, as a subsequence of the input |
| `Strings.RemoveFirst` | js/main.js:145 | `replace("&", "")`: the count of the character drops by one exactly when it occurred, and the rest is kept |
| `Strings.RemoveFirstIsFirst` | js/main.js:145 | the occurrence removed is the first: what precedes it and what follows it are kept |
| `Sequences.Where` | js/main.js:36 | a filter returns no more elements than it was given |
| `Sequences.WhereMembers` | js/main.js:36 | a filter keeps exactly the elements that satisfy the predicate, each as often as in the input |
| `Sequences.Filter` | js/main.js:36 | the loop returns exactly `Where(xs, p)` |
| `Sequences.WhereIsSubsequence` | js/main.js:31-86 | what a filter keeps stays in its original order |
| `Sequences.WhereCons` | js/main.js:36 | filtering a sequence with one more element in front adds at most that element in front |
| `Sequences.WhereWhere` | js/main.js:31-86 | two filters in sequence are one filter by the conjunction of their predicates |
| `Sequences.WhereIdempotent` | js/main.js:31-86 | filtering twice by the same predicate is filtering once |
| `Reader.SectorAccepts` | js/main.js:36 | the sector stage keeps a record iff its lower-cased sector is one of the selected values |
| `Reader.AiAccepts` | js/main.js:42-46 | the capability stage keeps a record iff one of its lower-cased `ai1`, `ai2`, `ai3` is a selected value |
| `Reader.SearchAccepts` | js/main.js:52-54 | the search keeps a record iff its lower-cased title or description contains the lower-cased text |
| `Reader.ChallengeAccepts` | js/main.js:60 | the challenge stage keeps a record iff the selected value equals its lower-cased challenge |
| `Reader.Matches` | js/main.js:34-82 | a record survives iff every active stage accepts it; the scores compare by equality |
| `Reader.SelectMembers` | js/main.js:34-82 | a record is selected iff every active stage accepts it, each occurrence kept |
| `Reader.SelectKeepsOrder` | js/main.js:31-86 | the selection is an order-preserving subsequence of the records |
| `Reader.UnrestrictedKeepsAll` | js/main.js:29-86 | with every selection null, empty or '', the records come back unchanged |
| `Reader.InitialKeepsAll` | js/main.js:6-14 | the initial selections, where `challenge` is absent, keep every record |
| `Reader.SelectIdempotent` | js/main.js:29-87 | re-filtering the filtered view with the same selections changes nothing |
| `Reader.AddStage` | js/main.js:31-86 | one more stage on a selected view gives the view selected by the extended selections |
| `Reader.SameStages` | js/main.js:31-86 | a stage that does not run leaves the selected view as it was |
| `Reader.SectorIgnoresRecordCase` | js/main.js:36 | the sector stage ignores the case of the record's sector |
| `Reader.SectorSelectionIsCaseSensitive` | js/main.js:36 | selected sectors are not lower-cased: a selection that holds upper case matches nothing |
| `Reader.ChallengeSelectionIsCaseSensitive` | js/main.js:60 | the same for the selected challenge, compared with the lower-cased record challenge |
| `Reader.SearchIgnoresTextCase` | js/main.js:52-54 | the search ignores the case of the search text |
| `Reader.CardReader.constructor` | js/main.js:3-15 | no records, every selection null, search text '', no `challenge` key |
| `Reader.CardReader.FetchData` | js/main.js:18-26 | a parsed response replaces the records; a failure leaves them as they were |
| `Reader.CardReader.ApplyFilters` | js/main.js:29-87 | the result is `Select(jsonData, filters)`: exactly the matching records, as an order-preserving subsequence |
| `Reader.CardReader.SectorFilter` | js/main.js:34-37 | when a sector list is selected, a record stays iff its lower-cased sector is in the list |
| `Reader.CardReader.AiCapabilityFilter` | js/main.js:41-47 | when capabilities are selected, a record stays iff one of its lower-cased `ai1`/`ai2`/`ai3` is in the list |
| `Reader.CardReader.SearchFilter` | js/main.js:50-56 | when the text is non-empty, a record stays iff its lower-cased title or description contains the lower-cased text |
| `Reader.CardReader.ChallengeFilter` | js/main.js:59-61 | when a challenge is selected, a record stays iff the selection equals its lower-cased challenge |
| `Reader.CardReader.ScoreImpactFilter` | js/main.js:64-68 | when an Impact score is selected, a record stays iff its Impact equals it |
| `Reader.CardReader.ScoreAIFilter` | js/main.js:71-75 | when an AI suitability score is selected, a record stays iff its AISuitability equals it |
| `Reader.CardReader.ScoreNoveltyFilter` | js/main.js:78-82 | when a Novelty score is selected, a record stays iff its Novelty equals it |
| `Reader.CardReader.SetSearchText` | js/main.js:289-292 | the search text becomes the box's value; nothing else changes |
| `Reader.CardReader.SetSectors` | js/main.js:294-309 | the sector selection becomes the checked values, or null when none is checked |
| `Reader.CardReader.SetAiCapabilities` | js/main.js:312-327 | the capability selection becomes the checked values, or null when none is checked |
| `Reader.CardReader.SetChallenge` | js/main.js:329-333 | the `challenge` key becomes the chosen value, or null for "all" |
| `Reader.CardReader.SetScore` | js/main.js:335-345 | the score named Novelty, AISuitability or Impact becomes the value; other names change nothing |
| `Card.GetColor` | js/main.js:124-141 | each known sector, matched ignoring case, gives its theme; every other sector gives teal |
| `Card.GetColorIgnoresCase` | js/main.js:125 | upper- or lower-casing the sector does not change the theme |
| `Card.IconLabel` | js/main.js:145 | an icon's file name: every space removed, then the first '&' |
| `Card.IconLabelCounts` | js/main.js:145 | the label has no space, one '&' fewer when the input had any, and every other character with its count |
| `Card.IconPath` | js/main.js:144-161 | an icon path is the theme folder, "/", the label, then ".svg" |
| `Card.IconPathRoundTrip` | js/main.js:144-161 | an icon path parses back into exactly its theme folder and normalised label |
| `Card.GetPhaseIcon` | js/main.js:144-146 | the phase icon is the normalised phase title in the card's theme folder |
| `Card.GetAI1Icon` | js/main.js:149-151 | the first AI icon is the normalised `ai1` in the card's theme folder |
| `Card.GetAI2Icon` | js/main.js:154-156 | the second AI icon is the normalised `ai2` in the card's theme folder |
| `Card.GetAI3Icon` | js/main.js:159-161 | the third AI icon is the normalised `ai3` in the card's theme folder |
| `Card.GetImg` | js/main.js:164-166 | the background image is the sector in its original case followed by ".svg" |
| `Card.GetImgKeepsCase` | js/main.js:164-166 | two records give the same image name iff their sectors are identical, case included |
| `Card.EnergyCaseExample` | js/main.js:124-166 | "Energy" and "energy" share the teal theme but give different image names |
| `Card.HideIcon1` | js/main.js:169-171 | the first AI slot is hidden iff `ai1` is exactly '' |
| `Card.HideIcon2` | js/main.js:173-175 | the second AI slot is hidden iff `ai2` is exactly '' |
| `Card.HideIcon3` | js/main.js:177-179 | the third AI slot is hidden iff `ai3` is exactly '' |
| `Card.HideGC` | js/main.js:183-185 | the challenge banner is hidden iff `challenge` is exactly '' |
| `Card.HiddenIconsAreNameless` | js/main.js:169-181 | a slot hidden because its tag is '' would have had an icon with an empty file name |
| `Card.BlankTagShownNameless` | js/main.js:168-171 | a tag of one space is not hidden, because only '' hides, and its icon then has an empty file name |
| `Card.StarRating` | js/main.js:189-203 | for n in 1..3, three slots with the first n filled; for every other n, no slots |
| `Card.StarRatingCount` | js/main.js:193-199 | the rating for n in 1..3 has n filled slots and 3 - n empty ones |
| `Scenario.NoIconsFailAiFilter` | js/main.js:41-47 | a record that hides all three AI icons fails every active capability filter that does not select '' |
| `Scenario.NoChallengeFailsChallengeFilter` | js/main.js:59-61 | a record that hides its challenge fails every active challenge filter |
| `Scenario.EnergyScenario` | js/main.js:34-37 | selecting "energy" keeps the "Energy" record and drops the "Agriculture" one |
| `Scenario.EnergyCard` | js/main.js:124-186 | that record's card is teal, hides the challenge and the second icon, and shows the first |

## Left out

- The network fetch and JSON parsing in `fetchData` (js/main.js:18-26). `FetchData` takes the parsed response, or `None` for a failure, as a parameter. Logging the error is not modelled.
- `loadCards` and `Card.toHTML` (js/main.js:90-113, 208-270): jQuery DOM updates and HTML template markup. Their only logic is calls to the modelled functions. `starRating` returns `Filled`/`Empty` slots, not `<img>` strings.
- The `$(document).ready` blocks, the star-button class toggling, tooltips and scrolling (js/main.js:274-284, 349-418): UI wiring with no filtering logic. The `setupFilters` handlers (js/main.js:287-347) are modelled only as the setter methods of `CardReader`. Reading the DOM is left out, and so is the re-render they trigger.
- JavaScript loose equality between a numeric score and a selected string, and `.length` on the score string (js/main.js:64-80). A score selection is an `Option<int>`, active when present, and is compared with integer equality.
- Full Unicode case mapping: `Lower` and `Upper` change ASCII letters only.
- `Card` is not a class: its constructor only stores the record (js/main.js:119-121), so each accessor is a function of a `Record`.
- Records with missing fields: `item.sector.toLowerCase()` would throw and `loadCards` would catch the error (js/main.js:36, 91-112). Every `Record` has every field, so this does not arise.
- The card's `number` is kept as a string. It is only displayed.
- The AI-suitability stage compares `item.AISuitability` (js/main.js:73), and so does `Matches`.
- The constructor declares the unused key `grandChallange` (js/main.js:9), while the challenge stage and its handler use `challenge` (js/main.js:59, 331). The model keeps both fields. `challenge` starts as `None`, which matches JavaScript's `undefined`.
