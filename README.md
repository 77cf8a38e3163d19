# Arcade machine shop, modelled in Dafny

ArcadeMachine-UD is a small command-line shop where registered users buy
arcade machines and pick the games installed on them. It exists in two
generations, and each generation is modelled in its own modules:

- **Workshop1** sells one kind of machine.
  - `workshop1_arcade.dfy` holds the User, Game and ArcadeMachine classes and the JSON list logic of `arcade_machine.py`.
  - `workshop1_cli.dfy` holds `create_user`, `finalize_purchase` and `show_user_purchases` from `cli.py`.
- **Workshop2** sells five machine types with prices and games with prices.
  - `workshop2_machine.dfy` holds the `Machine` class, the five variant tables and `adjust_attributes`.
  - `workshop2_game.dfy` holds standard and high-definition games.
  - `workshop2_user.dfy` holds the user validators.
  - `workshop2_cli.dfy` holds `create_user`, `buy_machine` and `view_purchases`.
- `basics.dfy` and `text.dfy` are shared. They contain Option, the stored-file shape, sums and filters, and the string predicates Python's `str` methods provide (`isalpha`, `isdigit`, `lower`, `replace(" ", "")`, `int()`).

Objects whose fields the program updates in place are Dafny classes:
Workshop2 `Machine` and `Game`, Workshop1 `User`, `Game` and
`ArcadeMachine`, and each CLI's `Shop`. Their methods state their whole new
state. The JSON files are held in memory as `Stored<T>`, which is one of:

- `Missing` (no file);
- `Empty` (a zero-length file);
- `Hollow` (a JSON value that is not a list but iterates as nothing, such as `{}` or `""`);
- `Unreadable` (not JSON, or any other JSON value that is not a list);
- `Entries(items)`.

Each interactive workflow is a method that is proved equal to a pure
function of its inputs: `BuyResult` for Workshop2, `FinalizeResult` for
Workshop1. The lemmas about the workflows are stated on those functions.
What the user types is a list of answers per prompt. An answer list that
runs out plays the part of end of input: the workflow stops, and nothing
is recorded.

## Model

| member | source | states |
|---|---|---|
| Basics.FirstWhere | Software_modeling/Workshop2/code/python/cli.py:116 | `next(... if cond, None)`: None iff no element matches; otherwise the index of a match with no match before it |
| Basics.Filter | Software_modeling/Workshop2/code/python/cli.py:201 | a list comprehension with a condition keeps exactly the elements that satisfy it and is no longer than its input |
| Basics.FilterAppend | Software_modeling/Workshop2/code/python/cli.py:201 | filtering a log with one more entry appended filters the old log and the new entry separately, in order |
| Text.RemoveSpaces | Software_modeling/Workshop2/code/python/user.py:34 | `replace(" ", "")` keeps exactly the non-space characters and never lengthens the string |
| Text.RemoveSpacesAppend | Software_modeling/Workshop2/code/python/user.py:34 | removing spaces from a concatenation is removing them from each part and concatenating, so the remaining characters keep their order |
| Text.NameAcceptedIff | Software_modeling/Workshop2/code/python/user.py:34 | a name passes iff every character is a letter or a space and at least one is a letter |
| Text.PhoneAcceptedIff | Software_modeling/Workshop2/code/python/user.py:58 | a phone passes iff it is 1 to 15 characters long and all of them are digits |
| Text.ParseInt | Software_modeling/Workshop1/code/python/cli.py:189 | `int()` succeeds iff the text is digits with an optional leading sign, and returns the digits' value for unsigned text |
| Text.Decimal | Software_modeling/Workshop1/code/python/cli.py:110 | the printed form of an id is a non-empty string of digits |
| Text.ParseDecimal | Software_modeling/Workshop1/code/python/cli.py:189 | an id printed by create_user and typed back parses to that same id |
| Workshop2User.ValidateName | Software_modeling/Workshop2/code/python/user.py:34-37 | returns the name unchanged exactly when every character is a letter or a space and one is a letter, else None |
| Workshop2User.ValidatePhone | Software_modeling/Workshop2/code/python/user.py:58-61 | returns the phone unchanged exactly when it is 1 to 15 digits, else None |
| Workshop2User.NewUser | Software_modeling/Workshop2/code/python/user.py:15-18 | a new user has no id and holds the name and phone, or None for each that fails its validator; it never fails |
| Workshop2User.BlankNamesRejected | Software_modeling/Workshop2/code/python/user.py:34 | "" and "   " are rejected |
| Workshop2User.CompoundNameAccepted | Software_modeling/Workshop2/code/python/user.py:34-35 | the compound name "Jose Maria" is accepted as typed |
| Workshop2User.PhoneLengthBoundary | Software_modeling/Workshop2/code/python/user.py:58 | a 15-digit phone is accepted and a 16-digit phone is rejected |
| Workshop2Game.Game.StandardGame | Software_modeling/Workshop2/code/python/game.py:114 | a standard game stores the price it is given and the other arguments verbatim, with no reviews |
| Workshop2Game.Game.HighDefinitionGame | Software_modeling/Workshop2/code/python/game.py:177 | a high-definition game stores the given price times 1.10 and the other arguments verbatim, with no reviews |
| Workshop2Game.Game.AddReview | Software_modeling/Workshop2/code/python/game.py:123 | exactly one review, with its user id and text, is appended at the end; earlier reviews and all other fields stay |
| Workshop2Game.Game.ToDict | Software_modeling/Workshop2/code/python/game.py:131-140 | the eight-field record holds the stored values, including the already marked-up price, for both kinds |
| Workshop2Game.StoredPrice | Software_modeling/Workshop2/code/python/game.py:177 | a standard game stores the price it is given (game.py:114); a high-definition game stores it plus a tenth of it |
| Workshop2Game.HighDefinitionPriceExample | Software_modeling/Workshop2/code/python/game.py:177 | a high-definition game given 50 stores 55; a standard game given 20 stores 20 |
| Workshop2Machine.Adjust | Software_modeling/Workshop2/code/python/machine.py:136-148 | the adjustment multiplies base price, weight and power consumption by the material's factors and leaves dimensions, processor and memory alone |
| Workshop2Machine.Contribution | Software_modeling/Workshop2/code/python/machine.py:70 | calculate_price's conditional factor amounts to 1.10 for every price, zero included |
| Workshop2Machine.Machine.constructor | Software_modeling/Workshop2/code/python/machine.py:28-47 | a new machine has no games and its variant's specifications, which replace the default base price 500 |
| Workshop2Machine.Machine.AdjustAttributes | Software_modeling/Workshop2/code/python/machine.py:136-148 | the machine's specifications become the adjustment of the old ones for its material; the games do not change |
| Workshop2Machine.Machine.AddGame | Software_modeling/Workshop2/code/python/machine.py:54-60 | the game is appended at the end and the specifications do not change |
| Workshop2Machine.Machine.CalculatePrice | Software_modeling/Workshop2/code/python/machine.py:62-71 | the total is the base price plus 1.10 times the sum of the attached games' stored prices, and nothing changes |
| Workshop2Machine.Machine.FinalPrice | Software_modeling/Workshop2/code/python/machine.py:62-71 | corrected total: the base price plus each game's stored price counted once |
| Workshop2Machine.MarkedUpTotalScales | Software_modeling/Workshop2/code/python/machine.py:68-71 | accumulating the per-game contributions equals 1.10 times the plain sum of prices |
| Workshop2Machine.BaseSpecs | Software_modeling/Workshop2/code/python/machine.py:129-134 | every variant's constructor (also lines 167-172, 209-214, 251-256, 295-300) sets the dimensions to "1.5m x 1m x 2m", a base price between 600 and 800 that is never the default 500, a weight between 110 and 140 and a power between 220 and 300 |
| Workshop2Machine.BaseSpecsTable | Software_modeling/Workshop2/code/python/machine.py:129-134 | each of the five variants fixes (weight, power, base price) as in its constructor, none equal to the default 500 |
| Workshop2Machine.AdjustUnknownMaterial | Software_modeling/Workshop2/code/python/machine.py:136-148 | a material other than wood, aluminum or carbon fiber leaves every specification unchanged |
| Workshop2Machine.AdjustAluminumKeepsPower | Software_modeling/Workshop2/code/python/machine.py:142-144 | aluminum scales price by 1.10 and weight by 0.95 and keeps the power consumption |
| Workshop2Machine.ClassicalArcadeAluminum | Software_modeling/Workshop2/code/python/machine.py:174-186 | an aluminum ClassicalArcade has base price 660, weight 104.5 and power 220 |
| Workshop2Machine.AdjustCompounds | Software_modeling/Workshop2/code/python/machine.py:136-148 | for a known material and a non-zero price, a second adjustment changes the base price again |
| Workshop2Machine.HighDefinitionMarkedUpTwice | Software_modeling/Workshop2/code/python/machine.py:70 | base 700 with a high-definition game given 50 and a standard game of 20: calculate_price gives 782.5, counting each stored price once gives 775 |
| Workshop2Cli.MaxId | Software_modeling/Workshop2/code/python/cli.py:41 | `max(ids, default=0)`: 0 for no users, at least every id, and equal to one of them otherwise |
| Workshop2Cli.Found | Software_modeling/Workshop2/code/python/cli.py:147 | a code names at most one game, none iff no catalogue game has that id, and otherwise the first catalogue record with that id |
| Workshop2Cli.SelectGames | Software_modeling/Workshop2/code/python/cli.py:140-153 | every game selected is a catalogue game |
| Workshop2Cli.SelectGamesFinishes | Software_modeling/Workshop2/code/python/cli.py:140-153 | the game loop ends with a selection exactly when some code typed is "done"; otherwise input runs out first |
| Workshop2Cli.Override | Software_modeling/Workshop2/code/python/cli.py:122-138 | only material, player count and colour change; the material changes only on "yes"; the base price is not re-adjusted |
| Workshop2Cli.Logged | Software_modeling/Workshop2/code/python/cli.py:171-179 | the log becomes a list ending in the new summary, after the old entries when it was a list and alone otherwise |
| Workshop2Cli.BuyResult | Software_modeling/Workshop2/code/python/cli.py:105-179 | the purchase stops with an unknown user exactly when no user has the id, with an unknown machine exactly when the user exists and no machine has the code, and with input ended exactly when both are found and the game selection does not finish (by SelectGamesFinishes, no code typed is "done"); otherwise a purchase is made |
| Workshop2Cli.ViewPurchases | Software_modeling/Workshop2/code/python/cli.py:187-210 | a missing file reports that no purchases were made; an empty or malformed file fails (`json.load` raises, uncaught); a JSON value that iterates as nothing lists nothing; a list shows exactly its entries whose `user_id` is the id asked for |
| Workshop2Cli.ForUser | Software_modeling/Workshop2/code/python/cli.py:201 | keeps exactly the purchases of the given user id |
| Workshop2Cli.TotalPrice | Software_modeling/Workshop2/code/python/cli.py:155-157 | the total is the base price plus the selected games' stored prices with no markup |
| Workshop2Cli.Shop.CreateUser | Software_modeling/Workshop2/code/python/cli.py:41-45 | one record is appended with id max+1, above every existing id, holding the validated name and phone (None included) |
| Workshop2Cli.Shop.CollectGames | Software_modeling/Workshop2/code/python/cli.py:140-153 | the loop's list is the games found for the codes before the first "done", in order |
| Workshop2Cli.Shop.Checkout | Software_modeling/Workshop2/code/python/cli.py:140-179 | the outcome is the summary of the selected games with the base price plus raw prices; the log grows by it only when a purchase is made; users never change |
| Workshop2Cli.Shop.BuyMachine | Software_modeling/Workshop2/code/python/cli.py:105-179 | the outcome is BuyResult; users never change; the log grows by the summary only when a purchase is made |
| Workshop2Cli.NextIdKeepsIdsUnique | Software_modeling/Workshop2/code/python/cli.py:41 | appending a user with the max+1 id keeps all ids distinct |
| Workshop2Cli.NextIdAfterNegative | Software_modeling/Workshop2/code/python/cli.py:41 | the rule yields -4 after a single user with id -5, so ids need not be positive |
| Workshop2Cli.EarlyReturnsRecordNothing | Software_modeling/Workshop2/code/python/cli.py:107-120 | an unknown user id or machine code ends buy_machine without a purchase |
| Workshop2Cli.BoughtSummary | Software_modeling/Workshop2/code/python/cli.py:155-169 | a summary carries the answers given, the chosen material, the titles in order, and the unadjusted base price plus raw game prices |
| Workshop2Cli.NoGamesStillBought | Software_modeling/Workshop2/code/python/cli.py:140-157 | "done" at once still buys the machine, with no games, at its base price |
| Workshop2Cli.UnknownCodeIgnored | Software_modeling/Workshop2/code/python/cli.py:149-153 | a code that names no game leaves the selection unchanged |
| Workshop2Cli.SelectedFromCatalog | Software_modeling/Workshop2/code/python/cli.py:140-153 | every selected game is a catalogue game, and fewer are selected than codes typed |
| Workshop2Cli.PurchaseThenView | Software_modeling/Workshop2/code/python/cli.py:197-201 | after a purchase the buyer's view is the old view plus the new summary at the end; other users see the same as before |
| Workshop2Cli.ForUserSnoc | Software_modeling/Workshop2/code/python/cli.py:201 | an entry appended to the log joins its own user's view at the end and no other user's |
| Workshop2Cli.CliTotalVersusCalculatePrice | Software_modeling/Workshop2/code/python/cli.py:155-157 | buy_machine's total is 10 percent of the game prices below calculate_price's |
| Workshop1Arcade.ValidateName | Software_modeling/Workshop1/code/python/arcade_machine.py:60-63 | returns the name exactly when it is letters and spaces with at least one letter, else None |
| Workshop1Arcade.ValidatePhone | Software_modeling/Workshop1/code/python/arcade_machine.py:84-87 | returns the phone exactly when it is 1 to 15 digits, else None |
| Workshop1Arcade.SameAsWorkshop2 | Software_modeling/Workshop1/code/python/arcade_machine.py:60-87 | both validators agree with the Workshop2 ones on every string |
| Workshop1Arcade.User.constructor | Software_modeling/Workshop1/code/python/arcade_machine.py:41-44 | a new user has no id and the validated (or None) name and phone |
| Workshop1Arcade.LoadUsers | Software_modeling/Workshop1/code/python/arcade_machine.py:314-324 | a missing file gives no users; a zero-length or malformed file fails (`json.load` raises and only FileNotFoundError is caught); a JSON value that iterates as nothing (`Hollow`) gives no users; and otherwise each entry becomes a new user numbered by position 1..n |
| Workshop1Arcade.Decode | Software_modeling/Workshop1/code/python/arcade_machine.py:345-353 | an entry loads iff it has id, title and category; a missing reviews key gives [] |
| Workshop1Arcade.LoadGames | Software_modeling/Workshop1/code/python/arcade_machine.py:342-359 | the games are the decoded entries; any failure gives [] |
| Workshop1Arcade.Game.constructor | Software_modeling/Workshop1/code/python/arcade_machine.py:104-108 | stores id, title and category, and the reviews given or [] |
| Workshop1Arcade.Game.AddReview | Software_modeling/Workshop1/code/python/arcade_machine.py:124 | exactly one review is appended at the end and nothing else changes |
| Workshop1Arcade.Game.ToDict | Software_modeling/Workshop1/code/python/arcade_machine.py:136-141 | the record has all four keys, is the game's data as `Encode` writes it, and loads back to the same game |
| Workshop1Arcade.LoadSavedGames | Software_modeling/Workshop1/code/python/arcade_machine.py:345-353 | saving games with to_dict (`Encode` of each game's data, as Game.ToDict states) and loading them back gives the same games |
| Workshop1Arcade.MissingReviewsKey | Software_modeling/Workshop1/code/python/arcade_machine.py:350 | a stored game without reviews loads with no reviews |
| Workshop1Arcade.Titles | Software_modeling/Workshop1/code/python/arcade_machine.py:235 | the titles of the machine's games, one per game, in order |
| Workshop1Arcade.AfterSave | Software_modeling/Workshop1/code/python/arcade_machine.py:284-296 | the log grows by the record at the end, or starts with it when missing or zero-length; a log holding a non-list JSON value (`Hollow` or `Unreadable`: `append` fails and the error is caught) is left as it was |
| Workshop1Arcade.LoadPurchases | Software_modeling/Workshop1/code/python/arcade_machine.py:377-382 | with the loop over the result: a missing file or an empty non-list value gives no entries, a list gives its entries, an empty or malformed file or any other value fails |
| Workshop1Arcade.PurchaseFile.SavePurchase | Software_modeling/Workshop1/code/python/arcade_machine.py:284-296 | the file's contents become AfterSave of the old contents |
| Workshop1Arcade.ArcadeMachine.constructor | Software_modeling/Workshop1/code/python/arcade_machine.py:183-187 | stores material, colour and player count, with no games |
| Workshop1Arcade.ArcadeMachine.AddGame | Software_modeling/Workshop1/code/python/arcade_machine.py:201 | the game is appended at the end |
| Workshop1Arcade.ArcadeMachine.FinalizePurchase | Software_modeling/Workshop1/code/python/arcade_machine.py:222-239 | with no games nothing is saved; otherwise the record copies material, colour, player count and the titles in order, and is saved |
| Workshop1Cli.ValidateName | Software_modeling/Workshop1/code/python/cli.py:48 | true iff the class validator returns the name itself |
| Workshop1Cli.ValidatePhone | Software_modeling/Workshop1/code/python/cli.py:69 | true iff the class validator returns the phone itself |
| Workshop1Cli.FirstAccepted | Software_modeling/Workshop1/code/python/cli.py:196-203 | a re-asked question yields the first accepted answer typed, and yields none only when no answer is accepted |
| Workshop1Cli.Ask | Software_modeling/Workshop1/code/python/cli.py:196-203 | the loop returns FirstAccepted's answer |
| Workshop1Cli.Found | Software_modeling/Workshop1/code/python/cli.py:225 | a code names at most one loaded game, none iff no game has that id, and otherwise the first loaded game with that id |
| Workshop1Cli.SelectGames | Software_modeling/Workshop1/code/python/cli.py:217-230 | every game selected is a catalogue game |
| Workshop1Cli.SelectGamesFinishes | Software_modeling/Workshop1/code/python/cli.py:217-230 | the game loop ends with a selection exactly when some code typed is "done"; otherwise input runs out first |
| Workshop1Cli.GameTitles | Software_modeling/Workshop1/code/python/arcade_machine.py:235 | one title per selected game, in order |
| Workshop1Cli.AddCopy | Software_modeling/Workshop1/code/python/cli.py:227 | a fresh game with the found game's id, title and category and no reviews is appended to the machine |
| Workshop1Cli.AddGames | Software_modeling/Workshop1/code/python/cli.py:217-230 | the selection is SelectGames; the machine gains one fresh copy per selected game, in order, after its earlier games |
| Workshop1Cli.ShowUserPurchases | Software_modeling/Workshop1/code/python/cli.py:248-250 | exactly the records whose user_id text equals the text typed; a missing log or an empty non-list value gives none; an empty or malformed log fails |
| Workshop1Cli.Shop.constructor | Software_modeling/Workshop1/code/python/cli.py:281 | users numbered 1..n by position, as load_users leaves them |
| Workshop1Cli.Shop.RegisteredIff | Software_modeling/Workshop1/code/python/cli.py:189 | with positional ids, an id is registered iff it lies in 1..number of users |
| Workshop1Cli.Shop.CreateUser | Software_modeling/Workshop1/code/python/cli.py:89-111 | asks until a valid name and phone, appends one new user with id len+1, and keeps ids positional |
| Workshop1Cli.FinalizeResult | Software_modeling/Workshop1/code/python/cli.py:187-232 | the id is refused as unknown exactly when there are no users or it is a number outside 1..n; it is refused as not a number exactly when there are users and `int()` fails; input ends exactly when the id is accepted and no material or player answer is accepted or the game selection does not finish (by SelectGamesFinishes, no code is "done"); no games is reported only when the selection is empty |
| Workshop1Cli.Shop.FinalizePurchase | Software_modeling/Workshop1/code/python/cli.py:187-232 | the outcome is FinalizeResult; the log changes only for a finalized purchase, by save_purchases |
| Workshop1Cli.UnknownUserWritesNothing | Software_modeling/Workshop1/code/python/cli.py:189-191 | an id that is not registered finalizes nothing |
| Workshop1Cli.ZeroGamesRefused | Software_modeling/Workshop1/code/python/arcade_machine.py:222-226 | a purchase with no games found is refused |
| Workshop1Cli.FinalizedRecord | Software_modeling/Workshop1/code/python/cli.py:187-232 | a finalized record has a registered id, the typed id text, a valid material, 1 or 2 players and at least one title, in typed order |
| Workshop1Cli.ShownIdAccepted | Software_modeling/Workshop1/code/python/cli.py:189 | the id printed for a registered user, typed back, passes the user check |
| Workshop1Cli.UnknownCodeIgnored | Software_modeling/Workshop1/code/python/cli.py:225-230 | a code naming no game leaves the selection unchanged |
| Workshop1Cli.DoneInAnyCase | Software_modeling/Workshop1/code/python/cli.py:221 | "done", "DONE" and "Done" all end the loop with nothing selected |
| Workshop1Cli.FinalizeThenShow | Software_modeling/Workshop1/code/python/cli.py:250 | after a record is saved to a list log, the buyer sees the earlier matching records and then the new one |
| Workshop1Cli.TypedIdKept | Software_modeling/Workshop1/code/python/cli.py:187-250 | "01" and "1" parse to the same id, but a record saved as "01" is not shown for "1" |

## Left out

- File I/O and JSON encoding are not modelled. Each file is an in-memory `Stored` value, and writes are assignments to it. `save_users`, `save_games`, `Game.load_games` and `Machine.load_machines` are pure I/O.
- Printing, the `main` menus and the display functions `show_games`, `show_machines` and `show_available_games` are left out. That includes the review loop of `show_available_games`.
- `datetime.now()` is an opaque date string passed in.
- Python's Unicode-aware `isalpha`, `isdigit` and `lower` are modelled on ASCII letters and digits only.
- Text.ParseInt: `int()` also accepts surrounding whitespace and digit-group underscores. The model does not.
- Workshop2 `buy_machine` crashes when `int()` is given a non-number. The model takes the user id and player count as integers.
- Workshop1 `finalize_purchase` has the same `int()` crash. It is kept as the `NotANumber` outcome.
- Floating-point rounding is not modelled. Prices, weights and power are exact `real` values.
- The abstract `Machine.__init__` sets `base_price` to 500, and every variant overwrites it at once. Only the state after the variant constructor is modelled.
- The variant-specific extras (difficulties, arrow cardinalities, controls price, gun, steering and glasses types, resolution) are carried in `Variant`. No rule uses them.
- The Workshop2 CLI does not re-run the material table when the material is overridden. `Override` keeps the catalogue base price on purpose.
- A stored list whose items are not JSON objects (such as `[1]`) is not modelled.
- Missing keys are modelled only for `games.json` entries (`Decode`, `MissingReviewsKey`). Users and purchases are always stored with every key, because `UserDict`, `PurchaseRecord` and `Purchase` cannot express a missing key.
- Workshop1Arcade.LoadUsers: a `users.json` entry without "name" or "phone" raises KeyError (arcade_machine.py:318), which is not caught. The model does not express that failure.
- Workshop1Cli.ShowUserPurchases: a Workshop1 purchase without "user_id" raises KeyError (cli.py:250). The model does not express that failure.
- Workshop2Cli.ViewPurchases: a Workshop2 purchase without "user_id" is skipped, because `p.get("user_id")` gives None (cli.py:201). The model does not express such an entry.
- A JSON value that is not a list is split only by whether it iterates as nothing (`Hollow`); a non-empty object and a number both count as `Unreadable`, since every reader that loops over them fails either way.
- Workshop1 `save_purchases` catches a read error and leaves an unreadable log unchanged. Workshop2 resets such a log to a new list. Both are modelled as written.
- Workshop1Arcade.LoadUsers: the stored ids are ignored, and no test of the entry's shape is modelled beyond its name and phone values.
- Workshop1Arcade.LoadGames: a file read or parse failure and an entry missing a key all give [], as the broad exception handler does. Which exception arose is not modelled.
- Ending input early (EOF inside a prompt loop) is modelled as outcomes that record nothing. The program itself would stop with an uncaught error.

## Findings

| source | as written | input that shows it | evidently intended | confidence | as-written member | corrected member |
|---|---|---|---|---|---|---|
| Software_modeling/Workshop2/code/python/machine.py:70 | calculate_price multiplies every attached game's stored price by 1.10, so a high-definition game, already stored at 1.10 times its price, is marked up twice | a machine with base price 700, a high-definition game given 50 (stored 55) and a standard game of 20 totals 782.5 | each attached game's stored price counted once, 775, as the Workshop2 CLI total (cli.py:155-157) does | medium, not executed | Workshop2Machine.HighDefinitionMarkedUpTwice | Workshop2Machine.Machine.FinalPrice |
