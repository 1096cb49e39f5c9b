# thales, modelled in Dafny

thales is a Python toolkit for trading research. It scrapes price data from AlphaVantage, keeps registries of symbols, FX pairs, data sources and bots, and stores trading positions as YAML files. It back-tests the FoXyLady strategy on GBPJPY minute bars; that strategy compares each bar with the 6-7am high/low baseline of its date. This project models the toolkit's deterministic core and proves its properties:

- **Positions.** A position opens, is sold once, and then carries a ratio and a signed delta. `PositionManager` keeps every position in exactly one of two stores, `open` and `closed`. The bare bot position of `thales/bots/positions.py` is modelled too.
- **Back-testing.**
  - The test data generators walk the minute bars: they skip the 6-7am session, count days and roll over to the next year's file. The cursor is a row label of the time-sorted frame. `read_csv` gives each row its file position as label, so the walk starts at the file position of the earliest bar at or after the start and then goes on in file order.
  - The trade handlers open at most one position per date and close positions that cross a stop or a target.
  - The fast back-tester computes four signal columns and runs a recursive trade loop.
- **Price series.**
  - `TestDataset` merges year files, moves its cursor forward and parses conditions.
  - `CSVLoader` de-duplicates rows and adjusts prices.
  - `HistoryAnalyzer` pairs each row with a later one.
  - `TestDataSource` is the bot's live test feed.
  - Both test-data build scripts are modelled.
- **Registries and configuration.**
  - Symbol and FX-pair lists are stored as sorted sets.
  - Bots are registered and looked up ignoring case; data sources by their exact name.
  - Fieldmaps, `parse_datetime` and `merge_dupe_cols` are modelled.
  - `create_structure` lays out the IO directory tree.
- **Queries.** The AlphaVantage query strings are built from the endpoint table or from default keyword dicts. The module also models how a response is classified and in which order symbols are scraped.

## Conventions

- **Tables and files.** A pandas frame is a sequence of records. A missing value is an `Option` where the model lets a cell be missing; minute bars have no missing cell (see "## Left out"). A directory of YAML, CSV or JSON files is a map from file name to content, held in a field of a class when the source rewrites it.
- **Values.** Prices are `real`. A datetime is an integer number of microseconds since 1970-01-01, and a date is a day number.
- **Errors.** Each Python exception a member can raise is a `Fail`/`Err` value naming it. An `assert` in the source becomes an `AssertionError`.
- **Non-determinism.** Clocks, `uuid4` and `strptime` are parameters, and so are stored credentials and the JSON body a request returns.

One file per source area: `positions.dfy`, `bot_positions.dfy`, `test_generator.dfy`, `test_handler.dfy`, `backtester.dfy`, `test_dataset.dfy`, `csv_loader.dfy`, `config_utils.dfy`, `registries.dfy`, `config.dfy`, `bots.dfy`, `fieldmaps.dfy`, `endpoint_queries.dfy`, `symbol_queries.dfy`, `history_analyzer.dfy`, `foxylady_source.dfy`, `build_scripts.dfy`, `build.dfy`. Shared building blocks:

- `common.dfy`: string helpers and the exception values;
- `sorting.dfy`: a stable sort and sorted sets;
- `datetimes.dfy`: the calendar and the datetime formats;
- `session_baseline.dfy`: the 6-7am baseline;
- `identifiers.dfy`: Python identifiers.

## Model

| member | source | states |
|---|---|---|
| Identifiers.IsValidVariableName | thales/config/utils.py:127-129 | a name is valid exactly when it is a non-empty identifier (a letter or `_`, then letters, digits or `_`) that is not a keyword; a valid name therefore does not start with a digit and holds no blank or dot |
| Identifiers.KeywordsRejected | thales/config/utils.py:127-129 | every Python keyword is spelt as an identifier and is still invalid, so the keyword test is what rejects it |
| Identifiers.FoXyLadyValid | thales/config/utils.py:127-129 | `FoXyLady` is a valid variable name |
| Identifiers.FXyLadyValid | thales/config/utils.py:127-129 | `FXyLady` is a valid variable name |
| Identifiers.InvalidNameExamples | thales/config/utils.py:127-129 | `class`, `None`, `2bot`, `my bot`, `my.bot` and the empty string are invalid |
| Bots.LowerToRealSpec | thales/config/bots.py:36 | the lower-case dictionary has a key exactly when some registered name lowers to it, and maps it to such a name |
| Bots.ValidateBotNameSpec | thales/config/bots.py:33-38 | the lookup succeeds iff some registered name equals the argument ignoring case, returns that registered spelling, and otherwise fails the assertion |
| Bots.ValidateUniqueMatch | thales/config/bots.py:36-38 | when exactly one registered name matches ignoring case, that name is returned |
| Bots.BotRegistry.ListBots | thales/config/bots.py:10-15 | the listing is [] for an empty registry and otherwise a sorted permutation of the stored names |
| Bots.BotRegistry.RegisterBot | thales/config/bots.py:18-30 | invalid names and names registered ignoring case fail the assertion and change nothing; an existing directory raises FileExistsError; success creates the directory and stores the sorted list with the name added, and happens exactly when all three checks pass |
| Bots.RegisteredIsFound | thales/config/bots.py:24-38 | after a registration the stored list is sorted and every case variant of the new name validates to the name as registered |
| BotPositions.SaleRatio | thales/bots/positions.py:23 | the ratio times the buy price is the sell price |
| BotPositions.SaleDelta | thales/bots/positions.py:24 | for a positive buy price and amount, the delta is positive exactly when the sale is above the buy price and zero exactly when it is at it |
| BotPositions.SoldIsClosed | thales/bots/positions.py:17-24 | a sale with a non-empty timestamp leaves the position closed, so a second sale fails the assertion |
| BotPositions.Position.constructor | thales/bots/positions.py:5-13 | a new position stores its timestamp, price and amount, has no sale fields and is open |
| BotPositions.Position.Sell | thales/bots/positions.py:19-24 | a closed position or one with a sell price fails the assertion untouched; otherwise the timestamp and price are stored and ratio and delta follow, with ZeroDivisionError after the first two fields for a zero buy price |
| Baseline.SessionBars | thales/bots/FoXyLady/backtester.py:28-31 | the session bars of a date are exactly the bars of that date stamped in hour 6 or 7 |
| Baseline.MaxHigh | thales/bots/FoXyLady/backtester.py:29 | the result bounds every high from above and is one of them |
| Baseline.MinLow | thales/bots/FoXyLady/backtester.py:31 | the result bounds every low from below and is one of them |
| Baseline.DaySession | thales/bots/FoXyLady/backtester.py:28-37 | a date has no baseline iff it has no session bar; otherwise h is the largest session high, l the smallest session low (both attained) and mu their mean |
| Baseline.Sessions | thales/bots/FoXyLady/backtester.py:28-37 | the table covers exactly the dates with a session bar and agrees with each date's baseline |
| Baseline.MeanBetween | thales/bots/FoXyLady/backtester.py:34 | when every bar has low at most high, mu lies between l and h |
| Baseline.SessionsIgnoreOtherHours | thales/bots/FoXyLady/backtester.py:28-31 | a bar outside hours 6 and 7 changes no date's session bars |
| Backtester.SignalsOf | thales/bots/FoXyLady/backtester.py:26-50 | each row comes from a bar that survives `dropna` and the hour filter and carries that bar's columns, and every such bar gets a row |
| Backtester.SignalsOrdered | thales/bots/FoXyLady/backtester.py:37-40 | a datetime-sorted file gives a frame in increasing datetime order, each row carrying its own date |
| Backtester.SignalsSpec | thales/bots/FoXyLady/backtester.py:26-50 | each row is a bar from 08:00 on; h, l and mu are its date's baseline; alpha_l iff high > h+alpha, alpha_s iff low < l-alpha, beta_l iff high > h+alpha+beta, beta_s iff low < l-(alpha+beta); with beta >= 0 each beta signal implies its alpha signal |
| Backtester.SignalsComplete | thales/bots/FoXyLady/backtester.py:36-40 | every bar from 08:00 on whose date has a session bar is kept |
| Backtester.FirstAlpha | thales/bots/FoXyLady/backtester.py:68-73 | the index found is an entry row with no entry row before it; None exactly when no row has an entry signal |
| Backtester.FirstExit | thales/bots/FoXyLady/backtester.py:98 | the index found is the first row whose beta column or stop signal fires; None when none fires |
| Backtester.LastOfDate | thales/bots/FoXyLady/backtester.py:104 | the index found is the last row of the date; None when the date has no row |
| Backtester.CloseRow | thales/bots/FoXyLady/backtester.py:101-107 | the closing row is one of the later rows and lies on the opening date |
| Backtester.CloseRowSpec | thales/bots/FoXyLady/backtester.py:96-112 | no closing row exactly when no later row is on the opening date; no earlier later row fires an exit; the closing row fires one or is the date's last row |
| Backtester.After | thales/bots/FoXyLady/backtester.py:117 | exactly the rows after the date survive, and the frame shrinks when some row is dropped |
| Backtester.AfterOrdered | thales/bots/FoXyLady/backtester.py:117 | dropping the rows up to a date keeps the frame ordered |
| Backtester.OrderedSuffix | thales/bots/FoXyLady/backtester.py:97 | the rows after the opening row are exactly the later rows, all on its date or after |
| Backtester.FirstStep | thales/bots/FoXyLady/backtester.py:63-118 | a round that goes on leaves a strictly smaller ordered frame, so the recursion ends |
| Backtester.FirstStepNone | thales/bots/FoXyLady/backtester.py:68-70 | a round returns without a trade exactly when no entry signal is left |
| Backtester.FirstStepOpens | thales/bots/FoXyLady/backtester.py:72-117 | a round opens on the earliest entry row, long exactly when alpha_l fires, fails the lookup exactly when it finds no closing row, and leaves exactly the rows of later dates |
| Backtester.FirstStepCloses | thales/bots/FoXyLady/backtester.py:96-114 | a round that finds a closing row closes where the rules say; one that does not opened on its date's last row |
| Backtester.RunOpens | thales/bots/FoXyLady/backtester.py:72-118 | every trade of a run opens on an entry row of the frame, long exactly when alpha_l fires |
| Backtester.RunOneTradePerDate | thales/bots/FoXyLady/backtester.py:117-118 | the opening dates of a run strictly increase: at most one trade per date |
| Backtester.RunFirstAlpha | thales/bots/FoXyLady/backtester.py:68-118 | each trade opens on the first entry row after the previous trade's date |
| Backtester.RunNoAlphaLeft | thales/bots/FoXyLady/backtester.py:68-118 | a run that ends normally leaves no entry row after its last trade's date, and has no entry row at all when it made no trade |
| Backtester.RunOutcomes | thales/bots/FoXyLady/backtester.py:63-118 | in the model a run ends normally or with KeyError; RecursionError is left out |
| Backtester.RunClosesAllButLast | thales/bots/FoXyLady/backtester.py:108-118 | every trade but the last of a run is closed |
| Backtester.RunFailsIffLastOpen | thales/bots/FoXyLady/backtester.py:108-112 | a run fails exactly when its last trade is left open |
| Backtester.RunClosedWell | thales/bots/FoXyLady/backtester.py:96-114 | every closed trade of a run closes on its opening date, at the first exit row or at the date's last row |
| Backtester.RunFailsAtDateEnd | thales/bots/FoXyLady/backtester.py:104-112 | a failing run's last trade opened on the last row of its date |
| Backtester.ClosedWellWiden | thales/bots/FoXyLady/backtester.py:117 | a trade that closes well in the remaining frame closes well in the whole frame |
| Backtester.CountOf | thales/bots/FoXyLady/backtester.py:75-82 | a counter never exceeds the number of trades |
| Backtester.CountsAddUp | thales/bots/FoXyLady/backtester.py:75-84 | the long and short counters add up to the number of trades |
| Backtester.Tester.constructor | thales/bots/FoXyLady/backtester.py:18-61 | the tester holds the signal frame of its bars, its parameters, the number of distinct dates and zero counters and trades |
| Backtester.Tester.Round | thales/bots/FoXyLady/backtester.py:63-117 | one round either ends the run with no change, or records the trade and bumps the one counter of its type, then fails with KeyError or leaves the later dates |
| Backtester.Tester.Call | thales/bots/FoXyLady/backtester.py:63-118 | the call appends exactly the run's trades, bumps the counters by the run's long and short counts, returns the run's outcome and, on success, leaves no entry row |
| Backtester.YearLength | thales/bots/FoXyLady/backtester.py:145-147 | a year's date range holds 365 or 366 dates |
| Backtester.Picked | thales/bots/FoXyLady/backtester.py:145-149 | the drawn date lies in its year; its position in the year depends only on the year's number of dates, since the generator is re-seeded before each draw |
| Backtester.SameSeedSameOffset | thales/bots/FoXyLady/backtester.py:145-149 | two years with the same number of dates get their start on the same day of the year |
| Backtester.PickedStart | thales/bots/FoXyLady/backtester.py:145-149 | the drawn start lies between the first instant of the year and the midnight of 31 December |
| Backtester.GenerateStartEndDates | thales/bots/FoXyLady/backtester.py:138-153 | one start per year of the range, in year order, each the year's draw, and each end n_days after its start |
| Positions.Record.SellBuyRatio | thales/positions.py:66-73 | the ratio is None exactly while the position is open; a closed one gives sell price over buy price, or TypeError without a sell price and ZeroDivisionError for a zero buy price |
| Positions.Record.Delta | thales/positions.py:133-154 | the delta is None while open and fails exactly when the ratio fails |
| Positions.Record.Name | thales/positions.py:83-86 | the name is `test__` then the uuid for a test position, otherwise the bare uuid |
| Positions.DeltaOfClosed | thales/positions.py:70-154 | a closed long position gains amount·sell/buy − amount and a short one exactly the negation |
| Positions.DeltaSign | thales/positions.py:133-154 | for a positive amount and buy price, long gains exactly when sold above the buy price and short exactly when sold below |
| Positions.SavedInOneStore | thales/positions.py:97-112 | after `save` the position's file holds the record in exactly the store its state selects, and no other file nor the metadata changes |
| Positions.SavedIdempotent | thales/positions.py:97-112 | saving a record twice is saving it once |
| Positions.ListedSpec | thales/positions.py:212-218 | a name is listed exactly when `<name>.yaml` is in the store and its `test_` prefix matches the manager's flag |
| Positions.SavedIsListed | thales/positions.py:97-226 | a saved position is listed in the store of its state exactly when its test flag matches the manager's, and a closed one is no longer listed as open |
| Positions.Single | thales/positions.py:235-243 | the record returned is the one of the single matching file |
| Positions.Lookup | thales/positions.py:228-246 | a failed lookup is always ValueError |
| Positions.LookupOutcomes | thales/positions.py:231-246 | the lookup fails exactly when several open files match, or none matches in the open store and not exactly one in the closed store; an open match is taken from the open store |
| Positions.UuidOfName | thales/positions.py:83-86 | the text after the last `__` of a position's name is its uuid |
| Positions.LookupAfterSave | thales/positions.py:97-246 | looking a saved position up by its name gives the saved record back when no other `.yaml` file of the directory contains its uuid |
| Positions.Prepared | thales/positions.py:25-46 | the record keeps its arguments, takes the given uuid when it is non-empty and a fresh one otherwise, and the registered spelling of a given bot name; it fails exactly when that bot name is not registered |
| Positions.PreparedOfStored | thales/positions.py:239-243 | rebuilding a stored record with its own uuid and registered bot gives the record back |
| Positions.Created | thales/positions.py:205-207 | the directory exists afterwards and every existing directory is unchanged |
| Positions.Position.constructor | thales/positions.py:25-46 | the object holds the record's fields and its directory |
| Positions.Position.Save | thales/positions.py:97-112 | the save succeeds exactly when the delta can be computed and the directory exists, then writes the record to its store; otherwise nothing changes and the delta's error or FileNotFoundError is raised |
| Positions.Position.Sell | thales/positions.py:88-95 | a closed position, an empty timestamp or a missing price fails the assertion with no change; otherwise the position is closed with that timestamp and price, its metadata merged with the new keys winning, and saved |
| Positions.NewPosition | thales/positions.py:25-47 | an unregistered bot fails with nothing written; a missing given directory fails the assertion with nothing written; otherwise the bot's directory is created when none is given, and the prepared record is saved in the directory exactly when its delta can be computed, the delta's error being raised otherwise |
| Positions.MostRecent | thales/positions.py:186-195 | the result is None exactly when no name parses, and otherwise the largest parsed timestamp, read from one of the names |
| Positions.DeltaCumsum | thales/positions.py:317 | the running total has one entry per row and is missing exactly where the delta is |
| Positions.DeltaCumsumValue | thales/positions.py:317 | each present running total is the sum of the present deltas up to its row |
| Positions.CompleteRows | thales/positions.py:325 | `dropna` keeps exactly the rows with both timestamps and a running total |
| Positions.OpenEvents | thales/positions.py:326-327 | each trade opens at the previous trade's running total, 0 for the first |
| Positions.CloseEvents | thales/positions.py:328 | each trade closes at its own running total |
| Positions.CumsumSpec | thales/positions.py:321-329 | `cumsum` gives the open and close events of every complete trade, one each, ordered by timestamp |
| Positions.PositionManager.constructor | thales/positions.py:204-210 | the manager holds its bot, timestamp, test flag and the directory they name |
| Positions.PositionManager.ListPositions | thales/positions.py:212-226 | a listing fails with FileNotFoundError exactly when the manager's directory is gone; otherwise it holds exactly the names of the `.yaml` files whose test prefix matches, of the store or, once `del_test_dir` has cleared the paths, of the working directory |
| Positions.PositionManager.Find | thales/positions.py:228-246 | once the paths are cleared the working directory is searched, one match raising TypeError and any other count ValueError; a missing directory raises FileNotFoundError; otherwise the record is the directory's lookup |
| Positions.PositionManager.GetPosition | thales/positions.py:228-246 | a failed search, an unregistered stored bot or a failing delta returns the error with no change; otherwise the found record is rebuilt in the manager's directory and saved again |
| Positions.PositionManager.DelTestPositions | thales/positions.py:248-258 | nothing happens when no store is selected; with the paths cleared nothing changes and a test file in the working directory raises TypeError; a missing directory raises FileNotFoundError; otherwise it passes, removing exactly the `test__*.yaml` files of the selected stores |
| Positions.PositionManager.DelTestDir | thales/positions.py:260-271 | with a timestamp the whole directory goes and the manager forgets its paths and bot; without one nothing changes |
| Positions.PositionManager.OpenNewPosition | thales/positions.py:273-280 | a type other than long or short ignoring case is a KeyError; an unregistered bot or a missing manager directory fails with nothing written; otherwise the prepared open record, of that type under a fresh uuid, is saved in the manager's directory (the top-level one, created, once the paths are cleared) and nothing else changes |
| Positions.PositionManager.ClosePosition | thales/positions.py:282-285 | a failed search, an unregistered stored bot or a failing delta returns the error with no change; otherwise the rebuilt record is saved again and then sold as `Closing` defines |
| Positions.Closing | thales/positions.py:88-95 | `sell` after the rebuild: a closed position, an empty timestamp or a missing price fails the assertion and a failing delta raises its error, with nothing written; otherwise the sold record is saved |
| Positions.CloseMovesFile | thales/positions.py:88-112 | closing succeeds exactly for an open position given a timestamp and a price with a non-zero buy price; it then moves the position's file from the open to the closed store with the sold record and the merged metadata, and changes no other file or directory; a failure changes nothing |
| Positions.PositionManager.Metadata | thales/positions.py:297-305 | reading the metadata fails exactly when the manager has no directory; otherwise it is the stored `metadata.yaml`, or {} when there is none |
| Positions.PositionManager.SaveMetadata | thales/positions.py:287-295 | with data the stored metadata is merged with it, new keys winning; without data nothing changes |
| Positions.RemoveTestFiles | thales/positions.py:254-256 | exactly the `test__*.yaml` files are removed and every other file is kept unchanged |
| Positions.NewManager | thales/positions.py:159-210 | two of the three options fail the assertion; any of them forces test mode; an unregistered bot fails; a new back-test takes the current time, the most recent one the latest parseable sub-directory, a named one must be listed; exactly the manager's directory is created, after the bot's directory when a sub-directory is searched; a failed search leaves only the bot's directory created, and an earlier failure changes nothing |
| TestGenerator.PlaceOf | thales/bots/FoXyLady/test/__init__.py:64-65 | the place is Absent exactly when the date is not listed, AtStart exactly when it is the first entry, and otherwise the entry just before an occurrence of the date |
| TestGenerator.PreviousRetryingSpec | thales/bots/FoXyLady/test/__init__.py:59-67 | the retrying `previous_date` gives None exactly when none of the ten days tried is listed; it fails only with KeyError when a tried day is the first listed date; a date it gives is listed and, in a sorted list, no later than the day asked for |
| TestGenerator.PreviousOnceSpec | thales/bots/FXyLady/test/__init__.py:58-63 | the single lookup fails exactly when the date is not listed (IndexError) or is the first date (KeyError), and otherwise gives a listed date no later than it in a sorted list |
| TestGenerator.TestDataGenerator.constructor | thales/bots/FoXyLady/test/__init__.py:29-37 | a new source has no year loaded and nothing cached, holds the dates of `dates.csv` sorted, and carries a test name only in the later revision |
| TestGenerator.TestDataGenerator.LoadYear | thales/bots/FoXyLady/test/__init__.py:53-57 | the same year is not read again; another year's file is loaded and becomes current, or a missing file raises FileNotFoundError with nothing changed |
| TestGenerator.TestDataGenerator.PreviousDate | thales/bots/FoXyLady/test/__init__.py:59-67 | the loop gives what the revision's `previous_date` defines |
| TestGenerator.TestDataGenerator.Get67 | thales/bots/FoXyLady/test/__init__.py:39-51 | the baseline of a date is the file's, or none without a file, whether or not it was cached; it is cached once read; a missing date raises AttributeError |
| TestGenerator.TestDataGenerator.ItemOf | thales/bots/FoXyLady/test/__init__.py:78-108 | a bar yields at most one item: none inside the 6-7am session or without a baseline file, otherwise the bar with its date's baseline and the test name |
| TestGenerator.TestDataGenerator.Yielded | thales/bots/FoXyLady/test/__init__.py:77-108 | every yielded item is a visited bar outside the session, paired with the baseline of the date it trades against |
| TestGenerator.TestDataGenerator.Baseline67For | thales/bots/FoXyLady/test/__init__.py:93-98 | the baseline is that of the bar's own date, or before 6am that of the previous listed date; the step fails exactly when `previous_date` fails or finds nothing |
| TestGenerator.TestDataGenerator.Generate | thales/bots/FoXyLady/test/__init__.py:69-109 | the bars visited and the outcome are exactly the walk `Run` defines from the generator's state before the call, and the items are exactly those the visited bars yield |
| TestGenerator.TestDataGenerator.Walk | thales/bots/FoXyLady/test/__init__.py:77-105 | the walk from a position: a bar whose baseline date is found is visited and the walk goes on from the next position or the first bar of the next year's file; it stops with the outcome the loop raises or passes; every bar it visits completes its step |
| TestGenerator.TestDataGenerator.Run | thales/bots/FoXyLady/test/__init__.py:69-76 | a run loads the start year, starts at the first bar at or after the start and walks from there; a missing start file raises FileNotFoundError and a start after every bar IndexError |
| TestGenerator.TestDataGenerator.WalkGrows | thales/bots/FoXyLady/test/__init__.py:77-105 | the walk keeps the bars already visited as a prefix and only adds bars of the files it reads |
| TestGenerator.TestDataGenerator.WalkEnds | thales/bots/FoXyLady/test/__init__.py:77-105 | the walk passes only after counting exactly `n_days` new dates, and fails only with FileNotFoundError, IndexError, KeyError or AttributeError |
| TestGenerator.TestDataGenerator.Step | thales/bots/FoXyLady/test/__init__.py:79-108 | one pass of the loop body either ends the loop with what the walk gives, or moves to the next position of the same file or to the first bar of the next year's file, from where the walk gives the same result |
| TestGenerator.TestDataGenerator.RunSpec | thales/bots/FoXyLady/test/__init__.py:69-109 | every bar a run visits is a row of a year file, a finished run has counted exactly `n_days` new dates, and a failure is one of FileNotFoundError, IndexError, KeyError or AttributeError |
| TestGenerator.FirstAtOrAfter | thales/bots/FoXyLady/test/__init__.py:56-74 | the position of the earliest bar at or after the start, the first such position among equal times, or None when every bar is earlier |
| TestGenerator.CurrentDate | thales/bots/FoXyLady/test/__init__.py:75-91 | the current date never goes below the start date |
| TestGenerator.DayCount | thales/bots/FoXyLady/test/__init__.py:72-91 | the day count never exceeds the number of bars read |
| TestHandler.AddDate | thales/bots/FoXyLady/test/__init__.py:143 | the new list of traded dates is sorted, free of duplicates, and holds exactly the old dates and the new one |
| TestHandler.AddDateKeeps | thales/bots/FoXyLady/test/__init__.py:135-143 | recording a date already recorded changes nothing, so closing several positions on one bar records its date once |
| TestHandler.HandledClosed | thales/bots/FoXyLady/test/__init__.py:134-143 | a bar with positions open adds to the closed store exactly the positions it closes, keeps every other closed entry as it was, and records its date exactly when it closes something |
| TestHandler.HandledSpec | thales/bots/FoXyLady/test/__init__.py:125-154 | a bar with open positions closes exactly those whose stop or target it crosses, at its close price, and opens nothing; with nothing open it opens one position of amount 100 at its close price on a date not traded yet and records that date; otherwise nothing changes; the traded dates stay sorted and only grow |
| TestHandler.PrefixSorted | thales/bots/FoXyLady/test/__init__.py:143-154 | over a run of bars the traded dates stay sorted and free of duplicates |
| TestHandler.PrefixKeepsDate | thales/bots/FoXyLady/test/__init__.py:143-154 | a traded date stays traded for the rest of the run |
| TestHandler.OncePerDate | thales/bots/FoXyLady/test/__init__.py:145-154 | two bars of a run that both open a position fall on different dates |
| TestHandler.TradeHandler.constructor | thales/bots/FoXyLady/test/__init__.py:118-123 | a new handler has traded no date and keeps its signals |
| TestHandler.TradeHandler.Handle | thales/bots/FoXyLady/test/__init__.py:125-154 | `__call__` moves the store and the traded dates to the state the handler's rule defines |
| TestHandler.SellCrossed | thales/bots/FoXyLady/test/__init__.py:134-143 | the loop over the open positions leaves open exactly those not crossed, adds each crossed one to the closed store sold at the close price, and records the bar's date exactly when one was closed |
| TestHandler.RunBot | thales/bots/FoXyLady/test/__init__.py:168-175 | the items handled are exactly those the generator's walk yields and the generator is exhausted exactly when the walk passes; the handler ends in the state reached by handling every item in order; an exhausted generator ends the later revision cleanly and raises StopIteration in the earlier one; any other failure propagates |
| TestDatasets.YearsOf | thales/data/test_dataset.py:44-45 | the years of the `.csv` files other than `stats.csv`; a stem that is not an integer makes it a ValueError, and a year is listed exactly when some such file has it as its stem |
| TestDatasets.AvailableYearsSpec | thales/data/test_dataset.py:42-45 | `available_years` is sorted and holds exactly the years of the directory's year files |
| TestDatasets.YearFileNameParses | thales/data/test_dataset.py:49 | the file `open_year_csv` opens for a year is a year file whose stem reads back as that year |
| TestDatasets.YearFileNameInjective | thales/data/test_dataset.py:49 | different years open different files |
| TestDatasets.KeepFirstFrom | thales/data/test_dataset.py:71 | `drop_duplicates` keeps only rows of the input whose datetime was not seen before |
| TestDatasets.KeepFirstSpec | thales/data/test_dataset.py:71 | after `drop_duplicates` no two rows share a datetime, every datetime of the input is still present, and each row kept is the first of its datetime |
| TestDatasets.MergeRowsSpec | thales/data/test_dataset.py:70-72 | after `load_year` the frame is sorted by a unique index covering the datetimes of the old frame and the new file, each row being the first of its datetime in the old frame followed by the file |
| TestDatasets.MergeKeepsCurrent | thales/data/test_dataset.py:70-72 | a row of the sorted frame survives every merge: an old row wins over a new one |
| TestDatasets.LoadYearSpec | thales/data/test_dataset.py:64-73 | loading a year fails only with FileNotFoundError, and the file's `datetime` column becomes the index, never one of the frame's columns |
| TestDatasets.From | thales/data/test_dataset.py:82 | the cut frame keeps exactly the rows at or after the datetime |
| TestDatasets.LoadYearSorted | thales/data/test_dataset.py:64-73 | loading a year keeps the frame sorted by a unique index and keeps every row it had |
| TestDatasets.EnterYearSorted | thales/data/test_dataset.py:80-81 | entering the year of a datetime keeps the frame sorted and its rows, and fails only with FileNotFoundError |
| TestDatasets.JumpToDateSorted | thales/data/test_dataset.py:75-86 | after `jump_to_date` the frame is still sorted by a unique index, a failure is a missing year file, and on success every row left is at or after the datetime |
| TestDatasets.FromHead | thales/data/test_dataset.py:82 | in a sorted frame the first row at or after a datetime of the frame is the row with that datetime |
| TestDatasets.JumpToRow | thales/data/test_dataset.py:75-86 | jumping to the datetime of a row in the frame succeeds exactly when its year can be entered, and puts that row first |
| TestDatasets.OpOf | thales/data/test_dataset.py:126 | exactly the operators `g`, `ge`, `l` and `le` are known, any other is a KeyError |
| TestDatasets.ParseCondition | thales/data/test_dataset.py:124-127 | a condition parses exactly when it splits on `_` into three parts naming a frame column, a known operator and a number; too few or too many parts is a ValueError and an unknown column an AssertionError |
| TestDatasets.ParseAllSpec | thales/data/test_dataset.py:123-128 | the loop succeeds exactly when every condition parses, and then gives one parsed condition per string, in order |
| TestDatasets.ParseAllErrPrefix | thales/data/test_dataset.py:123-128 | the first condition that fails decides the loop's error |
| TestDatasets.FirstMatch | thales/data/test_dataset.py:131-134 | the first row that meets one of the conditions, or None when no row does |
| TestDatasets.YearsAboveShrink | thales/data/test_dataset.py:130-136 | loading the next year leaves fewer years with files to load, so the search loop ends |
| TestDatasets.SearchFindsMatch | thales/data/test_dataset.py:130-139 | a successful search leaves the frame sorted with a row meeting one of the conditions first; the search fails only when a year file is missing |
| TestDatasets.TestDataset.constructor | thales/data/test_dataset.py:13-21 | a new dataset has the price columns, no row and year 0 |
| TestDatasets.TestDataset.CurrentDatetime | thales/data/test_dataset.py:59-62 | `current_datetime` is the earliest datetime of the frame, and an empty frame raises IndexError |
| TestDatasets.TestDataset.LoadYear | thales/data/test_dataset.py:64-73 | `load_year` moves the frame to what loading that year defines, or leaves it unchanged with the error |
| TestDatasets.TestDataset.JumpToDate | thales/data/test_dataset.py:75-86 | `jump_to_date` moves the frame to what the jump defines |
| TestDatasets.TestDataset.JumpDays | thales/data/test_dataset.py:88-93 | `jump_days(n)` jumps to midnight of the current date plus `n` days; an empty frame raises IndexError with nothing changed |
| TestDatasets.TestDataset.JumpHours | thales/data/test_dataset.py:95-100 | `jump_hours(n)` jumps to the start of the current hour plus `n` hours; an empty frame raises IndexError with nothing changed |
| TestDatasets.TestDataset.JumpMinutes | thales/data/test_dataset.py:102-108 | `jump_minutes(n)` jumps to the start of the current minute plus `n` minutes; an empty frame raises IndexError with nothing changed |
| TestDatasets.TestDataset.JumpToCondition | thales/data/test_dataset.py:110-139 | no condition fails the assertion and a condition that does not parse fails with its error, both with nothing changed; otherwise the frame moves as the search defines |
| TestDatasets.ParseConditions | thales/data/test_dataset.py:122-128 | the loop gives what parsing every condition in order defines |
| TestDatasets.OpenDataset | thales/data/test_dataset.py:13-21 | opening a dataset fails with AssertionError exactly when its data directory does not exist, and otherwise gives an empty dataset over that directory's files |
| CsvLoader.Targets | thales/data/csv_loader.py:33 | one target per symbol, its upper-cased name followed by `.csv` |
| CsvLoader.Stems | thales/data/csv_loader.py:37 | each missing file name without its last four characters |
| CsvLoader.ToLoadSpec | thales/data/csv_loader.py:34 | the files loaded are exactly the targets present in the directory, sorted and each once |
| CsvLoader.MissingSpec | thales/data/csv_loader.py:35 | the files reported missing are exactly the targets absent from the directory, sorted and each once |
| CsvLoader.SelectFilesSpec | thales/data/csv_loader.py:21-40 | a missing data directory is the only error; no symbols means the master list; nothing is loaded exactly when no target is in the directory; otherwise the loaded files and the missing symbols split the targets |
| CsvLoader.NothingToLoad | thales/data/csv_loader.py:39-40 | `load_by_symbol` returns None exactly when none of the targets is in the directory |
| CsvLoader.Values | thales/data/csv_loader.py:79 | the source names of the fieldmap, in item order |
| CsvLoader.UpperSymbols | thales/data/csv_loader.py:84 | every symbol cell becomes the upper-cased text of its value |
| CsvLoader.ColumnFloat | thales/data/csv_loader.py:87 | the conversion succeeds exactly when every cell converts, and then converts cell by cell; a failure is a ValueError |
| CsvLoader.MergePairs | thales/data/csv_loader.py:74-78 | the loop over the fieldmap's items gives what handling the pairs in turn defines |
| CsvLoader.ConvertFloats | thales/data/csv_loader.py:85-87 | the loop over the numeric columns gives what converting them in turn defines, stopping at the first failure |
| CsvLoader.CleanDataset | thales/data/csv_loader.py:64-89 | `clean_dataset` gives what merging duplicate columns and then cleaning defines |
| CsvLoader.FloatAllErrPrefix | thales/data/csv_loader.py:86-87 | the first column that fails to convert decides the error |
| CsvLoader.NamedSet | thales/data/csv_loader.py:76-78 | assigning a column sets exactly that name's single column and leaves every other name alone |
| CsvLoader.NamedDropAll | thales/data/csv_loader.py:79-80 | dropping the source names removes exactly their columns |
| CsvLoader.NamedPairStep | thales/data/csv_loader.py:75-78 | handling one pair touches only its standard column, filled from the source column when both exist and copied from it when only the source exists |
| CsvLoader.PairsSingle | thales/data/csv_loader.py:74-78 | the pairs loop leaves every column name single |
| CsvLoader.PairsOther | thales/data/csv_loader.py:74-78 | a name that is not a standard name keeps its columns through the pairs loop |
| CsvLoader.PairsKeep | thales/data/csv_loader.py:74-78 | when no standard name is also a source name, each standard column after the loop is what its own pair makes of the merged frame |
| CsvLoader.ValuesNotFloat | thales/data/csv_loader.py:79-85 | under such a renaming no source name is converted to float |
| CsvLoader.DroppedSpec | thales/data/csv_loader.py:79-80 | after the drop every name is single and no source name is left |
| CsvLoader.CleanFromSpec | thales/data/csv_loader.py:70-89 | a cleaned frame has single names, no source name, datetime and symbol columns, and every numeric column of the fieldmap |
| CsvLoader.FloatAllSpec | thales/data/csv_loader.py:86-87 | the numeric conversion keeps names single |
| CsvLoader.FloatAllNamed | thales/data/csv_loader.py:86-87 | a column that is not converted is left alone by the conversion |
| CsvLoader.FloatAllHas | thales/data/csv_loader.py:86-87 | every converted column is present after the conversion |
| CsvLoader.CleanedValues | thales/data/csv_loader.py:84-87 | every cleaned symbol is a string without lower-case letters, and every converted cell is a number or missing |
| CsvLoader.WithDefault | thales/data/csv_loader.py:98-102 | every row without a request time takes `2020_01_01 00;00;00`, and nothing else changes |
| CsvLoader.KeepLast | thales/data/csv_loader.py:105 | `drop_duplicates(keep="last")` keeps only rows of its input |
| CsvLoader.DedupeByRequestTime | thales/data/csv_loader.py:92-105 | the frame passed in is left sorted by datetime, request time and volume with its request times filled, and the returned frame is its de-duplication |
| CsvLoader.KeepLastTimes | thales/data/csv_loader.py:105 | de-duplication keeps every datetime |
| CsvLoader.KeepLastIncreasing | thales/data/csv_loader.py:104-105 | on the sorted frame de-duplication leaves datetimes strictly increasing |
| CsvLoader.KeepLastIsLatest | thales/data/csv_loader.py:104-105 | a kept row is the last of its datetime in the sort order |
| CsvLoader.DedupeSpec | thales/data/csv_loader.py:92-105 | `dedupe_by_request_time` leaves one row per datetime in increasing order, covering every datetime, and the row kept has the latest request time of its datetime, ties going to the largest volume |
| CsvLoader.RowsNeedAdjusting | thales/data/csv_loader.py:108-114 | a frame missing one of the four price columns is a KeyError; otherwise exactly the rows whose high, low and open all exceed the close after rounding to five places are selected |
| CsvLoader.Selected | thales/data/csv_loader.py:111-114 | exactly the rows that need adjusting, and none exactly when no row needs it |
| CsvLoader.ScaleColumn | thales/data/csv_loader.py:124 | scaling a column keeps one row per row |
| CsvLoader.PriceFrame.constructor | thales/data/csv_loader.py:117 | the frame holds its columns and rows |
| CsvLoader.PriceFrame.AdjustPrices | thales/data/csv_loader.py:116-125 | without both close columns or with no row needing it nothing changes; otherwise low, high and open are scaled by close over raw_close, and the final assertion fails when a row still needs adjusting, the scaled frame staying behind |
| CsvLoader.AdjustedSteps | thales/data/csv_loader.py:123-124 | the loop over low, high and open scales those three columns in turn |
| CsvLoader.FactorKept | thales/data/csv_loader.py:122-124 | scaling a price column never changes the adjustment factor |
| CsvLoader.ScaleColumnsAdjusted | thales/data/csv_loader.py:122-124 | the frame-level scaling is the row-level adjustment, row by row |
| CsvLoader.AdjustedKeeps | thales/data/csv_loader.py:123-124 | adjustment keeps both close prices and every other column |
| CsvLoader.AdjustedValues | thales/data/csv_loader.py:122-124 | an adjusted row holds each of its raw high, low and open times the factor, and the same close |
| CsvLoader.AdjustedNeedsIff | thales/data/csv_loader.py:121-125 | with positive close prices an adjusted row still needs adjusting exactly when its raw high, low and open all exceed its raw close, so the final assertion fails on such data |
| ConfigUtils.ParseDatetime | thales/config/utils.py:40-57 | the loop over the formats gives what `parse_datetime` defines |
| ConfigUtils.TryFormatsFirst | thales/config/utils.py:49-56 | a string is parsed in the first of the millisecond, second, minute and day formats that accepts it: the result comes from a format exactly when every earlier one fails |
| ConfigUtils.ParseDatetimeValues | thales/config/utils.py:43-48 | a datetime or timestamp comes back unchanged and a date becomes that day's midnight |
| Common.Keys | thales/config/utils.py:77 | the column names of a frame, or the keys of a fieldmap's items (thales/data/csv_loader.py:85), in order |
| ConfigUtils.NamedEmpty | thales/config/utils.py:77-80 | a name selects no column exactly when it is not a column name |
| ConfigUtils.DropNamed | thales/config/utils.py:87 | `drop(columns=col)` removes exactly the columns of that name |
| ConfigUtils.Fill | thales/config/utils.py:86 | `fillna` takes each missing cell from the other column and keeps every present one |
| ConfigUtils.CoalesceSpec | thales/config/utils.py:80-86 | merging by `fillna` keeps, in each row, the first value present among the columns, in column order |
| ConfigUtils.DistinctFirst | thales/config/utils.py:77 | the keys of `Counter(df.columns)`: each column name once |
| ConfigUtils.Repeated | thales/config/utils.py:78 | exactly the names that name more than one column, each once |
| ConfigUtils.MergeDupeCols | thales/config/utils.py:72-89 | the loop over the duplicated names gives what merging them in turn defines |
| ConfigUtils.NamedStep | thales/config/utils.py:80-88 | one turn of the loop replaces the columns of its name by their merge and leaves every other name alone |
| ConfigUtils.NamedMergeAll | thales/config/utils.py:79-88 | after merging distinct names each of them names a single column holding its merge, and every other name keeps its columns |
| ConfigUtils.MergedNamed | thales/config/utils.py:72-89 | after `merge_dupe_cols` each column name names exactly one column, the merge of its columns |
| ConfigUtils.MergeDupeColsSpec | thales/config/utils.py:72-89 | `merge_dupe_cols` leaves no repeated column name, loses and adds no name, and gives each name the merge of its columns |
| ConfigUtils.MergeDupeColsRows | thales/config/utils.py:80-88 | in each row the value of a merged name is the first value present among that name's columns, in column order |
| Registries.UnionSpec | thales/config/symbols.py:53 | `sorted(set(current) ∪ set(given))` is sorted, has no duplicate, and holds exactly the elements of either list |
| Registries.DifferenceSpec | thales/config/symbols.py:70 | `sorted(set(current) - set(given))` is sorted, has no duplicate, and holds exactly the stored elements not given |
| Registries.AddedSpec | thales/config/symbols.py:51 | the reported additions are exactly the given elements not yet stored, sorted and each once |
| Registries.RemovedSpec | thales/config/symbols.py:68 | the reported removals are exactly the given elements that are stored, sorted and each once |
| Registries.MergedElements | thales/config/symbols.py:46-57 | after `add` the list holds exactly the old and the given elements |
| Registries.MergedUnchanged | thales/config/symbols.py:51-56 | `add` leaves the stored list untouched exactly when every given element is already stored |
| Registries.MergedSorted | thales/config/symbols.py:46-57 | `add` keeps a sorted duplicate-free list in that form |
| Registries.PrunedElements | thales/config/symbols.py:59-74 | after `remove` the list holds exactly the old elements that were not given |
| Registries.PrunedUnchanged | thales/config/symbols.py:68-73 | `remove` leaves the stored list untouched exactly when no given element is stored |
| Registries.PrunedSorted | thales/config/symbols.py:59-74 | `remove` keeps a sorted duplicate-free list in that form |
| Registries.AddThenRemove | thales/config/symbols.py:46-74 | adding and then removing the same elements leaves exactly the previously stored elements not given |
| Registries.MergedIdempotent | thales/config/symbols.py:46-57 | adding the same elements twice is adding them once |
| Registries.PrunedIdempotent | thales/config/symbols.py:59-74 | removing the same elements twice is removing them once |
| Registries.RemoveAllEmpties | thales/config/symbols.py:63-70 | `remove_all` empties the list |
| Registries.UpperAll | thales/config/symbols.py:50 | every symbol upper-cased, in order |
| Registries.SymbolStore.constructor | thales/config/symbols.py:15-21 | the store holds the given lists |
| Registries.SymbolStore.Add | thales/config/symbols.py:46-57 | a missing list is a TypeError with nothing changed; otherwise the upper-cased symbols are merged in and the new ones reported |
| Registries.SymbolStore.Remove | thales/config/symbols.py:59-74 | no symbols and no `remove_all` does nothing; a missing list is a TypeError; otherwise the upper-cased symbols, or the whole list with `remove_all`, are removed and the stored ones among them reported |
| Registries.MasterList.constructor | tradez/symbols.py:12-16 | the master list holds the stored symbols, or none without a file |
| Registries.MasterList.AddSymbols | tradez/symbols.py:19-29 | a missing master file is a FileNotFoundError with nothing changed; otherwise the upper-cased symbols are merged in and the new ones reported |
| Registries.MasterList.RemoveSymbols | tradez/symbols.py:32-46 | no symbols and no `clear_all` does nothing; a missing file is a FileNotFoundError; otherwise the symbols, or the whole list with `clear_all`, are removed and the stored ones among them reported |
| Registries.TradezSymbols.constructor | __init__.py:15-16 | the object holds the symbol file |
| Registries.TradezSymbols.AddSymbol | __init__.py:18-30 | an unreadable file fails with its error and nothing changed; otherwise the file is always rewritten with the union and the new symbols are reported |
| Registries.TradezSymbols.RemoveSymbol | __init__.py:32-43 | an unreadable file fails with its error and nothing changed; otherwise the file is always rewritten with the difference and the stored symbols among those given are reported |
| Registries.TradezAddSorted | __init__.py:26-29 | `Tradez.add_symbol` always leaves a sorted duplicate-free list holding exactly the old and the given symbols |
| Registries.ValidatePairs | thales/config/fx_pairs.py:50-60 | validation succeeds exactly when every argument is a tuple of two strings that differ ignoring case, and then upper-cases each pair in order; any failure is an AssertionError |
| Registries.AsArgs | thales/config/fx_pairs.py:50-60 | each pair passed back as a two-string tuple |
| Registries.ValidateIdempotent | thales/config/fx_pairs.py:50-60 | validated pairs are distinct ignoring case, and validating them again returns them unchanged |
| Registries.PairStore.constructor | thales/config/fx_pairs.py:15-21 | the store holds the given pair lists |
| Registries.PairStore.Add | thales/config/fx_pairs.py:62-73 | a missing list is a TypeError and an invalid pair an AssertionError, both with nothing changed; otherwise the validated pairs are merged in and the new ones reported |
| Registries.PairStore.Remove | thales/config/fx_pairs.py:75-91 | no pairs and no `remove_all` does nothing; an invalid pair is an AssertionError and a missing list a TypeError; otherwise the pairs, or the whole list, are removed and the stored ones among them reported |
| Registries.PairAddThenRemove | thales/config/fx_pairs.py:62-91 | adding and then removing the same validated pairs leaves the stored pairs not given, and `remove_all` empties the list |
| Config.CheckSource | thales/config/__init__.py:32-37 | a source is returned exactly when it is registered, and otherwise raises InvalidSource |
| Config.ValidateSource | thales/config/sources.py:25-37 | a returned source is the one given, or the default `alphavantage` for a falsy one; a rejected one raises InvalidSource |
| Config.ValidateSourceAccepts | thales/config/sources.py:25-37 | a given source is accepted exactly when it is in the list passed, or in the registered list when that is falsy |
| Config.ValidateSourceDefault | thales/config/sources.py:32-33 | None and the empty string both select the default source |
| Config.AppendNewSpec | thales/config/sources.py:44-46 | registering keeps the source list duplicate-free and adds the source exactly once; registering twice is registering once |
| Config.PackageData.constructor | thales/config/sources.py:15-22 | the package data holds the registered sources and nothing else |
| Config.PackageData.RegisterSource | thales/config/sources.py:40-76 | an empty name fails the assertion with nothing written; otherwise the source is added once, its fieldmap is written with the default map and its credentials file touched only when absent, and its scrape, symbol and FX directories and master files exist |
| Config.PackageData.SaveCredentials | thales/config/__init__.py:81-88 | the stored credentials are merged with the new ones, the new keys winning; an unregistered source fails with nothing written |
| Config.PackageData.SetFieldmap | thales/config/__init__.py:100-107 | a key that is not already in the stored fieldmap fails the assertion; otherwise the stored map is merged with the new one, the new values winning; an unregistered source fails with nothing written |
| Config.MergeSpec | thales/config/__init__.py:85 | `{**saved, **new}` has the keys of both, the new values winning and the other saved values kept |
| Config.SetFieldmapStable | thales/config/__init__.py:100-107 | setting known keys keeps the fieldmap's key set, and setting the same values again changes nothing |
| Fieldmaps.AsWrittenShared | thales/config/fieldmaps.py:15-21 | as written, `get_fieldmap` reads the literal file `{src}.yaml`, so every valid source reads the same file |
| Fieldmaps.AsWrittenLosesUpdate | thales/config/fieldmaps.py:15-31 | as written, a fieldmap set for `alphavantage` is not what `get_fieldmap` reads back |
| Fieldmaps.GetFieldmap | thales/config/fieldmaps.py:15-21 | reading succeeds exactly when the source is valid and has a fieldmap file, and gives that source's own file |
| Fieldmaps.SetFieldmap | thales/config/fieldmaps.py:24-31 | setting succeeds exactly when reading does and every key is a standard field name; a bad key fails the assertion |
| Fieldmaps.SetThenGet | thales/config/fieldmaps.py:24-31 | reading after a successful set gives the old fieldmap with the new values winning, and no other source's fieldmap changes |
| Fieldmaps.RenameMap | thales/config/fieldmaps.py:38 | the rename map has an entry exactly for the fieldmap's source names that are frame columns, each mapped to the standard name of the last item with that source name |
| Fieldmaps.RenameColumns | thales/config/fieldmaps.py:43 | `df.rename` renames each column in the map and keeps every other one, in place |
| Fieldmaps.ApplyFieldmapSpec | thales/config/fieldmaps.py:34-43 | `apply_fieldmap` never raises MissingRequiredColumns, since every renamed column is a column of the frame; a column that is some item's source name takes the standard name of the last such item, and every other column keeps its name |
| EndpointQueries.EndpointsWellFormed | thales/scrapers/alphavantage/endpoints.py:4-73 | every endpoint of the table lists `function` first with its own name, leaves every other required parameter without a default except FX_INTRADAY's `interval`, and gives every optional parameter a non-empty list of string choices named apart from the required ones |
| EndpointQueries.EndpointsOptional | thales/scrapers/alphavantage/endpoints.py:16-72 | CURRENCY_EXCHANGE_RATE has no optional parameter, and FX_WEEKLY and FX_MONTHLY only `datatype` |
| EndpointQueries.RequiredValue | thales/scrapers/alphavantage/__init__.py:37-43 | a falsy required value is a ValueError, a list contributes its first element, and a value that is then not a string fails the assertion |
| EndpointQueries.OptionalValue | thales/scrapers/alphavantage/__init__.py:46-50 | an optional value is not checked for falsiness: a list contributes its first element, an empty list is an IndexError, and anything else that is not a string fails the assertion |
| EndpointQueries.SegmentsSpec | thales/scrapers/alphavantage/__init__.py:35-50 | a loop succeeds exactly when every parameter's value does, and then appends every parameter once, in order, with its value; otherwise it fails with the error of the first parameter that fails |
| EndpointQueries.SegmentsErrPrefix | thales/scrapers/alphavantage/__init__.py:36-43 | once a parameter fails, the loop's result is that failure |
| EndpointQueries.EncodeAppend | thales/scrapers/alphavantage/__init__.py:43 | the query pieces of two runs of parameters concatenate |
| EndpointQueries.Filtered | thales/scrapers/alphavantage/__init__.py:35 | the required parameters without `function` and `apikey` |
| EndpointQueries.AppendSegments | thales/scrapers/alphavantage/__init__.py:36-50 | a loop appends `&k=v` for each parameter in turn, or fails with the first parameter's error |
| EndpointQueries.QuerySpecSteps | thales/scrapers/alphavantage/__init__.py:30-51 | the query is the prefix, then the pieces of the required parameters, then those of the optional ones; a failure of either loop is the query's failure |
| EndpointQueries.BuildQuery | thales/scrapers/alphavantage/__init__.py:35-51 | the two loops give the query `construct_query` defines |
| EndpointQueries.SegmentsIgnoreOthers | thales/scrapers/alphavantage/__init__.py:37-46 | only the keyword arguments that name a parameter of the endpoint affect a loop |
| EndpointQueries.KwargsIgnored | thales/scrapers/alphavantage/__init__.py:27-51 | keyword arguments that name no parameter of the endpoint never reach the query |
| EndpointQueries.ScraperQuery | thales/scrapers/alphavantage/__init__.py:27-51 | a falsy key is replaced by the stored credential, an endpoint missing from the table is a NotImplementedError, and otherwise the query is built from the table |
| EndpointQueries.QueryPrefix | thales/scrapers/alphavantage/__init__.py:30 | a built query starts with `<base_url>query?function=<endpoint>&apikey=<key>` |
| EndpointQueries.TableQueriesSucceed | thales/scrapers/alphavantage/endpoints.py:4-73 | for every endpoint of the table, a query succeeds when every required parameter without a default and every relevant keyword argument is given as a non-empty string |
| EndpointQueries.Classify | thales/scrapers/alphavantage/__init__.py:64-73 | a body with other than one key is returned; a one-key body is RateLimitExceeded exactly when it is the rate-limit note, InvalidApiCall exactly when its key is `Error Message`, and otherwise nothing is returned |
| EndpointQueries.ScraperGet | thales/scrapers/alphavantage/__init__.py:53-73 | `get` fails as the query does, and otherwise classifies the body the request returned |
| EndpointQueries.BaseScraper.constructor | thales/scrapers/base_scraper.py:20-34 | the scraper holds its name, base URL, table, default endpoint, rate-limit message and key, an empty endpoint cache, and its data directory exists |
| EndpointQueries.BaseScraper.EndpointDataDir | thales/scrapers/base_scraper.py:36-49 | None selects the default endpoint; a known endpoint gives its directory under the data directory, which then exists and is cached; an unknown one fails the assertion with nothing changed |
| EndpointQueries.BaseScraper.ConstructQuery | thales/scrapers/base_scraper.py:51-71 | an endpoint outside the table fails the assertion, and otherwise the query is built from the table with the scraper's key |
| EndpointQueries.BaseScraper.Get | thales/scrapers/base_scraper.py:73-90 | `get` fails as the query does, and otherwise classifies the body against the scraper's rate-limit message |
| EndpointQueries.NewBaseScraper | thales/scrapers/base_scraper.py:20-34 | construction fails the assertion exactly when the default endpoint is not in the table; the rate-limit message and key default to the AlphaVantage note and the stored credential |
| SymbolQueries.Get | thales/scrapers/alphavantage/stocks.py:44 | a key is found in a keyword dict exactly when the dict holds it |
| SymbolQueries.Override | thales/scrapers/alphavantage/stocks.py:44 | overriding the defaults keeps their keys, in their order |
| SymbolQueries.Fresh | thales/scrapers/alphavantage/stocks.py:44 | the caller's entries whose key is not a default, and no others |
| SymbolQueries.GetOverride | thales/scrapers/alphavantage/stocks.py:44 | a default's key takes the caller's value when the caller gives one, and keeps the default otherwise |
| SymbolQueries.GetFresh | thales/scrapers/alphavantage/stocks.py:44 | a key that is not a default is looked up among the caller's keywords |
| SymbolQueries.MergeSpec | thales/scrapers/alphavantage/stocks.py:43-44 | `{**defaults, **kwargs}` is a dict; every key takes the caller's value when given and the default's otherwise; the defaults keep their places and the new keys follow in the caller's order |
| SymbolQueries.MergeNothing | thales/scrapers/alphavantage/stocks.py:44 | merging no keyword arguments gives the defaults |
| SymbolQueries.DefaultsFirst | thales/scrapers/alphavantage/stocks.py:43-44 | the query's first three parameters are always `interval`, `outputsize` and `datatype`, and every keyword argument's value is the one the query carries |
| SymbolQueries.AppendParams | thales/scrapers/alphavantage/stocks.py:48-49 | the loop appends one `&k=v` piece per merged parameter, in dict order |
| SymbolQueries.OrIfFalsy | thales/scrapers/alphavantage/stocks.py:45-46 | an empty or missing argument is replaced by the default, any other is kept |
| SymbolQueries.OrIfOmitted | scrapers/alphavantage.py:24 | a default value applies only when the argument is not passed, so an explicit empty string is kept |
| SymbolQueries.StocksQuery | thales/scrapers/alphavantage/stocks.py:41-50 | the query is the prefix for the function (the default when falsy), symbol and key, then the merged parameters with the 5min interval |
| SymbolQueries.LegacyQuery | data_collection/alpha_vantage.py:26-32 | the older query differs only in applying the default function just when none is passed |
| SymbolQueries.DefaultsEncoded | thales/scrapers/alphavantage/stocks.py:43-49 | without keyword arguments the query ends with `&interval=...&outputsize=full&datatype=json` |
| SymbolQueries.FxPairPart | thales/scrapers/alphavantage/fxpairs.py:54-59 | CURRENCY_EXCHANGE_RATE takes `from_currency`/`to_currency`, the four FX_ time series take `from_symbol`/`to_symbol`, each followed by the key, and any other function is an InvalidApiCall |
| SymbolQueries.FxQuery | thales/scrapers/alphavantage/fxpairs.py:45-62 | a falsy key and function take the stored credential and FX_INTRADAY; an invalid function fails, and otherwise the query carries the pair and the merged parameters with the 1min interval |
| SymbolQueries.NormalizeSymbolSpec | thales/scrapers/alphavantage/stocks.py:63-64 | a normalised symbol has no whitespace and no lower-case letter, and normalising is idempotent |
| SymbolQueries.StocksGet | thales/scrapers/alphavantage/stocks.py:53-75 | `get` requests the query for the normalised symbol, with falsy key and function defaulted, and classifies the body as rate-limited, invalid, silent or returned |
| SymbolQueries.FxGet | thales/scrapers/alphavantage/fxpairs.py:65-85 | an invalid FX function fails before any request; otherwise the query carries both normalised symbols and the body is classified |
| SymbolQueries.NoteCheck | scrapers/alphavantage.py:41-44 | the earliest scraper returns None exactly for a one-key body whose key is `Note` |
| SymbolQueries.RateLimitClassified | scrapers/alphavantage.py:41-42 | the rate-limit note is a RateLimitExceeded error for the later scrapers and a silent None for the earliest one |
| SymbolQueries.LegacyGet | scrapers/alphavantage.py:33-44 | the earliest `get` uppercases the symbol without removing its whitespace and returns None for a `Note` body |
| SymbolQueries.ModLeTotalPreorder | thales/scrapers/alphavantage/stocks.py:169 | ordering scraped files by modification time is a total preorder |
| SymbolQueries.ScrapedOf | thales/scrapers/alphavantage/stocks.py:168 | the scraped files kept are exactly those whose symbol was asked for |
| SymbolQueries.ByAgeStems | thales/scrapers/alphavantage/stocks.py:167-170 | a requested symbol has a file among the sorted records exactly when it has one in the listing |
| SymbolQueries.PrioritizeOrder | thales/scrapers/alphavantage/stocks.py:155-172 | the never-scraped symbols come first in input order, then the scraped ones from least to most recently modified, the sorted records being a permutation of the matching files |
| SymbolQueries.PrioritizePermutation | thales/scrapers/alphavantage/stocks.py:155-172 | for distinct symbols and distinct file names, prioritising reorders the input and neither loses nor repeats a symbol |
| HistoryAnalyzer.TradeAt | thales/history_analyzer.py:32-39 | the trade selling at a row and buying `hold_n` rows later carries both rows' dates, its margin is sell minus buy and its holding time the sell date minus the buy date |
| HistoryAnalyzer.TradeLeTotalPreorder | thales/history_analyzer.py:40 | ordering by sell date descending, then buy date ascending, is a total preorder |
| HistoryAnalyzer.Analyze | thales/history_analyzer.py:26-44 | a maximum below 1 fails the assertion; otherwise the loop collects every holding length's trades, sorts them and checks their number against the pair count |
| HistoryAnalyzer.HoldSpec | thales/history_analyzer.py:32-35 | after `dropna`, a trade of holding length `i` is exactly the trade of a row and the row `i` later, both priced |
| HistoryAnalyzer.HoldsSpec | thales/history_analyzer.py:31-36 | the concatenation holds exactly the trades of every holding length from 1 to the maximum |
| HistoryAnalyzer.AnalyzeTrades | thales/history_analyzer.py:31-40 | a successful result is sorted by sell date (latest first) then buy date, is a permutation of the collected trades, and holds exactly the trades of every holding length up to the maximum |
| HistoryAnalyzer.TradeFields | thales/history_analyzer.py:32-39 | every returned trade's margin, holding time and prices agree with the two rows it pairs |
| HistoryAnalyzer.HoldsCount | thales/history_analyzer.py:31-36 | with no price missing there are `n - i` trades for each holding length `i` below the row count `n` |
| HistoryAnalyzer.AnalyzeSucceeds | thales/history_analyzer.py:41-42 | with the intended count, `analyze` never fails its check on a fully priced history |
| HistoryAnalyzer.PairCountShort | thales/history_analyzer.py:41 | up to the history's length the pair count is `n m - (1 + ... + m)` |
| HistoryAnalyzer.PairCountLong | thales/history_analyzer.py:31-35 | holding lengths beyond the history's length add no trade |
| HistoryAnalyzer.ClosedFormAgrees | thales/history_analyzer.py:41 | the source's closed form is the pair count when the history is at least as long as the longest hold |
| HistoryAnalyzer.ClosedFormShort | thales/history_analyzer.py:41 | for a history shorter than the longest hold the closed form falls short of the real count |
| HistoryAnalyzer.AsWrittenFailsShortHistory | thales/history_analyzer.py:41-42 | as written, `analyze` fails its own assertion on every fully priced history shorter than the longest hold, the empty one included |
| HistoryAnalyzer.AsWrittenCounterexample | thales/history_analyzer.py:41-42 | one priced row with `max_hold_n = 2`: the source expects -1 rows and fails, the intended count is 0 and the result empty |
| HistoryAnalyzer.AsWrittenAgrees | thales/history_analyzer.py:41-42 | where the closed form holds, the source and the corrected model give the same result |
| FoxyLadySource.MeansSpec | thales/bots/foxylady.py:48-61 | a date has a session mean exactly when it has a bar in hour 6 or 7, and the mean is halfway between that session's highest high and lowest low |
| FoxyLadySource.Stamp | thales/bots/foxylady.py:42 | stamping keeps every bar, in order |
| FoxyLadySource.StampSpec | thales/bots/foxylady.py:42 | every row is stamped with its own minute string |
| FoxyLadySource.BarsOfStamp | thales/bots/foxylady.py:42 | stamping loses no bar |
| FoxyLadySource.Matching | thales/bots/foxylady.py:68 | the rows selected are exactly the loaded rows stamped with the requested minute |
| FoxyLadySource.QueryOf | thales/bots/foxylady.py:64-73 | the year looked up is the year of the requested datetime's date |
| FoxyLadySource.TestDataSource.constructor | thales/bots/foxylady.py:31-34 | a new source has year 0, no rows and no means |
| FoxyLadySource.TestDataSource.LoadYearData | thales/bots/foxylady.py:39-43 | loading replaces the rows by the year's stamped file and sets the year; a missing file is a FileNotFoundError that changes nothing |
| FoxyLadySource.TestDataSource.Calculate67Av | thales/bots/foxylady.py:45-61 | the means are recomputed from the requested year, which is loaded first when it is not the current one |
| FoxyLadySource.TestDataSource.GetMinuteData | thales/bots/foxylady.py:63-83 | the call's result and new state are those `get_minute_data` defines: year switch, minute lookup, cached or recomputed mean |
| FoxyLadySource.TestDataSource.Call | thales/bots/foxylady.py:36-37 | calling the source is `get_minute_data` |
| FoxyLadySource.MinuteLoadsYear | thales/bots/foxylady.py:64-66 | a call fails with FileNotFoundError, changing nothing, exactly when a new year is asked for whose file is missing; otherwise that year is loaded afterwards |
| FoxyLadySource.MinuteRowCount | thales/bots/foxylady.py:68-83 | once the year is loaded, no row for the minute gives None and more than one an IndexError |
| FoxyLadySource.MinuteRecordSpec | thales/bots/foxylady.py:69-79 | a record is the single row of the minute, keeps only the timestamp and prices, is stamped with the minute, and carries the cached mean of its date |
| FoxyLadySource.MinuteCaching | thales/bots/foxylady.py:65-76 | the year's file is read only when the year changes, and a date already cached changes nothing |
| FoxyLadySource.MinuteRecomputes | thales/bots/foxylady.py:74-78 | a date missing from the cache recomputes it from the loaded year, and the call is a KeyError exactly when the year has no session bar on that date |
| FoxyLadySource.MinuteStates | thales/bots/foxylady.py:63-83 | a call leaves the state unchanged or the requested year loaded, with or without the means recomputed from it |
| FoxyLadySource.EnsureYearConsistent | thales/bots/foxylady.py:46-47 | switching years keeps the rows and means those of a file |
| FoxyLadySource.MeansOfFile | thales/bots/foxylady.py:48-61 | the means computed from loaded rows are the means of a file |
| FoxyLadySource.MinuteConsistent | thales/bots/foxylady.py:63-83 | every call keeps the rows and means those of a file |
| FoxyLadySource.RecordMean | thales/bots/foxylady.py:63-79 | when each file holds only its own year, every record carries the session mean of its own date, from its own year's bars, cached or recomputed |
| BuildScripts.Slice | thales/bots/FXyLady/test/build_script.py:63-64 | a Python slice is never longer than the string |
| BuildScripts.CsvYears | thales/bots/FXyLady/test/build_script.py:64 | reading the toy files' years can only fail with ValueError |
| BuildScripts.ParsedYears | thales/bots/FXyLady/test/build_script.py:63 | reading the written files' years can only fail with ValueError |
| BuildScripts.YearsToBuild | thales/bots/FXyLady/test/build_script.py:63-66 | choosing the years can only fail with ValueError |
| BuildScripts.YearsToBuildSpec | thales/bots/FXyLady/test/build_script.py:63-66 | a year is built exactly when some toy file is of that year and, without `REBUILD`, no JSON file of that year exists; a name whose year does not parse stops the script |
| BuildScripts.ToyNameYear | thales/bots/FXyLady/test/build_script.py:43 | the file `make_67_json` opens for a four-digit year is read back by the listing as that year |
| BuildScripts.SessionDatesSpec | thales/bots/FXyLady/test/build_script.py:46-51 | a date has a row exactly when it has a bar in hour 6 or 7 |
| BuildScripts.IndexSpec | thales/bots/FXyLady/test/build_script.py:49-51 | the grouped table's index is sorted, without duplicates, and holds exactly the session dates |
| BuildScripts.DayEntriesFrom | thales/bots/FXyLady/test/build_script.py:55-59 | one file is written per date, in order |
| BuildScripts.DayEntriesFromSpec | thales/bots/FXyLady/test/build_script.py:55-59 | the files written are exactly the entries of the dates listed |
| BuildScripts.DayEntriesSpec | thales/bots/FXyLady/test/build_script.py:40-59 | one file is written per date with 6-7am bars, and no other |
| BuildScripts.DayRecordSpec | thales/bots/FoXyLady/test/build_script.py:39-50 | a date's record holds the highest high and the lowest low of its 6-7am bars and their mean, and carries its date string in the FoXyLady script only |
| BuildScripts.MinuteEntries | thales/bots/FXyLady/test/build_script.py:85-90 | one minute file is written per row |
| BuildScripts.WriteAllKeeps | thales/bots/FXyLady/test/build_script.py:58-59 | writing files never removes one |
| BuildScripts.WriteAllHas | thales/bots/FXyLady/test/build_script.py:58-59 | every file written exists afterwards |
| BuildScripts.WriteAllSound | thales/bots/FXyLady/test/build_script.py:58-59 | every file afterwards is untouched or holds one of the written contents under its own name |
| BuildScripts.WriteAllLast | thales/bots/FXyLady/test/build_script.py:85-90 | a name written several times holds its last content |
| BuildScripts.YearStep | thales/bots/FXyLady/test/build_script.py:67-68 | building one more year keeps every file coming from an old file or a built year, and covers the new year |
| BuildScripts.DatesListUnique | thales/bots/FXyLady/test/build_script.py:74 | the sorted list of stems is unique |
| BuildScripts.DayListed | thales/bots/FXyLady/test/build_script.py:74 | every date with a 6-7am file is listed in `dates.csv` under its date string |
| BuildScripts.SortedStems | thales/bots/FXyLady/test/build_script.py:74 | the dates are the stems of the JSON files, sorted and without duplicates |
| BuildScripts.ParsedYear | thales/bots/FXyLady/test/build_script.py:63-66 | a JSON file named after a year makes the FXyLady script skip that year |
| BuildScripts.StemYearOfDate | thales/bots/FXyLady/test/build_script.py:56 | the name of a date's or a minute's file starts with its year |
| BuildScripts.DayYearSkipped | thales/bots/FXyLady/test/build_script.py:55-66 | once a year with a 6-7am bar is built, the FXyLady script does not build it again |
| BuildScripts.MinuteYearSkipped | thales/bots/FXyLady/test/build_script.py:85-97 | once a year's minute files exist, the FXyLady script does not build them again |
| BuildScripts.MinuteFileLastRow | thales/bots/FXyLady/test/build_script.py:85-90 | of several rows stamped with the same minute, the minute's file holds the prices of the last |
| BuildScripts.TestData.constructor | thales/bots/FXyLady/test/build_script.py:20-32 | the build state holds the toy files, the directories and the files already written |
| BuildScripts.TestData.MakeDirs | thales/bots/FXyLady/test/build_script.py:24-30 | `test` and its two sub-directories exist afterwards, and no other directory is made |
| BuildScripts.TestData.Make67Json | thales/bots/FXyLady/test/build_script.py:40-59 | a missing toy file raises FileNotFoundError before anything is written; otherwise one file per session date is written, in date order |
| BuildScripts.TestData.WriteDays | thales/bots/FXyLady/test/build_script.py:55-59 | the loop over the session dates leaves the directory as the old one with `<date>.json` written for each date in order, so a later write of the same name wins; no other file changes |
| BuildScripts.TestData.Make67Years | thales/bots/FXyLady/test/build_script.py:67-68 | the loop succeeds exactly when every year's toy file exists; every file comes from an old file or a built year, and on success every year is covered |
| BuildScripts.TestData.Build67 | thales/bots/FXyLady/test/build_script.py:63-68 | a year that does not parse stops the block with ValueError; otherwise the chosen years are built |
| BuildScripts.TestData.WriteDatesCsv | thales/bots/FXyLady/test/build_script.py:72-76 | `dates.csv` is written, listing the 6-7am files' dates, exactly when `REBUILD` is set or the file is missing |
| BuildScripts.TestData.MakeMinuteJson | thales/bots/FXyLady/test/build_script.py:81-91 | a missing toy file raises FileNotFoundError; otherwise one file per row is written, named by its minute |
| BuildScripts.TestData.MakeMinuteYears | thales/bots/FXyLady/test/build_script.py:98-99 | the loop succeeds exactly when every year's toy file exists, and every file comes from an old file or a built year |
| BuildScripts.TestData.BuildMinute | thales/bots/FXyLady/test/build_script.py:94-99 | the minute block builds the years not yet in the minute directory, or stops with ValueError |
| Build.Mkdir | thales/build.py:12 | making a directory never removes anything |
| Build.Touch | thales/build.py:21 | touching a file never removes anything |
| Build.Ensure | thales/build.py:11-12 | making a missing directory never removes anything |
| Build.Create | thales/build.py:7-30 | the walk never removes anything from the file system |
| Build.CreateEntries | thales/build.py:9-14 | the dict loop never removes anything |
| Build.EntryStep | thales/build.py:10-14 | one dict item never removes anything |
| Build.CreateItems | thales/build.py:29-30 | the list loop never removes anything |
| Build.CreateEntriesStep | thales/build.py:9-14 | each dict item makes its directory if missing, then walks its value there, unless an earlier item raised |
| Build.CreateItemsStep | thales/build.py:29-30 | each list item is walked under the same directory, unless an earlier item raised |
| Build.CreateEntriesStops | thales/build.py:9-14 | the dict loop stops at the first exception |
| Build.CreateItemsStops | thales/build.py:29-30 | the list loop stops at the first exception |
| Build.BuiltGrows | thales/build.py:7-30 | what is built stays built as the file system grows |
| Build.CreateBuilds | thales/build.py:7-30 | a walk that raises nothing leaves its structure built: every key and plain name a directory, every YAML name a file |
| Build.CreateOnBuilt | thales/build.py:7-30 | walking a built structure changes nothing and raises nothing |
| Build.CreateIdempotent | thales/build.py:7-30 | a second run of a walk that raised nothing changes nothing and raises nothing |
| Build.CreateFixpoint | thales/build.py:7-30 | a walk leaves the file system as it is, raising nothing, exactly when the structure is already built there |
| Build.CreateWithin | thales/build.py:7-30 | a walk makes only the directories and files its structure names, each of its own kind |
| Build.FileSystem.constructor | thales/build.py:57 | the file system starts as given |
| Build.FileSystem.MakeDir | thales/build.py:12 | `os.mkdir` on an existing path is FileExistsError, under a file NotADirectoryError, under a missing parent FileNotFoundError, and otherwise adds the directory |
| Build.FileSystem.TouchFile | thales/build.py:21 | touching leaves an existing path as it is and otherwise adds the file under a directory parent |
| Build.FileSystem.CreateStructure | thales/build.py:7-30 | the recursive method changes the file system exactly as the walk defines |
| Build.FileSystem.BuildIo | thales/build.py:33-58 | building the IO tree under the home directory is the walk of `io_structure` |

## Left out

- Network access is not modelled. This covers every `scrape()` loop with its retry-forever `time.sleep`, the `requests.get` calls, `sp500`, `add_sp500` and `add_s_and_p_500_to_symbols`. The JSON body a request would return is a parameter.
- Reading and writing files is not modelled; files are maps held in class fields. This covers YAML, CSV and JSON encoding, `print` and `sys.stdout` output, and `_convert_metadata`'s JSON conversion.
- Stored credentials are a parameter, not a credentials file.
- `available_sources` is the stored sources list.
- `get_path`, `new_symbol_list` and `new_fx_list` only build a path or touch an empty file, so they are not modelled.
- `now_str`, `datetime.now`, `uuid4`, `strptime` and the dateutil fallback are parameters.
  - As a consequence `hold_duration`, whose open-position branch reads the clock, is not modelled.
  - `get_file_modified_date` and `empty_temp_dir` (file-system queries), `date_col_from_datetime_col` and `is_iterable` are left out; the derived date column is used directly as the date of a datetime.
- Upper- and lower-casing, whitespace and identifier characters are ASCII only. Python's Unicode tables are not modelled.
- Python's `int()` and `float()` are modelled on plain decimal text only: one optional `+` or `-` sign, and no surrounding whitespace, underscores, exponents, `inf` or `nan`.
  - Floating point is `real`: rounding is not modelled, and neither is `.round(5)` in the price adjustment.
  - NaN cells are `None`.
  - A zero `raw_close` gives a missing value instead of an infinite ratio.
- Datetimes outside years 1 to 9999 are not considered by the format lemmas.
- pandas sorts that are not stable are modelled as a stable sort. Prioritising symbols therefore keeps the listing order for files with equal modification times. Rows with equal keys in `dedupe_by_request_time` are treated the same way.
- The volume of a row in `dedupe_by_request_time` is never missing in the model. A NaN volume, and where pandas sorts it, is not modelled.
- `load_by_symbol`'s `read_csv` pipeline is not composed with file selection; the file choice is modelled, not the read.
- The toy datasets of `load_toy_dataset` are a map parameter from file name to bars.
  - Columns other than the datetime and the four prices are not modelled.
- Baseline.Bar: minute bars have no missing price. The `dropna` of rows with a missing price or other cell is therefore not modelled: in the back-tester (thales/bots/FoXyLady/backtester.py:37) it drops only the rows whose date has no 6-7am baseline; `calculate_67_av` (thales/bots/foxylady.py:59) and both build scripts (thales/bots/FoXyLady/test/build_script.py:43, thales/bots/FXyLady/test/build_script.py:51) drop nothing.
- `io_path` and `package_path` are not defined in `thales/config/paths.py`, which only holds directory constants. They are imported by thales/positions.py, thales/data/csv_loader.py, thales/data/test_dataset.py, thales/scrapers/alphavantage/stocks.py, both bots' `test/__init__.py` and the FoXyLady build script, among others. The model takes the directories they would name as maps held in fields, and `Positions.Created` stands for `make_subdirs=True`.
- `DATE_FORMAT` is imported by both build scripts and both bots' `test/__init__.py`, but `thales/config/utils.py` defines only the dictionary `DATE_FORMATS`. The model uses the day format of `FormatDate` for it.
- The top-level sequencing of the build scripts is not one method. The four blocks (directory setup, 6-7am files, `dates.csv` and minute files) are separate methods, each with its own contract.
- `create_structure`'s paths are lists of components. `os.path.join` with an absolute component or a separator inside a name is not modelled. Nor is an empty name: `os.path.join(base, "")` is `base` itself, so such a name adds no path in the source, while the model adds an empty component.
  - `Build.FileSystem.BuildIo` states the walk of `io_structure` but not the concrete tree it produces.
- Keyword arguments given to the query builders are already formatted strings; Python's `f"{v}"` formatting of other values is not modelled.
- thales/scrapers/endpoints.py is not part of this model.
- The FX `prioritize` and `scraped` refer to an undefined name `AlphaVantage` and would raise `NameError`. The model gives them the ordering rule of the stock scraper, taking (symbol, modification time) records as input.
- The handlers import `ManagePositions` and `Position`, which thales/positions.py does not define. Their position store is modelled as two maps, open and closed. The metadata the FoXyLady handler attaches to each position (the signals, `mean_67`, high, low, close and the test name, test/__init__.py:149-152) is not kept.
- `FoXyLadyTester` passes start and end dates to a `TestDataset` constructor that takes only a name. The model's constructor takes the bars directly.
- `TestDataset._build_stats` and `open_year_csv` only read and summarise CSV files, so they are not modelled.
- Indicators, the ML dataset code, plotting, logging and notifications are not modelled.
  - This includes `construct_dataframe`'s plotting use, `plot_trades` and `plot_all_results`.
- `delete_all_tests` repeats `del_test_dir` until none is left. That loop runs over the file system and is not modelled; `del_test_dir` itself is.
- `__repr__` and `__str__` are not modelled.
- TestGenerator.FirstAtOrAfter: among bars with the same time it takes the first by file position. `sort_values` uses an unstable quicksort, so the source leaves that choice open.
- Backtester.RunOutcomes: the run is one recursive function, with nothing for Python's recursion limit. A run of more rounds than that limit raises RecursionError in the source but not in the model.
- Backtester.Tester.constructor: the tester's `PositionManager` is replaced by a list of trades. Its directory creation is not modelled.
- Backtester.Tester.Round: each trade is appended to the tester's trade list. The source instead opens and closes it through a `PositionManager`, writing position files, and that composition with Positions is not modelled.
- Backtester.Tester.Call: the same two gaps apply. Trades go to the list, not to position files, and the recursion limit is not modelled.

## Findings

| source | as written | input that shows it | evidently intended | confidence | as-written member | corrected member |
|---|---|---|---|---|---|---|
| thales/config/fieldmaps.py:18 | `get_fieldmap` opens a file literally named `{src}.yaml`, without substituting the source name, while `set_fieldmap` writes `<source>.yaml` | source `alphavantage`, `set_fieldmap` with `close` mapped to `4. close`, then `get_fieldmap`: the update is not read back | read the file `set_fieldmap` writes, so a source reads back its own stored fieldmap | not executed | Fieldmaps.AsWrittenLosesUpdate | Fieldmaps.SetThenGet |
| thales/history_analyzer.py:41-42 | `expected_n = n_rows * max_hold_n - max_hold_n * (max_hold_n + 1) / 2` is the number of pairs only when the history has at least `max_hold_n` rows | one fully priced row and `max_hold_n = 2`: it expects -1 rows, finds 0 and the assertion fails | count the pairs as the sum over `i` of the rows that have a row `i` periods after them | not executed | HistoryAnalyzer.AsWrittenCounterexample | HistoryAnalyzer.AnalyzeSucceeds |
