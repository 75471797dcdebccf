# GLORYS download scripts — a Dafny model

The three `get_glorys` scripts download GLORYS ocean fields from the
Copernicus Marine motu server, one NetCDF file per time window:

- `get_glorys_forecast_biogeochem_monthly.py` downloads the biogeochemistry forecast in monthly windows.
- `get_glorys_forecast_physics_daily.py` downloads the physics forecast in daily windows. It picks its product from the first requested variable.
- `get_glorys_reanalysis_daily.py` downloads the physics reanalysis in daily windows. Its depth range is fixed.

Each script does the same five things:

1. It builds a list of window timestamps from a start date. Monthly lists step with `relativedelta(months=x)`; daily lists step with `timedelta(hours=24*x)`.
2. It fills one request dictionary from the user inputs.
3. It opens `log.txt` and writes a header.
4. For each timestamp it rewrites only `out_name`, `date_min` and `date_max`. It removes an existing output file of that name, then calls `get_extraction` when the file is absent.
5. `get_extraction` tries the download at most ten times and stops at the first call that does not raise. It returns `'success'` or `'fail'`, and the script logs one line for the window.

The model is one Dafny project. Its modules follow those steps:

- `Calendar`: the proleptic Gregorian calendar of Python's `datetime`. It gives Python's day ordinal, `timedelta` day steps, and `relativedelta` month steps, which clip the day to the target month's length. It also has the year range 1 to 9999.
- `Format`: the `strftime` fields the scripts use (`%Y`, `%m`, `%d` and fixed time text) and `str` of a day count. Each formatter has a parser that reads its text back. The round trips prove that distinct dates never give the same file name or window bound.
- `Retry`: `get_extraction` as a `while` loop over an oracle `client(request, k)`. The oracle is what the k-th call to the motu client does: it completes, times out, or raises another error.
- `Options`: the request dictionary as a `Dict` class updated in place. It also has the `MotuOptions` wrapper, whose attribute reads and writes go to that dictionary.
- `Products`: what differs between the scripts. That is the templates and their constants, the physics product chosen by the first variable, the timestamp lists, and each window's file name, bounds and log label.
- `Orchestrator`: the per-window loop (`ProcessWindow`, `ProcessWindows`) and the whole run (`Run`). Each is proved equal to a specification function, `LogLines`, `FilesAfter` or `ExpectedRun`. Lemmas about those functions follow.

The scripts test for an existing file with `os.path.isfile(out_fn)`, which looks in the current working directory. The download is written to `out_dir + out_fn`. The model assumes the output directory is not the working directory. It keeps the working directory as a set of names: the loop removes names from it and never adds any.

## Model

| member | source | states |
|---|---|---|
| `Calendar.DaysInMonth` | get_glorys_forecast_biogeochem_monthly.py:210 | `calendar.monthrange(y, m)[1]` is between 28 and 31 |
| `Calendar.OrdinalOrder` | get_glorys_forecast_physics_daily.py:164 | Python's day ordinal orders dates exactly as the calendar does (both directions) |
| `Calendar.OrdinalInjective` | get_glorys_forecast_physics_daily.py:164 | two valid dates with the same day ordinal are the same date |
| `Calendar.NextDay` | get_glorys_forecast_physics_daily.py:164 | the day after a valid date is a valid date one ordinal later, across month and year ends |
| `Calendar.AddDays` | get_glorys_reanalysis_daily.py:161 | adding n days gives the date whose ordinal is n more |
| `Calendar.AddDaysTime` | get_glorys_reanalysis_daily.py:161 | `dt + timedelta(hours=24*n)` is exactly n·86400 seconds later, at the same time of day |
| `Calendar.AddMonths` | get_glorys_forecast_biogeochem_monthly.py:171 | `dt + relativedelta(months=n)` is n calendar months later; its day is clipped to the month's length; its time is unchanged |
| `Calendar.MonthOrderIsTimeOrder` | get_glorys_forecast_biogeochem_monthly.py:171 | a timestamp in a later month is later in time, whatever the days and times |
| `Calendar.MonthStartOrder` | get_glorys_forecast_biogeochem_monthly.py:171 | a later month starts no earlier than the end of an earlier one |
| `Format.ParseStamp` | get_glorys_reanalysis_daily.py:200-201 | a parsed `YYYY-MM-DD hh:mm:ss` is a date Python can represent, at a valid time |
| `Format.StampRoundTrip` | get_glorys_reanalysis_daily.py:200-201 | a formatted timestamp reads back as the same timestamp |
| `Format.StampTextInjective` | get_glorys_reanalysis_daily.py:200-201 | two timestamps have the same text exactly when they are equal |
| `Format.DateLabelRoundTrip` | get_glorys_reanalysis_daily.py:199 | a `%Y_%m_%d` label reads back as its date, wherever it sits inside a name |
| `Format.MonthLabelRoundTrip` | get_glorys_forecast_biogeochem_monthly.py:208 | a `%Y_%m` label reads back as its year and month, wherever it sits inside a name |
| `Format.DecimalTwoDigits` | get_glorys_forecast_biogeochem_monthly.py:210-211 | for a month length, `str` gives the same text as two-digit `%d` |
| `Retry.CallsFrom` | get_glorys_forecast_biogeochem_monthly.py:146-159 | from attempt `counter` on, the loop makes at least one call and never goes past attempt 10 |
| `Retry.CallCount` | get_glorys_forecast_biogeochem_monthly.py:146 | one extraction makes between 1 and 10 calls |
| `Retry.GetExtraction` | get_glorys_forecast_biogeochem_monthly.py:142-164 | the loop returns success exactly when one of the first ten calls completes, after making `CallCount` calls |
| `Retry.FirstCompletionStops` | get_glorys_forecast_physics_daily.py:139-152 | when call k is the first to complete, exactly k calls are made and the result is success |
| `Retry.AllAttemptsFail` | get_glorys_forecast_physics_daily.py:139-156 | ten failed calls give exactly ten calls and `'fail'` |
| `Retry.ResultIsLastCall` | get_glorys_forecast_physics_daily.py:139-157 | the result is success exactly when the last call made completed; no call before the last completed |
| `Retry.ErrorKindIrrelevant` | get_glorys_forecast_physics_daily.py:142-149 | a socket timeout and any other error are handled alike: the same completing attempts give the same calls and result |
| `Options.Dict.Put` | get_glorys_reanalysis_daily.py:203-205 | `d[k] = v` maps k to v and leaves every other key unchanged |
| `Options.MotuOptions.constructor` | get_glorys_reanalysis_daily.py:118-119 | the wrapper holds the caller's dictionary itself, not a copy |
| `Options.MotuOptions.GetAttr` | get_glorys_reanalysis_daily.py:124-128 | `__getattr__` returns `None` exactly when the key is missing from the wrapped dictionary, and the stored value otherwise |
| `Options.MotuOptions.SetAttr` | get_glorys_reanalysis_daily.py:121-122 | an attribute write stores into the wrapped dictionary; it reads back and leaves every other attribute unchanged |
| `Options.WriteThrough` | get_glorys_reanalysis_daily.py:117-125 | a write through a fresh wrapper changes the dictionary its owner holds |
| `Options.WithWindow` | get_glorys_reanalysis_daily.py:203-205 | the three window keys are set to the window's values; all other keys and values are kept; no other key is added |
| `Options.WindowOverwritesWindow` | get_glorys_reanalysis_daily.py:197-205 | a window's request does not depend on the previous window's values |
| `Products.ReanalysisFixedFields` | get_glorys_reanalysis_daily.py:168-186 | the reanalysis depth range and product do not depend on the user inputs, and the depth range is not empty |
| `Products.TagVocabulary` | get_glorys_forecast_physics_daily.py:191-198 | exactly `so`, `thetao`, `uo`, `vo` and `zos` select a product; `uo` and `vo` share one; the others each have their own |
| `Products.TagProductInjective` | get_glorys_forecast_physics_daily.py:191-218 | distinct tags give distinct product ids and distinct file tags |
| `Products.SelectProduct` | get_glorys_forecast_physics_daily.py:191-198 | the `if`/`elif` chain sets `product_id` to the tag's product, and changes nothing when no branch matches |
| `Products.DailyDtList` | get_glorys_forecast_physics_daily.py:161-164 | n timestamps, the i-th exactly i days after the start at the same time of day; an error exactly when the last date is after year 9999 |
| `Products.DailyInRange` | get_glorys_reanalysis_daily.py:158-161 | if the last date of a daily list is representable, so is every earlier one |
| `Products.MonthlyDtList` | get_glorys_forecast_biogeochem_monthly.py:168-171 | n timestamps, the i-th i months after the start, with the start's day clipped to that month and the same time; an error exactly when the last year is after 9999 |
| `Products.MonthlyIncreasing` | get_glorys_forecast_biogeochem_monthly.py:168-171 | monthly timestamps are strictly increasing in time |
| `Products.DayWindowBounds` | get_glorys_reanalysis_daily.py:200-201 | a daily window runs from the day's 00:00:00 to its 23:59:59, one second short of a day |
| `Products.MonthWindowBounds` | get_glorys_forecast_biogeochem_monthly.py:209-211 | a monthly window runs from the 1st at 00:00:00 to the month's last day at 23:59:59, one second short of the month's length |
| `Products.BiogeochemNameInjective` | get_glorys_forecast_biogeochem_monthly.py:208 | two monthly file names are equal exactly when year and month are equal |
| `Products.PhysicsNameInjective` | get_glorys_forecast_physics_daily.py:211-218 | two physics file names are equal exactly when tag and date are equal |
| `Products.ReanalysisNameInjective` | get_glorys_reanalysis_daily.py:199 | two reanalysis file names are equal exactly when the dates are equal |
| `Products.MonthlyExample` | get_glorys_forecast_biogeochem_monthly.py:207-211 | from 2022-01-01, two months give January (to the 31st) and February (to the 28th) windows |
| `Products.DailyExample` | get_glorys_reanalysis_daily.py:197-201 | from 2020-02-28, two days give 2020-02-29 as the second window, over the whole day |
| `Orchestrator.GetExtractionForDate` | get_glorys_reanalysis_daily.py:132-154 | the reanalysis `get_extraction(dt, …)` ignores its timestamp and behaves as the retry loop |
| `Orchestrator.ProcessWindow` | get_glorys_forecast_physics_daily.py:220-233 | the loop body sets the three window keys, removes an existing file only when forcing, and logs one line exactly when the file is then absent |
| `Orchestrator.ProcessWindows` | get_glorys_forecast_physics_daily.py:209-233 | the loop writes `LogLines` and leaves `FilesAfter`; afterwards the dictionary holds the last window's request |
| `Orchestrator.Run` | get_glorys_forecast_physics_daily.py:161-233 | a whole script run gives `ExpectedRun`: the timestamps, the template, the product selection, the header and the loop |
| `Orchestrator.ForcedLogLines` | get_glorys_forecast_biogeochem_monthly.py:206-222 | when forcing, the log has one line per window, in order, each with that window's label and extraction result |
| `Orchestrator.KeptFilesSkipped` | get_glorys_forecast_biogeochem_monthly.py:217-222 | without forcing, windows whose files exist write no log line and leave the directory as it was |
| `Orchestrator.AbsentFilesIgnoreForce` | get_glorys_forecast_biogeochem_monthly.py:217-222 | when no output file exists yet, forcing or not gives the same log and the same directory |
| `Orchestrator.DtListDistinct` | get_glorys_forecast_biogeochem_monthly.py:171 | two entries of one timestamp list fall on different days (daily lists) or in different months (the monthly list) |
| `Orchestrator.WindowNamesDistinct` | get_glorys_forecast_physics_daily.py:209-218 | no two windows of one run share an output file name |
| `Orchestrator.RunLog` | get_glorys_forecast_physics_daily.py:161-233 | the log is absent exactly when the run stops before opening it; it starts with the header; the run ends cleanly exactly when a naming branch exists or there is nothing to do; forced, the log has one line per timestamp after the header |
| `Orchestrator.RequestKeepsTemplate` | get_glorys_forecast_physics_daily.py:171-225 | each window's request has exactly the template's keys; it keeps every value but the three window keys and the selected product |
| `Orchestrator.DtListInRange` | get_glorys_reanalysis_daily.py:158-161 | every timestamp of a built list is a date Python can represent |

## Left out

- The motu client and the network are an oracle `client(request, attempt)`. A download that completes is all the model knows of it, and the downloaded file is not modelled.
- The credential prompts (`input`, `getpass`) are left out. The user name and password are fields of the configuration.
- `time.time()`, the elapsed-time lines and every `print` are left out. They do not affect what is requested or logged.
- `ensure_dir`, opening and closing `log.txt` and the output directory path are left out. The log is the sequence of strings written to it, and it is `None` when the run stops before opening it.
- `datetime.fromisoformat(date_start)` is left out. The start is given as a valid timestamp.
- `float(...)` on the coordinates and depths is left out. Values are kept as reals.
- Dictionary key order and the motu client's reading of the request are left out. The request is a map.
- `%Y` is modelled as four digits padded with zeros. The C library prints years below 1000 without padding, so names of windows before year 1000 would differ.
- `Orchestrator.Run`: `force_overwrite` is a parameter, where the scripts fix it to `True`. Both values are covered.
- `Orchestrator.Run`: the errors Python raises are outcomes of the run:
  - a timestamp past year 9999, when the list is built;
  - an empty variable list in the physics forecast;
  - the unbound `out_fn` when the first variable matches no physics branch.
  They carry no traceback, and the downloads made before the error are not part of the outcome.
- `Retry.GetExtraction`: the number of client calls it returns is a model device. The scripts only print the counter.
- `Orchestrator.FilesAfter`: the output directory is assumed to differ from the working directory. When a script runs inside its output directory, or that directory is `'./'`, every completed download and `log.txt` add names to the working directory. `RunOutcome.files` does not show those names, and a later window's `os.path.isfile` would see them.
- `Orchestrator.RequestKeepsTemplate`: the client is assumed not to set attributes through the `MotuOptions` wrapper it receives. The oracle `client(request, attempt)` only reads the request. A client that wrote through `__setattr__` would change the shared dictionary for later attempts and windows. `RequestKeepsTemplate`, the final-dictionary clause of `Orchestrator.ProcessWindows`, and `Retry` sending the same request on all ten attempts hold only under that assumption.
- `Options.MotuOptions.GetAttr` models `__getattr__` alone. Python calls it only after ordinary attribute lookup fails. So the instance attribute `attrs`, set at `get_glorys_reanalysis_daily.py:119`, gives the wrapped dictionary itself, and class attributes such as `__class__` never reach the dictionary. `GetAttr` looks every name up in the dictionary, including those.
- The template dictionary's full key set is not stated as a lemma. The 17-key map display is too costly for the prover. `Orchestrator.RequestKeepsTemplate` states instead that the keys never change during a run.
