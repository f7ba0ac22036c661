# Game-day notifications: a Dafny model of the formatter and handler

The program is a scheduled relay. It fetches one day's NBA games from a
third-party HTTP API. It renders each game as a text block whose layout
depends on the game's status. It joins the blocks into one message and
publishes that message to a notification topic. This project models the pure
part of that pipeline, in `src/gd_notifications.py`, and proves what it
produces:

- `games.dfy` (module `Games`) models `format_game_data`. A game record is a
  `Game` whose keys are three-state `Field`s: `Absent` (the key is missing),
  `Null` (the key holds JSON `null`) or `Value(text)` (the value as an f-string
  renders it). `Get` is `dict.get` with a default. The default replaces only a
  missing key; `null` prints as `None`. The `Quarters` key is missing, `null`,
  or a list of `Quarter` records. The block is a list of lines, each ending
  with a newline (`BlockLines`, `FormatGame`). The exact-text lemmas check it
  against the f-strings of each branch.
- `handler.dfy` (module `Handler`) models `lambda_handler`. It covers the
  request URL, the message assembly (`Assemble`: the blocks joined with
  `"\n---\n"`, or `"No games available for today."` for an empty list) and the
  outcome. The fetch result and the publish result are inputs.
- `text.dfy` (module `Text`) holds `Join` (Python's `str.join`) and `Unlines`
  (lines each followed by `"\n"`), with their lemmas.

Errors are values. `format_game_data` raises in two cases: when `Quarters` is
`null` (iterating `None`) and when a quarter has no `Number` key (the hard
index `q['Number']`). It raises in every status branch, because the quarter
list is built before the status is examined. The handler does not catch this
exception, because the join that builds the message sits outside both `try`
blocks. The handler therefore has a fourth outcome, `Raised`, besides the
three responses (fetch failure, publish failure, success). Callers who read
only the three `return` statements would miss this fourth outcome. When the
exception escapes, nothing is published, and the exception is that of the
first game whose formatting raises.

## Model

| member | source | states |
|---|---|---|
| `Games.GetDefaultsOnlyAbsent` | src/gd_notifications.py:11-16 | a field shows its default exactly when the key is missing (or its value reads the same as the default); a present JSON null shows as `None` |
| `Games.QuarterEntries` | src/gd_notifications.py:19 | the comprehension succeeds exactly when every quarter has a `Number`; it then gives one `Q{n}: {away}-{home}` entry per quarter, in input order, and otherwise raises the missing-number error |
| `Games.QuarterScores` | src/gd_notifications.py:19 | the quarter list raises exactly when `Quarters` is null or a quarter lacks `Number`, with the matching error; it is the empty string exactly when the key is missing or the list is empty |
| `Games.QuarterScoresAppend` | src/gd_notifications.py:19 | one more quarter appends `", "` and its entry (or is the whole list when it is the first), so entries keep input order |
| `Games.FormatGame` | src/gd_notifications.py:9-32 | the formatter raises exactly when the quarters are malformed, whatever the status; otherwise every block begins with `Game Status: {status}\n{away} vs {home}\n` and ends with a newline |
| `Games.FinalBlock` | src/gd_notifications.py:9-24 | a `Final` game renders exactly as status, matchup, `Final Score`, `Start Time`, `Channel` and `Quarter Scores` lines, with `N/A` for missing scores and `Unknown` for missing teams, start time and channel |
| `Games.InProgressBlock` | src/gd_notifications.py:25-28 | an `InProgress` game renders exactly as status, matchup, `Current Score`, `Last Play` (`N/A` when missing) and `Channel` lines |
| `Games.InProgressDetails` | src/gd_notifications.py:25-28 | the lines an `InProgress` block adds after its header are current score, last play and channel; none of them is a start-time or quarter-scores line |
| `Games.ScheduledBlock` | src/gd_notifications.py:29-31 | a `Scheduled` game renders exactly as status, matchup, `Start Time` and `Channel` lines |
| `Games.ScheduledDetails` | src/gd_notifications.py:29-31 | the lines a `Scheduled` block adds after its header are start time and channel; neither is a score line |
| `Games.OtherStatusBlock` | src/gd_notifications.py:22-32 | any status other than the three named ones renders exactly as status, matchup and `Details are unavailable at the moment.` |
| `Games.MissingStatusBlock` | src/gd_notifications.py:11-32 | a missing status shows as `Unknown` and a null one as `None`; both take the fallback branch |
| `Handler.ApiUrlDeterminesRequest` | src/gd_notifications.py:46 | for a date without `?` (every `YYYY-MM-DD` date), the request URL determines both the date and the API key embedded in it |
| `Handler.FormatAll` | src/gd_notifications.py:57 | formatting the games succeeds exactly when every game formats; it then gives each game's block in order, and otherwise raises an error |
| `Handler.FormatAllFirstError` | src/gd_notifications.py:57 | when game `k` is the first whose formatting raises, formatting the list raises exactly that game's error |
| `Handler.Assemble` | src/gd_notifications.py:57 | an empty list gives `No games available for today.`; a non-empty list that formats gives text starting with a status line, so the two cases never give the same message; the assembly raises exactly when some game's formatting raises |
| `Handler.AssembleRaisesFirstError` | src/gd_notifications.py:57 | when the assembly raises, its exception is the one raised while formatting the games, which `Handler.FormatAllFirstError` pins to the first game that fails |
| `Handler.AssembleOne` | src/gd_notifications.py:57 | one game's message is its block unchanged |
| `Handler.AssembleTwo` | src/gd_notifications.py:57 | two games give `A + "\n---\n" + B` |
| `Handler.AssembleAppend` | src/gd_notifications.py:57 | one more game appends the separator and its block to the message |
| `Handler.LambdaHandler` | src/gd_notifications.py:35-69 | the request is the dated URL; a fetch failure answers `(500, "Error fetching data")` and publishes nothing; a formatting exception escapes (the one `FormatAll` raises, that is the first failing game's by `Handler.FormatAllFirstError`) and publishes nothing; otherwise the message is published once with subject `NBA Game Updates`, and the publish result picks `(200, "Data processed and sent to SNS")` or `(500, "Error publishing to SNS")` |
| `Handler.ScheduledGameScenario` | src/gd_notifications.py:29-69 | a day with one scheduled Lakers–Celtics game that is fetched and published answers 200 and publishes exactly that game's four-line block |

## Left out

- The HTTP GET (`urllib.request.urlopen`) and the JSON parse: only their
  success, with the parsed game list, or their failure is modelled (`Fetch`).
- A JSON body that is not an array of records (an object, `null`, a number)
  and a list element that is not a record: the model takes the fetched data
  to be a list of `Game` records.
- A `Quarters` value that is neither missing, `null` nor a list, and a quarter
  element that is not a record: the model does not cover these.
- The `boto3` client and its `publish` call: the model gives only the call the
  handler would make (message and subject) and takes its success or failure as
  an input. The topic identifier is not modelled.
- The `os.getenv` reads of the API key and topic: the key is a parameter,
  already rendered as text (an unset key would print as `None`).
- The current date from `datetime.now`, the fixed six-hour offset and
  `strftime`: the date is an opaque parameter of the request URL.
- `print` logging: it has no effect on the result.
- Python's `str()` of numbers and other JSON values inside f-strings: every
  present value is given already rendered as text (`Field.Value`).
