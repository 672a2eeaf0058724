# Mac recommendation tool and contact database — a Dafny model

The repository has two small Streamlit applications.

- **Mac recommendation tool.** `data_gen.py` writes a synthetic dataset of
  workplace profiles. Each profile has a role, three yes/no indicators, four
  categorical fields, and a label `recommend_mac` set by a weighted heuristic.
  `app.py` asks for a profile in a form. It checks the resulting one-row frame
  against the columns the fitted pipeline expects, predicts, and shows a
  message. It then shows the ten largest permutation importances, computed on
  a sample of at most 300 rows.
- **Contact database.** `Kontakt_db/app.py` keeps contacts in the SQLite table
  `contacts`. It supports add, search, edit and delete, and refuses a blank
  name on the add form.

This project models those cores and proves properties of them.

| file | module | what it models |
|---|---|---|
| `data_gen.dfy` | `DataGen` | the rows `make_row` builds from the seeded generator, the label rule, `generate(n)` |
| `mac_app.dfy` | `MacApp` | the input frame, the column check and reindex, the message, the importance sample and top-ten table |
| `contacts.dfy` | `Contacts` | the table as rows plus the AUTOINCREMENT counter, the four helpers, the add form's guard |
| `py_str.dfy` | `PyStr` | Python's `str.isspace` / `str.strip()` |
| `sql_like.dfy` | `SqlLike` | SQLite's `LIKE` without `ESCAPE` |
| `wrappers.dfy` | `Wrappers` | the `Option` type both app models share |

## How the model is set up

- **The random generator.** The seeded `random` module is a stream of draws
  `stream: nat -> Draw` together with a position, held in the class
  `DataGen.Rng`.
  - A draw is the 53-bit integer k behind `random.random() == k / 2^53`.
  - `random.random() < 0.1` becomes `k < Cut0p1`. `DataGen.CutsMatchDoubles`
    proves that `k / 2^53 < q` holds exactly when `k` is below the cut, for
    four fractions q written out in it. That these fractions are the binary
    doubles of the literals 0.1, 0.6, 0.3 and 0.12 is a fact about IEEE 754
    rounding that the proof does not cover.
  - `random.choice(xs)` takes `xs[k mod |xs|]`.
- **Two forms of `make_row` and `generate`.**
  - As functions of the stream: `DataGen.RowAt`, `DataGen.RowsAt`. The
    properties are proved about these.
  - As methods that take the `Rng` and draw step by step in the source's order and
    accumulate the score: `DataGen.MakeRow`, `DataGen.Generate`. Each is
    proved equal to its function.
- **The score.** It is counted in halves (`DoubledScore`), so that the 0.5
  weight and the 0.5 threshold are exact integers.
- **Categorical values.** Role, level and OS are datatypes, with their strings
  given by `RoleName`, `LevelName` and `OsName`.
- **The contacts table.** The class `Contacts.ContactTable` holds the rows in
  ascending id order and the AUTOINCREMENT counter `lastId`.
  - SQLite leaves the order of a `SELECT` without `ORDER BY` unspecified.
    Ascending rowid is the order its full-table scan produces. The model
    fixes that scan order, so the `Ascending` facts (`MatchingKeepsOrder`,
    the order ensures of `GetContacts`) describe the model, not a promise
    of the program.
  - `UpdateContact` and `DeleteContact` are methods that reassign the rows
    to `Updated` or `Deleted` of the old rows. `AddContact` is a method that
    appends one row and moves the counter. `GetContacts` is a function that
    returns `Matching` of the rows. The properties are lemmas about those
    row functions.

### Support and windows-only apps

- `data_gen.py:20` reads like a 30 % rate for Support. But when the first
  test fails, the `else` branch draws again against 0.12, so the rate is
  0.3 + 0.7 · 0.12 = 0.384, and such a row takes one more draw.
- The model follows the code: see `DataGen.WindowsFlag`,
  `DataGen.WindowsOnlyRule` and `DataGen.DrawsPerRow`.

## Model

| member | source | states |
|---|---|---|
| DataGen.CutsMatchDoubles | data_gen.py:18-20 | for every draw k and each of four fractions p written out in it, `k/2^53 < p` holds exactly when k is below the corresponding cut; that these fractions are the doubles of 0.1, 0.6, 0.3 and 0.12 lies outside the proof |
| DataGen.DomainListsAsWritten | data_gen.py:10-14 | each of the five domain lists holds every value of its type and its strings read back as the list is written; distinct categories have distinct strings |
| DataGen.ChoiceIndex | data_gen.py:17 | the index `random.choice` takes, the draw modulo the list length, is within the list |
| DataGen.Choice | data_gen.py:21-24 | `random.choice` returns a member of the list |
| DataGen.DoubledScore | data_gen.py:27-33 | the score, counted in halves, lies between -8 and 11 (-4 and 5.5 in the source's units) |
| DataGen.Labelled | data_gen.py:35 | setting the label changes no other field, gives 0 or 1, and gives 1 exactly when the doubled score exceeds 1 |
| DataGen.DesignFlag | data_gen.py:18 | the design flag is 0 or 1; it is 1 exactly for a Designer or a draw below 0.1; only a non-Designer consumes a draw |
| DataGen.OfficeFlag | data_gen.py:19 | the office flag is 0 or 1; it is 1 exactly for an office role or a draw below 0.6; only the other roles consume a draw |
| DataGen.WindowsFlag | data_gen.py:20 | the windows-only flag is 0 or 1; it is 1 exactly when a Support role's first draw is below 0.3 or its second below 0.12, or another role's one draw is below 0.12; it consumes one draw, or two exactly when the role is Support and its first draw is not below 0.3 |
| DataGen.DrawnAt | data_gen.py:16-24 | the fields `make_row` draws start with the role chosen from the first draw, carry label 0, and consume 7 or 8 draws |
| DataGen.RowAt | data_gen.py:16-47 | the row `make_row` returns has label 1 exactly when its doubled score exceeds 1, and consumes 7 or 8 draws |
| DataGen.RecommendMac | data_gen.py:27-35 | the label is 0 or 1, and is 1 exactly when the listed condition on design tools, windows-only apps, mac preference, mobility and budget holds; security never decides it |
| DataGen.Repeat | data_gen.py:50 | n calls of a row builder, each continuing where the last left the stream, yield n rows |
| DataGen.RepeatIsStepAfterPrefix | data_gen.py:50 | row i of n calls is the call made from where the first i calls left the stream |
| DataGen.RepeatSnoc | data_gen.py:50 | n + 1 calls are n calls followed by one more from where they left the stream |
| DataGen.RepeatDraws | data_gen.py:50 | calls that each consume 7 or 8 draws consume between 7n and 8n over n calls |
| DataGen.RowsAt | data_gen.py:49-50 | `generate(n)` yields n rows and consumes between 7n and 8n draws |
| DataGen.RowAtFacts | data_gen.py:16-47 | one `make_row` yields 0/1 indicators and the label the rule gives its fields |
| DataGen.RowsAtIsRowAfterPrefix | data_gen.py:50 | row i of `generate(n)` is the row `make_row` builds once the first i rows have been drawn |
| DataGen.GeneratedRowsWellFormed | data_gen.py:16-50 | every row of `generate(n)` has 0/1 indicators and the label the rule gives its fields |
| DataGen.ForcedIndicators | data_gen.py:18-19 | Designers always use design tools; Management, Marketing and Support always use office apps |
| DataGen.DrawsPerRow | data_gen.py:17-24 | the exact number of draws a row consumes, by role, including Support's second windows draw |
| DataGen.WindowsOnlyRule | data_gen.py:20 | Support is windows-only when its first draw is below 0.3 or its second below 0.12; any other role when its one draw is below 0.12 |
| DataGen.ScoreIgnoresOtherFields | data_gen.py:27-35 | score and label depend only on the six weighted fields |
| DataGen.DesignerWithoutWindowsIsMac | data_gen.py:26-35 | a Designer with design tools and no windows-only apps scores at least 1 and is labelled 1 |
| DataGen.WindowsWithoutDesignIsNotMac | data_gen.py:28-35 | windows-only apps without design tools score at most 0.5 and are labelled 0 |
| DataGen.GeneratedLabelExtremes | data_gen.py:16-35 | the two facts above hold for every generated row |
| DataGen.Rng.constructor | data_gen.py:7 | the seeded generator starts at the first draw of its stream |
| DataGen.Rng.Random | data_gen.py:18-20 | `random()` returns the current draw and advances by one |
| DataGen.Rng.Choose | data_gen.py:17 | `choice` returns the list element for the current draw and advances by one |
| DataGen.DrawIndicators | data_gen.py:18-20 | the indicator draws, short-circuits included, give the three indicators and the position the stream functions give |
| DataGen.DrawFields | data_gen.py:17-24 | the fields drawn one call at a time, and the draws consumed, are those of `DrawnAt` |
| DataGen.DrawCategories | data_gen.py:21-24 | the four categorical fields are the choices for the next four draws, in source order, and exactly four draws are consumed |
| DataGen.LabelRow | data_gen.py:27-35 | the score accumulated weight by weight and thresholded gives the rule's label: 1 exactly when the doubled score exceeds 1 |
| DataGen.MakeRow | data_gen.py:16-47 | the row built and the draws consumed are those of `RowAt`; the row is well formed |
| DataGen.Generate | data_gen.py:49-50 | the rows built and the draws consumed are those of `RowsAt` |
| MacApp.Missing | app.py:46-47 | a column is missing exactly when it is expected and absent from the input frame; none is missing exactly when every expected column is present |
| MacApp.Columns | app.py:51 | the column names of a row, position by position |
| MacApp.Reindex | app.py:51 | the reindexed row has exactly the expected columns in the expected order, each with the input's value or NaN |
| MacApp.ToFrame | app.py:34-43 | the frame built from a list of pairs has exactly its column names as keys |
| MacApp.ToFrameLookup | app.py:34-43 | with distinct column names, each name looks up its own value |
| MacApp.ReindexOwnColumns | app.py:34-51 | reindexing a frame to its own columns finds nothing missing and returns the row unchanged |
| MacApp.ReindexWhenNothingMissing | app.py:47-51 | with nothing missing, every expected column keeps its value and no NaN appears; only unexpected columns are dropped |
| MacApp.Message | app.py:59 | the message is "Mac empfohlen" exactly when the prediction is 1, otherwise "Mac nicht empfohlen" |
| MacApp.Predict | app.py:46-59 | a mismatch is reported, with the missing set, exactly when an expected column is absent; otherwise the classifier's label on the reindexed row, with its message |
| MacApp.FormRow | app.py:34-43 | no contract of its own; characterised by `FormRowColumns` and `FormFrameFitsTrainedSchema` |
| MacApp.InputFrame | app.py:34-43 | no contract of its own; characterised by `FormFrameFitsTrainedSchema` through `ToFrame` |
| MacApp.FormRowColumns | app.py:34-43 | the form's row has the trained feature columns in order, each once |
| MacApp.FormFrameFitsTrainedSchema | app.py:34-59 | for every form input, a pipeline fitted on the generated columns always predicts, on the form's values in trained order |
| MacApp.SampleSize | app.py:68 | the sample size is at most 300 and at most the row count, and equals one of them |
| MacApp.Select | app.py:69 | selection by positions takes each listed position once, in order |
| MacApp.Sample | app.py:68-69 | the sample has `min(300, n)` rows, and the labels are taken at the same positions as the features |
| MacApp.SamplePairsRows | app.py:68-69 | every sampled (features, label) pair, the last one included, is one row of the dataset with its own label, and the sample is taken at distinct dataset positions |
| MacApp.Pairs | app.py:89-91 | the importance frame pairs each feature name with its own mean importance |
| MacApp.InsertByImportance | app.py:92 | inserting into a list sorted by importance keeps it sorted and adds exactly that row |
| MacApp.SortByImportance | app.py:92 | `sort_values(ascending=False)` gives a sorted permutation of the rows |
| MacApp.PrefixDominates | app.py:92 | in a sorted list every row after the first k is no more important than any of the first k |
| MacApp.TopOfSorted | app.py:92 | the first k rows after sorting are k rows, sorted, drawn from the input, and every row left out is no more important than any row kept |
| MacApp.PairsMembers | app.py:89-92 | every row taken from the name/importance frame is some feature's own name paired with its own importance |
| MacApp.TopSize | app.py:92 | `head(10)` keeps min(10, n) rows |
| MacApp.ImportanceTable | app.py:62-97 | the table is unavailable exactly when the computation failed or the lengths differ; otherwise it holds min(10, n) rows, sorted, each a feature's own name and importance, none more often than in the frame, and no pair left out more important than one kept |
| PyStr.LStrip | Kontakt_db/app.py:60 | drops exactly the leading whitespace |
| PyStr.IsSpace | Kontakt_db/app.py:60 | no contract of its own; the set of characters `str.isspace` accepts, used by `LStrip`, `RStrip` and `StripEmptyIffBlank` |
| PyStr.Strip | Kontakt_db/app.py:60 | the stripped string is no longer than the input, and neither starts nor ends with whitespace |
| PyStr.RStrip | Kontakt_db/app.py:60 | drops exactly the trailing whitespace |
| PyStr.StripEmptyIffBlank | Kontakt_db/app.py:60 | `name.strip()` is falsy exactly when every character of the name is whitespace |
| PyStr.StripIdempotent | Kontakt_db/app.py:60 | stripping twice is stripping once |
| SqlLike.Fold | Kontakt_db/app.py:30 | LIKE folds only ASCII capitals to lower case |
| SqlLike.Like | Kontakt_db/app.py:30-31 | no contract of its own; characterised by `PercentMatchesAll`, `LiteralPrefix`, `LeadingPercent` and `LiteralSearch` |
| SqlLike.FoldAll | Kontakt_db/app.py:30 | folding a string folds each character |
| SqlLike.ContainsPattern | Kontakt_db/app.py:31 | the pattern is the term between two `%`: it is two longer, starts and ends with `%`, and its middle is the term |
| SqlLike.PercentMatchesAll | Kontakt_db/app.py:30-31 | `%` matches every string |
| SqlLike.LiteralPrefix | Kontakt_db/app.py:30-31 | a wildcard-free term followed by `%` matches exactly the strings it begins, case folded |
| SqlLike.LeadingPercent | Kontakt_db/app.py:30-31 | a leading `%` matches exactly when the rest matches some suffix |
| SqlLike.LiteralSearch | Kontakt_db/app.py:29-31 | for a wildcard-free term, `LIKE '%term%'` holds exactly when the term occurs in the string, ASCII case ignored |
| SqlLike.EmptyTermMatchesAll | Kontakt_db/app.py:31 | the empty term's pattern `%%` matches everything |
| Contacts.Lookup | Kontakt_db/app.py:13 | an id finds a row exactly when some row has it, and the row found has it |
| Contacts.Matching | Kontakt_db/app.py:30-31 | the result is exactly the rows whose name or phone matches |
| Contacts.MatchingKeepsOrder | Kontakt_db/app.py:30-31 | a search returns its rows in ascending id order, the scan order the model fixes |
| Contacts.Updated | Kontakt_db/app.py:37-40 | every row with the id gets the four new fields and keeps its id; every other row is unchanged |
| Contacts.UpdatedKeepsIdRange | Kontakt_db/app.py:36-41 | an update keeps every id, so ids stay within the issued range |
| Contacts.Deleted | Kontakt_db/app.py:44 | exactly the rows with other ids remain |
| Contacts.DeletedKeepsOrder | Kontakt_db/app.py:43-45 | a delete keeps the rows in ascending id order |
| Contacts.AscendingIdsUnique | Kontakt_db/app.py:13 | in rowid order no id occurs twice |
| Contacts.UpdatedKeepsOrder | Kontakt_db/app.py:36-41 | an update keeps the rows in id order |
| Contacts.UpdatedLookup | Kontakt_db/app.py:36-41 | after an update the id finds the new fields if it existed; every other id finds what it found before |
| Contacts.UpdateUnknownIsNoop | Kontakt_db/app.py:36-41 | updating an id no row has changes nothing |
| Contacts.DeletedLookup | Kontakt_db/app.py:43-45 | after a delete the id finds nothing; every other id finds what it found before |
| Contacts.DeleteUnknownIsNoop | Kontakt_db/app.py:43-45 | deleting an id no row has changes nothing |
| Contacts.DeleteIdempotent | Kontakt_db/app.py:43-45 | deleting twice is deleting once |
| Contacts.AppendedLookup | Kontakt_db/app.py:23-26 | after an insert under a fresh id, that id finds the new row and every other id what it found before |
| Contacts.AddThenDeleteRestores | Kontakt_db/app.py:23-45 | inserting under a fresh id and deleting that id restores the rows |
| Contacts.LiteralTermFinds | Kontakt_db/app.py:28-34 | a wildcard-free search term finds exactly the contacts whose name or phone contains it, ASCII case ignored |
| Contacts.ContactTable.constructor | Kontakt_db/app.py:11-19 | a new database has an empty table and no id issued yet |
| Contacts.ContactTable.AddContact | Kontakt_db/app.py:13-26 | an insert appends the row under one above the largest id ever issued, which exceeds every existing id; at the largest rowid it fails and changes nothing |
| Contacts.ContactTable.GetContacts | Kontakt_db/app.py:28-34 | the empty term returns every row; otherwise exactly the rows whose name or phone is LIKE `%term%`, in id order (the scan order the model fixes) |
| Contacts.ContactTable.UpdateContact | Kontakt_db/app.py:36-41 | the rows become `Updated` of the old rows, the counter is unchanged and the table stays valid |
| Contacts.ContactTable.DeleteContact | Kontakt_db/app.py:43-45 | the rows become `Deleted` of the old rows, the counter is unchanged and the table stays valid |
| Contacts.ContactTable.SubmitAddForm | Kontakt_db/app.py:59-64 | a name `strip()` leaves empty is refused and nothing changes; otherwise the contact is added under the next id and the counter moves to it, or the insert fails at the largest rowid and nothing changes |

## Left out

- The Mersenne Twister itself. The draws are an arbitrary stream, not the particular values seed 42 produces.
- `np.random.seed(42)` (data_gen.py:8): the generator never uses numpy, so it has no effect on the rows.
- DataGen.Choice: models `random.choice` as the draw modulo the list length. CPython's `_randbelow` draws 32-bit words and rejects out-of-range values, so a choice may consume its own words rather than one `random()` draw. The model keeps one draw per call and membership in the list, and does not model which element a given seed picks.
- DataGen.Generate: takes n as a `nat` and has no default. `generate`'s default `n=1000` is not modelled, and neither is the empty list Python's `range` gives a negative n (data_gen.py:49-50).
- Writing the CSV file and the message `generate` prints (data_gen.py:51-53), and the `__main__` call with n = 2000: file I/O and console output.
- Model training (`train_model.py`) and the classifier: `MacApp.Predict` takes the classifier as a function. The probability shown with `st.metric` (app.py:54, 58) is floating-point output of that classifier, so it is not modelled.
- The permutation importances themselves (app.py:72-86), which are numeric output of scikit-learn. `MacApp.ImportanceTable` takes the feature names and mean importances as inputs. `None` stands for any exception raised before the table is built, since the `except` at app.py:96 catches them all and shows a message.
- MacApp.Sample: takes the seeded permutation that pandas' `sample(random_state=42)` draws as an input, so which rows seed 42 selects is not modelled.
- MacApp.SortByImportance: an insertion sort that puts equal importances in one fixed order. Pandas' default sort is not stable, so the source leaves the order of ties unspecified. NaN importances, which pandas sorts last, are not modelled.
- The Streamlit layout, widgets, reruns and message texts other than the recommendation. The error text for a schema mismatch is modelled only as the set of missing columns.
- The SQLite connection, `commit`, persistence across runs, and concurrent sessions writing the same file (the connection is opened with `check_same_thread=False`, Kontakt_db/app.py:6, and Streamlit sessions share `kontakte.db`): `ContactTable.constructor` is a freshly created database, and each helper call is one committed statement.
- NULL columns: the forms always pass strings, so no column is ever NULL. `LIKE` on non-ASCII letters: without ICU, SQLite folds only ASCII.
- The display of the contact list and of the edit form's current values (Kontakt_db/app.py:70-84). The edit submit (lines 86-87) and the delete button (lines 92-93) call the modelled `UpdateContact` and `DeleteContact`. The edit form, like the source, has no blank-name guard.
