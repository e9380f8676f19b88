# SQLite Shell, modelled in Dafny

This project models the core of `sqlite-shell`. It is a terminal program in which
the user types an SQL query against a SQLite database file. The query runs through
the `sqlite3` command-line tool, and the tool's CSV output is shown as a table.
The model covers the following:

- `internal/database/database.go` (`common.dfy`, `text.dfy`, `csv.dfy`, `database.dfy`):
  - `resolvePath`: environment expansion and the `~/` home shorthand.
  - `parseCSV`: splits the header from the rows. Go's `encoding/csv` reader is
    modelled in its default configuration: CRLF is normalised, empty lines are
    skipped, quoted fields may hold commas, newlines and doubled quotes, and every
    record must have the width of the first. The three errors the reader can
    report are modelled too.
  - `formatErrors`, as a specification function and as the loop the source runs.
  - `ExecCmd`: the three-stage pipeline, with each failure reported under its
    stage's label. The operating system is a `Host` value: environment
    expansion, the home directory lookup, path joining, and the process run
    (status, stdout and stderr for an argument vector) are all parameters.
- `internal/helpers/helpers.go` (`helpers.dfy`):
  - `CreateColumns` as an imperative method over an array of maximum widths,
    proved equal to the `Layout` specification. The proportional scaling of
    column widths to the viewport is then proved to fit the viewport.
  - `CreateRows`.
- `internal/styles/styles.go` (`styles.dfy`): the `Styles` object as a class.
  Its two theme colours determine every derived style (`setStyles`). `New`,
  `Error` and `Reset` switch between the normal theme (122/238) and the error
  theme (161/231).
- `main.go` (`shell.dfy`):
  - The Bubble Tea `model` as a class that `Update` changes in place. The text
    input and the table are value types, so they are datatypes here.
  - Every branch of `Update`: resize, Tab, Enter with a blank, failing or
    successful query, Esc/Ctrl+C, and the error message.
  - `initialModel`, and `View`'s choice of what is on screen.

Some behaviour of the code may be unexpected. The model follows the code:

- A window resize records the new size but does not lay out an existing table
  again. Widths change only with the next successful query.
- A failing query leaves the focus where it was. If the table had the focus, it
  keeps it, and the text input stays blurred.
- An `errMsg` message sets the error but does not switch to the error theme. So
  "the theme is the error theme exactly when there is an error" holds after
  every message except that one (`Shell.Model.Update`). No code in the
  repository sends an `errMsg`.
- Tab gives the focus to the table even before any query has filled it.
- In a one-column result, a row whose value is NULL is written by the engine as
  an empty line. The CSV reader skips empty lines, so that row is not shown
  (`Database.ParseCsvDropsEmptyRow`).

## Model

| member | source | states |
|---|---|---|
| Text.ByteLenBounds | internal/helpers/helpers.go:12 | A string's `len` is its UTF-8 byte count. It lies between its rune count and four times that, and equals the rune count exactly when every rune is ASCII. |
| Text.TrimSpaceIsSlice | main.go:135 | The trimmed query is a contiguous slice of the input that neither starts nor ends with white space. |
| Text.TrimSpaceCutsOnlySpace | main.go:135 | Everything trimming removes, before and after the kept slice, is white space. |
| Text.TrimSpaceEmptyIff | main.go:135-138 | The query is blank (and Enter is ignored) exactly when the input consists only of white space. |
| Text.ToUpper | internal/helpers/helpers.go:33 | The column title has the header's length, and each character is upper-cased. |
| Text.ToUpperIdempotent | internal/helpers/helpers.go:33 | Upper-casing twice equals upper-casing once, and a title has no lower-case ASCII letter. |
| Csv.ReadAllUniform | internal/database/database.go:57-58 | Every record the reader accepts has at least one field, and all records have the width of the first. |
| Csv.RecordsEncode | internal/database/database.go:57-58 | Reading records written with line-feed line ends gives back those records, for any record width already fixed that agrees with them. The records must have at least one field each and all the same width. |
| Csv.NormalizeEncode | internal/database/database.go:57-58 | The reader sees records written with "\r\n" line ends exactly as the same records written with "\n", provided no cell holds a carriage return. |
| Csv.ReadAllEncode | internal/database/database.go:57-58 | Round trip: `ReadAll(Encode(records, eol)) == Ok(records)` for line ends "\r\n" (the engine's) and "\n". Fields are written bare when they can be and quoted otherwise. The records must have at least one field each, all the same width, and no carriage return in any cell. |
| Csv.UnterminatedQuoteFails | internal/database/database.go:58-61 | A quoted field that is never closed is rejected with the extraneous-or-missing-quote error. This holds wherever the field stands: after any well-formed records (with either line end) and after any complete fields of its own record. |
| Csv.BareQuoteFails | internal/database/database.go:58-61 | A quote inside an unquoted field is rejected with the bare-quote error. This holds wherever the field stands: after any well-formed records, after any complete fields of its own record, and before anything that follows the comma or line end closing it. |
| Database.Argv | internal/database/database.go:19 | The engine is `sqlite3`, run with the resolved path and the query as its last two arguments. |
| Database.ResolvePath | internal/database/database.go:38-54 | Covers all three outcomes. An expanded path not of the form `~/x` is returned unchanged. `~/x` becomes home joined with `x`. A failed home lookup is reported as `reading home dir: ...`. |
| Database.ResolveHomeExample | internal/database/database.go:41-46 | `~/data/app.db` with home `/home/u` resolves to `/home/u/data/app.db`. |
| Database.ResolveBareTilde | internal/database/database.go:41-53 | `~` and `~/` are too short for the shorthand and pass through unchanged. |
| Database.ParseCsv | internal/database/database.go:56-69 | The result is Ok exactly when the reader succeeds. A reader error becomes `reading CSV: <message>`. No records gives no headers and no rows. Otherwise the result is the first record as the header and the rest as the rows. Every row has as many fields as the header. |
| Database.ParseCsvRoundTrip | internal/database/database.go:56-69 | Parsing what the engine writes for a result gives back its header and rows. This holds when the header has at least one column, every row has the header's width, and no cell holds a carriage return. The engine's output has "\r\n" line ends and quotes a field only when it must. |
| Database.ParseCsvDropsEmptyRow | internal/database/database.go:56-68 | A one-column row written as an empty field (a NULL) is an empty line, which the reader skips: `x\r\n\r\n` parses to header `["x"]` and no rows. |
| Database.ParseCsvEmpty | internal/database/database.go:62-64 | Empty output (a query returning nothing) parses to an empty result, not an error. |
| Database.ParseCsvExample | internal/database/database.go:56-69 | The engine's CRLF output `id`, `1` parses to header `["id"]` and rows `[["1"]]`. |
| Database.FormattedErrors | internal/database/database.go:71-82 | The result is nil exactly when every given error is nil. Otherwise the message starts with `<context>: `. |
| Database.PresentEmptyIff | internal/database/database.go:72-78 | The collected messages are empty exactly when every given error is nil. |
| Database.FormattedOne | internal/database/database.go:78-79 | One error gives `<context>: <message>`. |
| Database.FormattedTwo | internal/database/database.go:79 | Two errors are joined with `; `. |
| Database.FormattedSkipsNil | internal/database/database.go:73-76 | Inserting a nil error anywhere in the list does not change the result. |
| Database.FormatErrors | internal/database/database.go:71-82 | The loop that collects non-nil messages computes `FormattedErrors`. |
| Database.ExecOutcome | internal/database/database.go:13-36 | A failure comes with no headers and no rows. A success has every row as wide as the header. |
| Database.ExecErrorLabels | internal/database/database.go:14-33 | Every failure message starts with its stage's label: `resolving path: reading home dir: `, `executing command: exec: ` or `parsing data: reading CSV: `. |
| Database.ResolveFailureLabel | internal/database/database.go:14-17 | A failed path resolution is reported as `resolving path: reading home dir: <err>`, whatever the query. |
| Database.ParseFailureLabel | internal/database/database.go:30-33 | After a clean run, output the reader rejects makes the whole pipeline return no data and the error `parsing data: reading CSV: <reader message>`. |
| Database.ExecFailureHasBothParts | internal/database/database.go:22-28 | A failed run is reported as `executing command: exec: <err>; sqlite3: <stderr>`, even when stderr is empty. |
| Database.ExecSuccessIsParse | internal/database/database.go:30-35 | After a clean run, the pipeline succeeds exactly when the output parses, and then returns the parsed header and rows. |
| Database.ExecCmd | internal/database/database.go:13-36 | The step-by-step pipeline returns exactly `ExecOutcome`. |
| Helpers.MaxWidthIsMaximum | internal/helpers/helpers.go:10-22 | A column's computed width is at least the header's byte length and at least every cell's in that column, and it is one of those lengths. |
| Helpers.CreateColumns | internal/helpers/helpers.go:9-39 | For rows no wider than the header, the method over the `maxWidths` array returns exactly `Layout`. `Layout` has one column per header, titled with the upper-cased header, with the maximum width scaled by viewport width / total width and truncated toward zero. |
| Helpers.CreateRows | internal/helpers/helpers.go:41-47 | The table rows are the input rows, unchanged and in order. |
| Helpers.LayoutFits | internal/helpers/helpers.go:24-36 | With a non-negative viewport width, every column width is non-negative and all widths add up to at most the viewport width. With a negative viewport width, each width is at most 0 and the sum is at least the viewport width. |
| Helpers.LayoutUnscaled | internal/helpers/helpers.go:24-36 | When the viewport is exactly as wide as the content, every column keeps its maximum width. |
| Helpers.LayoutTitles | internal/helpers/helpers.go:30-33 | One column per header, in order, titled with the upper-cased header. |
| Styles.DeriveFollowsTheme | internal/styles/styles.go:31-64 | The accent colours the highlight, the boundary text, the error border and the whitespace filler. The selected row is the foreground on the accent. |
| Styles.DeriveFixedParts | internal/styles/styles.go:31-64 | The background text, the table header border, the input border, the base and the background filler are the same under every theme. |
| Styles.DeriveInjective | internal/styles/styles.go:31-64 | Two themes derive the same styles only if they are the same theme. |
| Styles.Styles.SetStyles | internal/styles/styles.go:31-64 | Keeps the theme colours and makes every style agree with them. |
| Styles.Styles.constructor | internal/styles/styles.go:66-74 | `New` gives the normal theme, accent 122 and foreground 238, with all styles derived from it. |
| Styles.Styles.Error | internal/styles/styles.go:76-81 | Switches to the error theme, accent 161 and foreground 231, and derives every style again. |
| Styles.Styles.Reset | internal/styles/styles.go:83-88 | Switches back to the normal theme and derives every style again. |
| Styles.ErrorThenReset | internal/styles/styles.go:76-88 | `Error` then `Reset` gives exactly the styles of a new object. |
| Shell.Model.constructor | main.go:63-79 | `initialModel`: normal theme, the text input focused with placeholder `Write SQL...` and the highlight prompt and cursor, an empty unfocused table, no error, not ready. |
| Shell.Model.Update | main.go:109-191 | Keeps exactly one widget focused and the styles consistent. Quits exactly on Esc or Ctrl+C. `ready` never reverts. The theme shows whether there is an error after every message except `errMsg`. The effect of each branch is stated in full. |
| Shell.Model.Resize | main.go:113-119 | Marks the model ready and stores width - 2 and height - 8, touching nothing else. |
| Shell.Model.ToggleFocus | main.go:123-133 | Moves the focus to the other widget and styles the prompt to match. The table's content is left alone. |
| Shell.Model.Submit | main.go:134-182 | Covers three cases. A blank query changes nothing. A failing query records the error and switches to the error theme, and keeps the focus and the table (restyled if it has rows). A successful query clears the error, resets the theme, blurs the input, and shows a focused table. That table has the `Layout` columns, the rows, and height min(rows + 1, viewport height). |
| Shell.Model.View | main.go:201-226 | Shows "Initializing..." exactly until the first resize. The title is "An error has occured" exactly when there is an error. The table is shown exactly when it has columns and there is no error. The error panel is shown exactly when there is an error, and it carries that error. |
| Shell.TabTwice | main.go:123-133 | Two Tabs give the focus back and leave the table, the error, the size and the styles as they were. |
| Shell.SubmitSelectOne | main.go:134-182 | A query whose engine output is `id`, `1` shows the row `["1"]` under the title `ID` in a focused table, under the normal theme. |
| Shell.SubmitFailing | main.go:134-226 | A failing query gives the error theme and a non-empty error, and keeps the focus and the table. Once the model is ready, the screen shows the error panel and hides the table. |

## Left out

- Running `sqlite3`, environment expansion, the home directory lookup and path
  joining are operating-system calls. They are fields of the `Host` parameter,
  and nothing is assumed about them beyond what each lemma requires.
- Helpers.CreateColumns: the scale factor is a `float64` in the source. The model
  uses exact rational arithmetic truncated toward zero. Rounding can make the
  source's width one closer to zero than the model's. For example, with maximum width 49,
  total 49 and viewport 1, `49 * (1/49)` evaluates to `0.999...` in floating point.
  With viewport -1 and the same widths, the source gives 0 where the model gives -1.
- Text.ByteLen: Go strings are byte strings, and Dafny strings are sequences of
  Unicode characters. A cell that is not valid UTF-8, such as a BLOB that the
  engine writes raw in CSV mode, has no counterpart in the model. For such a
  cell, Go's `len` is its raw byte count and is not given by `ByteLen`.
- Helpers.CreateColumns: when every header and cell is empty, the source divides
  by a total width of zero, and `int(NaN)` gives implementation-defined widths.
  The model gives width 0 in that case.
- Helpers.CreateColumns: the source panics on a row wider than the header. The
  model requires rows no wider than the header, which is what the CSV reader
  guarantees for query results.
- Text.ToUpper: upper-cases ASCII letters only. Go's `strings.ToUpper` also maps
  other Unicode letters.
- The engine's CSV quoting rule (`Database.Serialize`) is taken to be the following.
  A field is written bare when it is non-empty printable ASCII without a space,
  a double or single quote, or a comma; every other field is quoted. The round
  trip is proved for this rule. Cells holding a carriage return are excluded, because the reader turns "\r\n" inside a quoted field into "\n".
- Csv.ReadAll: error messages carry no record, line or column position, and the
  reader's other options (comment character, lazy quotes, other separators) are
  not modelled because the source uses the defaults.
- Shell.Model.Update: after its own branch, the source forwards the message to
  the text input's and the table's own `Update`. That forwarding edits the typed
  text, moves the cursor and scrolls the table, and is not modelled. For other
  keys and messages the contract therefore leaves the typed text free and
  promises only that the error, the table's content, the focus, the size and the
  theme stay. The commands it returns (cursor blinking, `tea.Batch`) are reduced
  to quit or nothing.
- Rendering is not modelled: lipgloss layout, borders, padding, the whitespace
  fill, and the text of the help line. `View` is modelled as the choice of what
  appears on screen, and a style as the colours and boldness it sets.
- `main()` (argument checking, starting the program), `Init`, the key map and
  `internal/help/help.go` are outside the modelled core.
