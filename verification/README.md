# DiaDrop `.dia` projects in Dafny

DiaDrop is a desktop chart editor. Each chart is a `DiagramProject`. It holds a name, two
timestamps, a data series of labels, values and colours kept in three parallel lists, a chart
type, a colour-scheme name, a title and a dictionary of custom colours. A project is saved as an
encrypted `.dia` file, one file per project name in a projects directory. Inside the encryption
the file is a line-oriented text format with a header and four bracketed sections:
`__Settings__`, `__Data__`, `__DiaInfo__` and, when present, `__CustomColors__`.

This project models the following:

- The project object and its writer and reader. `Diagram.DiagramProject` is a class whose fields
  the methods update in place. `Snapshot()` reads the fields as a `DiaFormat.Project` value, and
  the pure functions in `DiaFormat` describe what the writer and reader compute. The reader is
  modelled line by line (`Step`/`Run`). That covers comments, the header, section markers, the
  fixed regular expressions (as deterministic scanners), the split at `|` and at the first `:`,
  and the failure on a value that is not a number.
- The colour schemes (`Palette`) and the cyclic colouring `palette[i % len(palette)]`.
- The editor's operations on the open project (`Editor`): adding, deleting, recolouring and
  clearing records, choosing a scheme, the chart-title default, the spreadsheet import's
  colouring and applying edited `.dia` code.
- The start menu's project store (`Store.ProjectStore`): loading every readable `.dia` file
  newest first, saving, renaming and deleting.

The main results are these:

- The format round trip (`DiaDocument.RoundTrip`): reading what the writer produces gives back
  the same project, for every project whose texts cannot be mistaken for the format's own
  punctuation (`DiaLaws.WellFormed`).
- A successful read leaves the three series lists aligned (`DiaReading.FromDiaSeries`).
- Every editor operation keeps that alignment. The one way the editor can receive misaligned
  lists is a spreadsheet import whose value column does not convert (`Editor.FailedImportMisaligned`).
- A saved project is among the loaded ones (`Store.SavedProjectLoads`).
- The load order is a newest-first permutation (`Store.ProjectStore.LoadProjects`).

Modules, in dependency order:

- `Wrappers`: `Option`.
- `Numeral`: the number text written and read.
- `Text`: the Python string operations used.
- `Palette`.
- `DiaFormat`: the value model, the writer and the reader as functions.
- `DiaLaws`: how the reader treats each written line.
- `DiaDocument`: the document shape and the round trip.
- `DiaReading`: what the reader keeps on any input.
- `Diagram`: the class.
- `Editor`.
- `Store`.

## Model

| member | source | states |
|---|---|---|
| Palette.Scheme | v3.1e.py:18-29 | the table has exactly the ten listed scheme names, each with a palette of five colours; any other name has no palette (the lookup raises) |
| Palette.CyclicColors | v3.1e.py:441-442 | one colour per record, the colour at index i being `palette[i % len(palette)]` |
| Numeral.Parse | v3.1e.py:118 | a number text is accepted only if it is non-empty and ends in a digit |
| Numeral.ParseFormat | v3.1e.py:57 | the text a value is written as reads back as that value |
| Diagram.DiagramProject.constructor | v3.1e.py:32-43 | a new project: given name, both timestamps from the clock, empty aligned series, "Bar", "Modern Blue", "My Chart", no custom colours, size 10 by 6 |
| Diagram.DiagramProject.ToDiaFormat | v3.1e.py:45-78 | the text built line by line is the `.dia` document of the project's current state |
| DiaDocument.DocumentShape | v3.1e.py:45-78 | the document's lines are the header, the Settings section, one data line per zipped record, the DiaInfo section and, only with custom colours, the CustomColors section, then the footer comment |
| Diagram.DiagramProject.FromDiaFormat | v3.1e.py:80-152 | reading updates the fields in place (no reset) exactly as the line-by-line reader describes, and returns False where a value does not convert |
| Diagram.DiagramProject.ReadSettingsLine | v3.1e.py:104-110 | a Settings line sets created and modified from one regex match, or changes nothing |
| Diagram.DiagramProject.ReadDataLine | v3.1e.py:112-119 | a bracketed line with three bar-separated parts appends a record; the label is appended before the value converts, and a bad value fails the read |
| Diagram.DiagramProject.ReadInfoLine | v3.1e.py:121-139 | of Name, Type, ColorScheme and Title, taken in that order, the first one the line contains is the only attribute it may set, from its quoted value |
| Diagram.DiagramProject.ReadCustomLine | v3.1e.py:142-147 | a CustomColors line splits at its first colon and sets the stripped key to the stripped colour |
| DiaDocument.FromDiaToDia | v3.1e.py:80-149 | reading a written project into any project succeeds; it sets the Settings and DiaInfo fields, appends the series and adds the custom colours |
| DiaDocument.RoundTrip | v3.1e.py:45-149 | reading the written document into a fresh project gives back the written project |
| DiaReading.RunIgnorable | v3.1e.py:89-91 | blank and comment lines anywhere in the text change nothing |
| DiaReading.OutsideSectionsKeepProject | v3.1e.py:93-104 | a line before any section marker, or in an unknown section, changes no field |
| DiaReading.SectionChangesOnlyAtMarkers | v3.1e.py:93-101 | only a bracketed `__…__` line changes the current section |
| DiaReading.FromDiaSeries | v3.1e.py:112-119 | a read only appends to the series; a successful read of aligned lists leaves them aligned; a failed read leaves exactly one extra label |
| DiaReading.DataLineSkipped | v3.1e.py:113-116 | a Data line that is not bracketed, or whose bar-separated parts are not exactly three, changes nothing |
| DiaReading.BadValueStops | v3.1e.py:117-118 | the first data line whose value does not convert ends the read with False, whatever follows |
| DiaReading.SettingsBothOrNeither | v3.1e.py:105-110 | created and modified change together or not at all; when they change, the new values are non-empty quote-free texts and the line contains `created="<new created>" modified="<new modified>"`; a line missing either `created="` or `" modified="` changes nothing |
| DiaReading.InfoConservative | v3.1e.py:121-139 | a DiaInfo line changes at most one of name, type, scheme and title, to a non-empty quote-free text; a changed field is the first of Name, Type, ColorScheme, Title the bracketed line contains, and its new value is the text between the quotes that follow that key and optional white space |
| DiaReading.EmptyQuoteKeeps | v3.1e.py:124-127 | `[Name: ""]` (an empty quoted value) changes nothing |
| DiaReading.UnclosedQuoteKeeps | v3.1e.py:124-127 | `[Name: "Sales]` (a quote that is never closed) changes nothing |
| DiaReading.CustomFirstColon | v3.1e.py:145-147 | the key is the text before the first colon; the colour keeps any later colons |
| DiaReading.PutAllLastWins | v3.1e.py:147 | after several custom-colour lines each key maps to the colour of its last line |
| DiaReading.FromDiaFlagAlike | v3.1e.py:1088-1091 | whether a text reads successfully does not depend on the project it is read into |
| Editor.Added | v3.1e.py:929-948 | add_data appends one record, coloured `palette[len(labels) % len(palette)]`, exactly when both entries are non-empty, the value converts and the scheme is known; otherwise nothing changes |
| Editor.AddData | v3.1e.py:929-948 | the open project becomes `Added` of its old state |
| Editor.AddKeepsAligned | v3.1e.py:946-948 | adding keeps the three lists aligned |
| Editor.AddKeepsCyclic | v3.1e.py:943-948 | a series coloured cyclically by its scheme stays so after an add |
| Editor.Deleted | v3.1e.py:957-961 | an index within the labels removes that label, keeping the order of the rest; values and then colours lose the same index in turn, and the pops stop at the first list too short (Python's `IndexError`), leaving the earlier pops; any other index changes nothing; aligned lists stay aligned |
| Editor.DeleteData | v3.1e.py:957-961 | the open project becomes `Deleted` of its old state |
| Editor.DeleteUndoesAdd | v3.1e.py:929-961 | deleting the record just added restores the project |
| Editor.Recolored | v3.1e.py:968-975 | a chosen colour replaces the colour at the index and no other; a cancelled dialog, or an index outside the colours (the `IndexError` while seeding the dialog), changes nothing |
| Editor.ChangeDataColor | v3.1e.py:968-975 | the open project becomes `Recolored` of its old state |
| Editor.ClearData | v3.1e.py:980-981 | the series becomes empty and everything else, custom colours included, stays |
| Editor.Reschemed | v3.1e.py:987-990 | the scheme name is stored; a known scheme recolours every record cyclically; an unknown one leaves the colours |
| Editor.ChangeColorScheme | v3.1e.py:987-990 | the open project becomes `Reschemed` of its old state |
| Editor.ReschemeKeepsAligned | v3.1e.py:990 | choosing a scheme keeps the lists aligned |
| Editor.ReschemeIdempotent | v3.1e.py:987-990 | choosing the same scheme twice is choosing it once |
| Editor.Imported | v3.1e.py:429-443 | an unusable sheet leaves the new project; otherwise the labels are the first column's; a converted value column gives those values and aligned colours; a value column that does not convert leaves the labels with empty values and colours; nothing else differs from a new project |
| Editor.FailedImportMisaligned | v3.1e.py:439-443 | a failed conversion of a non-empty value column leaves labels without values: the lists are not aligned |
| Editor.ImportedColorsAsScheme | v3.1e.py:441-442 | the import colours the series as choosing the project's own scheme would |
| Editor.ChartTitle | v3.1e.py:1001 | the stored title is the entry text when it is non-empty, and "My Chart" when it is empty; never empty |
| Editor.ApplyAsWrittenDoubles | v3.1e.py:1083-1091 | as written, applying the project's own code doubles its series |
| Editor.ApplyAsWrittenChangesProject | v3.1e.py:1083-1091 | as written, applying the unchanged code to a project with a record changes it |
| Editor.Reset | v3.1e.py:1091 | the project the corrected apply reads into: empty series and custom colours, other fields kept |
| Editor.ApplyOwnCode | v3.1e.py:1083-1091 | corrected: applying the project's own code leaves it unchanged |
| Editor.ApplyAsWrittenKeepsAligned | v3.1e.py:1088-1091 | as written, applying code to an aligned project leaves it aligned, whether the code is valid or not |
| Editor.ApplyKeepsAligned | v3.1e.py:1088-1091 | corrected: valid code leaves the open project's series aligned |
| Editor.ApplyDiaCode | v3.1e.py:1083-1105 | as written: the code is applied exactly when a trial read into a fresh project succeeds, and the open project then reads it on top of its old state (`ApplyAsWritten`), appending the code's records to its own |
| Editor.ApplyDiaCodeReplacing | v3.1e.py:1083-1091 | corrected: the code is applied exactly when a trial read succeeds, and the open project becomes `Apply` of its old state, which replaces the series and custom colours |
| Store.Encrypt | v3.1e.py:169-180 | decrypting what was encrypted gives back the text |
| Store.FileName | v3.1e.py:526 | a project's file is its name followed by ".dia" |
| Store.FileNameInjective | v3.1e.py:490-496 | two names share a file exactly when they are equal |
| Store.LoadEntry | v3.1e.py:283-295 | a listed file yields at most one project; it yields one exactly when it exists, ends in ".dia", decrypts to a non-empty text and that text reads successfully, and that project is the text read into a fresh project |
| Store.SavedProjectLoads | v3.1e.py:279-298 | a well-formed project whose file holds its encrypted document is among the projects loaded |
| Store.SortNewestFirst | v3.1e.py:297 | the entries are permuted into non-increasing order of `modified` |
| Store.ProjectStore.constructor | v3.1e.py:279-298 | the store starts with the directory's files and the projects loaded from them |
| Store.ProjectStore.LoadProjects | v3.1e.py:279-298 | the loaded projects are fresh objects whose states are a permutation of the readable files' projects, sorted newest first |
| Store.ProjectStore.ReadDirectory | v3.1e.py:282-295 | one fresh project per readable `.dia` file, in listing order |
| Store.ProjectStore.ReadFile | v3.1e.py:283-295 | one listed file gives fresh objects whose states are exactly its `LoadEntry`: nothing for a file that is not `.dia`, missing, undecryptable, empty or not readable as `.dia` |
| Store.ProjectStore.SaveProject | v3.1e.py:523-537 | save stamps `modified` and writes the encrypted document under the project's file name; the list is untouched |
| Store.ProjectStore.RenameProject | v3.1e.py:483-497 | a cancelled dialog, or an entry that is blank once stripped (the dialog's own check), changes nothing; otherwise the old file is removed and the project is saved under the stripped name |
| Store.ProjectStore.DeleteProject | v3.1e.py:499-521 | a confirmed delete drops every listed project with that name and removes its file; unconfirmed, nothing changes |
| Store.Remaining | v3.1e.py:507 | the kept projects are the listed ones with another name, and only those |
| Store.Kept | v3.1e.py:507 | each state with another name is kept as often as it occurs, and none with the name |
| Store.RemainingStates | v3.1e.py:507 | the kept projects' states are, in order, the `Kept` of the listed states |
| Store.KeptNewestFirst | v3.1e.py:297-298 | dropping projects keeps the rest newest first |

## Left out

- Numeral.Parse: the values are integers. `Numeral.Format`/`Parse` stand in for `str(float)`
  and `float()`, and `Parse` accepts only an optional sign followed by digits. Decimals, exponents,
  `inf`/`nan` and the `.0` that `str(float)` writes are not modelled.
- Encryption: Fernet with a PBKDF2 key becomes `Blob` (`Sealed(text)` or `Unreadable`). Only
  the decrypt-what-was-encrypted law and the failure to decrypt are kept.
- The filesystem: a `map` from file name to contents, plus the directory listing as a
  parameter. Missing directories, I/O errors and the order `os.listdir` returns are not
  modelled.
- The clock: every `datetime.now().isoformat()` is a `now` parameter. The `DiagramProject`
  constructor (v3.1e.py:34-35), `rename_project` and `save_project` read the clock twice; the
  model uses one reading, so a new project has `created == modified`.
- The user interface: dialogs, message boxes, chart drawing, autosave and the refresh calls.
  Dialog results are parameters, e.g. the colour chosen and the confirmation.
- The spreadsheet reading (pandas): the sheet arrives as a parameter of `Editor.Imported`:
  unusable (unreadable, or fewer than two columns), or its first column as text and its second
  column converted or not. Which files pandas can read is not modelled.
- `import_project` and `new_project`'s dialog flow: these are not part of this model beyond
  their use of `from_dia_format`, the import colouring and `save_project`.
- Regular expressions: only the fixed patterns the reader uses are modelled, as scanners.
  Python's `re` engine in general is not.
- Exceptions: the reader's failing value conversion is modelled as the False result. In the
  editor, the exceptions that can arise are modelled by where they stop the operation:
  `add_data`'s unknown-scheme lookup changes nothing; `change_color_scheme` has stored the
  scheme name before its lookup fails; `delete_data`'s `pop` on a short list keeps the pops
  already done; `change_data_color`'s index outside the colours changes nothing.
- Saving after each edit: every editor operation ends in `save_project` (v3.1e.py:955, 966, 978,
  985, 993, 1101), which stamps `modified` and writes the file. The `Editor` functions describe
  the project before that call; the save itself is `Store.ProjectStore.SaveProject`. So
  "everything else stays" in `Editor.ClearData` and the other rows means before the save.
- Store.SortNewestFirst: the sort is stable in the source (`list.sort`). The model's insertion
  also keeps equal keys in order, but stability is not stated.
- Store.ProjectStore.LoadProjects: the loaded projects are stated through their states, not
  their identities, and no two loaded objects are proved distinct.
- Diagram.DiagramProject.FromDiaFormat: the partial changes a failed read leaves are stated
  (`DiaReading.FromDiaSeries`), but the program discards such a project.
- `width` and `height` are constants, written to and read from no file.

## Findings

| source | as written | input that shows it | evidently intended | confidence | as-written member | corrected member |
|---|---|---|---|---|---|---|
| v3.1e.py:1091 | `apply_dia_code` reads the code into the open project without resetting it. `from_dia_format` appends to the series, so the records of the code are added after the existing ones. | Any well-formed project with at least one record, applying the code tab's own unchanged text: the series is doubled. | Valid code replaces the project's series and custom colours, so applying the unchanged code leaves the project as it is. | not executed | Editor.ApplyAsWrittenChangesProject | Editor.ApplyOwnCode |
