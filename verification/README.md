# Spreadsheet date-filter utility: a Dafny model

This project models the logic inside a small Flask utility (`server.py`). The utility lists
the `.xlsx` spreadsheets in its working directory and lets a user pick one. It keeps the rows
whose first-column date falls in an optional inclusive range. The result is shown as an HTML
table at `/` or returned as a spreadsheet attachment at `/descargar`.

Modules:

- `Wrappers`: `Option`.
- `Seqs`: selection by a boolean mask (`Filter`) and what it means to be a subsequence.
  This is the operation behind `df[mask]`. Its lemmas cover stability, idempotence,
  composition of two masks, and masks that keep everything or nothing.
- `Enumerator`: the enumeration rule of `listar_excels`. A directory listing is a sequence of
  `(name, isFile)` entries.
- `DateFilter`: the coercion of the first column to dates (`None` is the null date that
  `errors='coerce'` produces) and the reading of the two date fields. A missing or empty field
  means no bound, as in Python truthiness. It also holds the two successive masks
  (`ApplyBounds`) and the inclusive range they implement (`Admits`).
- `Server`: the request pipeline that both handlers share, stated once as a function
  (`Pipeline`) against the inclusive range. It is also written step by step as the handlers
  do it (`RunPipeline`). The `/` handler is `ShowExcel` and the `/descargar` handler is
  `DownloadExcel`.

Reading the workbook, parsing a date string and writing the workbook are parameters:
- `load: string -> Option<Sheet>`, where `None` means reading raised.
- `parse: string -> Option<Date>`, where `None` means the text is not a date.
- `write: (columns, rows) -> Option<bytes>`, where `None` means writing raised.

A `Date` is an integer ordinal on the timeline. A date field such as `2024-02-01` therefore
stands for midnight, and an upper bound of that day excludes a cell dated later that same day.

Two behaviours of the code are easy to misread:
- The attachment name is `filtrado_` followed by the selected file name (server.py:121).
- A non-empty date field is parsed with `pd.to_datetime` without `errors='coerce'`
  (server.py:33, server.py:35, server.py:109, server.py:111). A malformed field therefore
  raises instead of being ignored. That becomes the error banner on `/` (server.py:40-41) or
  status 500 on `/descargar` (server.py:124-125). `Pipeline` yields `Failed` in that case.

A sheet with no columns makes `df.iloc[:, 0]` raise. That is modelled as `Failed` too.

## Model

| member | source | states |
|---|---|---|
| `Enumerator.ListExcels` | server.py:8-9 | A name is offered iff some entry with that name ends in `.xlsx` and is a regular file. A directory named `*.xlsx` is never offered. The result is no longer than the listing, and an empty listing gives an empty result. |
| `Enumerator.ListExcelsConcat` | server.py:9 | Listing order is kept: the enumeration of `a + b` is that of `a` followed by that of `b`. |
| `Seqs.Filter` | server.py:33-35 | Mask selection keeps only elements of the input that satisfy the mask, and every such element is kept. It never lengthens the input. |
| `Seqs.FilterMultiplicity` | server.py:33-35 | Mask selection keeps each element that satisfies the mask as many times as it occurs in the input, and no occurrence of any other element: equal rows that pass both stay. |
| `Seqs.FilterIsSubsequence` | server.py:33-35 | Mask selection is stable: the result is a subsequence of the input in the original order. |
| `Seqs.FilterKeepsAll` | server.py:33-35 | A mask true on every row returns the input unchanged. |
| `Seqs.FilterKeepsNone` | server.py:33-35 | A mask false on every row returns nothing. |
| `Seqs.FilterCongruent` | server.py:33-35 | Two masks that agree on every row select the same rows. |
| `Seqs.FilterThenFilter` | server.py:33-35 | Masking twice in succession equals masking once with the conjunction of the two masks. |
| `Seqs.FilterIdempotent` | server.py:33-35 | Applying the same mask again changes nothing. |
| `DateFilter.Coerce` | server.py:29 | Coercion keeps every row and each row's other cells. Each first cell becomes its parsed date, or null where it does not parse. |
| `DateFilter.ReadBound` | server.py:32-35 | A missing or empty field is no bound. Any other text is a bound exactly when it parses, and is malformed otherwise. |
| `DateFilter.ApplyBounds` | server.py:32-35 | The lower-then-upper masks keep every input row admitted by the inclusive range, with its multiplicity, and no other row. With both bounds absent they return the input unchanged. |
| `DateFilter.ApplyBoundsIsRange` | server.py:32-35 | The successive masks equal one selection by the inclusive range `[lower, upper]`, for every combination of present and absent bounds. |
| `DateFilter.ApplyBoundsStable` | server.py:33-35 | The date filter never reorders rows: its result is a subsequence of its input. |
| `DateFilter.ApplyBoundsIdempotent` | server.py:106-111 | Filtering a filtered result again with the same bounds gives the same rows. |
| `DateFilter.InvertedRangeIsEmpty` | server.py:32-35 | A lower bound later than the upper bound leaves no rows. |
| `DateFilter.UnparseableCellKeptOnlyWhenUnbounded` | server.py:29-35 | A row whose first cell does not parse is kept when no bound is given. It is dropped when at least one bound is given. |
| `DateFilter.LowerBoundOnlyExample` | server.py:32-33 | Rows dated 2024-01-01, 2024-02-01 and 2024-03-01 with only the lower bound 2024-02-01 give exactly the last two rows, in order. |
| `Server.Pipeline` | server.py:25-35 | The outcome is invalid iff the selection is not enumerated. It fails iff the selection is valid and loading fails, the sheet has no columns, or a non-empty date field does not parse. A table holds the sheet's columns. Its rows are the coerced rows in the range, each as many times as in the sheet, in the original order. |
| `Server.InvalidSelectionNeverLoads` | server.py:102-105 | For an unlisted selection the outcome is invalid whatever the loader would return: nothing is read. |
| `Server.UnboundedKeepsEveryRow` | server.py:106-111 | With both date fields absent or empty, a readable sheet comes back with every coerced row in the same order, null dates included. |
| `Server.RunPipeline` | server.py:97-111 | The step-by-step handler code, with the table rebound through each mask, computes exactly `Pipeline`. |
| `Server.ShowExcel` | server.py:12-43 | A GET shows the offered files and an empty form. A POST echoes the fields and shows the warning iff the selection is not enumerated. It shows the error alert iff the pipeline fails. When the pipeline succeeds it shows exactly the pipeline's table. |
| `Server.Status` | server.py:103-125 | A download answers 200, 400 or 500. |
| `Server.DownloadName` | server.py:121 | The attachment name is `filtrado_` followed by the selected file name. |
| `Server.DownloadExcel` | server.py:96-125 | Status is 400 iff the selection is not enumerated. It is 500 iff the pipeline fails or writing the filtered table fails. An attachment carries the name `filtrado_` + selection, the xlsx mimetype and the bytes written from the pipeline's table. |

## Left out

- Flask routing, form decoding and the HTML template (server.py:11-23, server.py:45-93) are not modelled. The template shows the result section only when the selection is non-empty (server.py:79). So a POST with no selection gets its warning computed but not displayed; the model stops at the computed panel.
- `df.to_html` (server.py:38) is not modelled. The table panel carries the filtered rows instead of their HTML.
- `pd.read_excel` (server.py:27, server.py:105) and `pd.ExcelWriter` with `to_excel` (server.py:113-115) are parameters that may fail. Writing the workbook and reading it back is not modelled, so the round trip through the file format is not stated.
- `io.BytesIO` and `send_file` (server.py:113-123) are not modelled. The attachment response carries the written bytes, the download name and the mimetype directly, and the model assumes sending it cannot fail.
- `os.listdir` and `os.path.isfile` (server.py:9) are not modelled. The listing is an input sequence of entries.
- Date parsing in `pd.to_datetime` is not modelled: one partial function stands for both the coercing parse of cells and the strict parse of the fields. A cell is reduced to its text.
- A field that pandas itself reads as "not a time" (such as `NaT`) counts as malformed here. In pandas it would instead compare false with every row and leave an empty table.
- Exception messages (server.py:41, server.py:125) and `app.run` (server.py:127-128) are not modelled.
- The in-place assignment to the first column (server.py:29, server.py:106) is a rebinding of a local sequence. The frame is local to the request, so no other reference can observe the difference.
- DateFilter.Coerce: each cell's date depends only on that cell's text. pandas 2 instead infers one format from the first non-null cell of the column and turns cells in any other format into nulls (server.py:29, server.py:106). Take a column `2024-01-05`, `Feb 3 2024` with lower bound `2024-01-01`: pandas drops the second row, while the model keeps it whenever the parser reads that text. Format inference is part of `pd.to_datetime`, which is not modelled.
- Server.Pipeline: a comparison between a timezone-aware bound and timezone-naive cells (or the reverse) raises at server.py:33, server.py:35, server.py:109 and server.py:111. That ends in the error banner or status 500. Dates here are plain ordinals without timezones, so the model yields a table in that case.
