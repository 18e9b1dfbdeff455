# Volcano plot classification, in Dafny

A model of the core of a small gene-screening tool. The tool reads a tab-separated
result table with the columns `id`, `neg|lfc`, `neg|p-value`, `pos|lfc` and
`pos|p-value`. It classifies every row, per selected data source ("Negative",
"Positive"), as UP, DOWN or NOT SIG against an x threshold (log2 fold change) and
a y threshold (-log10 p-value). It keeps a label per point, draws the labels at
their points, and either keeps the figure in memory or saves it next to the input.
The form controller reads the same table and offers the sorted id column as gene
choices.

Files and modules:

- `results.dfy` (`Results`): `Option`, the errors the code raises (`Error`), and a failure-compatible `Result`.
- `builtins.dfy` (`Builtins`): models of the Python built-ins used. These are `list.index`, `str.rfind`, `str.rsplit(c, 1)[0]`, the ordering of `str`, and `sorted` on strings.
- `posix_path.dfy` (`PosixPath`): `os.path.basename`, `dirname` and `join` as CPython's `posixpath` defines them.
- `volcano.dfy` (`Volcano`): `volcano_plot`. It covers the header lookups, reading a point, the threshold tests and labels, the row loop, the three label-placement loops, the choice of output, and the whole call.
- `app.py`'s `upload_file` is modelled in `app.dfy` (`App`).

How the model is built:

- The row loop yields a sequence of classified points (`Event`s). The order is row order, and within a row the Negative point comes before the Positive one.
- The six lists of the loop are a fold of those points (`Bucket`). Their contents are proved to be, per category, the points of that category in order, each with its own label at the same index (`BucketContents`).
- The loop is an imperative method (`ClassifyRows`, body `ClassifySample`, per-point block `AppendPoint`). It is proved equal to that fold.
- Python's `float` is the parameter `num: string -> Option<real>`; None is a string `float` rejects. The expression `-1 * math.log10(p)` for a positive `p` is the parameter `negLog10: real -> real`. A non-positive `p` is the math domain error.

Behaviour of the code a reader might not expect:

- The gene choices are the id column sorted with duplicates kept. They are not deduplicated.
- The header checks of `upload_file` test `in` instead of `not in`. The error objects they build are never raised, so they have no effect (`App.ConstructedErrors`). On a missing column, `upload_file` fails only at `header.index('id')`; a row too short for the id column raises IndexError at app.py:50. `volcano_plot` fails at the first of its five lookups that misses.
- A bad number fails with the error of `float` (`NotAFloat`), which names the text but not the row. A p-value of at most 0 fails with `MathDomainError`.
- `fig.title(title)` (volcano.py:146-147) names an attribute a matplotlib `Figure` does not have, so a non-empty title raises AttributeError. `VolcanoPlot` sets the title as `fig.suptitle` would; see "## Findings". The as-written step is `TitleAsWritten`.
- `ClassifyRows` appends the None of an unlabelled UP point to `up_id`. The code appends it to `down_id`; see "## Findings". The as-written bookkeeping is `BucketAsWritten`.

## Model

| member | source | states |
|---|---|---|
| `Builtins.IndexOf` | volcano.py:42-46 | `header.index(name)`: the first position holding the name; None exactly when the name is absent (Python's ValueError) |
| `Builtins.RFind` | volcano.py:154 | the last position of a character, -1 exactly when it is absent, and no occurrence after it |
| `Builtins.RSplitHead` | volcano.py:154 | `s.rsplit('.', 1)[0]`: all of `s` without a '.', otherwise the prefix before the last '.', with no '.' after it |
| `Builtins.BelowTotal` | app.py:50 | Python's ordering of `str` compares any two strings |
| `Builtins.BelowTransitive` | app.py:50 | Python's ordering of `str` is transitive |
| `Builtins.BelowAntisymmetric` | app.py:50 | two strings each at most the other are equal |
| `Builtins.BelowLexicographic` | app.py:50 | `Below`, the ordering `sorted` uses on `str`, holds iff `a` is a prefix of `b` or `a` has the smaller code point at the first position where they differ |
| `Builtins.Insert` | app.py:50 | inserting into a sorted list keeps it sorted and adds exactly that element |
| `Builtins.Sort` | app.py:50 | `sorted(xs)` is sorted and a permutation of `xs` (duplicates kept) |
| `Builtins.SortedPermutationUnique` | app.py:50 | a list of strings has one sorted permutation, so `Sort` is what `sorted` returns |
| `PosixPath.Basename` | volcano.py:154 | the longest suffix of the path without a '/' |
| `PosixPath.RStripSeps` | volcano.py:156 | `rstrip('/')`: a prefix followed only by separators and not ending in one |
| `PosixPath.Dirname` | volcano.py:156 | a prefix of the path; empty when the path has no '/' |
| `PosixPath.Join` | volcano.py:156 | the result ends with the second part, and starts with the first unless the second is absolute |
| `PosixPath.DirnameShape` | volcano.py:156 | a dirname is empty, all separators, or ends in a non-separator |
| `PosixPath.BasenameJoin` | volcano.py:153-156 | joining a name without '/' to a directory and taking the basename gives the name back |
| `PosixPath.DirnameJoin` | volcano.py:153-156 | joining a name without '/' to a dirname and taking the dirname gives the directory back |
| `Volcano.Lookup` | volcano.py:42-46 | one `header.index`: the first position of the name, or `MissingColumn(name)` exactly when it is absent |
| `Volcano.LookupAll` | volcano.py:42-46 | lookups in order: succeeds iff every name is present, each at its first position; otherwise fails on the first missing name |
| `Volcano.FindColumns` | volcano.py:42-46 | the five column positions are first occurrences of their names; the error names the first missing one in the order neg\|lfc, neg\|p-value, pos\|lfc, pos\|p-value, id |
| `Volcano.StandardHeaderColumns` | volcano.py:42-46 | the standard header puts the columns at 1, 2, 3, 4 and the id at 0 |
| `Volcano.ReadFloat` | volcano.py:59-60 | `float(row[i])` succeeds iff the cell exists and parses, with its value; IndexError for a short row, ValueError naming the text otherwise |
| `Volcano.Cell` | volcano.py:56 | `row[i]` is the cell, or IndexError exactly when the row is too short |
| `Volcano.Classify` | volcano.py:58-94 | DOWN iff a Negative point has y > thr_y and x < -thr_x; UP iff a Positive point has y > thr_y and x > thr_x; NOT SIG otherwise |
| `Volcano.LabelFor` | volcano.py:62-94 | the label is the point's own id, present iff the id is listed or the point is UP or DOWN and the sentinel is listed |
| `Volcano.ReadPoint` | volcano.py:59-60 | a point reads iff both cells read and the p-value is positive, and is then (float of the x cell, -log10 of the p-value); the x cell's error comes first, then the p cell's, then the math domain error for a p-value of at most 0 |
| `Volcano.MakeEvent` | volcano.py:58-94 | a Negative point is DOWN iff y > thr_y and x < -thr_x and never UP; a Positive point is UP iff y > thr_y and x > thr_x and never DOWN; the tests are strict; a label is the point's own id, present iff the id is listed or the point is significant and the sentinel is listed |
| `Volcano.SentinelLabelsSignificant` | volcano.py:65-94 | with only the sentinel listed, a point is labelled exactly when it is UP or DOWN |
| `Volcano.Selected` | volcano.py:58-77 | the sources visited are those named in `src_data`, at most two, Negative before Positive |
| `Volcano.RowEvents` | volcano.py:55-94 | a row reads iff it holds the id column and every selected source's point reads; a row without the id column raises IndexError, else the first failing point's error, Negative before Positive; a row that reads gives one point per selected source |
| `Volcano.Events` | volcano.py:55-94 | the table reads iff every row reads |
| `Volcano.RowEventsShape` | volcano.py:55-94 | a readable row gives one point per selected source, in order, each with the row's id, the point read from its source's columns, and the classification and label rules |
| `Volcano.EventsCount` | volcano.py:55-94 | the number of points is the number of rows times the number of selected sources |
| `Volcano.EventsObey` | volcano.py:55-94 | every point of the table comes from a selected source and obeys the classification and label rules |
| `Volcano.EventAt` | volcano.py:55-94 | the point of row k and selected source j is at position k·n + j: row order, and Negative before Positive within a row |
| `Volcano.EventsFailFrom` | volcano.py:55-60 | the first row that fails to read makes the whole call fail with its error |
| `Volcano.Add` | volcano.py:62-94 | one point goes to the point list of its category and its label to the label list of the same category; the other categories are unchanged |
| `Volcano.Bucket` | volcano.py:48-94 | with the corrected bookkeeping every label list is as long as its point list |
| `Volcano.OnlySizes` | volcano.py:62-94 | every point falls in exactly one category |
| `Volcano.BucketSizes` | volcano.py:48-94 | `len(up) + len(down) + len(not_sig)` is the number of classified points |
| `Volcano.PointCount` | volcano.py:48-94 | `len(up) + len(down) + len(not_sig)` is the number of rows times the number of selected sources |
| `Volcano.BucketContents` | volcano.py:48-94 | each point list holds the points of its category in row order, and its label list holds each point's own label at the same index |
| `Volcano.AppendPoint` | volcano.py:62-94 | one source's block appends the point and its label to the lists of the category the rules give |
| `Volcano.ClassifySample` | volcano.py:56-94 | one iteration appends the row's points in order, or fails with the row's first error |
| `Volcano.ClassifyRows` | volcano.py:48-94 | the loop's six lists are the aligned lists of all points of the table, or the first failing row's error |
| `Volcano.AddAsWritten` | volcano.py:77-94 | the as-written block differs from the corrected one only at an unlabelled UP point, whose None goes to `down_id` and not to `up_id` |
| `Volcano.BucketAsWritten` | volcano.py:48-94 | as written, UP and DOWN labels together are as many as UP and DOWN points, and NOT SIG labels stay aligned |
| `Volcano.AsWrittenAgainstCorrected` | volcano.py:82-87 | with the loop as written, points and NOT SIG labels are unchanged; `up_id` keeps only the named UP labels; `down_id` gains one None per unlabelled UP point |
| `Volcano.AsWrittenWithoutUp` | volcano.py:84-87 | without UP points the as-written lists are the aligned ones |
| `Volcano.NegativeOnlyAligned` | volcano.py:58-75 | with only "Negative" selected, `len(down_id) == len(down)`, `len(not_sig_id) == len(not_sig)`, and no UP entries |
| `Volcano.PlaceLabels` | volcano.py:107-141 | a placement loop draws label i at point i; it raises IndexError exactly when the label list is non-empty and shorter than the point list; it draws nothing when the label list is empty |
| `Volcano.Drawn` | volcano.py:107-141 | with labels, one text per point, label i at point i; without labels, no texts |
| `Volcano.PlaceAll` | volcano.py:105-141 | the three placement loops succeed iff each can index its labels; the texts are UP, then DOWN, then NOT SIG |
| `Volcano.AlignedLabelsAtOwnPoints` | volcano.py:107-141 | with aligned lists every placement loop succeeds, and every text is a point's own label at that point |
| `Volcano.MisfiledUpLabel` | volcano.py:82-114 | the two-row table of the Findings row reads as two UP points; as written it leaves two UP points and one UP label, so the UP loop raises IndexError; the aligned lists draw both points with their own labels |
| `Volcano.MisfiledDownShift` | volcano.py:82-125 | a two-row table with an unlabelled UP point (geneA) before a labelled DOWN point (geneC) leaves `down_id` as [None, "geneC"], so geneC's point is drawn with None and its label is lost |
| `Volcano.OneRowEvents` | volcano.py:55-94 | the example row "geneA" gives a DOWN Negative point and a NOT SIG Positive point, both unlabelled |
| `Volcano.OneRowScenario` | volcano.py:55-94 | the one-row table "geneA" classifies as DOWN from Negative and NOT SIG from Positive |
| `Volcano.SaveTarget` | volcano.py:152-165 | a non-empty format saves to a file; an absent or empty format keeps the figure in memory |
| `Volcano.SaveTargetRoundTrip` | volcano.py:152-156 | the saved file is in the input's directory, named the input's basename up to its last '.' plus '.' and the format |
| `Volcano.TitleAsWritten` | volcano.py:146-147 | as written, the title step succeeds iff the title is empty; otherwise AttributeError on `title` |
| `Volcano.FigureTitle` | volcano.py:146-147 | the intended title step shows a title iff it is non-empty, and shows that title |
| `Volcano.TitleAsWrittenAgainstIntended` | volcano.py:146-147 | the as-written title step fails exactly when the intended one would show a title |
| `Volcano.VolcanoPlot` | volcano.py:42-165 | with the two corrections of "## Findings", the call fails only on a missing column or an unreadable row, with that error; otherwise it returns the aligned lists, their label texts, the title and the output target |
| `App.Present` | app.py:34-47 | the names of a list found in the header |
| `App.ConstructedErrors` | app.py:34-47 | an error object is built for a column exactly when the column is present (the test is inverted); none is raised |
| `App.IdColumn` | app.py:50 | `[sample[idx_id] for sample in data]` succeeds iff every row holds the id column, and then holds each row's id in row order; IndexError otherwise |
| `App.UploadFile` | app.py:29-58 | fails with a missing-column error iff "id" is absent, else with IndexError iff a row lacks the id; otherwise there are len(data) + 1 choices, the sentinel first, then the id column sorted as a permutation; the defaults are the sentinel and 1.0, and the button label is "Uploaded " plus the basename |

## Findings

| source | as written | input that shows it | evidently intended | confidence | as-written member | corrected member |
|---|---|---|---|---|---|---|
| volcano.py:146-147 | `fig.title(title)` is called on the `Figure` from `plt.subplots()`, which has no attribute `title` | any non-empty title, e.g. "Screen A": AttributeError before the figure is saved or returned | `fig.suptitle(title)` | high; not executed | `Volcano.TitleAsWritten` | `Volcano.FigureTitle` |
| volcano.py:84-87 | an UP point that gets no label appends its None to `down_id`, not `up_id` | "Positive" only, genes_label ["geneB"], thresholds 1.0 and 1.3, rows geneA (pos\|lfc 2.0, pos\|p-value 0.001) then geneB (pos\|lfc 3.0, pos\|p-value 0.0001): `up` has two points and `up_id` is ["geneB"]. The UP loop draws "geneB" at geneA's point, then raises IndexError | append None to `up_id`, so each label list stays aligned with its point list | high; not executed | `Volcano.MisfiledUpLabel` | `Volcano.AlignedLabelsAtOwnPoints` |

`ClassifyRows`, `ClassifySample`, `AppendPoint` and `VolcanoPlot` use the corrected bookkeeping, and `VolcanoPlot` sets the title through `FigureTitle`.

## Left out

- Volcano.VolcanoPlot: models the call with the title set as `fig.suptitle` sets it. As written, any non-empty title raises AttributeError at volcano.py:147 (see "## Findings"), and only an empty title reaches the save step.
- Reading the file and splitting it on tabs (volcano.py:39-40, app.py:31-32). The header and the rows are given as sequences of strings.
- Floating point: `float` and `-log10` are the parameters `num` and `negLog10`. NaN and infinities are not modelled, nor is the default y threshold `round(-log10(0.05), 2)` (app.py:59-62).
- Drawing (volcano.py:96-103, 108, 117, 128-130, 143-150, 157, 161-165). This covers the numpy arrays, the scatter plots and colours, the guide lines, `adjust_text`, the axis labels, writing the file and the PIL image. The model keeps the classified points, the label texts, the title and where the figure goes.
- All gradio widgets, visibility flags, `draw_plot` and the event wiring (app.py:53-65 apart from the values modelled, app.py:68-198).
- `os.path` is modelled for POSIX paths only.
