# DeepFakeECG Plus session registry, in Dafny

This project models the per-browser-session core of the DeepFakeECG Plus web
front end (`app.py`). Each browser tab owns a `Session` record. The record
holds:

- the last batch of generated ECG signals;
- the selected signal;
- the cached analysis figure of that signal;
- the ECG type;
- a private temporary directory for exports.

The records live in the module-level table `Sessions`, keyed by the tab's
session hash. Five handlers work on that table:

- `initializeSession` inserts a fresh record.
- `cleanUpSession` closes the record's figure and deletes the record.
- `predict` does several things:
  - resolves the ECG-type choice;
  - replaces the batch and the type;
  - numbers the gallery;
  - caches a figure of the first signal.
- `analyze` selects a signal, closes the old figure and caches a new one.
- `download` (and its three wrappers) derive the export file and its lead
  list from the selection and the type.

Files:

- `options.dfy`: the `Option` and `Result` datatypes.
- `decimal.dfy`: Python's `str(n)` on naturals (`NatToString`) and a parser
  that reads it back.
- `ecg.dfy`: the pure parts, in the order of the code:
  - type resolution;
  - the gallery plot layouts and captions;
  - the PDF lead list;
  - export file names, with a parser that reads a name back into
    directory, selection and extension.
- `sessions.dfy`: the imperative part:
  - `SessionStore`, whose `sessions` map is the `Sessions` dict and whose
    methods are the handlers;
  - the gallery loop;
  - the figure bookkeeping;
  - three session scenarios.

A session record is a datatype value in that map. No handler keeps a
reference to a record; every access goes through `Sessions[hash]`, so
assigning one of a record's fields is modelled as replacing the entry.

Figures are objects (`class Figure`), because pyplot figures have identity.
The store keeps two ghost records of them:

- `figures`: every figure `plotAnalysis` produced;
- `closed`: the log of `pyplot.close` calls, in order.

`Valid()` says three things:

- session directories are distinct and lie under the process root;
- every cached figure was produced, is open, and is cached by one session only;
- the close log names produced figures, each at most once, so no figure is
  closed twice (given that rendering does not raise; see "## Left out").

`Leaked()` is the set of produced figures that are neither closed nor cached.
Every handler states exactly how it changes `Leaked()`.

External collaborators are modelled as inputs:

- The generator's outcome is a parameter, `Result<seq<Signal>, string>`.
- `Signal` is an opaque type.
- `plotAnalysis` returns a fresh `Figure` that records the signal it
  shows.
- A gallery image records the signal and the layout type.

## Model

| member | source | states |
|---|---|---|
| Decimal.NatToString | app.py:181 | `str(n)` is a non-empty string of digits, with no leading zero unless n is 0 |
| Decimal.ParseNatToString | app.py:217 | reading the decimal text of n back gives n, so the numbers in captions and file names are recoverable |
| Decimal.NatToStringInjective | app.py:229 | distinct numbers have distinct decimal texts |
| Ecg.ResolveEcgType | app.py:122-128 | "ECG-8" gives the 8-lead type; every other string gives the 12-lead type; a warning is emitted exactly when the string is neither "ECG-8" nor "ECG-12" (no error) |
| Ecg.PlotLayoutFor | app.py:160-174 | the gallery layout has one lead name per data row, and a display order of that length that shows every lead |
| Ecg.Label | app.py:181 | the reference definition of the caption `f'ECG Number {k}'`: "ECG Number " followed by the digits of k, with no leading zero; `LabelRoundTrip` and `LabelsDistinct` are about it |
| Ecg.LabelRoundTrip | app.py:181 | the caption "ECG Number k" reads back as k |
| Ecg.LabelsDistinct | app.py:181-183 | distinct gallery numbers give distinct captions |
| Ecg.OutputLeads | app.py:230-233 | the PDF lead list has 12 names for the 12-lead type and 8 otherwise (also when no type is set), and holds no name twice |
| Ecg.OutputLeadsMatchPlot8 | app.py:233 | for 8 leads the PDF lead list is exactly the gallery's display order |
| Ecg.OutputLeadsMatchPlot12 | app.py:231 | for 12 leads the PDF lead list is the gallery's display order with aVR and aVL swapped |
| Ecg.Extension | app.py:213-229 | the CSV kind uses ".csv" and both PDF kinds use ".pdf" |
| Ecg.ExportPath | app.py:216-217 | the reference definition of the export path `Path(dir) / ('ECG-' + str(selected + 1) + ext)`: the directory, "/ECG-", a number without leading zero, then the extension; `ExportPathRoundTrip`, `ExportPathInjective` and `ExportPathIsUnder` are about it |
| Ecg.ExportPathRoundTrip | app.py:216-217 | `<dir>/ECG-<selected+1><ext>` parses back to the directory, the 0-based selection and the extension |
| Ecg.ExportPathInjective | app.py:228-229 | two export paths are equal only when directory, selection and extension are all equal |
| Ecg.ExportPathIsUnder | app.py:216-217 | an export path lies inside the session directory it is built from |
| Ecg.IsUnderTransitive | app.py:80-81 | a file in a session directory, which lies in the process root, is itself under the root |
| Sessions.PlotAnalysis | app.py:193-206 | plotAnalysis returns a new figure of the given signal |
| Sessions.BuildGallery | app.py:147-183 | the gallery has one entry per signal, in order; entry k shows signal k with the batch's layout type and is captioned exactly `Label(k + 1)`, "ECG Number k+1", which reads back as k+1 |
| Sessions.CloseKeepsFiguresOwned | app.py:103-105 | closing a session's figure and then clearing or deleting it keeps figures owned once and leaks nothing |
| Sessions.OverwriteLeaksPrevious | app.py:186-187 | overwriting a session's figure without closing it keeps the invariant and leaks exactly the replaced figure |
| Sessions.ReplaceFigure | app.py:267-269 | closing a session's figure and caching a new one leaks nothing |
| Sessions.AddRecordValid | app.py:95-96 | inserting a fresh record with a new directory keeps the invariant; a replaced record's figure is leaked |
| Sessions.RemoveRecordValid | app.py:101-105 | closing and deleting a record keeps the invariant and leaks nothing |
| Sessions.KeepRecordValid | app.py:136-144 | updating a record's batch, type or selection keeps the invariant and changes no figure's status |
| Sessions.OverwriteRecordValid | app.py:186-187 | caching a new figure over the old one keeps the invariant and leaks the old one |
| Sessions.ReplaceRecordValid | app.py:266-269 | closing the old figure and caching a new one, or none, keeps the invariant and leaks nothing |
| Sessions.SessionStore.constructor | app.py:91 | the table starts empty and valid |
| Sessions.SessionStore.InitializeSession | app.py:95-96 | the entry for the hash becomes a fresh record and every other entry is unchanged; the fresh record has counter 0, selection 0, no results, no figure, no type, and its own new directory; a replaced record's figure is leaked, not closed |
| Sessions.SessionStore.CleanUpSession | app.py:101-106 | the hash is removed and nothing else changes; its figure, if any, is closed; an absent hash changes nothing, so repeating the call is harmless; no figure leaks |
| Sessions.SessionStore.StoreBatch | app.py:136-187 | the batch and type are replaced wholesale and the selection is kept; for a non-empty batch a new figure of signal 0 overwrites the old one, which is leaked |
| Sessions.SessionStore.Predict | app.py:110-189 | the warning is emitted iff the type string is unknown; a failing generator changes nothing; an empty batch is stored and then fails (Results[0]); otherwise gallery entry k shows signal k and is captioned exactly `Label(k + 1)`, the figure shows signal 0, the selection is kept and the previous figure leaks |
| Sessions.SessionStore.ResetBatch | app.py:136-187 | corrected state update: the old figure is closed, the batch and type are stored, the selection becomes 0, and the cached figure shows the selected signal |
| Sessions.SessionStore.PredictCorrected | app.py:110-189 | corrected predict: same gallery (entry k captioned exactly `Label(k + 1)`) and type behaviour; afterwards the figure shows the selected signal, the old figure is closed, and nothing leaks |
| Sessions.SessionStore.Analyze | app.py:260-270 | the selection becomes the index; for an index within the batch, the old figure is closed and a new figure of that signal is cached, and nothing leaks; past the batch, only the selection changes (IndexError) |
| Sessions.SessionStore.Download | app.py:210-241 | a tensor format returns nothing; an unknown hash or a selection past the batch is an error; otherwise the export holds the selected signal and the stored type, its path is exactly `ExportPath(directory, selected, extension)` and parses back to the session directory, the selection and the format's extension, and lies under the root; a PDF carries the format, number selected+1, and exactly the lead list `OutputLeads(type)`, 12 leads iff the type is 12-lead |
| Sessions.SessionStore.DownloadCsv | app.py:245-246 | succeeds exactly when the session exists and the selection is within the batch, with a CSV export at exactly `ExportPath(directory, selected, ".csv")` |
| Sessions.SessionStore.DownloadPdf | app.py:250-251 | succeeds exactly when the session exists and the selection is within the batch, with a PDF export at exactly `ExportPath(directory, selected, ".pdf")` |
| Sessions.SessionStore.DownloadPdfWithAnalysis | app.py:255-256 | as DownloadPdf, with the analysis format |
| Sessions.SessionStore.PdfKindsShareFile | app.py:228-229 | both PDF kinds write the same file, so they overwrite each other, and the CSV file is different |
| Sessions.SessionStore.ExportsIsolated | app.py:216-229 | exports of two different sessions never share a path |
| Sessions.FourthSelected | app.py:263-269 | after four signals and a click on the fourth, the selection is 3 and the figure shows the fourth signal |
| Sessions.StaleSelection | app.py:136-189 | predicting one signal after selecting the fourth leaves the selection at 3: the CSV download fails and the fourth signal's figure is leaked |
| Sessions.FreshSelection | app.py:136-189 | with the corrected predict the same steps export the new signal as ECG-1.csv and leak nothing |
| Sessions.ThirdOfFourSelected | app.py:122-144 | "ECG-8" with four signals and a click on the third stores the batch, the 8-lead type and selection 2 |
| Sessions.ThirdPdfName | app.py:228-229 | the PDF of selection 2 is named ECG-3.pdf |
| Sessions.ExportThenClose | app.py:101-106 | after a PDF-with-analysis export of the third signal, the path is `<dir>/ECG-3.pdf`; after cleanUpSession, the session is unknown to download |

## Left out

- The GUI tree, CSS, header HTML and event wiring: interface only.
  Which handler runs when is taken from the code's call sites.
- The generator, `ecg_plot`, `neurokit2`, matplotlib drawing, WebP
  encoding and the tensor conversions (floating point and foreign
  libraries).
  - Signals are opaque.
  - The generator's outcome is an input.
  - A figure records only the signal it shows.
  - A gallery image records only the signal and the layout type.
- `Analyze`, `PlotAnalysis`, `Predict`, `PredictCorrected`: rendering
  (`plotAnalysis` with `neurokit2.ecg_process`, `ecg_plot`, `savefig`) is
  assumed not to raise; only the generator may fail. In app.py a raising
  `plotAnalysis` does the following:
  - In analyze (app.py:267-269), the old figure is already closed but
    stays in `Analysis`. A later analyze (app.py:268) or cleanUpSession
    (app.py:104) then closes it a second time. `Valid()` rules that state
    out, so the model does not capture this double close.
  - In predict (app.py:150-187), a raise in the loop or in `plotAnalysis`
    leaves the new `Results` and `Type` stored and the old `Analysis` in
    place. The model builds the gallery before it stores the batch, which
    gives the same outcome only because neither step can fail.
- The figures `ecg_plot` draws for gallery images are closed within the
  loop iteration that creates them. They never reach a session, so the
  figure bookkeeping does not track them.
- File writing by `dataToCSV`/`dataToPDF`, the creation of temporary
  directories, and their removal by `__del__` when a record is
  garbage-collected.
  - A directory is a name, which `InitializeSession` takes as an input
    that is new and under the root.
  - `ExportPath` joins with a plain "/". `pathlib.Path(d) / name`
    (app.py:216, 228) also normalises `d`: it drops a trailing "/",
    collapses "//" and removes "." components. The two agree for every
    directory already in that normal form, which covers every name
    `tempfile` creates. The model does not exclude other names.
    `ExportsIsolated` relies on this: it compares directory names, so two
    names that `pathlib` reads as one directory (`r/x` and `r//x`) count
    as distinct in the model.
  - Removal is not modelled.
- `Session.Lock` is created but never acquired; concurrency is not
  modelled, and each handler runs as one atomic step.
- `Session.Counter` is initialised to 0 and never used again; the model
  keeps the field at 0.
- `predict`'s `generatorModel` argument is unused by the code and does not
  appear in the model.
- `Locator.MAXTICKS`, command-line parsing, `log` and `version.py`:
  process plumbing.
- A handler called with a hash that was never initialised fails with
  `KeyError` in the code. `Predict`, `PredictCorrected` and `Analyze`
  require the hash to be present. This is an assumption about the order of
  events, which app.py does not fix: `initializeSession` (app.py:387) and
  `predict` (app.py:474-479) are both registered on the page-load event.
  It is enough that `initializeSession` has run by the time the generator
  returns, because `predict` first touches `Sessions` at app.py:136, after
  the generator call. `Download` models the missing hash as the error
  `UnknownSession`.
- `Predict`: the batch length is the requested count (`requires`), since
  the generator is asked for exactly that many signals.
- `dataToPDF` receives the signal, the type, the lead list, the file
  name, the format and the number (app.py:235-236), and no figure, even
  for the PDF with analysis. So `Export` carries no figure.
- An empty batch raises `IndexError` at `Results[0]` in predict
  (app.py:187) and at `Results[Selected]` in download (app.py:214, 226). The
  model returns `NoResults` (predict) or `NoSuchSignal` (download).

## Findings

| source | as written | input that shows it | evidently intended | confidence | as-written member | corrected member |
|---|---|---|---|---|---|---|
| app.py:136-189 | predict replaces Results but never resets Selected | predict 4 signals, analyze index 3, predict 1 signal, then downloadCSV: `Results[3]` raises IndexError | Selected is reset to 0 with every new batch: predict caches and shows the figure of `Results[0]` (app.py:186-189), so the selection should name that signal, as analyze keeps Selected and the cached figure on the same signal (app.py:263-269) | medium, not executed | Sessions.StaleSelection | Sessions.SessionStore.PredictCorrected |
| app.py:186-187 | predict overwrites Analysis without `pyplot.close` on the previous figure, unlike analyze (app.py:267-268) and cleanUpSession (app.py:103-104) | predict twice in one tab: the first figure is neither cached nor closed | close the previous figure before caching the new one, as analyze and cleanUpSession do before they drop a figure | high, not executed | Sessions.SessionStore.Predict | Sessions.SessionStore.PredictCorrected |
