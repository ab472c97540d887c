# BandgapAnalyzer spectrum registry in Dafny

`BandgapAnalyzer` (XPlotLib) keeps four name-keyed tables of X-ray spectra: experimental and
calculated, each split into XES (emission) and XAS (absorption). Beside the tables it keeps
some plot settings: figure size, x-limits for each column of panels, a title, the panel labels,
and one annotation arrow per spectrum type. Every operation that takes a spectrum type accepts
only `"xes"` or `"xas"`. Any other type raises `ValueError('type must be either "xes" or "xas"')`
before anything else happens.

- `load_exp_spectra` reads one CSV file under interleaved headers `<name>_energy`,
  `<name>_intensity` (one pair per name). It then stores each name's two-column slice in that
  type's experimental table.
- `load_calc_spectra` stores the whole two-column table it reads under a single name.
- `smoothen` looks up a stored experimental spectrum. It writes `<name>_smoothed_intensity`
  (the smoother's output) into it, then `<name>_smoothed_2nd` (the gradient of the gradient of
  that output over the energies). The smoothed column is written (line 116) before the gradient
  is computed (line 118), so a gradient failure leaves the new smoothed column written and the
  second-derivative column as it was before the call. On a spectrum with rows, a column of
  the wrong length is refused by pandas' length check.
- `add_arrow` and the three setters overwrite their own fields and nothing else.

The project has seven modules:

- `Errors`: the `Option` and `Result` wrappers, and the errors the operations raise.
- `Labels`: the column-name suffixes, the header list built from the spectrum names, and
  lemmas about it (layout, injectivity, when it repeats a label).
- `Frames`: a pandas data frame as a value. It has labels in order, a column per label and a
  row count. The module also has column lookup, column selection, column assignment with
  pandas' length check, and building a frame from a parsed CSV table.
- `Spectra`: the type check, loading under the generated headers, picking one spectrum out of
  a loaded table, and smoothing one frame.
- `Display`: the normalization the plot applies to intensities (`__normalize`).
- `Registry`: the analyzer's state as a value, one step function per type-dispatched
  operation, and the lemmas about which table changes, which keys and columns appear, what
  stays, and which error is raised.
- `Analyzer`: the class `BandgapAnalyzer`. Its fields are the source's instance attributes.
  Its methods update them in place. Each type-dispatched method ensures that its new state and
  raised error equal the matching `Registry` step applied to the old state; each setter ensures
  that only its own fields change. The `for name in names` loop of
  `load_exp_spectra` is a `while` loop with its invariant.

Inputs the model takes as parameters instead of computing them:

- The parsed CSV file is an input `CsvRead`. It is either a table of columns with a row count,
  or `Unreadable` (the file cannot be opened or parsed).
- The smoother `non_uniform_savgol` and the gradient `np.gradient` are opaque function
  parameters. Each returns `None` where the real routine raises.

Python exceptions become `Err`/`Some(error)` values. The state an exception leaves behind is
the state the method returns with.

A bad type raises `ValueError` with the fixed message of lines 51, 81, 111 and 194 of
src/XPlotLib/BandgapAnalyzer.py. The tables are mutated in place by lines 56, 84, 116 and 118.

## Model

| member | source | states |
|---|---|---|
| Labels.HeadersLayout | src/XPlotLib/BandgapAnalyzer.py:20-22 | the header list has length 2k; position 2i is `names[i]_energy` and 2i+1 is `names[i]_intensity`, so the order of `names` is kept; every name's two labels occur in it |
| Labels.SingleHeaders | src/XPlotLib/BandgapAnalyzer.py:83 | the headers for the single name of `load_calc_spectra` are exactly `[name_energy, name_intensity]` |
| Labels.HeadersDistinct | src/XPlotLib/BandgapAnalyzer.py:20-23 | the headers repeat no label if and only if the names repeat no name (both directions) |
| Labels.LabelsInjective | src/XPlotLib/BandgapAnalyzer.py:113-118 | for each of the four suffixes, two names get the same label exactly when they are the same name |
| Labels.SpectrumLabelsDiffer | src/XPlotLib/BandgapAnalyzer.py:113-118 | the energy, intensity, smoothed and second-derivative labels of one spectrum are pairwise different |
| Spectra.ParseKind | src/XPlotLib/BandgapAnalyzer.py:46-51 | a type is accepted exactly when it is "xes" or "xas", and maps back to that string; any other type gives the ValueError with the message of the code |
| Spectra.KindRoundTrip | src/XPlotLib/BandgapAnalyzer.py:46-49 | each kind's name parses to that kind |
| Spectra.LoadSpectrum | src/XPlotLib/BandgapAnalyzer.py:20-23 | loading succeeds exactly when the names are distinct and the file is readable; repeated names fail before reading; on success the frame is well-formed, labelled by the headers, and column 2i/2i+1 of the file sits under name i's energy/intensity label |
| Spectra.ExpEntry | src/XPlotLib/BandgapAnalyzer.py:56 | `df[[energy, intensity]]` is a frame of exactly those two labels, in that order, with the table's columns and row count, and a valid stored spectrum when the table is valid |
| Spectra.ExpEntriesAt | src/XPlotLib/BandgapAnalyzer.py:55-56 | the loop writes an entry for every listed name and no other, each one the name's two-column slice |
| Spectra.SmoothenFrame | src/XPlotLib/BandgapAnalyzer.py:113-118 | smoothing keeps the row count and well-formedness, adds no column except the two derived ones, keeps every other column, writes both on success, and raises KeyError for a missing energy or intensity column, changing nothing |
| Spectra.SmoothenSucceeds | src/XPlotLib/BandgapAnalyzer.py:115-118 | when smoother and gradients succeed with the right length, the columns become the old ones plus the smoothed intensity and the gradient of its gradient; the labels gain those two at the end; energy and intensity stay |
| Spectra.SmoothenFailures | src/XPlotLib/BandgapAnalyzer.py:115-118 | a smoother failure or a wrong-length output changes nothing; a gradient failure or a wrong-length derivative leaves the new smoothed column written and nothing else changed |
| Spectra.SmoothenKeepsStaleDerivative | src/XPlotLib/BandgapAnalyzer.py:116-118 | after the smoother succeeds, a failing or wrong-length second derivative leaves the second-derivative column as it was before the call: absent after a first smoothen, holding the earlier values after a repeat |
| Spectra.SmoothenIdempotent | src/XPlotLib/BandgapAnalyzer.py:113-118 | smoothing an already smoothed spectrum again with the same routines changes nothing |
| Frames.Select | src/XPlotLib/BandgapAnalyzer.py:56 | selecting distinct present labels gives a frame with exactly those labels, in that order, holding the same columns and row count |
| Frames.Assign | src/XPlotLib/BandgapAnalyzer.py:116-118 | a column assignment fails exactly when the length differs from the row count; otherwise it replaces or adds that one column, keeps an existing label's position, appends a new one, and keeps well-formedness |
| Frames.AssignSame | src/XPlotLib/BandgapAnalyzer.py:116-118 | writing a column's own values back leaves the frame as it was |
| Frames.Labelled | src/XPlotLib/BandgapAnalyzer.py:23 | a parsed table under distinct headers is a well-formed frame with column k under header k |
| Display.Normalize | src/XPlotLib/BandgapAnalyzer.py:25-27 | normalizing keeps the length and divides each sample by the largest magnitude; results lie in [-1, 1] and reach 1 or -1; an empty input fails as Python's max does, and an all-zero input fails exactly then |
| Registry.InitialValid | src/XPlotLib/BandgapAnalyzer.py:7-18 | a fresh state has four empty tables and no arrows, and satisfies the invariant |
| Registry.LoadExpStep | src/XPlotLib/BandgapAnalyzer.py:45-56 | load_exp_spectra fails exactly for a bad type, repeated names or an unreadable file, with those errors in that order, and then leaves the state as it was |
| Registry.LoadExpKeepsValid | src/XPlotLib/BandgapAnalyzer.py:54-56 | loading keeps every stored experimental entry a well-formed spectrum of its own name |
| Registry.LoadExpStores | src/XPlotLib/BandgapAnalyzer.py:54-56 | after a successful load, the keys of that type's experimental table are the old keys plus the names; each name holds exactly its energy and intensity columns of the file; other keys keep their spectra; the other three tables and the settings are unchanged |
| Registry.LoadCalcStep | src/XPlotLib/BandgapAnalyzer.py:75-84 | load_calc_spectra fails exactly for a bad type or an unreadable file, and then leaves the state as it was |
| Registry.LoadCalcKeepsValid | src/XPlotLib/BandgapAnalyzer.py:83-84 | loading a calculated spectrum keeps every calculated entry well-formed |
| Registry.LoadCalcStores | src/XPlotLib/BandgapAnalyzer.py:83-84 | after a successful load the name holds the whole file under its two headers, overwriting any earlier entry; the experimental tables, the other calculated table and the settings are unchanged |
| Registry.SmoothenStep | src/XPlotLib/BandgapAnalyzer.py:105-114 | smoothen raises the type's ValueError for a bad type and KeyError(name) when the name is not in that type's experimental table, changing nothing in either case |
| Registry.SmoothenKeepsValid | src/XPlotLib/BandgapAnalyzer.py:113-118 | smoothing keeps the invariant, failed or not; on a valid state the only KeyError it raises is for the spectrum name |
| Registry.SmoothenKeepsSpectrum | src/XPlotLib/BandgapAnalyzer.py:113-118 | smoothing a stored spectrum leaves a stored spectrum, and never raises KeyError for its columns |
| Registry.SmoothenKeepsKeys | src/XPlotLib/BandgapAnalyzer.py:113-118 | smoothing adds and removes no key, changes no spectrum except the named one of the given type, and leaves the calculated tables and the settings alone |
| Registry.SmoothenStores | src/XPlotLib/BandgapAnalyzer.py:115-118 | a successful smoothen means the name was present and both routines succeeded; the spectrum's columns become the old ones plus the smoothed intensity and the gradient of its gradient |
| Registry.AddArrowStep | src/XPlotLib/BandgapAnalyzer.py:188-194 | add_arrow stores (xy, xytext, text, text_rot) in exactly the slot of the given type; the other slot and every other field are unchanged; a bad type raises the ValueError |
| Registry.TypeCheckedFirst | src/XPlotLib/BandgapAnalyzer.py:46-51 | for a type other than "xes"/"xas", load_exp_spectra, load_calc_spectra, smoothen and add_arrow (lines 46-51, 76-81, 106-111, 189-194) return the state unchanged with the ValueError, whatever the file, names or state |
| Analyzer.BandgapAnalyzer.constructor | src/XPlotLib/BandgapAnalyzer.py:7-18 | a new analyzer has four empty tables, figsize (14, 8), no x-limits, the fixed panel labels, no arrows and no title |
| Analyzer.BandgapAnalyzer.LoadExpSpectra | src/XPlotLib/BandgapAnalyzer.py:45-56 | the object ends in the state and with the error of the load_exp_spectra step, and stays valid |
| Analyzer.BandgapAnalyzer.StoreSpectra | src/XPlotLib/BandgapAnalyzer.py:55-56 | the loop puts every name's slice into the chosen experimental table in list order and changes no other field |
| Analyzer.BandgapAnalyzer.LoadCalcSpectra | src/XPlotLib/BandgapAnalyzer.py:75-84 | the object ends in the state and with the error of the load_calc_spectra step, and stays valid |
| Analyzer.BandgapAnalyzer.Smoothen | src/XPlotLib/BandgapAnalyzer.py:105-118 | the object ends in the state and with the error of the smoothen step, including a partial update, and stays valid |
| Analyzer.BandgapAnalyzer.SetTitle | src/XPlotLib/BandgapAnalyzer.py:142-143 | only the title changes |
| Analyzer.BandgapAnalyzer.SetFigsize | src/XPlotLib/BandgapAnalyzer.py:154-155 | only the figure size changes |
| Analyzer.BandgapAnalyzer.SetXlims | src/XPlotLib/BandgapAnalyzer.py:168-170 | both x-limits are set together and nothing else changes |
| Analyzer.BandgapAnalyzer.AddArrow | src/XPlotLib/BandgapAnalyzer.py:188-194 | the object ends as the add_arrow step says, with text_rot 0 unless given, and stays valid |

## Left out

- `pd.read_csv` (file access, separator, skipped rows, number parsing) is not modelled. Its
  outcome is the `CsvRead` input, so `path`, `skiprows` and `sep` are not parameters. The
  requires `Shaped` says a parsed table has one column per header, all of the same length.
  That is what the reader returns when given `names`. Files with fewer or more fields per line
  (NaN padding, an index column) are not modelled.
- `non_uniform_savgol` is not modelled. It lives in XPlotLibUtils, which is not part of this
  model. It is an opaque parameter whose output length is not assumed. On a spectrum with rows,
  a wrong length is the pandas length error.
- `np.gradient` is an opaque parameter for the same reason: floating-point finite differences.
- Frames.Assign: refuses every column whose length differs from the row count, also on a frame
  with zero rows. pandas does not refuse a non-empty column there. It takes the new column's
  index as the frame's index and fills the existing columns with NaN. So for a spectrum read
  from a file with no data lines, the model reports `LengthMismatch` at line 116 where the
  source writes the column and fails later, in the gradient of line 118. NaN columns have no
  counterpart among the model's reals.
- Samples are real numbers, not float64. Rounding, NaN and infinities are not modelled.
- Display.Normalize: an all-zero input is reported as `ZeroScale` where Python would produce
  NaN values without raising. The ValueError an empty input raises in Python is
  `EmptySequence`.
- `plot` is not modelled (matplotlib rendering, panel layout, and the use of the settings, the
  panel labels and the arrows). Nor is the `show` branch of `smoothen`. `onset_region` and
  `show` are accepted by `Smoothen` and have no effect in the model.
- pandas views versus copies, `SettingWithCopyWarning`, and the index alignment of column
  assignment are not modelled. A stored spectrum is a value of its own: `df[[...]]` returns a
  copy, and no two entries share a frame.
- Frames.Select requires distinct labels that are all present. A duplicated selection list or
  a missing label never arises from the source's own calls, so pandas' behaviour for those is
  not modelled.
- The tests under tests/ compare rendered images and exported files. They are not part of this
  model.
