# calc_sens: the sensitivity-config generator, modelled in Dafny

`Calc_Sens.py` is a small desktop tool. It writes one Quake III Arena
(Excessive Plus) console config file per integer "cm/360" value, built from
the game's `set`, `vstr` and `bind` commands. Each file sets a normal mouse
sensitivity and a lower one for zoom, with the zoom decrease interpolated
between two percentages across the range. This project models the logic of
its `ConfigWindow` and proves properties of that model:

- `validate_inputs`: the empty-field check.
- `_calculate_realtime_sens`: the live preview of the two boundary
  sensitivities.
- `base_sensitivity`: both copies of the formula.
- `generate_config`: reads the form, creates the folder, loops over
  `range(int(from_cm), int(to_cm) + 1, int(step))` and writes `<cm>.cfg`
  files.

Files:

- `py_builtins.dfy` (module `PyBuiltins`) models the Python built-ins the
  code relies on, over exact arithmetic:
  - the exceptions the code can raise;
  - `int()` of a float, which truncates toward zero;
  - `round(x, 3)`, which rounds half to even and is kept as an integer count
    of thousandths;
  - `range(start, stop, step)` with Python's length rule, including
    descending ranges and `ValueError` for a zero step.
- `py_text.dfy` (module `PyText`) models `int(text)` and `float(text)` for
  plain decimal text. It also models `str()` of an int and of a value that
  `round(_, 3)` returned, e.g. `104.0`, `77.931`, `0.05`. It proves the round
  trips between them.
- `calc_sens.dfy` (module `CalcSens`) holds the form, the formulas, the file
  text, and the output folder. The folder is a class `OutputFolder`:
  - `present` and `files` are fields that `generate_config` updates in place;
  - `files` maps a file name to its text;
  - `creatable` and `denied` are constants saying what the operating system
    refuses.

  `CalcSens.GenerateConfig` and `CalcSens.WriteFiles` are the imperative
  method and its `for` loop. Both are proved against the functions
  `Generation` and `Emit`. `Preview` and `PreviewAsWritten` model the preview.
- `calc_sens_props.dfy` (module `CalcSensProperties`) holds the lemmas:
  - the formulas;
  - exactly which files a run writes and with what four lines;
  - what an exception leaves behind, since there is no rollback;
  - running twice;
  - the empty-field check, and the preview;
  - a worked example.

Floats are Dafny `real`, so every computation is exact. Rounding and
formatting happen only where the source rounds (`round(_, 3)`) and formats
(`str()` inside the f-strings).

The model follows the code where its behaviour may surprise:

- A truncated step of zero raises `ValueError` in `range`. A negative step is
  not rejected: the loop counts down from `int(from_cm)` and stops above
  `int(to_cm) + 1`. `CmValuesDescending` covers this.
- `int(to_cm) < int(from_cm)` with a positive step is not an error: nothing
  is written, and the run ends normally (`GenerationEmptyRange`).
- A zero cm or DPI raises `ZeroDivisionError`, and so do equal bounds. This
  happens only when the loop reaches them. Files written before stay, and the
  broad handler at line 220 catches the error.
- The preview evidently means to blank its labels on input it cannot use
  (`except ValueError`, line 172). A zero cm or DPI, however, raises
  ZeroDivisionError instead (see Findings).

## Model

| member | source | states |
|---|---|---|
| PyBuiltins.Trunc | Calc_Sens.py:205 | `int()` of a float truncates toward zero: for x >= 0 the result n has n <= x < n + 1, for x < 0 it has n - 1 < x <= n |
| PyBuiltins.TruncOfInt | Calc_Sens.py:205 | truncating an integral value gives it back |
| PyBuiltins.RoundHalfEven | Calc_Sens.py:209 | the result is within 1/2 of x, and an exact tie goes to the even neighbour |
| PyBuiltins.Round3 | Calc_Sens.py:209 | `round(x, 3)` is within half a thousandth of x |
| PyBuiltins.Round3Idempotent | Calc_Sens.py:163-170 | rounding an already rounded value to three places again changes nothing, so the preview's second `round` is harmless |
| PyBuiltins.Round3Monotone | Calc_Sens.py:209-215 | `round(_, 3)` preserves order |
| PyBuiltins.Round3NonNegative | Calc_Sens.py:209 | rounding a non-negative value gives a non-negative result |
| PyBuiltins.PyRange | Calc_Sens.py:205 | `range` raises ValueError exactly when the step is 0; otherwise its i-th element is start + i * step |
| PyBuiltins.RangeIndexAscending | Calc_Sens.py:205 | with a positive step, index i exists exactly when start + i * step < stop |
| PyBuiltins.RangeIndexDescending | Calc_Sens.py:205 | with a negative step, index i exists exactly when start + i * step > stop |
| PyBuiltins.RangeCount | Calc_Sens.py:205 | `range(first, last + 1, s)` with s > 0 is empty when last < first; otherwise it has (last - first) / s + 1 elements |
| PyBuiltins.RangeDistinct | Calc_Sens.py:205 | a range with a nonzero step never repeats a value |
| PyBuiltins.RangeMembership | Calc_Sens.py:205 | with a positive step, v is in the range exactly when start <= v < stop and v - start is a multiple of step |
| PyBuiltins.InclusiveRange | Calc_Sens.py:205 | `range(first, last + 1, s)` holds exactly the values from first to last that differ from first by a multiple of s; they are strictly increasing; the count is as in RangeCount, and the first element is first |
| PyText.IntText | Calc_Sens.py:211-213 | no contract; the body is the model (`str()` of an int); properties in PyText.ParseIntText and PyText.IntTextInjective |
| PyText.MillisText | Calc_Sens.py:214-215 | no contract; the body is the model (`str()` of a value `round(_, 3)` returned); properties in PyText.ParseMillisText |
| PyText.ParseInt | Calc_Sens.py:188-191 | no contract; the body is the model (`int()` of text: a sign and digits, otherwise ValueError); properties in PyText.ParseIntText |
| PyText.ParseFloat | Calc_Sens.py:188-193 | no contract; the body is the model (`float()` of plain decimal text, otherwise ValueError); properties in PyText.ParseMillisText and PyText.ParseFloatNatText |
| PyText.ParseFloatNatText | Calc_Sens.py:188-193 | `float` of the digits of a natural number n is n |
| PyText.NatTextRoundTrip | Calc_Sens.py:211 | the decimal digits of n read back as n |
| PyText.ParseIntText | Calc_Sens.py:191 | `int(str(n)) == n` for every integer n |
| PyText.IntTextInjective | Calc_Sens.py:211 | different integers have different `str()` texts |
| PyText.IntTextHasNoNewline | Calc_Sens.py:213 | `str()` of an int holds no line break |
| PyText.MillisTextHasNoNewline | Calc_Sens.py:214-215 | `str()` of a rounded value holds no line break |
| PyText.FractionTextValue | Calc_Sens.py:214-215 | the fractional digits printed for r thousandths, with trailing zeros dropped, have the value r / 1000 |
| PyText.ParseUnsignedDecimal | Calc_Sens.py:188-193 | `float` of "digits.digits" is the whole part plus the fractional part |
| PyText.UnsignedMillis | Calc_Sens.py:214-215 | the printed magnitude of a rounded value reads back as that magnitude |
| PyText.ParseMillisText | Calc_Sens.py:214-215 | `float(str(round(x, 3)))` gives back the rounded value, for any sign: the numbers written into the files read back exactly |
| CalcSens.FirstEmpty | Calc_Sens.py:141-144 | None exactly when no field is empty; otherwise the name returned is that of an empty field before which every field is filled, i.e. the first empty one |
| CalcSens.ValidateInputs | Calc_Sens.py:127-129 | an empty folder path is reported before any field |
| CalcSens.ZoomSensitivity | Calc_Sens.py:208-209 | no contract; the body is the model (the sensitivity reduced by the decrease in percent); properties in CalcSensProperties.ZoomNotAboveBase |
| CalcSens.ConfigLines | Calc_Sens.py:213-216 | no contract; the body is the model (the four lines of a file, without line breaks); properties in CalcSensProperties.ConfigFileLines |
| CalcSens.ConfigText | Calc_Sens.py:213-216 | no contract; the body is the model (the four lines, each ended by "\n"); properties in CalcSensProperties.ConfigFileLines and CalcSensProperties.SplitJoin |
| CalcSens.CfgName | Calc_Sens.py:211 | no contract; the body is the model (`f'{cm}.cfg'`); properties in CalcSensProperties.CfgNameInjective |
| CalcSens.ParseJob | Calc_Sens.py:187-194 | no contract; the body is the model (the six fields read in source order, the first unreadable one raising ValueError); properties in CalcSensProperties.PreviewReadsJob and CalcSensProperties.ExampleFormParses |
| CalcSens.CmValues | Calc_Sens.py:205 | no contract; the body is the model (`range(int(from_cm), int(to_cm) + 1, int(step))`); properties in CalcSensProperties.CmValuesAscending, CalcSensProperties.CmValuesDescending and CalcSensProperties.GridEndpoints |
| CalcSens.FileFor | Calc_Sens.py:206-216 | no contract; the body is the model (the text of one file, or the exception computing it raises); properties in CalcSensProperties.EmittedZoomNotAboveBase, CalcSensProperties.PreviewAgreesWithFiles and the worked example |
| CalcSens.LoopStep | Calc_Sens.py:206-216 | no contract; the body is the model (FileFor, then OSError if `open` refuses the name); properties in CalcSensProperties.LoopStepStores, CalcSensProperties.StepSucceeds and CalcSensProperties.EqualBoundsStepFails |
| CalcSens.Emit | Calc_Sens.py:205-216 | no contract; the body is the model (the loop as a function: each step stores its text, the first exception stops it); properties in CalcSensProperties.EmitOverlay, CalcSensProperties.EmitStopsAtFirstFailure, CalcSensProperties.EmitCompletes and CalcSensProperties.EmitStopped; CalcSens.WriteFiles is proved equal to it |
| CalcSens.Generation | Calc_Sens.py:182-221 | no contract; the body is the model (validation, reading the fields, `os.makedirs`, `range`, then the loop); properties in the CalcSensProperties.Generation* lemmas; CalcSens.GenerateConfig is proved equal to it |
| CalcSens.OutputFolder.constructor | Calc_Sens.py:196-197 | a folder object starts consistent (a missing folder holds no files) with the given contents, and the given `os.makedirs` and `open` behaviour |
| CalcSens.PreviewAt | Calc_Sens.py:160-170 | no contract; the body is the model (base and doubly rounded zoom sensitivity at both bounds, using max_decrease and min_decrease directly); properties in CalcSensProperties.PreviewAgreesWithFiles and CalcSensProperties.PreviewOfEmptyForm |
| CalcSens.PreviewAsWritten | Calc_Sens.py:148-173 | no contract; the body is the model (defaults for empty fields, a ValueError giving blank labels, other exceptions escaping); properties in CalcSensProperties.PreviewAsWrittenBlank, CalcSensProperties.PreviewAsWrittenRaises and CalcSens.Preview |
| CalcSens.BaseSensitivity | Calc_Sens.py:156-158 | ZeroDivisionError exactly when cm or dpi is 0; otherwise sensitivity * cm * dpi = 25.977 * 1600 |
| CalcSens.InterpolatedDecrease | Calc_Sens.py:199-207 | ZeroDivisionError exactly when the bounds are equal; otherwise the decrease is max_decrease at from_cm and min_decrease at to_cm |
| CalcSens.GenerateConfig | Calc_Sens.py:182-221 | the outcome and folder afterwards are those of `Generation`: the warning of `validate_inputs`, or the exception the run stops at (from reading the fields, `os.makedirs`, `range` or the loop), or a normal end with the files written; the folder stays consistent (a missing folder holds nothing) |
| CalcSens.WriteFiles | Calc_Sens.py:205-216 | the loop leaves the folder and the exception that `Emit` gives: one entry per cm value in order, each written after its text is computed, stopping at the first exception |
| CalcSens.Preview | Calc_Sens.py:148-173 | the corrected preview never raises; it shows values exactly when every field is readable and the DPI and both cm values are nonzero; whenever the code as written shows values, it shows the same |
| CalcSensProperties.ValidateAcceptsFilledForms | Calc_Sens.py:125-146 | the check passes if and only if the folder path and all seven fields are non-empty |
| CalcSensProperties.ValidateReportsFirstEmpty | Calc_Sens.py:131-144 | with the folder given, the warning names the first empty field in the order Minimum cm, Maximum cm, Decrease at zoom (min), Decrease at zoom (max), Step, DPI, Bind Zoom |
| CalcSensProperties.BaseSensitivityPositive | Calc_Sens.py:156-158 | positive cm and DPI give a defined, strictly positive sensitivity |
| CalcSensProperties.BaseSensitivityDecreasesWithCm | Calc_Sens.py:156-158 | the sensitivity strictly decreases as cm grows |
| CalcSensProperties.BaseSensitivityDecreasesWithDpi | Calc_Sens.py:156-158 | the sensitivity strictly decreases as DPI grows |
| CalcSensProperties.DecreaseBetweenBounds | Calc_Sens.py:199-207 | for cm between the bounds, the decrease lies between min_decrease and max_decrease, in either order |
| CalcSensProperties.DecreaseBelowFrom | Calc_Sens.py:207 | for cm < from_cm < to_cm and max_decrease > min_decrease, the decrease exceeds max_decrease |
| CalcSensProperties.ZoomNotAboveBase | Calc_Sens.py:207-214 | for a non-negative sensitivity (a negative DPI gives a negative one), a decrease in [0, 100] puts the zoom sensitivity in [0, sensitivity], before and after rounding |
| CalcSensProperties.SplitJoin | Calc_Sens.py:213-216 | text written as lines ending in "\n" splits back into those lines when none holds a line break |
| CalcSensProperties.ConfigFileLines | Calc_Sens.py:213-216 | for a bind key without a line break, every file holds exactly four lines: the DPI comment, `set zon` with the rounded zoom sensitivity, `set zof` with the rounded sensitivity, and `bind <key> +vstr zon zof` |
| CalcSensProperties.CfgNameInjective | Calc_Sens.py:211 | different cm values get different file names |
| CalcSensProperties.EmitOverlay | Calc_Sens.py:205-216 | writing in 'w' mode only adds or replaces entries: the folder afterwards is the folder before overwritten by what the loop writes, and how the loop ends does not depend on the old contents |
| CalcSensProperties.EmitStopsAtFirstFailure | Calc_Sens.py:205-221 | the loop stops at the first failing cm value: all earlier steps succeeded; the error it reports is that step's; it ends normally exactly when every value was processed |
| CalcSensProperties.WrittenNames | Calc_Sens.py:205-212 | the names written are exactly those of the cm values processed before the exception |
| CalcSensProperties.WrittenTexts | Calc_Sens.py:205-216 | over distinct cm values, each processed value's file holds the text computed for it |
| CalcSensProperties.EmitFailsFirst | Calc_Sens.py:205-216 | if the first step raises, nothing is written and that exception is reported |
| CalcSensProperties.EmitCompletes | Calc_Sens.py:205-216 | a loop over distinct values that ends normally stores every value's text under its name, adds no other name, and keeps the remaining entries |
| CalcSensProperties.EmitStopped | Calc_Sens.py:205-221 | a loop stopped at the n-th value keeps the files of the n earlier values; it writes nothing for the n-th value or later ones, and keeps old entries of the same names |
| CalcSensProperties.CmValuesAscending | Calc_Sens.py:205 | with int(step) >= 1 the loop visits exactly the grid int(from_cm) + k * int(step) up to int(to_cm), in increasing order, (int(to_cm) - int(from_cm)) / int(step) + 1 values starting at int(from_cm), and none when int(to_cm) < int(from_cm) |
| CalcSensProperties.GridEndpoints | Calc_Sens.py:205-207 | with integral bounds from_cm < to_cm and int(step) >= 1 the first file is for from_cm and gets max_decrease; when the stride divides the distance, the last file is for to_cm and gets min_decrease |
| CalcSensProperties.FractionalFromOvershoots | Calc_Sens.py:205-207 | with 0 < from_cm < to_cm, int(step) >= 1 and max_decrease > min_decrease, a fractional from_cm makes the first file's cm lie below from_cm, and its decrease exceed max_decrease |
| CalcSensProperties.CmValuesDescending | Calc_Sens.py:205 | a negative stride counts down from int(from_cm); every visited value is above int(to_cm) + 1, the next one would not be, and nothing is visited when int(from_cm) <= int(to_cm) + 1 |
| CalcSensProperties.CmValuesDistinct | Calc_Sens.py:205 | the visited cm values are pairwise distinct |
| CalcSensProperties.EmittedZoomNotAboveBase | Calc_Sens.py:205-214 | with integral 0 < from_cm < to_cm, positive DPI and decreases in [0, 100], every visited cm lies between the bounds, and its file's rounded zoom sensitivity lies between 0 and its rounded base sensitivity |
| CalcSensProperties.GenerationRunsLoop | Calc_Sens.py:183-205 | once the check, the reads, the folder creation and `range` succeed, generate_config is the loop over the range in a folder that now exists |
| CalcSensProperties.LoopStepStores | Calc_Sens.py:206-216 | a loop step that succeeds stores the text computed for that cm value |
| CalcSensProperties.GenerationWritesGrid | Calc_Sens.py:205-216 | a run that ends normally with int(step) >= 1 has a file for every grid value holding the text computed for it, adds no other name, and keeps every other entry |
| CalcSensProperties.GenerationZeroStep | Calc_Sens.py:196-205 | a stride that truncates to 0 raises ValueError after the folder exists and before any file is written |
| CalcSensProperties.GenerationEqualBounds | Calc_Sens.py:205-207 | equal bounds with a positive stride raise ZeroDivisionError at the first value, and nothing is written |
| CalcSensProperties.EqualBoundsRun | Calc_Sens.py:205-207 | with equal bounds and int(step) >= 1 the loop visits only int(from_cm), raises there, and writes nothing |
| CalcSensProperties.EqualBoundsStepFails | Calc_Sens.py:206-207 | with equal bounds every cm value raises ZeroDivisionError |
| CalcSensProperties.GenerationEmptyRange | Calc_Sens.py:205 | int(to_cm) < int(from_cm) with a positive stride writes nothing and ends normally |
| CalcSensProperties.GenerationStopsEarly | Calc_Sens.py:205-221 | a run stopped by an exception at the n-th value reports that value's exception and keeps the files of the n earlier values; no rollback; it writes nothing for that value or later ones |
| CalcSensProperties.GenerationZeroDpi | Calc_Sens.py:201-206 | a zero DPI raises ZeroDivisionError at the first value, and nothing is written |
| CalcSensProperties.StepSucceeds | Calc_Sens.py:206-216 | a cm value other than 0, with a nonzero DPI, distinct bounds and a name `open` accepts, is written without an exception |
| CalcSensProperties.GenerationSucceeds | Calc_Sens.py:183-216 | the error conditions are the only ones: a valid form with a nonzero truncated stride, a nonzero DPI, distinct bounds, no visited cm equal to 0 and no refused name, whose folder exists or can be made, ends normally |
| CalcSensProperties.GenerationReachesZeroCm | Calc_Sens.py:205-206 | a visited cm of 0 makes the run raise at that value or earlier; if it gets there, the error is ZeroDivisionError, and 0.cfg is not written |
| CalcSensProperties.GenerationTwice | Calc_Sens.py:211-216 | pressing Generate twice with the same form gives the same outcome and leaves the folder as after the first press |
| CalcSensProperties.GenerationKeepsFolderValid | Calc_Sens.py:196-197 | a missing folder stays empty, and the folder exists whenever a run changed its files |
| CalcSensProperties.PreviewOfEmptyForm | Calc_Sens.py:150-170 | with every field empty the defaults 400 DPI, 1 cm, 25 %, 100 cm and 5 % give 103.908, 77.931, 1.039 and 0.987 |
| CalcSensProperties.PreviewAgreesWithFiles | Calc_Sens.py:160-168 | the preview's values at an integral from_cm (or to_cm) are exactly the two numbers written into that cm's file: the zoom values use max_decrease and min_decrease directly, which is what the interpolation gives at the bounds |
| CalcSensProperties.PreviewReadsJob | Calc_Sens.py:150-154 | on a form that passes validate_inputs and reads without error, the preview computes from the same numbers as generate_config |
| CalcSensProperties.PreviewAsWrittenBlank | Calc_Sens.py:148-173 | as written, the preview shows four empty labels exactly when a field it reads is not a number (the ValueError case) |
| CalcSensProperties.PreviewAsWrittenRaises | Calc_Sens.py:148-173 | as written, a readable form with a zero DPI, from_cm or to_cm makes the preview raise ZeroDivisionError |
| CalcSensProperties.PreviewRaisesWhileTyping | Calc_Sens.py:151-172 | typing "0" (the start of "0.5") into the first cm field, with the rest empty, makes the preview as written raise |
| CalcSensProperties.ExampleCmValues | Calc_Sens.py:205-211 | from 1 to 3 cm in steps of 1 the loop visits 1, 2 and 3, giving names 1.cfg, 2.cfg and 3.cfg |
| CalcSensProperties.ExampleFirstFile | Calc_Sens.py:206-216 | at 400 DPI and 25 % to 5 %, 1.cfg gets base 103.908 and zoom 77.931 |
| CalcSensProperties.ExampleLastFile | Calc_Sens.py:206-216 | in the same run, 3.cfg gets base 34.636 and zoom 32.904 |
| CalcSensProperties.ExampleMiddleFile | Calc_Sens.py:206-216 | in the same run, 2.cfg gets base 51.954 and, at a 15 % decrease, zoom 44.161 |
| CalcSensProperties.ExampleFormParses | Calc_Sens.py:183-194 | the example form (folder "cfg", 1 to 3 cm, 25 % to 5 %, step 1, 400 DPI, bind mouse2) passes validate_inputs and reads as the example's numbers |
| CalcSensProperties.EmitThree | Calc_Sens.py:205-216 | a loop over three values whose steps all succeed stores the three texts in order and ends normally |
| CalcSensProperties.ExampleSteps | Calc_Sens.py:206-216 | each of the example's three loop steps succeeds with its file's text |
| CalcSensProperties.ExampleLoop | Calc_Sens.py:205-216 | the example's loop into an empty folder writes exactly 1.cfg, 2.cfg and 3.cfg with their texts and ends normally |
| CalcSensProperties.ExampleRun | Calc_Sens.py:182-221 | pressing Generate on the example form with a missing, creatable folder creates the folder, writes exactly 1.cfg, 2.cfg and 3.cfg with their texts, and ends normally |

## Findings

| source | as written | input that shows it | evidently intended | confidence | as-written member | corrected member |
|---|---|---|---|---|---|---|
| Calc_Sens.py:172 | the preview catches only `ValueError`, but `base_sensitivity` can raise `ZeroDivisionError` | a cm or DPI field holding "0", e.g. the first keystroke of "0.5" in the first cm field with the other fields empty: `25.977 / 0.0` raises, and the exception escapes the `textChanged` handler | input the preview cannot compute from leaves the four labels empty | not executed | CalcSens.PreviewAsWritten, CalcSensProperties.PreviewRaisesWhileTyping | CalcSens.Preview |

## Left out

- Qt user interface, left out because it is UI plumbing:
  - widget construction, layouts and signals (Calc_Sens.py:11-123);
  - `browse_folder`;
  - `_update_realtime_sens` and the label texts (175-180);
  - every `QMessageBox`.

  `validate_inputs` returns the text of the warning it would show. `generate_config` returns its outcome in place of the success or error box.
- The input validators and length limits of the line edits (Calc_Sens.py:28-58). The model accepts any field text, so properties that need a decrease in [0, 100] say so in their `requires`.
- `load_settings`, `save_settings` and the stylesheet (Calc_Sens.py:224-384): JSON file I/O and presentation.
- The real file system, which the model replaces with the `OutputFolder` object:
  - `os.path.exists` and `os.makedirs` become the `present` flag plus one `creatable` flag;
  - `open(..., 'w')` becomes a fixed set `denied` of names it refuses;
  - the path separator of `os.path.join` is not modelled, because files are keyed by name;
  - `files` holds the text passed to `write()`. The file is opened in text mode (line 212), so on disk each "\n" becomes `os.linesep`, i.e. "\r\n" on Windows; that translation is not modelled;
  - a failure in the middle of `f.write` (a partly written file) is not modelled: a file is written whole or not at all.
- IEEE floating point: values are exact reals. Binary rounding of 25.977 and of the divisions is therefore not reproduced, and a result can differ from CPython's in the last printed digit when a value lies within float error of a rounding tie.
- PyText.MillisText: models `str()` of a rounded float as plain decimal text with trailing zeros dropped. That matches CPython only while neighbouring thousandths are distinct doubles, i.e. for |x| below about 4e12. Beyond that the shortest round-tripping text has fewer digits, and from 1e16 CPython switches to exponent notation; neither is modelled. Negative zero ("-0.0") is not modelled either. The program's values (fields of at most four characters, cm values of at least 1 in magnitude) stay far below these bounds.
- PyText.ParseFloat and PyText.ParseInt: accept an optional sign and ASCII digits (with one decimal point for floats), nothing more. Not modelled: surrounding whitespace, underscores, exponents, "inf"/"nan" and non-ASCII digits. These are text-parsing details outside the numeric core. One is reachable: `QDoubleValidator()` (lines 28, 40, 52) accepts scientific notation, so a user can type "1e2", which the program reads as 100.0. The model instead reads it as a ValueError: `Generation` ends with `Finished(Some(ValueError))` and `PreviewAsWritten` gives `Blank`.
- The exception text `str(e)` shown in the error box. The model keeps only the exception's kind (ValueError, ZeroDivisionError or OSError).
- The settings save after generation (Calc_Sens.py:224). It runs after every press that gets past `validate_inputs` (the model's `Finished` outcome), whatever the try block raised, and writes only the settings file. A `Rejected` press saves nothing.
- CalcSensProperties.ConfigFileLines: promises four lines only for a bind key without a line break. The field is a single-line edit, but `load_settings` (Calc_Sens.py:243) copies the key from the settings JSON unchecked, and a key holding "\n" there gives a file with more lines. Line splitting of such keys is not modelled.
- The "mouse2" default for an empty bind key (Calc_Sens.py:194) is modelled, but no property depends on it: `validate_inputs` rejects an empty bind key first.
