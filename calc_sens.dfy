/**
  The sensitivity-config generator of ConfigWindow (Calc_Sens.py): the empty
  field check, the live preview of the two boundary sensitivities, and the
  loop that writes one "<cm>.cfg" file per integer cm/360 value into the
  output folder.

  The form is given as the texts of its input fields. The output folder is an
  object whose `present` flag and `files` map (file name to file text) the
  generator updates in place; what the operating system refuses (creating the
  folder, opening a given file for writing) is a fixed property of that object.
*/
module CalcSens {
  import opened PyBuiltins
  import opened PyText

  /** The texts of the window's input fields. */
  datatype Form = Form(
    folder: string,
    fromCm: string,
    toCm: string,
    minDecrease: string,
    maxDecrease: string,
    step: string,
    dpi: string,
    zoomBind: string)

  // ---------------------------------------------------------------------------
  // validate_inputs

  /** The fields checked after the folder path, in order, each with the name its warning shows. */
  function CheckedFields(form: Form): seq<(string, string)>
  {
    [ (form.fromCm, "Minimum cm"),
      (form.toCm, "Maximum cm"),
      (form.minDecrease, "Decrease at zoom (min)"),
      (form.maxDecrease, "Decrease at zoom (max)"),
      (form.step, "Step"),
      (form.dpi, "DPI"),
      (form.zoomBind, "Bind Zoom") ]
  }

  /** The name of the first field whose text is empty, scanning in order. */
  function FirstEmpty(fields: seq<(string, string)>): (r: Option<string>)
    ensures r.None? <==> forall i :: 0 <= i < |fields| ==> fields[i].0 != ""
    ensures r.Some? ==>
      exists i :: 0 <= i < |fields| && fields[i].0 == "" && fields[i].1 == r.value &&
        forall j :: 0 <= j < i ==> fields[j].0 != ""
  {
    if fields == [] then None
    else if fields[0].0 == "" then Some(fields[0].1)
    else
      var r := FirstEmpty(fields[1..]);
      assert forall i :: 1 <= i < |fields| ==> fields[i] == fields[1..][i - 1];
      r
  }

  /** validate_inputs: None when nothing is empty, otherwise the text of the warning it shows. */
  function ValidateInputs(form: Form): (warning: Option<string>)
    ensures form.folder == "" ==> warning == Some("Folder path cannot be empty!")
  {
    if form.folder == "" then Some("Folder path cannot be empty!")
    else
      match FirstEmpty(CheckedFields(form))
      case None => None
      case Some(name) => Some("Field '" + name + "' cannot be empty!")
  }

  // ---------------------------------------------------------------------------
  // The formulas

  /** base_sensitivity: (25.977 / cm) * (1600 / dpi), raising ZeroDivisionError for a zero cm or dpi. */
  function BaseSensitivity(cm: real, dpi: int): (r: Result<real>)
    ensures r.Failure? <==> cm == 0.0 || dpi == 0
    ensures r.Failure? ==> r.error == ZeroDivisionError
    ensures r.Success? ==> r.value * cm * dpi as real == 25.977 * 1600.0
  {
    if cm == 0.0 then Failure(ZeroDivisionError)
    else if dpi == 0 then Failure(ZeroDivisionError)
    else Success((25.977 / cm) * (1600.0 / dpi as real))
  }

  /**
    The zoom decrease, in percent, interpolated linearly between maxDecrease at
    fromCm and minDecrease at toCm; ZeroDivisionError when the bounds coincide.
  */
  function InterpolatedDecrease(cm: real, fromCm: real, toCm: real, maxDecrease: real, minDecrease: real): (r: Result<real>)
    ensures r.Failure? <==> fromCm == toCm
    ensures r.Failure? ==> r.error == ZeroDivisionError
    ensures r.Success? && cm == fromCm ==> r.value == maxDecrease
    ensures r.Success? && cm == toCm ==> r.value == minDecrease
  {
    var decreaseRange := maxDecrease - minDecrease;
    if toCm - fromCm == 0.0 then Failure(ZeroDivisionError)
    else Success(maxDecrease - (cm - fromCm) * (decreaseRange / (toCm - fromCm)))
  }

  /** The sensitivity while zoomed, before rounding: reduced by `decrease` percent. */
  function ZoomSensitivity(sensitivity: real, decrease: real): real
  {
    sensitivity * (1.0 - decrease / 100.0)
  }

  // ---------------------------------------------------------------------------
  // The generated files

  /** The four lines of a config file, without their line breaks. */
  function ConfigLines(dpi: int, zoom: int, base: int, zoomBind: string): seq<string>
  {
    [ "// MOUSE SENSITIVITY AT DPI " + IntText(dpi),
      "set zon \"+zoom; sensitivity " + MillisText(zoom) + "\" \t\t\t// Zoom ON: decreased sensitivity",
      "set zof \"-zoom; sensitivity " + MillisText(base) + "\" \t\t// Zoom OFF: standard sensitivity",
      "bind " + zoomBind + " +vstr zon zof" ]
  }

  /** Lines written one after the other, each ended by a line break. */
  function JoinLines(lines: seq<string>): string
  {
    if lines == [] then "" else lines[0] + "\n" + JoinLines(lines[1..])
  }

  /**
    The text of a config file; `zoom` and `base` are the two rounded
    sensitivities, in thousandths.
  */
  function ConfigText(dpi: int, zoom: int, base: int, zoomBind: string): string
  {
    JoinLines(ConfigLines(dpi, zoom, base, zoomBind))
  }

  /** The name of the file for one cm/360 value. */
  function CfgName(cm: int): string
  {
    IntText(cm) + ".cfg"
  }

  /** The numbers generate_config reads from the form. */
  datatype Job = Job(
    fromCm: real,
    toCm: real,
    step: real,
    dpi: int,
    maxDecrease: real,
    minDecrease: real,
    zoomBind: string)

  /** Reads the fields in the order generate_config does; the first unreadable one raises ValueError. */
  function ParseJob(form: Form): Result<Job>
  {
    var fromCm :- ParseFloat(form.fromCm);
    var toCm :- ParseFloat(form.toCm);
    var step :- ParseFloat(form.step);
    var dpi :- ParseInt(form.dpi);
    var maxDecrease :- ParseFloat(form.maxDecrease);
    var minDecrease :- ParseFloat(form.minDecrease);
    Success(Job(fromCm, toCm, step, dpi, maxDecrease, minDecrease,
                if form.zoomBind != "" then form.zoomBind else "mouse2"))
  }

  /** The cm values the loop visits: range(int(fromCm), int(toCm) + 1, int(step)). */
  function CmValues(job: Job): Result<seq<int>>
  {
    PyRange(Trunc(job.fromCm), Trunc(job.toCm) + 1, Trunc(job.step))
  }

  /** The text of the file for one cm value, or the exception computing it raises. */
  function FileFor(job: Job, cm: int): Result<string>
  {
    var sensitivity :- BaseSensitivity(cm as real, job.dpi);
    var decrease :- InterpolatedDecrease(cm as real, job.fromCm, job.toCm, job.maxDecrease, job.minDecrease);
    Success(ConfigText(job.dpi, Round3(ZoomSensitivity(sensitivity, decrease)), Round3(sensitivity), job.zoomBind))
  }

  /** One iteration of the loop: the text to store, or the exception that stops the loop. */
  function LoopStep(job: Job, cm: int, denied: set<string>): Result<string>
  {
    var text :- FileFor(job, cm);
    if CfgName(cm) in denied then Failure(OSError) else Success(text)
  }

  /** The loop body for a given job, as a function of the cm value. */
  function Steps(job: Job, denied: set<string>): int -> Result<string>
  {
    cm => LoopStep(job, cm, denied)
  }

  /**
    The loop over `cms`, starting from the folder contents `files`, where
    `step(cm)` is the text stored for cm or the exception raised for it: the
    contents when the loop ends, and the exception that ended it early, if any.
  */
  function Emit(files: map<string, string>, cms: seq<int>, step: int -> Result<string>): (map<string, string>, Option<PyError>)
    decreases |cms|
  {
    if cms == [] then (files, None)
    else
      match step(cms[0])
      case Failure(e) => (files, Some(e))
      case Success(text) => Emit(files[CfgName(cms[0]) := text], cms[1..], step)
  }

  /** What the output folder looks like. */
  datatype FolderState = FolderState(present: bool, files: map<string, string>)

  /** How a press of Generate ends: stopped by validate_inputs, or past the try block (then settings are saved). */
  datatype Outcome = Rejected(warning: string) | Finished(error: Option<PyError>)

  /**
    generate_config as a function of the form and the folder: `creatable` says
    whether os.makedirs succeeds, `denied` which file names open() refuses.
  */
  function Generation(form: Form, st: FolderState, creatable: bool, denied: set<string>): (Outcome, FolderState)
  {
    match ValidateInputs(form)
    case Some(warning) => (Rejected(warning), st)
    case None =>
      match ParseJob(form)
      case Failure(e) => (Finished(Some(e)), st)
      case Success(job) =>
        if !st.present && !creatable then (Finished(Some(OSError)), st)
        else
          match CmValues(job)
          case Failure(e) => (Finished(Some(e)), FolderState(true, st.files))
          case Success(cms) =>
            var (files, error) := Emit(st.files, cms, Steps(job, denied));
            (Finished(error), FolderState(true, files))
  }

  // ---------------------------------------------------------------------------
  // The output folder and generate_config

  class OutputFolder {
    var present: bool
    var files: map<string, string>
    /** Whether os.makedirs can create the folder. */
    const creatable: bool
    /** The file names that open(..., 'w') refuses. */
    const denied: set<string>

    /** A folder that does not exist holds no files. */
    ghost predicate Valid()
      reads this
    {
      present || files == map[]
    }

    function State(): FolderState
      reads this
    {
      FolderState(present, files)
    }

    constructor (present: bool, files: map<string, string>, creatable: bool, denied: set<string>)
      requires present || files == map[]
      ensures Valid()
      ensures State() == FolderState(present, files)
      ensures this.creatable == creatable && this.denied == denied
    {
      this.present := present;
      this.files := files;
      this.creatable := creatable;
      this.denied := denied;
    }
  }

  /**
    generate_config: validates the form, reads the numbers, creates the folder if
    it is missing, then writes one file per cm value.
  */
  method GenerateConfig(form: Form, folder: OutputFolder) returns (outcome: Outcome)
    requires folder.Valid()
    modifies folder
    ensures folder.Valid()
    ensures (outcome, folder.State()) == Generation(form, old(folder.State()), folder.creatable, folder.denied)
  {
    var warning := ValidateInputs(form);
    if warning.Some? {
      return Rejected(warning.value);
    }
    var parsed := ParseJob(form);
    if parsed.Failure? {
      return Finished(Some(parsed.error));
    }
    var job := parsed.value;
    if !folder.present {
      if !folder.creatable {
        return Finished(Some(OSError));
      }
      folder.present := true;
    }
    var range := CmValues(job);
    if range.Failure? {
      return Finished(Some(range.error));
    }
    var error := WriteFiles(job, range.value, folder);
    return Finished(error);
  }

  /**
    The for loop of generate_config: one file per cm value, in order, stopping
    at the first exception; files written before it stay.
  */
  method WriteFiles(job: Job, cms: seq<int>, folder: OutputFolder) returns (error: Option<PyError>)
    requires folder.present
    modifies folder`files
    ensures folder.present
    ensures (folder.files, error) == Emit(old(folder.files), cms, Steps(job, folder.denied))
  {
    ghost var start := folder.files;
    var i := 0;
    while i < |cms|
      invariant 0 <= i <= |cms|
      invariant Emit(start, cms, Steps(job, folder.denied)) == Emit(folder.files, cms[i..], Steps(job, folder.denied))
    {
      var cm := cms[i];
      assert cms[i..][0] == cm && cms[i..][1..] == cms[i + 1..];
      ghost var step := LoopStep(job, cm, folder.denied);
      var sensitivity := BaseSensitivity(cm as real, job.dpi);
      if sensitivity.Failure? {
        assert step == Failure(sensitivity.error);
        return Some(sensitivity.error);
      }
      var decrease := InterpolatedDecrease(cm as real, job.fromCm, job.toCm, job.maxDecrease, job.minDecrease);
      if decrease.Failure? {
        assert step == Failure(decrease.error);
        return Some(decrease.error);
      }
      var zoom := Round3(ZoomSensitivity(sensitivity.value, decrease.value));
      var text := ConfigText(job.dpi, zoom, Round3(sensitivity.value), job.zoomBind);
      var name := CfgName(cm);
      if name in folder.denied {
        assert step == Failure(OSError);
        return Some(OSError);
      }
      assert step == Success(text);
      folder.files := folder.files[name := text];
      i := i + 1;
    }
    return None;
  }

  // ---------------------------------------------------------------------------
  // _calculate_realtime_sens

  /**
    The four preview values in thousandths (base and zoom sensitivity at the
    first and at the last cm), four empty labels, or an exception that escapes.
  */
  datatype PreviewResult =
    | Values(baseFrom: int, zoomFrom: int, baseTo: int, zoomTo: int)
    | Blank
    | Raised(error: PyError)

  /** A field read with a default for empty text. */
  function IntOr(text: string, default: int): Result<int>
  {
    if text != "" then ParseInt(text) else Success(default)
  }

  function FloatOr(text: string, default: real): Result<real>
  {
    if text != "" then ParseFloat(text) else Success(default)
  }

  /** The preview's computation once the fields are read. */
  function PreviewAt(dpi: int, fromCm: real, maxDecrease: real, toCm: real, minDecrease: real): PreviewResult
  {
    match BaseSensitivity(fromCm, dpi)
    case Failure(e) => Raised(e)
    case Success(sensFrom) =>
      var zoomFrom := Round3(ZoomSensitivity(sensFrom, maxDecrease));
      match BaseSensitivity(toCm, dpi)
      case Failure(e) => Raised(e)
      case Success(sensTo) =>
        var zoomTo := Round3(ZoomSensitivity(sensTo, minDecrease));
        Values(Round3(sensFrom), Round3(Thousandths(zoomFrom)), Round3(sensTo), Round3(Thousandths(zoomTo)))
  }

  /**
    _calculate_realtime_sens as written: empty fields take defaults, a
    ValueError gives four empty labels, but a ZeroDivisionError is not caught.
  */
  function PreviewAsWritten(form: Form): PreviewResult
  {
    var dpi := IntOr(form.dpi, 400);
    var fromCm := FloatOr(form.fromCm, 1.0);
    var maxDecrease := FloatOr(form.maxDecrease, 25.0);
    var toCm := FloatOr(form.toCm, 100.0);
    var minDecrease := FloatOr(form.minDecrease, 5.0);
    if dpi.Failure? || fromCm.Failure? || maxDecrease.Failure? || toCm.Failure? || minDecrease.Failure? then Blank
    else PreviewAt(dpi.value, fromCm.value, maxDecrease.value, toCm.value, minDecrease.value)
  }

  /** The fields the preview reads all hold numbers (or are empty). */
  predicate PreviewReadable(form: Form)
  {
    IntOr(form.dpi, 400).Success? && FloatOr(form.fromCm, 1.0).Success? &&
    FloatOr(form.maxDecrease, 25.0).Success? && FloatOr(form.toCm, 100.0).Success? &&
    FloatOr(form.minDecrease, 5.0).Success?
  }

  /**
    The preview as intended: inputs it cannot compute from, including a zero cm
    or DPI, give empty labels and never an exception.
  */
  function Preview(form: Form): (r: PreviewResult)
    ensures !r.Raised?
    ensures r.Values? <==>
      PreviewReadable(form) && IntOr(form.dpi, 400).value != 0 &&
      FloatOr(form.fromCm, 1.0).value != 0.0 && FloatOr(form.toCm, 100.0).value != 0.0
    ensures PreviewAsWritten(form).Values? ==> r == PreviewAsWritten(form)
  {
    var dpi := IntOr(form.dpi, 400);
    var fromCm := FloatOr(form.fromCm, 1.0);
    var maxDecrease := FloatOr(form.maxDecrease, 25.0);
    var toCm := FloatOr(form.toCm, 100.0);
    var minDecrease := FloatOr(form.minDecrease, 5.0);
    if dpi.Failure? || fromCm.Failure? || maxDecrease.Failure? || toCm.Failure? || minDecrease.Failure? then Blank
    else if dpi.value == 0 || fromCm.value == 0.0 || toCm.value == 0.0 then Blank
    else PreviewAt(dpi.value, fromCm.value, maxDecrease.value, toCm.value, minDecrease.value)
  }
}
