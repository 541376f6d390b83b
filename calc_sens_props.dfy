/**
  Properties of the sensitivity-config generator: the formulas, which files a
  run writes and with what text, what an exception leaves behind, running
  twice, the empty-field check and the preview.
*/
module CalcSensProperties {
  import opened PyBuiltins
  import opened PyText
  import opened CalcSens

  // ---------------------------------------------------------------------------
  // validate_inputs

  /** The check passes exactly when the folder path and all seven fields are filled in. */
  lemma ValidateAcceptsFilledForms(form: Form)
    ensures ValidateInputs(form).None? <==>
      form.folder != "" && form.fromCm != "" && form.toCm != "" && form.minDecrease != "" &&
      form.maxDecrease != "" && form.step != "" && form.dpi != "" && form.zoomBind != ""
  {
    var f := CheckedFields(form);
    assert f[0].0 == form.fromCm && f[1].0 == form.toCm && f[2].0 == form.minDecrease;
    assert f[3].0 == form.maxDecrease && f[4].0 == form.step && f[5].0 == form.dpi && f[6].0 == form.zoomBind;
    if form.folder != "" && FirstEmpty(f).Some? {
      var i :| 0 <= i < |f| && f[i].0 == "";
    }
  }

  /** With the folder given, the warning names the first empty field in the order the check scans. */
  lemma ValidateReportsFirstEmpty(form: Form, k: nat)
    requires form.folder != ""
    requires k < |CheckedFields(form)| && CheckedFields(form)[k].0 == ""
    requires forall j :: 0 <= j < k ==> CheckedFields(form)[j].0 != ""
    ensures ValidateInputs(form) == Some("Field '" + CheckedFields(form)[k].1 + "' cannot be empty!")
  {
    var f := CheckedFields(form);
    var r := FirstEmpty(f);
    assert r.Some?;
    var i :| 0 <= i < |f| && f[i].0 == "" && f[i].1 == r.value && forall j :: 0 <= j < i ==> f[j].0 != "";
    assert i == k;
  }

  // ---------------------------------------------------------------------------
  // The formulas

  lemma BaseSensitivityPositive(cm: real, dpi: int)
    requires 0.0 < cm && 0 < dpi
    ensures BaseSensitivity(cm, dpi).Success? && BaseSensitivity(cm, dpi).value > 0.0
  {
  }

  /** A larger cm/360 gives a strictly lower sensitivity. */
  lemma BaseSensitivityDecreasesWithCm(cm1: real, cm2: real, dpi: int)
    requires 0.0 < cm1 < cm2 && 0 < dpi
    ensures BaseSensitivity(cm2, dpi).value < BaseSensitivity(cm1, dpi).value
  {
    var v1, v2 := BaseSensitivity(cm1, dpi).value, BaseSensitivity(cm2, dpi).value;
    var d := dpi as real;
    assert v1 * cm1 * d == v2 * cm2 * d;
    assert v1 * cm1 == v2 * cm2;
    assert v2 > 0.0;
    assert v2 * cm1 < v2 * cm2;
  }

  /** A higher DPI gives a strictly lower sensitivity. */
  lemma BaseSensitivityDecreasesWithDpi(cm: real, dpi1: int, dpi2: int)
    requires 0.0 < cm && 0 < dpi1 < dpi2
    ensures BaseSensitivity(cm, dpi2).value < BaseSensitivity(cm, dpi1).value
  {
    var v1, v2 := BaseSensitivity(cm, dpi1).value, BaseSensitivity(cm, dpi2).value;
    var d1, d2 := dpi1 as real, dpi2 as real;
    assert v1 * cm * d1 == v2 * cm * d2;
    assert v1 * d1 == v2 * d2;
    assert v2 > 0.0;
    assert v2 * d1 < v2 * d2;
  }

  /** Between the two bounds the interpolated decrease stays between the two decreases. */
  lemma DecreaseBetweenBounds(cm: real, fromCm: real, toCm: real, maxDecrease: real, minDecrease: real)
    requires fromCm < toCm && fromCm <= cm <= toCm
    ensures var d := InterpolatedDecrease(cm, fromCm, toCm, maxDecrease, minDecrease).value;
      (minDecrease <= maxDecrease ==> minDecrease <= d <= maxDecrease) &&
      (maxDecrease <= minDecrease ==> maxDecrease <= d <= minDecrease)
  {
    var width := toCm - fromCm;
    var t := (cm - fromCm) / width;
    var range := maxDecrease - minDecrease;
    assert 0.0 <= t <= 1.0;
    assert (cm - fromCm) * (range / width) == t * range;
    var d := InterpolatedDecrease(cm, fromCm, toCm, maxDecrease, minDecrease).value;
    assert d == maxDecrease - t * range;
    if 0.0 <= range {
      assert 0.0 <= t * range <= range;
    } else {
      assert range <= t * range <= 0.0;
    }
  }

  /** Below fromCm the interpolation extrapolates: the decrease exceeds maxDecrease when maxDecrease > minDecrease. */
  lemma DecreaseBelowFrom(cm: real, fromCm: real, toCm: real, maxDecrease: real, minDecrease: real)
    requires cm < fromCm < toCm && minDecrease < maxDecrease
    ensures InterpolatedDecrease(cm, fromCm, toCm, maxDecrease, minDecrease).value > maxDecrease
  {
    var slope := (maxDecrease - minDecrease) / (toCm - fromCm);
    assert slope > 0.0;
    assert InterpolatedDecrease(cm, fromCm, toCm, maxDecrease, minDecrease).value == maxDecrease - (cm - fromCm) * slope;
    assert (cm - fromCm) * slope < 0.0;
  }

  /** A decrease in [0, 100] puts the zoom sensitivity in [0, sensitivity], before and after rounding. */
  lemma ZoomNotAboveBase(sensitivity: real, decrease: real)
    requires 0.0 <= sensitivity && 0.0 <= decrease <= 100.0
    ensures 0.0 <= ZoomSensitivity(sensitivity, decrease) <= sensitivity
    ensures 0 <= Round3(ZoomSensitivity(sensitivity, decrease)) <= Round3(sensitivity)
  {
    var f := 1.0 - decrease / 100.0;
    assert 0.0 <= f <= 1.0;
    assert 0.0 <= sensitivity * f <= sensitivity;
    Round3NonNegative(ZoomSensitivity(sensitivity, decrease));
    Round3Monotone(ZoomSensitivity(sensitivity, decrease), sensitivity);
  }

  // ---------------------------------------------------------------------------
  // The file text

  /** The end of the first line of s. */
  function LineEnd(s: string): (k: nat)
    ensures k <= |s|
    ensures k < |s| ==> s[k] == '\n'
  {
    if s == [] || s[0] == '\n' then 0 else 1 + LineEnd(s[1..])
  }

  /** The lines of a text, each ended by a line break (the last one possibly not). */
  function SplitLines(s: string): seq<string>
    decreases |s|
  {
    if s == [] then []
    else
      var k := LineEnd(s);
      [s[..k]] + (if k < |s| then SplitLines(s[k + 1..]) else [])
  }

  lemma {:induction false} LineEndOfLine(line: string, rest: string)
    requires '\n' !in line
    ensures LineEnd(line + "\n" + rest) == |line|
  {
    if line != [] {
      assert (line + "\n" + rest)[1..] == line[1..] + "\n" + rest;
      assert '\n' !in line[1..] by {
        forall c | c in line[1..] ensures c != '\n' { assert c in line; }
      }
      LineEndOfLine(line[1..], rest);
    }
  }

  /** Splitting the written text gives back the lines, as long as none holds a line break. */
  lemma {:induction false} SplitJoin(lines: seq<string>)
    requires forall i :: 0 <= i < |lines| ==> '\n' !in lines[i]
    ensures SplitLines(JoinLines(lines)) == lines
  {
    if lines != [] {
      var s := JoinLines(lines);
      var rest := JoinLines(lines[1..]);
      assert s == lines[0] + "\n" + rest;
      LineEndOfLine(lines[0], rest);
      assert s[..|lines[0]|] == lines[0];
      assert s[|lines[0]| + 1..] == rest;
      SplitJoin(lines[1..]);
    }
  }

  /**
    Every config file holds exactly four lines: the DPI comment, the zoom-on
    command, the zoom-off command and the bind.
  */
  lemma ConfigFileLines(dpi: int, zoom: int, base: int, zoomBind: string)
    requires '\n' !in zoomBind
    ensures var lines := SplitLines(ConfigText(dpi, zoom, base, zoomBind));
      |lines| == 4 &&
      lines[0] == "// MOUSE SENSITIVITY AT DPI " + IntText(dpi) &&
      lines[1] == "set zon \"+zoom; sensitivity " + MillisText(zoom) + "\" \t\t\t// Zoom ON: decreased sensitivity" &&
      lines[2] == "set zof \"-zoom; sensitivity " + MillisText(base) + "\" \t\t// Zoom OFF: standard sensitivity" &&
      lines[3] == "bind " + zoomBind + " +vstr zon zof"
  {
    ConfigLinesHaveNoNewline(dpi, zoom, base, zoomBind);
    SplitJoin(ConfigLines(dpi, zoom, base, zoomBind));
  }

  lemma ConfigLinesHaveNoNewline(dpi: int, zoom: int, base: int, zoomBind: string)
    requires '\n' !in zoomBind
    ensures forall i :: 0 <= i < |ConfigLines(dpi, zoom, base, zoomBind)| ==> '\n' !in ConfigLines(dpi, zoom, base, zoomBind)[i]
  {
    ZoomOnLineHasNoNewline(zoom);
    ZoomOffLineHasNoNewline(base);
    IntTextHasNoNewline(dpi);
    NoNewlineConcat("// MOUSE SENSITIVITY AT DPI ", IntText(dpi));
    NoNewlineConcat("bind ", zoomBind);
    NoNewlineConcat("bind " + zoomBind, " +vstr zon zof");
  }

  lemma ZoomOnLineHasNoNewline(zoom: int)
    ensures '\n' !in "set zon \"+zoom; sensitivity " + MillisText(zoom) + "\" \t\t\t// Zoom ON: decreased sensitivity"
  {
    MillisTextHasNoNewline(zoom);
    NoNewlineConcat("set zon \"+zoom; sensitivity ", MillisText(zoom));
    NoNewlineConcat("set zon \"+zoom; sensitivity " + MillisText(zoom), "\" \t\t\t// Zoom ON: decreased sensitivity");
  }

  lemma ZoomOffLineHasNoNewline(base: int)
    ensures '\n' !in "set zof \"-zoom; sensitivity " + MillisText(base) + "\" \t\t// Zoom OFF: standard sensitivity"
  {
    MillisTextHasNoNewline(base);
    NoNewlineConcat("set zof \"-zoom; sensitivity ", MillisText(base));
    NoNewlineConcat("set zof \"-zoom; sensitivity " + MillisText(base), "\" \t\t// Zoom OFF: standard sensitivity");
  }

  lemma NoNewlineConcat(a: string, b: string)
    requires '\n' !in a && '\n' !in b
    ensures '\n' !in a + b
  {
  }

  /** Distinct cm values get distinct file names. */
  lemma CfgNameInjective(a: int, b: int)
    requires CfgName(a) == CfgName(b)
    ensures a == b
  {
    var na, nb := CfgName(a), CfgName(b);
    assert na[..|na| - 4] == IntText(a);
    assert nb[..|nb| - 4] == IntText(b);
    IntTextInjective(a, b);
  }

  lemma CfgNamesDiffer(a: int, b: int)
    requires a != b
    ensures CfgName(a) != CfgName(b)
  {
    if CfgName(a) == CfgName(b) {
      CfgNameInjective(a, b);
    }
  }

  // ---------------------------------------------------------------------------
  // The loop

  /** The entries a run of the loop writes, whatever the folder held before. */
  function Written(cms: seq<int>, step: int -> Result<string>): map<string, string>
  {
    Emit(map[], cms, step).0
  }

  /** How many cm values the loop gets through before an exception, if any. */
  function Processed(cms: seq<int>, step: int -> Result<string>): (n: nat)
    ensures n <= |cms|
  {
    if cms == [] || step(cms[0]).Failure? then 0
    else 1 + Processed(cms[1..], step)
  }

  predicate Distinct(cms: seq<int>)
  {
    forall i, j :: 0 <= i < j < |cms| ==> cms[i] != cms[j]
  }

  lemma {:induction false} EmitOverlayGeneral(f: map<string, string>, g: map<string, string>, cms: seq<int>, step: int -> Result<string>)
    ensures Emit(f + g, cms, step).0 == f + Emit(g, cms, step).0
    ensures Emit(f + g, cms, step).1 == Emit(g, cms, step).1
    decreases |cms|
  {
    if cms != [] && step(cms[0]).Success? {
      var name, text := CfgName(cms[0]), step(cms[0]).value;
      assert (f + g)[name := text] == f + g[name := text];
      EmitOverlayGeneral(f, g[name := text], cms[1..], step);
    }
  }

  /**
    The loop only adds or replaces entries: the folder afterwards is the folder
    before, overwritten by what the loop writes, and how the loop ends does not
    depend on what the folder held.
  */
  lemma EmitOverlay(files: map<string, string>, cms: seq<int>, step: int -> Result<string>)
    ensures Emit(files, cms, step).0 == files + Written(cms, step)
    ensures Emit(files, cms, step).1 == Emit(map[], cms, step).1
  {
    EmitOverlayGeneral(files, map[], cms, step);
    assert files + map[] == files;
  }

  /**
    The loop stops at the first cm value whose step fails: every earlier step
    succeeded, the error is that step's, and a run without error got through all.
  */
  lemma {:induction false} EmitStopsAtFirstFailure(files: map<string, string>, cms: seq<int>, step: int -> Result<string>)
    ensures var n := Processed(cms, step);
      var error := Emit(files, cms, step).1;
      (forall j :: 0 <= j < n ==> step(cms[j]).Success?) &&
      (error.None? <==> n == |cms|) &&
      (n < |cms| ==> step(cms[n]).Failure? && error == Some(step(cms[n]).error))
    decreases |cms|
  {
    if cms != [] && step(cms[0]).Success? {
      var rest := cms[1..];
      EmitStopsAtFirstFailure(files[CfgName(cms[0]) := step(cms[0]).value], rest, step);
      forall j | 1 <= j < Processed(cms, step) ensures step(cms[j]).Success? {
        assert cms[j] == rest[j - 1];
      }
    }
  }

  /** The names written are exactly those of the cm values processed. */
  lemma {:induction false} WrittenNames(cms: seq<int>, step: int -> Result<string>)
    ensures Written(cms, step).Keys == set j | 0 <= j < Processed(cms, step) :: CfgName(cms[j])
    decreases |cms|
  {
    if cms != [] && step(cms[0]).Success? {
      var name, text := CfgName(cms[0]), step(cms[0]).value;
      var rest := cms[1..];
      EmitOverlay(map[name := text], rest, step);
      WrittenNames(rest, step);
      var n := Processed(cms, step);
      var w := Written(cms, step);
      assert w == map[name := text] + Written(rest, step);
      forall k | k in w ensures exists j :: 0 <= j < n && k == CfgName(cms[j]) {
        if k != name {
          var j :| 0 <= j < n - 1 && k == CfgName(rest[j]);
          assert k == CfgName(cms[j + 1]);
        }
      }
      forall j | 0 <= j < n ensures CfgName(cms[j]) in w {
        if j > 0 {
          assert CfgName(cms[j]) == CfgName(rest[j - 1]);
        }
      }
    }
  }

  /** Each processed cm value's file holds the text computed for it. */
  lemma {:induction false} WrittenTexts(cms: seq<int>, step: int -> Result<string>)
    requires Distinct(cms)
    ensures forall j :: 0 <= j < Processed(cms, step) ==>
      step(cms[j]).Success? && CfgName(cms[j]) in Written(cms, step) && Written(cms, step)[CfgName(cms[j])] == step(cms[j]).value
    decreases |cms|
  {
    if cms != [] && step(cms[0]).Success? {
      var name, text := CfgName(cms[0]), step(cms[0]).value;
      var rest := cms[1..];
      assert Distinct(rest) by {
        forall i, j | 0 <= i < j < |rest| ensures rest[i] != rest[j] {
          assert rest[i] == cms[i + 1] && rest[j] == cms[j + 1];
        }
      }
      EmitOverlay(map[name := text], rest, step);
      WrittenNames(rest, step);
      WrittenTexts(rest, step);
      var w := Written(cms, step);
      assert w == map[name := text] + Written(rest, step);
      forall j | 0 <= j < Processed(rest, step) ensures CfgName(rest[j]) != name {
        assert rest[j] == cms[j + 1];
        CfgNamesDiffer(cms[0], rest[j]);
      }
      assert name !in Written(rest, step);
      forall j | 0 <= j < Processed(cms, step)
        ensures step(cms[j]).Success? && CfgName(cms[j]) in w && w[CfgName(cms[j])] == step(cms[j]).value
      {
        if j > 0 {
          assert cms[j] == rest[j - 1];
        }
      }
    }
  }

  /** A loop whose first step raises writes nothing and ends with that exception. */
  lemma EmitFailsFirst(files: map<string, string>, cms: seq<int>, step: int -> Result<string>)
    requires cms != [] && step(cms[0]).Failure?
    ensures Emit(files, cms, step) == (files, Some(step(cms[0]).error))
  {
  }

  /**
    A run of the loop over distinct values that ends without an exception
    stores every value's text under its name, adds no other name and leaves
    the other entries as they were.
  */
  lemma EmitCompletes(files: map<string, string>, cms: seq<int>, step: int -> Result<string>)
    requires Distinct(cms) && Emit(files, cms, step).1 == None
    ensures var after := Emit(files, cms, step).0;
      (forall j :: 0 <= j < |cms| ==>
         step(cms[j]).Success? && CfgName(cms[j]) in after && after[CfgName(cms[j])] == step(cms[j]).value) &&
      (forall name :: name in after <==> name in files || exists j :: 0 <= j < |cms| && name == CfgName(cms[j])) &&
      (forall name :: name in files && (forall j :: 0 <= j < |cms| ==> name != CfgName(cms[j])) ==>
         after[name] == files[name])
  {
    var after, w := Emit(files, cms, step).0, Written(cms, step);
    EmitOverlay(files, cms, step);
    EmitStopsAtFirstFailure(files, cms, step);
    assert Processed(cms, step) == |cms|;
    WrittenNames(cms, step);
    WrittenTexts(cms, step);
    assert after == files + w;
    forall name | name in after ensures name in files || exists j :: 0 <= j < |cms| && name == CfgName(cms[j]) {
      if name in w {
        assert name in set j | 0 <= j < |cms| :: CfgName(cms[j]);
      }
    }
    forall name | name in files && (forall j :: 0 <= j < |cms| ==> name != CfgName(cms[j]))
      ensures after[name] == files[name]
    {
      assert name !in set j | 0 <= j < |cms| :: CfgName(cms[j]);
    }
  }

  /**
    A run of the loop over distinct values stopped by the exception of the n-th
    value keeps what the n earlier values wrote, and writes nothing for the
    n-th value or any later one.
  */
  lemma EmitStopped(files: map<string, string>, cms: seq<int>, step: int -> Result<string>)
    requires Distinct(cms) && Emit(files, cms, step).1.Some?
    ensures var n, after := Processed(cms, step), Emit(files, cms, step).0;
      n < |cms| && step(cms[n]).Failure? && Emit(files, cms, step).1 == Some(step(cms[n]).error) &&
      (forall j :: 0 <= j < n ==>
         step(cms[j]).Success? && CfgName(cms[j]) in after && after[CfgName(cms[j])] == step(cms[j]).value) &&
      (forall name :: name in files ==> name in after) &&
      (forall j :: n <= j < |cms| && CfgName(cms[j]) !in files ==> CfgName(cms[j]) !in after) &&
      (forall j :: n <= j < |cms| && CfgName(cms[j]) in files ==> after[CfgName(cms[j])] == files[CfgName(cms[j])])
  {
    var n := Processed(cms, step);
    EmitOverlay(files, cms, step);
    EmitStopsAtFirstFailure(files, cms, step);
    WrittenNames(cms, step);
    WrittenTexts(cms, step);
    var w := Written(cms, step);
    forall j | n <= j < |cms| ensures CfgName(cms[j]) !in w {
      forall i | 0 <= i < n ensures CfgName(cms[j]) != CfgName(cms[i]) {
        CfgNamesDiffer(cms[j], cms[i]);
      }
    }
  }

  // ---------------------------------------------------------------------------
  // The cm values visited

  /** The cm values lie on the grid from int(fromCm) to int(toCm) with stride int(step). */
  predicate OnGrid(job: Job, cm: int)
  {
    var first, last, s := Trunc(job.fromCm), Trunc(job.toCm), Trunc(job.step);
    0 < s && first <= cm <= last && (cm - first) % s == 0
  }

  /**
    With int(step) >= 1 the loop visits exactly the grid values, in increasing
    order, (int(toCm) - int(fromCm)) / int(step) + 1 of them when int(fromCm) <= int(toCm)
    and none otherwise, starting at int(fromCm).
  */
  lemma CmValuesAscending(job: Job)
    requires Trunc(job.step) >= 1
    ensures CmValues(job).Success?
    ensures var cms, first, last, s := CmValues(job).value, Trunc(job.fromCm), Trunc(job.toCm), Trunc(job.step);
      (forall cm :: cm in cms <==> OnGrid(job, cm)) &&
      (forall i, j :: 0 <= i < j < |cms| ==> cms[i] < cms[j]) &&
      (last < first ==> cms == []) &&
      (first <= last ==> |cms| == (last - first) / s + 1 && cms[0] == first)
  {
    var first, last, s := Trunc(job.fromCm), Trunc(job.toCm), Trunc(job.step);
    assert CmValues(job) == PyRange(first, last + 1, s);
    InclusiveRange(first, last, s);
  }

  /**
    With integral bounds fromCm < toCm the first file is the one for fromCm,
    which gets maxDecrease; when the stride divides the distance the last file
    is the one for toCm, which gets minDecrease.
  */
  lemma GridEndpoints(job: Job)
    requires Trunc(job.step) >= 1
    requires job.fromCm == Trunc(job.fromCm) as real && job.toCm == Trunc(job.toCm) as real
    requires job.fromCm < job.toCm
    ensures CmValues(job).Success? && CmValues(job).value != []
    ensures var cms := CmValues(job).value;
      cms[0] as real == job.fromCm &&
      InterpolatedDecrease(cms[0] as real, job.fromCm, job.toCm, job.maxDecrease, job.minDecrease) == Success(job.maxDecrease)
    ensures var cms, first, last := CmValues(job).value, Trunc(job.fromCm), Trunc(job.toCm);
      (last - first) % Trunc(job.step) == 0 ==>
        cms[|cms| - 1] as real == job.toCm &&
        InterpolatedDecrease(cms[|cms| - 1] as real, job.fromCm, job.toCm, job.maxDecrease, job.minDecrease) == Success(job.minDecrease)
  {
    CmValuesAscending(job);
    var cms, first, last, s := CmValues(job).value, Trunc(job.fromCm), Trunc(job.toCm), Trunc(job.step);
    var q := (last - first) / s;
    assert last - first == q * s + (last - first) % s;
    assert cms[|cms| - 1] == first + q * s;
  }

  /**
    A fractional fromCm is truncated for the loop but not for the interpolation:
    the first file is for a cm below fromCm, and its decrease lies beyond
    maxDecrease.
  */
  lemma FractionalFromOvershoots(job: Job)
    requires Trunc(job.step) >= 1 && 0.0 < job.fromCm < job.toCm && Trunc(job.fromCm) as real != job.fromCm
    requires job.minDecrease < job.maxDecrease
    ensures CmValues(job).Success? && CmValues(job).value != []
    ensures var cm := CmValues(job).value[0];
      cm == Trunc(job.fromCm) && (cm as real) < job.fromCm &&
      InterpolatedDecrease(cm as real, job.fromCm, job.toCm, job.maxDecrease, job.minDecrease).value > job.maxDecrease
  {
    CmValuesAscending(job);
    var cm := CmValues(job).value[0];
    DecreaseBelowFrom(cm as real, job.fromCm, job.toCm, job.maxDecrease, job.minDecrease);
  }

  /**
    A negative stride counts down from int(fromCm) and stops before reaching
    int(toCm) + 1: every visited value lies above int(toCm) + 1, the next one
    would not, and nothing is visited when int(fromCm) <= int(toCm) + 1.
  */
  lemma CmValuesDescending(job: Job)
    requires Trunc(job.step) < 0
    ensures CmValues(job).Success?
    ensures var cms, first, last, s := CmValues(job).value, Trunc(job.fromCm), Trunc(job.toCm), Trunc(job.step);
      (forall i :: 0 <= i < |cms| ==> cms[i] == first + i * s && cms[i] > last + 1) &&
      first + |cms| * s <= last + 1 &&
      (first <= last + 1 ==> cms == [])
  {
    var cms, first, last, s := CmValues(job).value, Trunc(job.fromCm), Trunc(job.toCm), Trunc(job.step);
    forall i | 0 <= i < |cms| ensures cms[i] > last + 1 {
      RangeIndexDescending(first, last + 1, s, i);
    }
    RangeIndexDescending(first, last + 1, s, |cms|);
  }

  /** The range of cm values never repeats a value. */
  lemma CmValuesDistinct(job: Job)
    requires CmValues(job).Success?
    ensures Distinct(CmValues(job).value)
  {
    var cms, first, last, s := CmValues(job).value, Trunc(job.fromCm), Trunc(job.toCm), Trunc(job.step);
    forall i, j | 0 <= i < j < |cms| ensures cms[i] != cms[j] {
      RangeDistinct(first, last + 1, s, i, j);
    }
  }

  /**
    With integral bounds fromCm < toCm every visited cm lies between them, so
    its decrease lies between the two decreases, and with decreases in [0, 100],
    a positive fromCm and a positive DPI the file gets a zoom sensitivity no
    larger than its base sensitivity.
  */
  lemma EmittedZoomNotAboveBase(job: Job, cm: int) returns (zoom: int, base: int)
    requires job.fromCm == Trunc(job.fromCm) as real && job.toCm == Trunc(job.toCm) as real
    requires 0.0 < job.fromCm < job.toCm && 0 < job.dpi
    requires 0.0 <= job.minDecrease <= 100.0 && 0.0 <= job.maxDecrease <= 100.0
    requires CmValues(job).Success? && cm in CmValues(job).value
    ensures job.fromCm <= cm as real <= job.toCm
    ensures FileFor(job, cm) == Success(ConfigText(job.dpi, zoom, base, job.zoomBind))
    ensures 0 <= zoom <= base
  {
    var first, last, s := Trunc(job.fromCm), Trunc(job.toCm), Trunc(job.step);
    var cms := CmValues(job).value;
    var i :| 0 <= i < |cms| && cms[i] == cm;
    if s > 0 {
      RangeIndexAscending(first, last + 1, s, i);
      MulLeft(0, i, s);
    } else {
      RangeIndexDescending(first, last + 1, s, i);
      assert false;
    }
    var sensitivity := BaseSensitivity(cm as real, job.dpi).value;
    var decrease := InterpolatedDecrease(cm as real, job.fromCm, job.toCm, job.maxDecrease, job.minDecrease).value;
    DecreaseBetweenBounds(cm as real, job.fromCm, job.toCm, job.maxDecrease, job.minDecrease);
    BaseSensitivityPositive(cm as real, job.dpi);
    ZoomNotAboveBase(sensitivity, decrease);
    zoom, base := Round3(ZoomSensitivity(sensitivity, decrease)), Round3(sensitivity);
  }

  // ---------------------------------------------------------------------------
  // generate_config

  /** Past the checks and the range() call, generate_config is the loop over the range. */
  lemma GenerationRunsLoop(form: Form, st: FolderState, creatable: bool, denied: set<string>, job: Job)
    requires ValidateInputs(form).None? && ParseJob(form) == Success(job)
    requires st.present || creatable
    requires CmValues(job).Success?
    ensures var run := Emit(st.files, CmValues(job).value, Steps(job, denied));
      Generation(form, st, creatable, denied) == (Finished(run.1), FolderState(true, run.0))
  {
  }

  /** A step of the loop that succeeds stores the text computed for its cm value. */
  lemma LoopStepStores(job: Job, cm: int, denied: set<string>)
    requires Steps(job, denied)(cm).Success?
    ensures FileFor(job, cm).Success? && Steps(job, denied)(cm).value == FileFor(job, cm).value
    ensures CfgName(cm) !in denied
  {
  }

  /**
    A run that finishes without an exception, with int(step) >= 1, leaves a file
    for every grid value holding the text computed for it, adds no other name,
    and leaves every other entry of the folder as it was.
  */
  lemma GenerationWritesGrid(form: Form, st: FolderState, creatable: bool, denied: set<string>, job: Job)
    requires ParseJob(form) == Success(job) && Trunc(job.step) >= 1
    requires Generation(form, st, creatable, denied).0 == Finished(None)
    ensures var after := Generation(form, st, creatable, denied).1.files;
      (forall cm :: OnGrid(job, cm) ==>
         CfgName(cm) in after && FileFor(job, cm).Success? && after[CfgName(cm)] == FileFor(job, cm).value) &&
      (forall name :: name in after <==> name in st.files || exists cm :: OnGrid(job, cm) && name == CfgName(cm)) &&
      (forall name :: name in st.files && (forall cm :: OnGrid(job, cm) ==> name != CfgName(cm)) ==>
         after[name] == st.files[name])
  {
    CmValuesAscending(job);
    CmValuesDistinct(job);
    var cms, step := CmValues(job).value, Steps(job, denied);
    assert ValidateInputs(form).None? && (st.present || creatable);
    GenerationRunsLoop(form, st, creatable, denied, job);
    EmitCompletes(st.files, cms, step);
    var after := Generation(form, st, creatable, denied).1.files;
    assert after == Emit(st.files, cms, step).0;
    forall cm | OnGrid(job, cm)
      ensures CfgName(cm) in after && FileFor(job, cm).Success? && after[CfgName(cm)] == FileFor(job, cm).value
    {
      var j :| 0 <= j < |cms| && cms[j] == cm;
      LoopStepStores(job, cm, denied);
    }
    forall name | name in after && name !in st.files ensures exists cm :: OnGrid(job, cm) && name == CfgName(cm) {
      var j :| 0 <= j < |cms| && name == CfgName(cms[j]);
      assert cms[j] in cms;
    }
    forall name | name in st.files && (forall cm :: OnGrid(job, cm) ==> name != CfgName(cm))
      ensures after[name] == st.files[name]
    {
      forall j | 0 <= j < |cms| ensures name != CfgName(cms[j]) {
        assert cms[j] in cms;
      }
    }
  }

  /** A zero stride raises ValueError in range() after the folder exists, before any file is written. */
  lemma GenerationZeroStep(form: Form, st: FolderState, creatable: bool, denied: set<string>, job: Job)
    requires ValidateInputs(form).None? && ParseJob(form) == Success(job)
    requires st.present || creatable
    requires Trunc(job.step) == 0
    ensures Generation(form, st, creatable, denied) == (Finished(Some(ValueError)), FolderState(true, st.files))
  {
  }

  /**
    Equal bounds with a positive stride raise ZeroDivisionError on the first
    and only cm value, before its file is written.
  */
  lemma GenerationEqualBounds(form: Form, st: FolderState, creatable: bool, denied: set<string>, job: Job)
    requires ValidateInputs(form).None? && ParseJob(form) == Success(job)
    requires st.present || creatable
    requires job.fromCm == job.toCm && Trunc(job.step) >= 1
    ensures Generation(form, st, creatable, denied) == (Finished(Some(ZeroDivisionError)), FolderState(true, st.files))
  {
    EqualBoundsRun(st.files, job, denied);
    GenerationRunsLoop(form, st, creatable, denied, job);
  }

  /** With equal bounds the loop runs over the one value int(fromCm) and raises there. */
  lemma EqualBoundsRun(files: map<string, string>, job: Job, denied: set<string>)
    requires job.fromCm == job.toCm && Trunc(job.step) >= 1
    ensures CmValues(job).Success?
    ensures Emit(files, CmValues(job).value, Steps(job, denied)) == (files, Some(ZeroDivisionError))
  {
    var first, s := Trunc(job.fromCm), Trunc(job.step);
    assert Trunc(job.toCm) == first;
    assert RangeLength(first, first + 1, s) == 1;
    var cms := CmValues(job).value;
    EqualBoundsStepFails(job, cms[0], denied);
    EmitFailsFirst(files, cms, Steps(job, denied));
  }

  /** With equal bounds every step of the loop raises ZeroDivisionError. */
  lemma EqualBoundsStepFails(job: Job, cm: int, denied: set<string>)
    requires job.fromCm == job.toCm
    ensures Steps(job, denied)(cm) == Failure(ZeroDivisionError)
  {
    assert FileFor(job, cm) == Failure(ZeroDivisionError);
  }

  /** With int(toCm) < int(fromCm) and a positive stride the run writes nothing and ends normally. */
  lemma GenerationEmptyRange(form: Form, st: FolderState, creatable: bool, denied: set<string>, job: Job)
    requires ValidateInputs(form).None? && ParseJob(form) == Success(job)
    requires st.present || creatable
    requires Trunc(job.toCm) < Trunc(job.fromCm) && Trunc(job.step) >= 1
    ensures Generation(form, st, creatable, denied) == (Finished(None), FolderState(true, st.files))
  {
    CmValuesAscending(job);
  }

  /**
    A run stopped by an exception at the n-th cm value (a zero cm, a zero DPI,
    equal bounds, a refused file) keeps the files of the n earlier values and
    writes nothing for that value or any later one.
  */
  lemma GenerationStopsEarly(form: Form, st: FolderState, creatable: bool, denied: set<string>, job: Job)
    requires ValidateInputs(form).None? && ParseJob(form) == Success(job)
    requires st.present || creatable
    requires CmValues(job).Success?
    requires Generation(form, st, creatable, denied).0.Finished?
    requires Generation(form, st, creatable, denied).0.error.Some?
    ensures var cms, n := CmValues(job).value, Processed(CmValues(job).value, Steps(job, denied));
      var after := Generation(form, st, creatable, denied).1.files;
      n < |cms| && LoopStep(job, cms[n], denied).Failure? &&
      Generation(form, st, creatable, denied).0.error == Some(LoopStep(job, cms[n], denied).error) &&
      (forall j :: 0 <= j < n ==>
         CfgName(cms[j]) in after && FileFor(job, cms[j]).Success? && after[CfgName(cms[j])] == FileFor(job, cms[j]).value) &&
      (forall name :: name in st.files ==> name in after) &&
      (forall j :: n <= j < |cms| && CfgName(cms[j]) !in st.files ==> CfgName(cms[j]) !in after) &&
      (forall j :: n <= j < |cms| && CfgName(cms[j]) in st.files ==> after[CfgName(cms[j])] == st.files[CfgName(cms[j])])
  {
    var cms, step := CmValues(job).value, Steps(job, denied);
    var n := Processed(cms, step);
    CmValuesDistinct(job);
    GenerationRunsLoop(form, st, creatable, denied, job);
    EmitStopped(st.files, cms, step);
    assert step(cms[n]) == LoopStep(job, cms[n], denied);
    forall j | 0 <= j < n ensures FileFor(job, cms[j]).Success? && step(cms[j]).value == FileFor(job, cms[j]).value {
      LoopStepStores(job, cms[j], denied);
    }
  }

  /** A zero DPI stops the run at its first cm value: nothing is written. */
  lemma GenerationZeroDpi(form: Form, st: FolderState, creatable: bool, denied: set<string>, job: Job)
    requires ValidateInputs(form).None? && ParseJob(form) == Success(job)
    requires st.present || creatable
    requires CmValues(job).Success? && CmValues(job).value != []
    requires job.dpi == 0
    ensures Generation(form, st, creatable, denied) == (Finished(Some(ZeroDivisionError)), FolderState(true, st.files))
  {
    GenerationRunsLoop(form, st, creatable, denied, job);
    assert FileFor(job, CmValues(job).value[0]) == Failure(ZeroDivisionError);
    EmitFailsFirst(st.files, CmValues(job).value, Steps(job, denied));
  }

  /** A cm value other than 0, with a nonzero DPI, distinct bounds and a name the folder accepts, is written. */
  lemma StepSucceeds(job: Job, cm: int, denied: set<string>)
    requires cm != 0 && job.dpi != 0 && job.fromCm != job.toCm && CfgName(cm) !in denied
    ensures Steps(job, denied)(cm).Success?
  {
    assert BaseSensitivity(cm as real, job.dpi).Success?;
    assert InterpolatedDecrease(cm as real, job.fromCm, job.toCm, job.maxDecrease, job.minDecrease).Success?;
    assert FileFor(job, cm).Success?;
  }

  /**
    The error conditions are the only ones: with a nonzero stride and DPI,
    distinct bounds, and no visited cm that is 0 or has a name the folder
    refuses, a run of a valid form whose folder exists or can be made ends
    normally.
  */
  lemma GenerationSucceeds(form: Form, st: FolderState, creatable: bool, denied: set<string>, job: Job)
    requires ValidateInputs(form).None? && ParseJob(form) == Success(job)
    requires st.present || creatable
    requires Trunc(job.step) != 0 && job.dpi != 0 && job.fromCm != job.toCm
    requires CmValues(job).Success?
    requires forall cm :: cm in CmValues(job).value ==> cm != 0 && CfgName(cm) !in denied
    ensures Generation(form, st, creatable, denied).0 == Finished(None)
  {
    var cms, step := CmValues(job).value, Steps(job, denied);
    GenerationRunsLoop(form, st, creatable, denied, job);
    EmitStopsAtFirstFailure(st.files, cms, step);
    var n := Processed(cms, step);
    if n < |cms| {
      assert cms[n] in cms;
      StepSucceeds(job, cms[n], denied);
    }
  }

  /**
    Reaching cm == 0 raises: the run stops at that value or earlier, and when
    it gets there the error is ZeroDivisionError and 0.cfg is not written.
  */
  lemma GenerationReachesZeroCm(form: Form, st: FolderState, creatable: bool, denied: set<string>, job: Job, k: nat)
    requires ValidateInputs(form).None? && ParseJob(form) == Success(job)
    requires st.present || creatable
    requires CmValues(job).Success? && k < |CmValues(job).value| && CmValues(job).value[k] == 0
    ensures var result := Generation(form, st, creatable, denied);
      result.0.Finished? && result.0.error.Some? &&
      Processed(CmValues(job).value, Steps(job, denied)) <= k &&
      (Processed(CmValues(job).value, Steps(job, denied)) == k ==> result.0.error == Some(ZeroDivisionError)) &&
      (CfgName(0) !in st.files ==> CfgName(0) !in result.1.files)
  {
    var cms, step := CmValues(job).value, Steps(job, denied);
    assert BaseSensitivity(0.0, job.dpi).Failure?;
    assert step(cms[k]) == Failure(ZeroDivisionError);
    GenerationRunsLoop(form, st, creatable, denied, job);
    EmitStopsAtFirstFailure(st.files, cms, step);
    CmValuesDistinct(job);
    EmitStopped(st.files, cms, step);
  }

  /** Pressing Generate twice with the same form leaves the folder as after the first press. */
  lemma GenerationTwice(form: Form, st: FolderState, creatable: bool, denied: set<string>)
    ensures var first := Generation(form, st, creatable, denied);
      Generation(form, first.1, creatable, denied) == first
  {
    var first := Generation(form, st, creatable, denied);
    if ValidateInputs(form).None? && ParseJob(form).Success? && (st.present || creatable) {
      var job := ParseJob(form).value;
      if CmValues(job).Success? {
        var cms := CmValues(job).value;
        var w := Written(cms, Steps(job, denied));
        EmitOverlay(st.files, cms, Steps(job, denied));
        EmitOverlay(st.files + w, cms, Steps(job, denied));
        assert (st.files + w) + w == st.files + w;
      }
    }
  }

  /** generate_config keeps a missing folder empty and creates it before writing. */
  lemma GenerationKeepsFolderValid(form: Form, st: FolderState, creatable: bool, denied: set<string>)
    requires st.present || st.files == map[]
    ensures var after := Generation(form, st, creatable, denied).1;
      after.present || after.files == map[]
    ensures Generation(form, st, creatable, denied).1.files != st.files ==> Generation(form, st, creatable, denied).1.present
  {
  }

  // ---------------------------------------------------------------------------
  // The preview

  /** What the preview shows with every field empty: the defaults 400 DPI, 1 to 100 cm, 25 % and 5 %. */
  lemma PreviewOfEmptyForm()
    ensures PreviewAsWritten(Form("", "", "", "", "", "", "", "")) == Values(103908, 77931, 1039, 987)
  {
    var p := PreviewAt(400, 1.0, 25.0, 100.0, 5.0);
    assert BaseSensitivity(1.0, 400).value == 103.908;
    assert BaseSensitivity(100.0, 400).value == 1.03908;
    assert ZoomSensitivity(103.908, 25.0) == 77.931;
    assert ZoomSensitivity(1.03908, 5.0) == 0.987126;
    assert Round3(103.908) == 103908;
    assert Round3(77.931) == 77931;
    assert Round3(1.03908) == 1039;
    assert Round3(0.987126) == 987;
    Round3Idempotent(77.931);
    Round3Idempotent(0.987126);
  }

  /**
    The preview shows, at fromCm, exactly the two sensitivities the file for
    fromCm receives when fromCm is integral, and at toCm those of the file for
    toCm when toCm is integral: the zoom values use maxDecrease and minDecrease
    directly, which is what the interpolation gives at the bounds.
  */
  lemma PreviewAgreesWithFiles(job: Job)
    requires job.fromCm != job.toCm && job.fromCm != 0.0 && job.toCm != 0.0 && job.dpi != 0
    ensures var p := PreviewAt(job.dpi, job.fromCm, job.maxDecrease, job.toCm, job.minDecrease);
      p.Values? &&
      (job.fromCm == Trunc(job.fromCm) as real ==>
         FileFor(job, Trunc(job.fromCm)) == Success(ConfigText(job.dpi, p.zoomFrom, p.baseFrom, job.zoomBind))) &&
      (job.toCm == Trunc(job.toCm) as real ==>
         FileFor(job, Trunc(job.toCm)) == Success(ConfigText(job.dpi, p.zoomTo, p.baseTo, job.zoomBind)))
  {
    var sensFrom := BaseSensitivity(job.fromCm, job.dpi).value;
    var sensTo := BaseSensitivity(job.toCm, job.dpi).value;
    Round3Idempotent(ZoomSensitivity(sensFrom, job.maxDecrease));
    Round3Idempotent(ZoomSensitivity(sensTo, job.minDecrease));
  }

  /** On a form that passes validate_inputs the preview reads the same numbers as generate_config. */
  lemma PreviewReadsJob(form: Form, job: Job)
    requires ValidateInputs(form).None? && ParseJob(form) == Success(job)
    ensures PreviewAsWritten(form) == PreviewAt(job.dpi, job.fromCm, job.maxDecrease, job.toCm, job.minDecrease)
  {
    ValidateAcceptsFilledForms(form);
  }

  /** As written, the preview blanks its four labels exactly when a field it reads is not a number (the ValueError case). */
  lemma PreviewAsWrittenBlank(form: Form)
    ensures PreviewAsWritten(form) == Blank <==> !PreviewReadable(form)
  {
  }

  /** As written, a zero cm or DPI in a readable form raises out of the preview instead of blanking it. */
  lemma PreviewAsWrittenRaises(form: Form)
    requires PreviewReadable(form)
    requires IntOr(form.dpi, 400).value == 0 || FloatOr(form.fromCm, 1.0).value == 0.0 ||
             FloatOr(form.toCm, 100.0).value == 0.0
    ensures PreviewAsWritten(form) == Raised(ZeroDivisionError)
  {
  }

  /** Typing "0" as the first character of "0.5" into the first cm field, with the rest default, raises. */
  lemma PreviewRaisesWhileTyping()
    ensures PreviewAsWritten(Form("", "0", "", "", "", "", "", "")) == Raised(ZeroDivisionError)
  {
    assert DigitPrefix("0") == 1;
    assert "0"[..1] == "0";
    DigitsValueSingle('0');
    assert ParseFloat("0") == Success(0.0);
  }

  // ---------------------------------------------------------------------------
  // A worked example

  /** The job of the worked example: from 1 to 3 cm in steps of 1 at 400 DPI, decreasing 25 % to 5 %. */
  function ExampleJob(): Job
  {
    Job(1.0, 3.0, 1.0, 400, 25.0, 5.0, "mouse2")
  }

  /** The example visits 1, 2 and 3 cm and writes 1.cfg, 2.cfg and 3.cfg. */
  lemma ExampleCmValues()
    ensures CmValues(ExampleJob()) == Success([1, 2, 3])
    ensures [CfgName(1), CfgName(2), CfgName(3)] == ["1.cfg", "2.cfg", "3.cfg"]
  {
    assert Trunc(1.0) == 1 && Trunc(3.0) == 3;
    assert RangeLength(1, 4, 1) == 3;
    var cms := CmValues(ExampleJob()).value;
    assert |cms| == 3 && cms[0] == 1 && cms[1] == 2 && cms[2] == 3;
    assert cms == [1, 2, 3];
    assert DigitChar(1) == '1' && DigitChar(2) == '2' && DigitChar(3) == '3';
    assert IntText(1) == "1" && IntText(2) == "2" && IntText(3) == "3";
    assert CfgName(1) == "1" + ".cfg" == "1.cfg";
    assert CfgName(2) == "2" + ".cfg" == "2.cfg";
    assert CfgName(3) == "3" + ".cfg" == "3.cfg";
  }

  /** At 1 cm the base sensitivity is 103.908 and the zoom sensitivity 77.931 (0.75 of it). */
  lemma ExampleFirstFile()
    ensures FileFor(ExampleJob(), 1) == Success(ConfigText(400, 77931, 103908, "mouse2"))
  {
    assert BaseSensitivity(1.0, 400).value == 103.908;
    assert InterpolatedDecrease(1.0, 1.0, 3.0, 25.0, 5.0).value == 25.0;
    assert ZoomSensitivity(103.908, 25.0) == 77.931;
    assert Round3(103.908) == 103908;
    assert Round3(77.931) == 77931;
  }

  /** At 3 cm the base sensitivity is 34.636 and the zoom sensitivity 32.904 (0.95 of it, rounded). */
  lemma ExampleLastFile()
    ensures FileFor(ExampleJob(), 3) == Success(ConfigText(400, 32904, 34636, "mouse2"))
  {
    assert BaseSensitivity(3.0, 400).value == 34.636;
    assert InterpolatedDecrease(3.0, 1.0, 3.0, 25.0, 5.0).value == 5.0;
    assert ZoomSensitivity(34.636, 5.0) == 32.9042;
    assert Round3(34.636) == 34636;
    assert Round3(32.9042) == 32904;
  }

  /** At 2 cm the base sensitivity is 51.954 and the decrease 15 %, giving zoom 44.161. */
  lemma ExampleMiddleFile()
    ensures FileFor(ExampleJob(), 2) == Success(ConfigText(400, 44161, 51954, "mouse2"))
  {
    assert BaseSensitivity(2.0, 400).value == 51.954;
    assert InterpolatedDecrease(2.0, 1.0, 3.0, 25.0, 5.0).value == 15.0;
    assert ZoomSensitivity(51.954, 15.0) == 44.1609;
    assert Round3(51.954) == 51954;
    assert Round3(44.1609) == 44161;
  }

  /** The form of the worked example, with the output folder "cfg". */
  function ExampleForm(): Form
  {
    Form("cfg", "1", "3", "5", "25", "1", "400", "mouse2")
  }

  /** The example form passes validate_inputs and reads as the example job. */
  lemma ExampleFormParses()
    ensures ValidateInputs(ExampleForm()).None?
    ensures ParseJob(ExampleForm()) == Success(ExampleJob())
  {
    ValidateAcceptsFilledForms(ExampleForm());
    assert DigitChar(0) == '0' && DigitChar(1) == '1' && DigitChar(2) == '2' && DigitChar(3) == '3';
    assert DigitChar(4) == '4' && DigitChar(5) == '5';
    assert NatText(1) == "1" && NatText(3) == "3" && NatText(5) == "5";
    assert NatText(25) == NatText(2) + [DigitChar(5)] == "25";
    assert NatText(40) == NatText(4) + [DigitChar(0)] == "40";
    assert NatText(400) == NatText(40) + [DigitChar(0)] == "400";
    ParseFloatNatText(1);
    ParseFloatNatText(3);
    ParseFloatNatText(5);
    ParseFloatNatText(25);
    ParseIntText(400);
  }

  /** A loop over three values whose steps all succeed stores the three texts, in order, and ends normally. */
  lemma EmitThree(files: map<string, string>, a: int, b: int, c: int, step: int -> Result<string>)
    requires step(a).Success? && step(b).Success? && step(c).Success?
    ensures Emit(files, [a, b, c], step) ==
      (files[CfgName(a) := step(a).value][CfgName(b) := step(b).value][CfgName(c) := step(c).value], None)
  {
    var f1 := files[CfgName(a) := step(a).value];
    var f2 := f1[CfgName(b) := step(b).value];
    var f3 := f2[CfgName(c) := step(c).value];
    assert [a, b, c][1..] == [b, c] && [b, c][1..] == [c] && [c][1..] == [];
    assert Emit(f3, [], step) == (f3, None);
    assert Emit(f2, [c], step) == Emit(f3, [], step);
    assert Emit(f1, [b, c], step) == Emit(f2, [c], step);
  }

  /** The loop of the worked example, into an empty folder that accepts every name. */
  lemma ExampleLoop()
    ensures Emit(map[], [1, 2, 3], Steps(ExampleJob(), {})) ==
      (map[
        "1.cfg" := ConfigText(400, 77931, 103908, "mouse2"),
        "2.cfg" := ConfigText(400, 44161, 51954, "mouse2"),
        "3.cfg" := ConfigText(400, 32904, 34636, "mouse2")], None)
  {
    ExampleSteps();
    ExampleCmValues();
    EmitThree(map[], 1, 2, 3, Steps(ExampleJob(), {}));
  }

  /** Each step of the worked example's loop succeeds with the text of its file. */
  lemma ExampleSteps()
    ensures Steps(ExampleJob(), {})(1) == Success(ConfigText(400, 77931, 103908, "mouse2"))
    ensures Steps(ExampleJob(), {})(2) == Success(ConfigText(400, 44161, 51954, "mouse2"))
    ensures Steps(ExampleJob(), {})(3) == Success(ConfigText(400, 32904, 34636, "mouse2"))
  {
    ExampleFirstFile();
    ExampleMiddleFile();
    ExampleLastFile();
  }

  /**
    The whole worked example: pressing Generate on the example form with a
    missing, creatable folder creates it and writes exactly 1.cfg, 2.cfg and
    3.cfg, and the run ends normally.
  */
  lemma ExampleRun()
    ensures Generation(ExampleForm(), FolderState(false, map[]), true, {}) ==
      (Finished(None), FolderState(true, map[
        "1.cfg" := ConfigText(400, 77931, 103908, "mouse2"),
        "2.cfg" := ConfigText(400, 44161, 51954, "mouse2"),
        "3.cfg" := ConfigText(400, 32904, 34636, "mouse2")]))
  {
    ExampleFormParses();
    ExampleCmValues();
    GenerationRunsLoop(ExampleForm(), FolderState(false, map[]), true, {}, ExampleJob());
    ExampleLoop();
  }
}
