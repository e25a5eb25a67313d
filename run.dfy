/** The macro entry point of keycap_exporter_run.py: a chain of precondition checks
    on the document, the dialog result and the configured paths, then one STL export
    per primary label of the layout file, in file order, stopping at the first
    error. The file system is a parameter: which paths are files, and the rows of the
    layout file. */
module Run {
  import opened Outcomes
  import opened Text
  import opened Geometry
  import opened Layout
  import opened KeycapCore

  datatype RunStatus = Canceled | Done | Failed(error: Error)

  /** What a run leaves behind: the output directory when it was created, the STL
      files written (path and mesh) in order, and how the run ended. */
  datatype RunOutcome = RunOutcome(createdDirectory: Option<string>, exports: seq<(string, Mesh)>, status: RunStatus)

  /** What the run reads from its surroundings: whether FreeCAD has an active
      document, whether the dialog was accepted, the configuration the dialog
      returns, which paths are regular files, and the rows of the layout file. */
  datatype Environment = Environment(hasActiveDocument: bool, dialogAccepted: bool, config: ExportConfiguration,
                                     isFile: string -> bool, layoutRows: seq<Row>)

  /** The per-label build the export loop calls. */
  type Builder = string -> Result<Solid>

  /** The path a label is exported to. */
  function ExportPath(outputDirectory: string, labelText: string): string {
    Join(outputDirectory, labelText + ".stl")
  }

  /** One iteration of the export loop: build, mesh, and the output path. */
  function ExportOf(labelText: string, build: Builder, outputDirectory: string, deflection: real)
    : (r: Result<(string, Mesh)>)
    ensures r.Success? <==> build(labelText).Success? && deflection > 0.0
    ensures r.Success? ==> r.value.0 == ExportPath(outputDirectory, labelText) &&
                           r.value.1 == Mesh(build(labelText).value, deflection)
    ensures build(labelText).Failure? ==> r == Failure(build(labelText).error)
  {
    var solid :- build(labelText);
    var mesh :- ShapeToMesh(solid, deflection);
    Success((ExportPath(outputDirectory, labelText), mesh))
  }

  /** The files the loop writes before it stops, and the error that stopped it. */
  datatype ExportRun = ExportRun(exports: seq<(string, Mesh)>, error: Option<Error>)

  /** The export loop over the labels: each label is exported in turn; the first
      error ends the loop. */
  function ExportAll(labels: seq<string>, build: Builder, outputDirectory: string, deflection: real): (r: ExportRun)
    ensures |r.exports| <= |labels|
  {
    if labels == [] then ExportRun([], None)
    else
      var done := ExportAll(labels[..|labels| - 1], build, outputDirectory, deflection);
      if done.error.Some? then done
      else
        match ExportOf(labels[|labels| - 1], build, outputDirectory, deflection)
        case Failure(e) => ExportRun(done.exports, Some(e))
        case Success(x) => ExportRun(done.exports + [x], None)
  }

  /** The loop writes one file per label, in label order, up to the first label
      that fails; it stops with that label's error; and it stops only when one
      fails. */
  lemma {:induction false} ExportAllStopsAtFirstError(labels: seq<string>, build: Builder, outputDirectory: string,
                                                      deflection: real)
    ensures var r := ExportAll(labels, build, outputDirectory, deflection);
      var k := |r.exports|;
      (forall j :: 0 <= j < k ==> ExportOf(labels[j], build, outputDirectory, deflection) == Success(r.exports[j])) &&
      (r.error.None? <==> k == |labels|) &&
      (r.error.Some? ==> ExportOf(labels[k], build, outputDirectory, deflection) == Failure(r.error.value))
  {
    if labels != [] {
      var init := labels[..|labels| - 1];
      ExportAllStopsAtFirstError(init, build, outputDirectory, deflection);
      assert forall j :: 0 <= j < |init| ==> init[j] == labels[j];
    }
  }

  /** What generate_keycaps_to_stl_from_selected_template does, with the per-label
      build as a parameter. */
  function Run(env: Environment, build: Builder): RunOutcome {
    RunWith(env, PrimaryLabels(env.layoutRows), build)
  }

  /** The checks that pass before the output directory is looked at: a document is
      open, the dialog was accepted, and the font path names a file. */
  predicate FontFound(env: Environment) {
    env.hasActiveDocument && env.dialogAccepted && env.config.fontPath != "" && env.isFile(env.config.fontPath)
  }

  /** The layout path names a file. */
  predicate LayoutFound(env: Environment) {
    env.config.layoutFilePath != "" && env.isFile(env.config.layoutFilePath)
  }

  /** The run once the layout file, if it is read, yields the given labels. The
      checks run in order, each reached only when the earlier ones pass: document,
      dialog, font file, output directory (created once it is known to be
      non-empty), layout file, labels; then the export loop. */
  function RunWith(env: Environment, labels: seq<string>, build: Builder): (r: RunOutcome)
    ensures !env.hasActiveDocument ==> r == RunOutcome(None, [], Failed(NoActiveDocument))
    ensures env.hasActiveDocument && !env.dialogAccepted ==> r == RunOutcome(None, [], Canceled)
    ensures r.createdDirectory.Some? <==>
      env.hasActiveDocument && env.dialogAccepted &&
      env.config.fontPath != "" && env.isFile(env.config.fontPath) && env.config.outputDirectory != ""
    ensures r.createdDirectory.Some? ==> r.createdDirectory.value == env.config.outputDirectory
    ensures r.exports != [] || r.status == Done ==>
      r.createdDirectory.Some? && env.config.layoutFilePath != "" && env.isFile(env.config.layoutFilePath) &&
      labels != []
    ensures r.status == Done ==> |r.exports| == |labels|
    ensures env.hasActiveDocument && env.dialogAccepted && !FontFound(env) ==>
      r == RunOutcome(None, [], Failed(FontFileNotFound))
    ensures FontFound(env) && env.config.outputDirectory == "" ==>
      r == RunOutcome(None, [], Failed(EmptyOutputDirectory))
    ensures FontFound(env) && env.config.outputDirectory != "" && !LayoutFound(env) ==>
      r == RunOutcome(Some(env.config.outputDirectory), [], Failed(LayoutFileNotFound))
    ensures FontFound(env) && env.config.outputDirectory != "" && LayoutFound(env) && labels == [] ==>
      r == RunOutcome(Some(env.config.outputDirectory), [], Failed(NoPrimaryLabels))
    ensures FontFound(env) && env.config.outputDirectory != "" && LayoutFound(env) && labels != [] ==>
      var done := ExportAll(labels, build, env.config.outputDirectory, env.config.linearDeflection);
      r.createdDirectory == Some(env.config.outputDirectory) && r.exports == done.exports &&
      (done.error.None? ==> r.status == Done) &&
      (done.error.Some? ==> r.status == Failed(done.error.value))
  {
    var c := env.config;
    if !env.hasActiveDocument then RunOutcome(None, [], Failed(NoActiveDocument))
    else if !env.dialogAccepted then RunOutcome(None, [], Canceled)
    else if c.fontPath == "" || !env.isFile(c.fontPath) then RunOutcome(None, [], Failed(FontFileNotFound))
    else if c.outputDirectory == "" then RunOutcome(None, [], Failed(EmptyOutputDirectory))
    else
      var created := Some(c.outputDirectory);
      if c.layoutFilePath == "" || !env.isFile(c.layoutFilePath) then RunOutcome(created, [], Failed(LayoutFileNotFound))
      else
        if |labels| == 0 then RunOutcome(created, [], Failed(NoPrimaryLabels))
        else
          var done := ExportAll(labels, build, c.outputDirectory, c.linearDeflection);
          ExportAllStopsAtFirstError(labels, build, c.outputDirectory, c.linearDeflection);
          RunOutcome(created, done.exports, if done.error.None? then Done else Failed(done.error.value))
  }

  /** generate_keycaps_to_stl_from_selected_template with the per-label build as a
      parameter; the intended one is build_keycap_shape_from_configuration on the
      template. */
  method GenerateKeycapsWith(env: Environment, build: Builder) returns (out: RunOutcome)
    ensures out == Run(env, build)
  {
    if !env.hasActiveDocument {
      return RunOutcome(None, [], Failed(NoActiveDocument));
    }
    if !env.dialogAccepted {
      return RunOutcome(None, [], Canceled);
    }
    var c := env.config;
    if c.fontPath == "" || !env.isFile(c.fontPath) {
      return RunOutcome(None, [], Failed(FontFileNotFound));
    }
    if c.outputDirectory == "" {
      return RunOutcome(None, [], Failed(EmptyOutputDirectory));
    }
    var created := Some(c.outputDirectory);
    if c.layoutFilePath == "" || !env.isFile(c.layoutFilePath) {
      return RunOutcome(created, [], Failed(LayoutFileNotFound));
    }
    var labels := ReadPrimaryLabels(env.layoutRows);
    if |labels| == 0 {
      return RunOutcome(created, [], Failed(NoPrimaryLabels));
    }
    var done := ExportLabels(labels, build, c.outputDirectory, c.linearDeflection);
    return RunOutcome(created, done.exports, if done.error.None? then Done else Failed(done.error.value));
  }

  /** The export loop of generate_keycaps_to_stl_from_selected_template: for each
      label, build the solid, mesh it and write it to the label's path; an error
      ends the loop. */
  method ExportLabels(labels: seq<string>, build: Builder, outputDirectory: string, deflection: real)
    returns (r: ExportRun)
    ensures r == ExportAll(labels, build, outputDirectory, deflection)
  {
    var exports: seq<(string, Mesh)> := [];
    var i := 0;
    while i < |labels|
      invariant 0 <= i <= |labels|
      invariant ExportAll(labels[..i], build, outputDirectory, deflection) == ExportRun(exports, None)
    {
      assert labels[..i + 1][..i] == labels[..i];
      var labelText := labels[i];
      var finalSolid := build(labelText);
      if finalSolid.Failure? {
        PrefixFailureIsFinal(labels, i + 1, build, outputDirectory, deflection);
        return ExportRun(exports, Some(finalSolid.error));
      }
      var mesh := ShapeToMesh(finalSolid.value, deflection);
      if mesh.Failure? {
        PrefixFailureIsFinal(labels, i + 1, build, outputDirectory, deflection);
        return ExportRun(exports, Some(mesh.error));
      }
      var outputPath := Join(outputDirectory, labelText + ".stl");
      exports := exports + [(outputPath, mesh.value)];
      i := i + 1;
    }
    assert labels[..i] == labels;
    return ExportRun(exports, None);
  }

  /** Once a prefix of the labels ends in an error, the whole loop ends with the
      same exports and error. */
  lemma {:induction false} PrefixFailureIsFinal(labels: seq<string>, n: nat, build: Builder, outputDirectory: string,
                                                deflection: real)
    requires n <= |labels|
    requires ExportAll(labels[..n], build, outputDirectory, deflection).error.Some?
    ensures ExportAll(labels, build, outputDirectory, deflection) == ExportAll(labels[..n], build, outputDirectory, deflection)
    decreases |labels| - n
  {
    if n < |labels| {
      var longer := labels[..n + 1];
      assert longer[..n] == labels[..n];
      PrefixFailureIsFinal(labels, n + 1, build, outputDirectory, deflection);
    } else {
      assert labels[..n] == labels;
    }
  }

  /** The export paths of two labels without '/' coincide exactly when the labels
      do: a label repeated in the layout overwrites its own file and no other. */
  lemma ExportPathsSeparateLabels(outputDirectory: string, a: string, b: string)
    requires forall j :: 0 <= j < |a| ==> a[j] != '/'
    requires forall j :: 0 <= j < |b| ==> b[j] != '/'
    ensures ExportPath(outputDirectory, a) == ExportPath(outputDirectory, b) <==> a == b
    ensures Basename(ExportPath(outputDirectory, a)) == a + ".stl"
  {
    StlNameHasNoSlash(a);
    StlNameHasNoSlash(b);
    JoinBasename(outputDirectory, a + ".stl");
    JoinBasename(outputDirectory, b + ".stl");
    if ExportPath(outputDirectory, a) == ExportPath(outputDirectory, b) {
      SuffixCancels(a, b, ".stl");
    }
  }

  lemma StlNameHasNoSlash(a: string)
    requires forall j :: 0 <= j < |a| ==> a[j] != '/'
    ensures forall j :: 0 <= j < |a + ".stl"| ==> (a + ".stl")[j] != '/'
  {}

  lemma SuffixCancels(a: string, b: string, suffix: string)
    requires a + suffix == b + suffix
    ensures a == b
  {
    assert |a| == |b|;
    assert a == (a + suffix)[..|a|];
    assert b == (b + suffix)[..|b|];
  }

  /** The call on line 55 as written: build_keycap_with_legend_shape is called with
      the document, the configuration in the place of the face placement, and the
      label, and without the extrusion vector, the configuration and the blank key,
      so Python raises TypeError before building anything. */
  function MismatchedCall(labelText: string): (r: Result<Solid>)
    ensures r == Failure(MissingArguments)
  {
    Failure(MissingArguments)
  }

  /** generate_keycaps_to_stl_from_selected_template as written. */
  method GenerateKeycaps(env: Environment) returns (out: RunOutcome)
    ensures out == Run(env, MismatchedCall)
  {
    out := GenerateKeycapsWith(env, MismatchedCall);
  }

  /** As written, a run that passes every check creates the output directory and
      then fails on the first label without writing any file. */
  lemma AsWrittenRunExportsNothing(env: Environment, labels: seq<string>)
    requires env.hasActiveDocument && env.dialogAccepted
    requires env.config.fontPath != "" && env.isFile(env.config.fontPath) && env.config.outputDirectory != ""
    requires env.config.layoutFilePath != "" && env.isFile(env.config.layoutFilePath)
    requires labels != []
    ensures RunWith(env, labels, MismatchedCall) == RunOutcome(Some(env.config.outputDirectory), [], Failed(MissingArguments))
  {
    var c := env.config;
    ExportAllStopsAtFirstError(labels, MismatchedCall, c.outputDirectory, c.linearDeflection);
    assert ExportOf(labels[0], MismatchedCall, c.outputDirectory, c.linearDeflection).Failure?;
  }

  /** With a build that works and a positive deflection, a run that passes every
      check writes one file per label, in layout order, each at its label's path. */
  lemma SuccessfulRunExportsEveryLabel(env: Environment, labels: seq<string>, build: Builder)
    requires env.hasActiveDocument && env.dialogAccepted
    requires env.config.fontPath != "" && env.isFile(env.config.fontPath) && env.config.outputDirectory != ""
    requires env.config.layoutFilePath != "" && env.isFile(env.config.layoutFilePath)
    requires labels != [] && env.config.linearDeflection > 0.0
    requires forall l :: l in labels ==> build(l).Success?
    ensures var r := RunWith(env, labels, build);
      r.status == Done && |r.exports| == |labels| &&
      forall j :: 0 <= j < |labels| ==>
        r.exports[j] == (ExportPath(env.config.outputDirectory, labels[j]), Mesh(build(labels[j]).value, env.config.linearDeflection))
  {
    var c := env.config;
    ExportAllStopsAtFirstError(labels, build, c.outputDirectory, c.linearDeflection);
  }
}
