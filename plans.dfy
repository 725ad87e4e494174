/** A backup plan (src/S3Backup/plan.py): construction from a raw key/value
    map, and the three-stage pipeline (optional command, zip, upload) that
    `run` drives. The shell, the glob library and the archive writer are
    oracles collected in `Host`; what the pipeline does to the outside world
    is recorded as a trace of `Effect`s. */
module Plans {
  import opened Formatting

  /** Keys a raw plan must carry, in the order they are checked. */
  const RequiredKeys: seq<string> := ["Name", "Src", "Output"]
  /** The one optional key. */
  const CommandKey: string := "Command"

  const CommandFailurePrefix: string := "Failed with code "
  const NoInputFilesPrefix: string := "No input files retrieved from pattern: "

  /** How a stage, or the whole run, ended: normally, or by raising an
      exception whose text is `detail`. */
  datatype Outcome = Completed | Failed(detail: string)

  /** What the pipeline does to the world, in the order it does it. */
  datatype Effect =
    | Shell(command: string)               // the shell runs the plan's command
    | Glob(pattern: string)                // the source pattern is expanded
    | OpenArchive(path: string)            // the archive is created (truncated) for writing
    | AddFile(path: string, file: string)  // one file was written into the archive
    | Upload(path: string)                 // the upload stage ran (it transfers nothing yet)

  datatype RunResult = RunResult(outcome: Outcome, effects: seq<Effect>)

  /** The collaborators the pipeline cannot see into. */
  datatype Host = Host(
    exitCode: string -> int,                      // exit status of a shell command
    glob: string -> seq<string>,                  // files matching a pattern, in iteration order
    openError: string -> Option<string>,          // error raised when an archive path is opened, if any
    addError: (string, string) -> Option<string>) // error raised when a file is added to an archive, if any

  /** The stage an effect belongs to; stages run in increasing rank. */
  function Rank(e: Effect): nat {
    match e
    case Shell(_) => 0
    case Glob(_) => 1
    case OpenArchive(_) => 1
    case AddFile(_, _) => 1
    case Upload(_) => 2
  }

  ghost predicate StagesOrdered(effects: seq<Effect>) {
    forall i, j :: 0 <= i < j < |effects| ==> Rank(effects[i]) <= Rank(effects[j])
  }

  // ---------------------------------------------------------------------------
  // Construction

  /** No element occurs twice. */
  predicate Distinct(s: seq<string>) {
    forall i, j :: 0 <= i < j < |s| ==> s[i] != s[j]
  }

  /** The keys among `keys` that `raw` lacks, in the order of `keys`. */
  function MissingFrom(keys: seq<string>, raw: map<string, string>): seq<string> {
    if keys == [] then []
    else
      var last := keys[|keys| - 1];
      MissingFrom(keys[..|keys| - 1], raw) + (if last in raw then [] else [last])
  }

  /** A key is reported missing exactly when it is one of `keys` and absent from `raw`,
      and each is reported once when `keys` has no repetition. */
  lemma {:induction false} MissingFromExactly(keys: seq<string>, raw: map<string, string>)
    ensures forall k :: k in MissingFrom(keys, raw) <==> k in keys && k !in raw
    ensures Distinct(keys) ==> Distinct(MissingFrom(keys, raw))
  {
    if keys != [] {
      var init := keys[..|keys| - 1];
      MissingFromExactly(init, raw);
      assert keys == init + [keys[|keys| - 1]];
      if Distinct(keys) {
        var last, m0 := keys[|keys| - 1], MissingFrom(init, raw);
        assert Distinct(init);
        assert last !in init;
        assert last !in m0;
        var m := MissingFrom(keys, raw);
        assert m == m0 + (if last in raw then [] else [last]);
        forall i, j | 0 <= i < j < |m| ensures m[i] != m[j] {
          if j < |m0| {
            assert m[i] == m0[i] && m[j] == m0[j];
          } else {
            assert m[i] == m0[i] && m[j] == last;
          }
        }
      }
    }
  }

  /** For the three required keys, each missing one is reported once. */
  lemma MissingRequired(raw: map<string, string>)
    ensures forall k :: k in MissingFrom(RequiredKeys, raw) <==> k in RequiredKeys && k !in raw
    ensures Distinct(MissingFrom(RequiredKeys, raw))
  {
    assert Distinct(RequiredKeys);
    MissingFromExactly(RequiredKeys, raw);
  }

  /** No required key is reported exactly when all three are present. */
  lemma NoneMissing(raw: map<string, string>)
    ensures MissingFrom(RequiredKeys, raw) == [] <==> "Name" in raw && "Src" in raw && "Output" in raw
  {
    MissingFromExactly(RequiredKeys, raw);
    var m := MissingFrom(RequiredKeys, raw);
    assert RequiredKeys[0] == "Name" && RequiredKeys[1] == "Src" && RequiredKeys[2] == "Output";
    if m != [] {
      assert m[0] in m;
    }
  }

  // ---------------------------------------------------------------------------
  // Messages of the exceptions the stages raise

  /** The message of a failed command: the fixed prefix, then the exit status as `%d` writes it. */
  function CommandFailure(code: int): string {
    CommandFailurePrefix + FormatInt(code)
  }

  /** The message of a failed command starts with the fixed prefix, and the
      exit status can be read back from the rest of it. */
  lemma CommandFailureNamesCode(code: int)
    ensures var message := CommandFailure(code);
      |CommandFailurePrefix| <= |message| &&
      message[..|CommandFailurePrefix|] == CommandFailurePrefix &&
      ParseInt(message[|CommandFailurePrefix|..]) == Some(code)
  {
    var digits := FormatInt(code);
    assert (CommandFailurePrefix + digits)[|CommandFailurePrefix|..] == digits;
    FormatIntRoundTrip(code);
  }

  /** The message of an empty file set: the fixed prefix, then the pattern. */
  function NoInputFiles(pattern: string): string {
    NoInputFilesPrefix + pattern
  }

  /** The message of an empty file set is the fixed prefix followed by the
      pattern, unchanged. */
  lemma NoInputFilesNamesPattern(pattern: string)
    ensures var message := NoInputFiles(pattern);
      |NoInputFilesPrefix| <= |message| &&
      message[..|NoInputFilesPrefix|] == NoInputFilesPrefix &&
      message[|NoInputFilesPrefix|..] == pattern
  {
  }

  // ---------------------------------------------------------------------------
  // Stage specifications

  /** The command stage: run the command; a non-zero exit status raises. */
  function CommandStage(command: string, host: Host): RunResult {
    var code := host.exitCode(command);
    RunResult(if code != 0 then Failed(CommandFailure(code)) else Completed, [Shell(command)])
  }

  datatype Adding = Adding(added: seq<string>, error: Option<string>)

  /** Adds `files` to the archive at `path` one by one, stopping at the first
      file whose addition raises. */
  function AddAll(path: string, files: seq<string>, host: Host): (r: Adding)
    ensures r.error.None? ==> r.added == files
    ensures r.error.Some? ==>
      |r.added| < |files| && r.added == files[..|r.added|] &&
      host.addError(path, files[|r.added|]) == r.error
    ensures forall k :: 0 <= k < |r.added| ==> host.addError(path, files[k]).None?
  {
    if files == [] then Adding([], None)
    else
      match host.addError(path, files[0])
      case Some(e) => Adding([], Some(e))
      case None =>
        var rest := AddAll(path, files[1..], host);
        Adding([files[0]] + rest.added, rest.error)
  }

  /** The archive writes for `files`, one per file, in order. */
  function AddEffects(path: string, files: seq<string>): (effects: seq<Effect>)
    ensures |effects| == |files|
    ensures forall k :: 0 <= k < |files| ==> effects[k] == AddFile(path, files[k])
  {
    if files == [] then []
    else AddEffects(path, files[..|files| - 1]) + [AddFile(path, files[|files| - 1])]
  }

  /** The zip stage: expand the pattern; no match raises before the archive
      is opened; otherwise open the archive and add every file in order. */
  function ZipStage(src: string, output: string, host: Host): RunResult {
    var files := host.glob(src);
    if files == [] then RunResult(Failed(NoInputFiles(src)), [Glob(src)])
    else if host.openError(output).Some? then RunResult(Failed(host.openError(output).value), [Glob(src)])
    else
      var adding := AddAll(output, files, host);
      RunResult(
        if adding.error.Some? then Failed(adding.error.value) else Completed,
        [Glob(src), OpenArchive(output)] + AddEffects(output, adding.added))
  }

  /** The upload stage, which in the source only logs a placeholder. */
  function UploadStage(output: string): RunResult {
    RunResult(Completed, [Upload(output)])
  }

  // ---------------------------------------------------------------------------
  // The plan

  class Plan {
    const name: string
    const src: string
    const output: string
    const command: Option<string>

    constructor (name: string, src: string, output: string, command: Option<string>)
      ensures this.name == name && this.src == src && this.output == output && this.command == command
    {
      this.name := name;
      this.src := src;
      this.output := output;
      this.command := command;
    }

    /** The required-key check of the constructor: every key is checked,
        each missing one is logged, and `failed` records whether any was. */
    static method CheckRequired(raw: map<string, string>) returns (failed: bool, log: seq<string>)
      ensures log == MissingFrom(RequiredKeys, raw)
      ensures failed <==> log != []
      ensures !failed <==> "Name" in raw && "Src" in raw && "Output" in raw
      ensures forall k :: k in log <==> k in RequiredKeys && k !in raw
      ensures Distinct(log)
    {
      failed := false;
      log := [];
      for i := 0 to |RequiredKeys|
        invariant log == MissingFrom(RequiredKeys[..i], raw)
        invariant failed <==> log != []
      {
        assert RequiredKeys[..i + 1][..i] == RequiredKeys[..i];
        if RequiredKeys[i] !in raw {
          failed := true;
          log := log + [RequiredKeys[i]];
        }
      }
      assert RequiredKeys[..|RequiredKeys|] == RequiredKeys;
      MissingRequired(raw);
      NoneMissing(raw);
    }

    /** Builds a plan from its raw definition; yields no plan, having logged
        every missing required key, when one is absent. */
    static method FromRaw(raw: map<string, string>) returns (plan: Plan?, log: seq<string>)
      ensures log == MissingFrom(RequiredKeys, raw)
      ensures plan != null <==> "Name" in raw && "Src" in raw && "Output" in raw
      ensures plan != null ==>
        fresh(plan) && plan.name == raw["Name"] && plan.src == raw["Src"] && plan.output == raw["Output"] &&
        plan.command == (if CommandKey in raw then Some(raw[CommandKey]) else None)
    {
      var failed;
      failed, log := CheckRequired(raw);
      if failed {
        // The source reads the three fields before it tests `failed`, so a
        // missing key raises at that read; either way no plan results.
        return null, log;
      }
      var command := None;
      if CommandKey in raw {
        command := Some(raw[CommandKey]);
      }
      plan := new Plan(raw["Name"], raw["Src"], raw["Output"], command);
    }

    /** The effects of the command stage, empty when there is no command. */
    function CommandEffects(): seq<Effect> {
      if command.Some? then [Shell(command.value)] else []
    }

    /** The command stage lets the pipeline continue. */
    predicate CommandPasses(host: Host) {
      command.None? || host.exitCode(command.value) == 0
    }

    /** What `run` does: the command if any, then zip, then upload, each stage
        running only if every earlier one completed. */
    function Pipeline(host: Host): RunResult {
      var first := if command.Some? then CommandStage(command.value, host) else RunResult(Completed, []);
      if first.outcome.Failed? then first
      else
        var zip := ZipStage(src, output, host);
        if zip.outcome.Failed? then RunResult(zip.outcome, first.effects + zip.effects)
        else RunResult(Completed, first.effects + zip.effects + UploadStage(output).effects)
    }

    /** The command, when there is one, is the first thing the run does; without
        one the shell is never used. */
    lemma CommandRunsFirst(host: Host)
      ensures var r := Pipeline(host);
        (command.Some? ==> r.effects != [] && r.effects[0] == Shell(command.value)) &&
        (command.None? ==> forall k :: 0 <= k < |r.effects| ==> !r.effects[k].Shell?)
    {
    }

    /** A failing command ends the run: nothing is zipped or uploaded, and the
        failure names the exit status. */
    lemma CommandFailureStopsRun(host: Host)
      requires !CommandPasses(host)
      ensures Pipeline(host) ==
        RunResult(Failed(CommandFailure(host.exitCode(command.value))), [Shell(command.value)])
    {
    }

    /** A pattern that matches nothing fails the run, naming the pattern, before
        any archive is opened and without an upload. */
    lemma EmptyFileSetFails(host: Host)
      requires CommandPasses(host) && host.glob(src) == []
      ensures Pipeline(host) == RunResult(Failed(NoInputFiles(src)), CommandEffects() + [Glob(src)])
    {
    }

    /** A run completes exactly when the command passes, the pattern matches,
        the archive opens and every matched file is added; it then wrote every
        matched file into the archive, in order, and ended with the upload. */
    lemma CompletedRun(host: Host)
      ensures var r := Pipeline(host);
        (r.outcome.Completed? <==>
          CommandPasses(host) && host.glob(src) != [] && host.openError(output).None? &&
          forall k :: 0 <= k < |host.glob(src)| ==> host.addError(output, host.glob(src)[k]).None?) &&
        (r.outcome.Completed? ==>
          r.effects == CommandEffects() + [Glob(src), OpenArchive(output)] +
                       AddEffects(output, host.glob(src)) + [Upload(output)])
    {
    }

    /** A failed run never reaches the upload stage. */
    lemma FailedRunSkipsUpload(host: Host)
      ensures var r := Pipeline(host);
        r.outcome.Failed? ==> forall k :: 0 <= k < |r.effects| ==> !r.effects[k].Upload?
    {
    }

    /** Every effect of a run belongs to a stage no earlier than the effects before it. */
    lemma StagesInOrder(host: Host)
      ensures StagesOrdered(Pipeline(host).effects)
    {
      var r := Pipeline(host);
      var c := CommandEffects();
      assert forall k :: 0 <= k < |c| ==> Rank(c[k]) == 0;
      if CommandPasses(host) && host.glob(src) != [] && host.openError(output).None? {
        var adding := AddAll(output, host.glob(src), host);
        var zip := [Glob(src), OpenArchive(output)] + AddEffects(output, adding.added);
        assert forall k :: 0 <= k < |zip| ==> Rank(zip[k]) == 1;
        if adding.error.None? {
          assert r.effects == c + zip + [Upload(output)];
        } else {
          assert r.effects == c + zip;
        }
      }
    }

    method RunCommand(host: Host) returns (r: RunResult)
      requires command.Some?
      ensures r == CommandStage(command.value, host)
    {
      var code := host.exitCode(command.value);
      if code != 0 {
        return RunResult(Failed(CommandFailure(code)), [Shell(command.value)]);
      }
      r := RunResult(Completed, [Shell(command.value)]);
    }

    method ZipFiles(host: Host) returns (r: RunResult)
      ensures r == ZipStage(src, output, host)
    {
      var files := host.glob(src);
      if |files| == 0 {
        return RunResult(Failed(NoInputFiles(src)), [Glob(src)]);
      }
      var openError := host.openError(output);
      if openError.Some? {
        return RunResult(Failed(openError.value), [Glob(src)]);
      }
      var effects := [Glob(src), OpenArchive(output)];
      for i := 0 to |files|
        invariant forall k :: 0 <= k < i ==> host.addError(output, files[k]).None?
        invariant effects == [Glob(src), OpenArchive(output)] + AddEffects(output, files[..i])
      {
        var addError := host.addError(output, files[i]);
        if addError.Some? {
          ghost var adding := AddAll(output, files, host);
          assert adding.error.Some? && |adding.added| == i;
          return RunResult(Failed(addError.value), effects);
        }
        assert files[..i + 1][..i] == files[..i];
        effects := effects + [AddFile(output, files[i])];
      }
      assert files[..|files|] == files;
      r := RunResult(Completed, effects);
    }

    method UploadArchive() returns (r: RunResult)
      ensures r == UploadStage(output)
    {
      r := RunResult(Completed, [Upload(output)]);
    }

    /** Runs the stages strictly in order, abandoning the rest at the first failure. */
    method Run(host: Host) returns (r: RunResult)
      ensures r == Pipeline(host)
    {
      var effects := [];
      if command.Some? {
        var c := RunCommand(host);
        if c.outcome.Failed? {
          return c;
        }
        effects := c.effects;
      }
      var zip := ZipFiles(host);
      if zip.outcome.Failed? {
        return RunResult(zip.outcome, effects + zip.effects);
      }
      var upload := UploadArchive();
      r := RunResult(Completed, effects + zip.effects + upload.effects);
    }
  }
}
