# s3-backup: backup plans and the batch that runs them

s3-backup reads a list of backup plans from its configuration and runs them
one after another. Each plan names a source pattern (`Src`), an output archive
(`Output`), a display name (`Name`) and, optionally, a shell command to run
first (`Command`). Running a plan means three stages in order:

1. run the command, if there is one; a non-zero exit status fails the plan;
2. expand the pattern and write every matching file into a zip archive;
3. upload the archive (a placeholder that only logs).

The batch driver runs every plan in list order and numbers them "k of N". It
catches each plan's failure so the remaining plans still run. After each plan
it sends a status email, with subject `[S3-Backup] [SUCCESS|FAILURE] - Plan: <name>`
and a body giving the run time and, for a failure, the error text. It sends
nothing when either address is unset, and it swallows any error raised while
sending.

The model has three modules:

- `Formatting` (`formatting.dfy`) holds the `Option` type. It also holds
  Python's `%d` rendering of an integer (`FormatInt`) and a parser that inverts
  it.
- `Plans` (`plans.dfy`) models `src/S3Backup/plan.py`.
  - `Plan` is a class whose fields are fixed once construction succeeds.
  - The static method `FromRaw` is the constructor's validation.
  - The methods `RunCommand`, `ZipFiles`, `UploadArchive` and `Run` are the
    stages and the driver. Each is proved equal to a specification function
    (`CommandStage`, `ZipStage`, `UploadStage`, `Pipeline`).
  - Lemmas state what the pipeline promises about `Pipeline`.
  - The shell, the glob library and the archive writer are the oracles of a
    `Host` value.
  - What a run does to the world is returned as a trace of `Effect`s: shell
    runs, glob expansions, archive opens, file adds and uploads.
- `S3Backup` (`s3backup.dfy`) models `src/S3Backup/__init__.py`.
  - The class `S3BackupTool` holds the loaded plans and mail settings.
  - Its `RunPlans` loop is proved equal to the specification function
    `RunFrom` over the per-plan passes (`Attempts`, built from `Attempt`
    and from each plan's run, listed by `Runs`).
  - `AttemptShape` states what one pass reports, `AttemptOfPlan` ties
    each listed pass to its plan, and `RunOfPlan` ties each listed run to
    that plan's `run`.
  - The lemmas about the batch hold whatever each plan's run gave.
  - `SendStatusEmail` is proved equal to `StatusEmail`, and the email it sends
    is `Message`.
  - The mail service's connect and send errors and the clock are the oracles
    of a `Mailer` value. Each status call has its own key: the plan's counter,
    plus 0 for the first call about the plan, or 1 for the failure call made
    after the success call raised.

A `Report` records everything that happened for one plan: its counter and
total, its run, and each status call made for it. A status call is a `Notice`
holding plan, success and detail, plus what became of the delivery. A
`Report` also records the exception that escaped, if any.

## Model

| member | source | states |
|---|---|---|
| Formatting.FormatIntRoundTrip | src/S3Backup/plan.py:84 | The `%d` text of an exit status reads back as exactly that status, negative ones included. |
| Plans.MissingFromExactly | src/S3Backup/plan.py:41-44 | A key is reported missing exactly when it is one of the checked keys and absent from the raw map. With distinct keys, no key is reported twice. |
| Plans.MissingRequired | src/S3Backup/plan.py:31 | For Name, Src and Output, each absent key is reported, and reported once. |
| Plans.NoneMissing | src/S3Backup/plan.py:39-44 | Nothing is reported exactly when Name, Src and Output are all present. |
| Plans.Plan.CheckRequired | src/S3Backup/plan.py:39-44 | The loop checks every required key, in order, before anything else happens. It logs each missing one exactly once. `failed` is set exactly when one is missing, i.e. unless all three keys are present. |
| Plans.Plan.FromRaw | src/S3Backup/plan.py:38-55 | A plan results exactly when Name, Src and Output are present, with every missing key logged. The new plan's name, src and output are the raw values. Its command is the raw `Command` value when that key is present, else None. |
| Plans.Plan.constructor | src/S3Backup/plan.py:46-52 | The fields hold the values given. |
| Plans.CommandFailureNamesCode | src/S3Backup/plan.py:83-84 | The failure message is `Failed with code ` followed by text that reads back as the exit status. |
| Plans.NoInputFilesNamesPattern | src/S3Backup/plan.py:94-95 | The failure message is the fixed prefix followed by the source pattern, unchanged. |
| Plans.AddAll | src/S3Backup/plan.py:97-103 | Files are added in iteration order. With no error, every file was added. With an error, the added files are a strict prefix, and the error is the one raised by the first file not added. Every added file was added without error. |
| Plans.AddEffects | src/S3Backup/plan.py:98-100 | There is one archive write per file, naming that file, in order. |
| Plans.Plan.RunCommand | src/S3Backup/plan.py:76-88 | The shell runs the command once. A non-zero status fails with the code message. Status 0 completes. |
| Plans.Plan.ZipFiles | src/S3Backup/plan.py:90-103 | Equals the zip-stage specification. An empty match fails, naming the pattern, before any archive is opened. Otherwise the archive is opened and the files are added one by one until the first add error, which aborts the stage. |
| Plans.Plan.UploadArchive | src/S3Backup/plan.py:105-106 | The upload stage completes and does nothing but its placeholder step. |
| Plans.Plan.Run | src/S3Backup/plan.py:57-74 | Equals `Pipeline`: the command if any, then zip, then upload, each only if every earlier stage completed. |
| Plans.Plan.CommandRunsFirst | src/S3Backup/plan.py:66-68 | With a command, the first thing a run does is run that command. Without one, the shell is never used. |
| Plans.Plan.CommandFailureStopsRun | src/S3Backup/plan.py:66-74 | A non-zero exit status ends the run with the code message. The run's only effect is the shell call: nothing is globbed, zipped or uploaded. |
| Plans.Plan.EmptyFileSetFails | src/S3Backup/plan.py:93-97 | When the command passes and the pattern matches nothing, the run fails naming the pattern. The run's effects are the command and the glob only, so no archive is opened. |
| Plans.Plan.CompletedRun | src/S3Backup/plan.py:57-74 | A run completes iff four things hold: the command passes, the pattern matches, the archive opens and every matched file is added. A completed run's effects are the command, the glob, the archive open, one write per matched file in order, and the upload. |
| Plans.Plan.FailedRunSkipsUpload | src/S3Backup/plan.py:70-74 | A failed run never reaches the upload stage. |
| Plans.Plan.StagesInOrder | src/S3Backup/plan.py:57-74 | A run's effects never go back to an earlier stage: command effects come first, then zip effects, then upload. |
| S3Backup.Verdict | src/S3Backup/__init__.py:75-77 | The result word is SUCCESS or FAILURE, SUCCESS exactly for a success; either way it has 7 letters. |
| S3Backup.SubjectRoundTrip | src/S3Backup/__init__.py:90 | The verdict and the plan name can be read back from the subject line. |
| S3Backup.ParsedSubjectIsSubject | src/S3Backup/__init__.py:90 | Every line that parses as a subject is the subject of what it parses to. So subjects and (verdict, plan) pairs correspond one to one. |
| S3Backup.SummaryLayout | src/S3Backup/__init__.py:79-82 | The body's first sentence starts with `The backup plan, ` and the plan name. It ends with SUCCESS exactly for a success. |
| S3Backup.BodyLayout | src/S3Backup/__init__.py:79-85 | The body starts with the summary. It goes on exactly when a failure detail is given, and then continues with the failure header and that detail. |
| S3Backup.MessageLayout | src/S3Backup/__init__.py:75-92 | A sent email goes from EMAIL_FROM to EMAIL_TO. Its subject reads back as the call's verdict and plan. Its body is the summary, plus the failure section exactly when a detail was given. |
| S3Backup.StatusEmail | src/S3Backup/__init__.py:65-96 | With an address missing, nothing is attempted and nothing raises. Otherwise a connect error raises out of the call. Otherwise sending is tried with that call's timestamp, and a send error is kept inside the call. The call raises exactly when mail is enabled and connecting fails. |
| S3Backup.S3BackupTool.SendStatusEmail | src/S3Backup/__init__.py:65-96 | Equals `StatusEmail`. An email is handed to the mail service exactly when sending is tried, and that email is `Message` of the call. |
| S3Backup.AttemptShape | src/S3Backup/__init__.py:54-59 | A pass for plan k carries counter k, total N and the plan's run, and makes one or two status calls, all about that plan. The first call's success flag is "the run completed", with a detail exactly when the run raised. A second, failure call about the same plan, carrying the connect error as its detail, happens exactly when the run completed but the success call raised. An error escapes exactly when the last call failed to connect, and it is that call's connect error. So a failed plan whose failure email cannot connect ends the batch. |
| S3Backup.ReliableAttempt | src/S3Backup/__init__.py:54-59 | With mail setup that never fails, a pass makes exactly one status call, about its own plan, and nothing escapes. |
| S3Backup.RunOfPlan | src/S3Backup/__init__.py:51-55 | The run listed for the plan at index j is what that plan's `run` does: the loop runs each plan in list order. |
| S3Backup.AttemptOfPlan | src/S3Backup/__init__.py:51-59 | The pass listed for the plan at index j is that plan's pass over its run, reported as number j + 1 of N. |
| S3Backup.S3BackupTool.RunOne | src/S3Backup/__init__.py:52-59 | One loop iteration equals `Attempt` for that plan's run, counter and total. |
| S3Backup.RunFromInOrder | src/S3Backup/__init__.py:50-61 | The batch from any index on holds the passes from there on, in order. Every pass but the last let the loop continue. The batch raises what the last pass raised, and stops short only because something escaped. |
| S3Backup.InOrderDeterminesBatch | src/S3Backup/__init__.py:50-61 | Any batch fitting that description is the one `RunFrom` builds, so the description is complete. |
| S3Backup.RunFromIsolatesFailures | src/S3Backup/__init__.py:54-59 | When no pass lets an error escape, the batch holds every pass and raises nothing. |
| S3Backup.BatchOfPlans | src/S3Backup/__init__.py:45-63 | An empty plan list yields no runs and no calls. Report k is plan k's pass over its run, counted k of N, in list order, so each plan is taken once. A plan's failure never stops the batch. The batch ends early only after a report whose error escaped, and that error is the batch's. |
| S3Backup.ReliableMailRunsEveryPlan | src/S3Backup/__init__.py:51-61 | When status setup never raises, every plan is run and reported exactly once, each with exactly one status call, and nothing escapes. |
| S3Backup.S3BackupTool.RunPlans | src/S3Backup/__init__.py:45-63 | The loop's reports and escaped error equal `RunFrom` over the plans' passes, each plan run by its own `run`. `BatchOfPlans` and `ReliableMailRunsEveryPlan` give its properties. |
| S3Backup.S3BackupTool.constructor | src/S3Backup/__init__.py:34-43 | The tool holds the loaded plan list and mail settings. |

## Left out

- Process, file and network I/O are oracles.
  - Running the command (`subprocess.call`, the `os.devnull` redirection) is reduced to its exit status.
  - `formic.FileSet` is reduced to the list of paths it yields.
  - `ZipFile` is reduced to "the archive opened / did not open" and "this file was added / raised".
  - `boto.ses` is reduced to "connecting raised / did not" and "sending raised / did not".
  - No bytes, compression or remote state are modelled.
- The oracles answer as functions of their arguments. Two plans that share a command, pattern or archive path therefore see the same answers. So does a plan whose pattern matches an archive an earlier plan wrote: the model does not let one plan's writes change what a later plan's glob finds.
- The glob library (`formic`) is not part of this model. The zip stage expands the pattern once, as the list `Host.glob` gives. That rests on two assumptions about `formic.FileSet`, which the model cannot check:
  - `files()` at `plan.py:94` returns a sized collection, so `len` applies to it and gives the number of matches;
  - iterating the set at `plan.py:98` yields the same matches, as paths that `ZipFile.write` accepts, in the same order.
  - If `files()` is instead a generator, or yields pairs rather than paths, then line 94 or line 100 raises on every run. The zip stage would then always fail, which the model does not capture.
- Errors from closing the archive at the end of the `with` block are not modelled. A partial archive left after a failed add shows in the trace as the files written before the failure.
- The clock is an oracle string per status call. The `strftime` date format (the date-time form of section 3.3 of RFC 5322) is not modelled.
- `boto.ses.connect_to_region` returns None for an unknown region. `send_email` then raises inside the inner `try`, which the model covers as a send error.
- Loading the configuration (`config_loader.config_setup`) is not part of this model. The tool is built from already-loaded plans and settings.
- Raw plan values are strings. A JSON `null` for `Command`, which the source would treat like an absent command, is not modelled.
- Logging is not modelled, except the missing-key log that `CheckRequired` returns and the "k of N" counter carried by each `Report`. The log call at `__init__.py:58` passes an argument its format string has no slot for, and that is not modelled either.
- Plans.Plan.FromRaw: construction failure is a `null` plan, with no distinction between exception types.
  - In the source, `raw_plan['Name']`, `['Src']` and `['Output']` are read at lines 46-48, before `failed` is tested at line 54.
  - A missing key therefore raises `KeyError` there, after the check loop has logged every missing key.
  - The explicit exception at line 55 is never reached.
- Plans.Plan.RunCommand: the `CalledProcessError` handler at lines 86-88 is not modelled. `subprocess.call` never raises that exception, so the handler cannot run. Errors `subprocess.call` itself may raise, such as failing to start a shell, are not modelled.
- Exceptions that are not subclasses of `Exception` (e.g. `KeyboardInterrupt`) escape both `try` blocks in the source. They are not modelled.
- S3Backup.Attempt: an exception's text is modelled as a string. The source's `%s` conversion of the exception object is taken to be that string.
- S3Backup.StatusEmail, S3Backup.Attempt: the model assumes that building the texts never raises. Under Python 2, configuration values loaded from JSON are `unicode`, and two conversions can raise `UnicodeEncodeError` on non-ASCII text:
  - the log line at `__init__.py:94` formats `EMAIL_TO` and the plan name into a byte string with `{0:s}`. A non-ASCII address or plan name makes the inner `except` raise, so that send error escapes the call instead of being swallowed;
  - `'%s' % exception` at `__init__.py:85` converts the exception to a byte string. A non-ASCII message, such as `NoInputFiles` of a non-ASCII `Src`, raises outside the inner `try`. From the call in the `except` branch, that error leaves the batch.
  - The model's clause that only a connect error escapes (`StatusEmail`) and `AttemptShape`'s escape clause hold for ASCII text only.
