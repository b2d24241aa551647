# Installer-test job orchestration, modelled in Dafny

This project models the local logic of two scripts of the desktop installer
test repository.

- `scripts/call_testflinger_job.py` is the queued-mode runner. It picks the
  testflinger job template for a machine and fills in the image URL. It then
  appends a `test_data` section: a list of attachments (`local` and `agent`
  path pairs) and the command script the agent runs. Finally it streams the
  output of `testflinger submit` line by line and remembers the last job id
  and the last `RESULT=PASS` / `RESULT=FAIL` verdict. The process exit status
  is taken from that verdict.
- `scripts/call_job.py` is the direct-mode runner. It locates the robot file
  and lists the template and resource assets. It bundles them into a
  dictionary keyed by basename for the remote `robot_run` call, and builds
  the robot text that flashes the USB stick.

The files are modelled as follows.

- The filesystem is a value: a map from path to content for every regular
  file, and the names `glob("*")` lists in each directory (`files.dfy`).
- Asset discovery is shared by both scripts (`bundle.dfy`). It is
  parameterised by the directory each script uses. `call_testflinger_job.py`
  builds relative paths such as `robot/templates`, because pathlib drops the
  leading `./` of `ROOT_DIR`. `call_job.py` builds paths under its
  repository root, which the model takes as a parameter.
- The Python string operations the scripts rely on are defined once, with
  their meaning proved (`text.dfy`). These are the `in` test, leftmost
  search, `os.path.basename` and `str.replace`.
- The loops of the scripts are methods with loop invariants, proved equal to
  specification functions. The properties are lemmas about those functions:
  - `CollectTemplateFiles` and `CollectResourcePaths`;
  - `GatherTestAssets`;
  - `CreateTestDataSection`;
  - `RunSubmission`.

## Model

| member | source | states |
|---|---|---|
| Text.FindFrom | scripts/call_testflinger_job.py:251 | the index found is an occurrence of the pattern at or after the start, and there is no occurrence between the start and it; None means there is no occurrence at all |
| Text.IndexOf | scripts/call_testflinger_job.py:251 | the index found holds the character and is the first such index at or after the start; None means the character does not occur there |
| Text.Basename | scripts/call_job.py:143-145 | `os.path.basename`; its meaning is stated by Text.BasenameIsLastComponent and Text.BasenameOfJoin |
| Text.BasenameIsLastComponent | scripts/call_job.py:143-145 | `os.path.basename` is the longest suffix without a '/': it contains no '/', is a suffix of the path, and is preceded by '/' unless it is the whole path |
| Text.BasenameOfJoin | scripts/call_job.py:143-145 | a single-component name joined under any directory has that name as its basename |
| Text.ReplaceAll | scripts/call_testflinger_job.py:159 | `str.replace`; its meaning is stated by Text.ReplaceWithoutOccurrence and Text.ReplaceFirstOccurrence |
| Text.ReplaceWithoutOccurrence | scripts/call_testflinger_job.py:159 | `str.replace` leaves text without the pattern unchanged |
| Text.ReplaceFirstOccurrence | scripts/call_testflinger_job.py:159 | `str.replace` substitutes the leftmost occurrence and continues after it, so each occurrence found left to right is replaced and nothing else changes |
| Files.Read | scripts/call_job.py:116 | `read_bytes` on a path in the map of regular, readable files returns its content unchanged; any other path gives NotReadable naming it, standing for every OSError of the read (missing file, directory, no permission) |
| Bundle.FilesIn | scripts/call_testflinger_job.py:62-63 | the filtered glob keeps at most the listed names, and only regular files |
| Bundle.FilesInMembership | scripts/call_testflinger_job.py:62-63 | a path is kept exactly when it is a regular file and equals `dir / n` for a listed name `n` |
| Bundle.TemplateFiles | scripts/call_testflinger_job.py:57-64 | every path returned is a regular file |
| Bundle.TemplateFilesMembership | scripts/call_testflinger_job.py:57-64 | a path is returned exactly when it is a regular file listed in one of the configured template directories |
| Bundle.TemplateFilesAppend | scripts/call_testflinger_job.py:61-63 | the files of consecutive configured templates are concatenated in config order |
| Bundle.CollectTemplateFiles | scripts/call_testflinger_job.py:57-64 | the loop over the configured templates returns exactly the template files, in config order |
| Bundle.ResourcePaths | scripts/call_testflinger_job.py:67-73 | one path per configured resource, pointwise the resource directory joined with the name |
| Bundle.CollectResourcePaths | scripts/call_testflinger_job.py:67-73 | the loop appending one path per resource returns exactly those paths, in order |
| Bundle.ResourceBasenames | scripts/call_job.py:144-145 | for a configured resource name without '/', the basename of its resource path is that name |
| CallJob.LoadRobotFile | scripts/call_job.py:108-116 | the robot file read is `ROOT_DIR/robot/suites/<suite>/<test>`; its bytes are returned unchanged, or NotReadable names that path |
| CallJob.LoadListOfTemplates | scripts/call_job.py:119-125 | the regular files of every configured template directory under the repository root, in config order |
| CallJob.LoadLocalResources | scripts/call_job.py:128-133 | as many paths as configured resources, the i-th being `<root>/robot/resources/<name_i>` |
| CallJob.Assets | scripts/call_job.py:141-145 | the bundle built by the two loops, as a fold over the paths; its meaning is stated by CallJob.AssetsFailure, CallJob.AssetsKeys and CallJob.AssetsLastWins |
| CallJob.GatherTestAssets | scripts/call_job.py:136-146 | the two loops build exactly the bundle of the templates followed by the resources, or fail on the first path that is not a regular file |
| CallJob.AssetsFailure | scripts/call_job.py:136-146 | the bundle succeeds exactly when every path is a regular file; a failure names the first path that is not |
| CallJob.AssetsKeys | scripts/call_job.py:136-146 | the keys of the bundle are exactly the basenames of the paths, in both directions |
| CallJob.AssetsLastWins | scripts/call_job.py:136-146 | the value under a basename is the unaltered content of the last path with that basename |
| CallJob.ResourcesOverrideTemplates | scripts/call_job.py:141-145 | a resource whose basename is also a template's replaces it in the bundle |
| CallJob.BundleFailsOnlyOnResources | scripts/call_job.py:119-146 | templates are listed only when they are regular files, so bundling the configured assets fails exactly when a configured resource is missing |
| CallJob.FlashUsbRobotText | scripts/call_job.py:163-173 | the robot text exists exactly when the config has `iso-url`, otherwise KeyError; it has the fixed header as prefix, ends with one newline, and the text between them is exactly the URL |
| CallJob.FlashUsbProvisionsConfiguredUrl | scripts/call_job.py:163-173 | reading the argument of the provisioning keyword back out of the robot text gives the configured URL |
| TestflingerJob.LoadListOfTemplates | scripts/call_testflinger_job.py:57-64 | the regular files of every configured directory under `robot/templates`, in config order |
| TestflingerJob.LoadLocalResources | scripts/call_testflinger_job.py:67-73 | as many paths as configured resources, the i-th being `robot/resources/<name_i>` |
| TestflingerJob.TemplateFilePath | scripts/call_testflinger_job.py:81-93 | the template path for the machine and test; its meaning is stated by TestflingerJob.TemplatePathChoice |
| TestflingerJob.TemplatePathChoice | scripts/call_testflinger_job.py:76-93 | a test name containing `tpm-fde` selects `testflinger-definitions/tpm-fde/<machine>.template.yaml`, and any other name selects `testflinger-definitions/<machine>.template.yaml`, both as if-and-only-if; the file is named after the machine |
| TestflingerJob.LoadTestflingerTemplate | scripts/call_testflinger_job.py:76-94 | the text of the chosen template file, or NotReadable naming that path |
| TestflingerJob.GetRobotFileFp | scripts/call_testflinger_job.py:97-107 | the robot file path `robot/suites/<suite>/<test>`; TestflingerJob.RobotAttachmentIsRunnersRobotFile ties it to the file the direct-mode runner loads |
| TestflingerJob.RobotAttachmentIsRunnersRobotFile | scripts/call_testflinger_job.py:97-107 | the robot file path attached to the job is the one the direct-mode runner loads when it runs from the attachment directory |
| TestflingerJob.ResourceAttachmentsAreRunnersResources | scripts/call_testflinger_job.py:67-73 | each attached resource path is the path the direct-mode runner bundles under the same root |
| TestflingerJob.Manifest | scripts/call_testflinger_job.py:120-130 | 3 + number of templates + number of resources entries, each with `local` equal to `agent`: robot file, runner script, job config, then the templates and the resources in order |
| TestflingerJob.TestDataSection | scripts/call_testflinger_job.py:110-144 | the section text as header, rendered manifest and command script; TestflingerJob.SectionListsManifest states what it reads back as, and TestflingerJob.CreateTestDataSection proves the loop builds it |
| TestflingerJob.CreateTestDataSection | scripts/call_testflinger_job.py:110-144 | the accumulated text is the section header, the rendered manifest and the command script |
| TestflingerJob.ParseEntryText | scripts/call_testflinger_job.py:122-130 | a rendered entry with quote-free paths reads back as the same attachment, leaving the text after it |
| TestflingerJob.ParseEntriesText | scripts/call_testflinger_job.py:120-130 | a rendered list of entries followed by non-entry text reads back as the same list |
| TestflingerJob.SectionListsManifest | scripts/call_testflinger_job.py:110-144 | for quote-free paths the section starts with the header, its attachment list reads back as exactly the manifest followed by the command script, and it ends with the runner invocation naming the job config |
| TestflingerJob.CompleteYaml | scripts/call_testflinger_job.py:159-163 | the filled-in template, a newline and the section; its meaning is stated by TestflingerJob.WriteCompleteTestflingerYaml |
| TestflingerJob.WriteCompleteTestflingerYaml | scripts/call_testflinger_job.py:147-163 | the document is the template with every `<url>` replaced by the image URL, a newline and the test data section; a template without the placeholder is kept verbatim |
| Submission.JobIdMatch | scripts/call_testflinger_job.py:251 | `re.search("job_id: (.*)\n", line)`: a group found holds no newline and fits after the tag in the line; Submission.JobIdMatchSound, Submission.JobIdMatchComplete and Submission.JobIdNoMatch state that it is the leftmost match |
| Submission.JobIdMatchSound | scripts/call_testflinger_job.py:251 | an id found is a match of `job_id: (.*)\n` (the tag, characters other than newline, a newline) at the leftmost occurrence of the tag |
| Submission.JobIdMatchComplete | scripts/call_testflinger_job.py:251 | a match of the pattern with no earlier tag is the group the search returns |
| Submission.JobIdNoMatch | scripts/call_testflinger_job.py:251 | the search fails exactly when the pattern matches nowhere in the line |
| Submission.Marker | scripts/call_testflinger_job.py:252-255 | a line containing `RESULT=PASS` gives True even when it also contains `RESULT=FAIL`; one with only `RESULT=FAIL` gives False; one with neither leaves the verdict unchanged |
| Submission.Step | scripts/call_testflinger_job.py:251-257 | one iteration of the loop: a line carrying a marker sets the verdict to it and any other line keeps it; a line matching the job id pattern sets the job id to the group and any other line keeps it; once set, neither is cleared |
| Submission.Reduce | scripts/call_testflinger_job.py:243-257 | the state after the whole stream; its meaning is stated by Submission.LastMarkerWins, Submission.NoMarkerNoResult, Submission.LastJobIdWins and Submission.NoMatchNoJobId |
| Submission.LastMarkerWins | scripts/call_testflinger_job.py:243-255 | the verdict after the stream is the one of the last line carrying a marker |
| Submission.NoMarkerNoResult | scripts/call_testflinger_job.py:235-255 | the verdict stays None exactly when no line carries a marker |
| Submission.LastJobIdWins | scripts/call_testflinger_job.py:251-257 | the job id after the stream is the one matched on the last matching line |
| Submission.NoMatchNoJobId | scripts/call_testflinger_job.py:234-257 | the job id stays None exactly when no line matches the pattern |
| Submission.ExitCode | scripts/call_testflinger_job.py:267 | the status is 0 or 1, and 0 exactly when the verdict is True |
| Submission.ExitZeroIffLastMarkerPass | scripts/call_testflinger_job.py:243-267 | the status is 0 exactly when some line contains `RESULT=PASS` and no later line carries any marker |
| Submission.FinishAsWritten | scripts/call_testflinger_job.py:266-267 | as written, with a job id artifacts are retrieved for it and the status follows the verdict; without one the retrieval raises TypeError and the process ends with status 1 |
| Submission.Finish | scripts/call_testflinger_job.py:266-267 | retrieval happens exactly when a job id was seen, and for that id; it never raises; the status is 0 or 1, and 0 exactly when a job id was seen and the verdict is True |
| Submission.FinishZeroIff | scripts/call_testflinger_job.py:243-267 | over a whole stream, the status is 0 exactly when some line matched the job id pattern and the last line carrying a marker contains `RESULT=PASS` |
| Submission.RunSubmission | scripts/call_testflinger_job.py:234-267 | the loop leaves the job id and verdict of the whole stream; a failing submission is reported but keeps them; the retrieval step is the corrected one of Submission.Finish (see the Findings row: as written the script crashes without a job id), and the status equals the as-written status of Submission.FinishAsWritten |
| Submission.PassWithoutJobIdCrashes | scripts/call_testflinger_job.py:266-267 | the stream `RESULT=PASS\n` has a passing verdict and no job id; as written it ends in an uncaught TypeError, while the intended ending skips retrieval; both give status 1 |
| Submission.JobIdThenVerdict | scripts/call_testflinger_job.py:243-267 | the stream `job_id: abc-123\n` then `RESULT=PASS\n` or `RESULT=FAIL\n` yields job id `abc-123`, retrieval for it and status 0 or 1 respectively, the same as written and as intended |
| Submission.FailThenPass | scripts/call_testflinger_job.py:252-255 | a FAIL line followed by a PASS line ends with status 0 |

## Left out

- Logging, printing, argument parsing and JSON decoding are not modelled. The job config is a record of the keys the modelled code reads.
- A missing required config key (`suite`, `test`, `templates`, `resources`) is not modelled. Only the optional `iso-url` is, and its absence gives KeyError.
- The temporary job file, the `testflinger submit` subprocess and `gather_artifacts` are left out. The submission output is a parameter: a sequence of lines and the tool's return code. A failure to start the tool behaves like an empty stream followed by a failure.
- The RPC connection, `robot_run`, reservation and HTTP in `call_job.py` are left out. They are remote I/O.
- pathlib normalisation is not modelled. Paths are strings joined with '/'. Empty components, `..` and absolute names inside the config are not collapsed, and `absolute()` in `call_job.py` is the identity on the already absolute root.
- Files.Read: every failure of `read_bytes` / `read_text` (missing file, directory, missing permission) is one NotReadable error. The map holds exactly the regular, readable files, so an unreadable regular file and a special file that `is_file()` rejects but `read_bytes` can read are not modelled.
- Text encodings are not modelled. `read_text` returns the template as characters and `read_bytes` returns bytes.
- The order of `glob("*")` is taken from the filesystem listing as given.
- TestflingerJob.SectionListsManifest: holds only for paths without a double quote. The rendered YAML does not escape quotes, so other paths do not read back.
- The code and the documented behaviour disagree on a missing template directory. The documented behaviour is a not-found failure. The code globs it into an empty list, and the model follows the code.

## Findings

| source | as written | input that shows it | evidently intended | confidence | as-written member | corrected member |
|---|---|---|---|---|---|---|
| scripts/call_testflinger_job.py:266-267 | `gather_artifacts(job_id)` runs even when no job id was seen; `subprocess.run` then receives None in its argument list and raises TypeError, which its `CalledProcessError` handler does not catch, so the interpreter prints a traceback and exits 1 before `sys.exit` is reached | a submission stream `RESULT=PASS\n` with no `job_id:` line | without a job id, artifact retrieval is skipped and the run is reported as failed with a non-zero status | medium, not executed | Submission.FinishAsWritten, Submission.PassWithoutJobIdCrashes | Submission.Finish, Submission.FinishZeroIff |
