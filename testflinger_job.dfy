/** The job-spec renderer of the queued-mode runner: it picks the per-machine
    template, fills in the image URL and appends the `test_data` section, an
    attachment manifest plus the command script that runs the direct-mode
    runner on the agent. */
module TestflingerJob {
  import opened Text
  import opened Files
  import opened Bundle
  import CallJob

  /** With `ROOT_DIR = Path("./")` pathlib drops the leading ".", so every path
      this script builds is relative to the working directory. */
  const TemplatesDir: string := "robot/templates"
  const ResourceDir: string := "robot/resources"
  const CallJobScript: string := "scripts/call_job.py"
  const UrlPlaceholder: string := "<url>"

  /** `load_list_of_templates`: the regular files of every configured template directory. */
  method LoadListOfTemplates<C>(fs: FileSystem<C>, cfg: JobConfig) returns (r: seq<string>)
    ensures r == TemplateFiles(fs, "robot/templates", cfg.templates)
  {
    r := CollectTemplateFiles(fs, TemplatesDir, cfg.templates);
  }

  /** `load_local_resources`: `robot/resources/<name>` for every configured resource. */
  method LoadLocalResources(cfg: JobConfig) returns (r: seq<string>)
    ensures |r| == |cfg.resources|
    ensures forall i :: 0 <= i < |r| ==> r[i] == "robot/resources/" + cfg.resources[i]
    ensures r == ResourcePaths(ResourceDir, cfg.resources)
  {
    r := CollectResourcePaths(ResourceDir, cfg.resources);
  }

  /** The template path `load_testflinger_template` reads. */
  function TemplateFilePath(machineId: string, cfg: JobConfig): string
  {
    if Contains(cfg.test, "tpm-fde")
    then "testflinger-definitions/tpm-fde/" + machineId + ".template.yaml"
    else "testflinger-definitions/" + machineId + ".template.yaml"
  }

  /** Tests whose name mentions `tpm-fde` take their template from the `tpm-fde`
      sub-directory, all others from `testflinger-definitions` itself; either
      way the file is named after the machine. */
  lemma TemplatePathChoice(machineId: string, cfg: JobConfig)
    ensures var path := TemplateFilePath(machineId, cfg);
            && (Contains(cfg.test, "tpm-fde")
                <==> path == Join("testflinger-definitions/tpm-fde", machineId + ".template.yaml"))
            && (!Contains(cfg.test, "tpm-fde")
                <==> path == Join("testflinger-definitions", machineId + ".template.yaml"))
            && ('/' !in machineId ==> Basename(path) == machineId + ".template.yaml")
  {
    var name := machineId + ".template.yaml";
    var tpm := Join("testflinger-definitions/tpm-fde", name);
    var plain := Join("testflinger-definitions", name);
    assert |tpm| != |plain|;
    if '/' !in machineId {
      assert '/' !in name by {
        assert forall k :: 0 <= k < |name| ==> name[k] != '/' by {
          forall k | 0 <= k < |name| ensures name[k] != '/' {
            if k >= |machineId| {
              assert name[k] == ".template.yaml"[k - |machineId|];
            }
          }
        }
      }
      BasenameOfJoin("testflinger-definitions/tpm-fde", name);
      BasenameOfJoin("testflinger-definitions", name);
    }
  }

  /** `load_testflinger_template`: the text of the chosen template file. */
  function LoadTestflingerTemplate(fs: FileSystem<string>, machineId: string, cfg: JobConfig): (r: Result<string>)
    ensures r.Ok? <==> IsFile(fs, TemplateFilePath(machineId, cfg))
    ensures r.Ok? ==> r.value == fs.files[TemplateFilePath(machineId, cfg)]
    ensures r.Err? ==> r.error == NotReadable(TemplateFilePath(machineId, cfg))
  {
    Read(fs, TemplateFilePath(machineId, cfg))
  }

  /** `get_robot_file_fp`: `robot/suites/<suite>/<test>`. */
  function GetRobotFileFp(cfg: JobConfig): string
  {
    "robot/suites/" + cfg.suite + "/" + cfg.test
  }

  /** The robot file attached under its relative path is the one the direct-mode
      runner loads once it runs from the attachment directory. */
  lemma RobotAttachmentIsRunnersRobotFile(fs: FileSystem<Bytes>, root: string, cfg: JobConfig)
    ensures CallJob.LoadRobotFile(fs, root, cfg) == Read(fs, Join(root, GetRobotFileFp(cfg)))
  {
    assert Join(root, GetRobotFileFp(cfg)) == root + "/robot/suites/" + cfg.suite + "/" + cfg.test;
  }

  /** Likewise every attached resource is the file the runner bundles. */
  lemma ResourceAttachmentsAreRunnersResources(root: string, cfg: JobConfig, i: int)
    requires 0 <= i < |cfg.resources|
    ensures Join(root, ResourcePaths(ResourceDir, cfg.resources)[i])
         == ResourcePaths(CallJob.ResourceDir(root), cfg.resources)[i]
  {
  }

  /** One entry of the attachment list: the local path and the path on the agent. */
  datatype Attachment = Attachment(local: string, agent: string)

  /** Attachments placing every file at the same relative path on the agent. */
  function SamePathAttachments(paths: seq<string>): (r: seq<Attachment>)
    ensures |r| == |paths|
    ensures forall i :: 0 <= i < |paths| ==> r[i] == Attachment(paths[i], paths[i])
  {
    if paths == [] then [] else [Attachment(paths[0], paths[0])] + SamePathAttachments(paths[1..])
  }

  /** The attachment manifest of `create_test_data_section`. */
  function Manifest(robotFile: string, templates: seq<string>, resources: seq<string>, jobConfigFp: string)
    : (r: seq<Attachment>)
    ensures |r| == 3 + |templates| + |resources|
    ensures forall i :: 0 <= i < |r| ==> r[i].local == r[i].agent
    ensures r[0].local == robotFile && r[1].local == CallJobScript && r[2].local == jobConfigFp
    ensures forall i :: 0 <= i < |templates| ==> r[3 + i].local == templates[i]
    ensures forall i :: 0 <= i < |resources| ==> r[3 + |templates| + i].local == resources[i]
  {
    var paths := [robotFile, CallJobScript, jobConfigFp] + templates + resources;
    assert forall i :: 0 <= i < |templates| ==> paths[3 + i] == templates[i];
    assert forall i :: 0 <= i < |resources| ==> paths[3 + |templates| + i] == resources[i];
    SamePathAttachments(paths)
  }

  const SectionHeader: string := "test_data:\n  attachments:\n"
  const EntryLead: string := "    - local: \""
  const EntryMid: string := "\"\n      agent: \""
  const EntryEnd: string := "\"\n"

  /** The two YAML lines of one attachment. */
  function EntryText(a: Attachment): string
  {
    EntryLead + a.local + EntryMid + a.agent + EntryEnd
  }

  function EntriesText(entries: seq<Attachment>): string
  {
    if entries == [] then "" else EntryText(entries[0]) + EntriesText(entries[1..])
  }

  lemma {:induction false} EntriesTextAppend(xs: seq<Attachment>, ys: seq<Attachment>)
    ensures EntriesText(xs + ys) == EntriesText(xs) + EntriesText(ys)
    decreases |xs|
  {
    if xs == [] {
      assert xs + ys == ys;
    } else {
      assert (xs + ys)[0] == xs[0];
      assert (xs + ys)[1..] == xs[1..] + ys;
      EntriesTextAppend(xs[1..], ys);
    }
  }

  /** Appending one same-path entry after the text rendered so far. */
  lemma AppendSamePathEntry(prefix: string, paths: seq<string>, p: string)
    ensures prefix + EntriesText(SamePathAttachments(paths)) + EntryText(Attachment(p, p))
         == prefix + EntriesText(SamePathAttachments(paths + [p]))
  {
    assert SamePathAttachments(paths + [p]) == SamePathAttachments(paths) + [Attachment(p, p)];
    EntriesTextAppend(SamePathAttachments(paths), [Attachment(p, p)]);
    Assoc(prefix, EntriesText(SamePathAttachments(paths)), EntryText(Attachment(p, p)));
  }

  /** The last line of the command script: the direct-mode runner invocation,
      written by two appends. */
  function InvocationLine(jobConfigFp: string): string
  {
    "    ./scripts/call_job.py --job-config " + jobConfigFp + " "
    + "--client-ip $ZAPPER_IP --output-dir ../../artifacts/ --dut-ip $DEVICE_IP\n"
  }

  /** The fixed lines of the command script before the invocation. */
  const ScriptPrelude: string :=
    "  test_cmds: |\n"
    + "    set -e\n"
    + "    mkdir -p artifacts/logs/\n"
    + "    cd attachments/test/\n"
    + "    echo You can view the stream of the test here:\n"
    + "    echo \"http://${ZAPPER_IP}:60010/stream\"\n"
    + "    pip install paramiko\n"

  /** The `test_cmds` block run on the agent. */
  function CommandsText(jobConfigFp: string): string
  {
    ScriptPrelude + InvocationLine(jobConfigFp)
  }

  /** The `test_data` section: header, rendered manifest, command script. */
  function TestDataSection(robotFile: string, templates: seq<string>, resources: seq<string>, jobConfigFp: string)
    : string
  {
    SectionHeader + EntriesText(Manifest(robotFile, templates, resources, jobConfigFp)) + CommandsText(jobConfigFp)
  }

  /** `create_test_data_section`: the text accumulated with `+=`, entry by entry. */
  method CreateTestDataSection(templates: seq<string>, resources: seq<string>, jobConfigFp: string, cfg: JobConfig)
    returns (testData: string)
    ensures testData == TestDataSection(GetRobotFileFp(cfg), templates, resources, jobConfigFp)
  {
    testData := SectionHeader;
    var robotFile := GetRobotFileFp(cfg);
    // the paths listed so far, each rendered as one same-path entry
    ghost var listed: seq<string> := [];
    assert SamePathAttachments(listed) == [];
    assert testData == SectionHeader + EntriesText(SamePathAttachments(listed));
    testData := testData + EntryText(Attachment(robotFile, robotFile));
    AppendSamePathEntry(SectionHeader, listed, robotFile);
    listed := listed + [robotFile];
    testData := testData + EntryText(Attachment(CallJobScript, CallJobScript));
    AppendSamePathEntry(SectionHeader, listed, CallJobScript);
    listed := listed + [CallJobScript];
    testData := testData + EntryText(Attachment(jobConfigFp, jobConfigFp));
    AppendSamePathEntry(SectionHeader, listed, jobConfigFp);
    listed := listed + [jobConfigFp];
    ghost var fixed := listed;
    var i := 0;
    while i < |templates|
      invariant 0 <= i <= |templates|
      invariant listed == fixed + templates[..i]
      invariant testData == SectionHeader + EntriesText(SamePathAttachments(listed))
    {
      testData := testData + EntryText(Attachment(templates[i], templates[i]));
      AppendSamePathEntry(SectionHeader, listed, templates[i]);
      listed := listed + [templates[i]];
      assert templates[..i + 1] == templates[..i] + [templates[i]];
      i := i + 1;
    }
    assert templates[..i] == templates;
    ghost var withTemplates := listed;
    var j := 0;
    while j < |resources|
      invariant 0 <= j <= |resources|
      invariant listed == withTemplates + resources[..j]
      invariant testData == SectionHeader + EntriesText(SamePathAttachments(listed))
    {
      testData := testData + EntryText(Attachment(resources[j], resources[j]));
      AppendSamePathEntry(SectionHeader, listed, resources[j]);
      listed := listed + [resources[j]];
      assert resources[..j + 1] == resources[..j] + [resources[j]];
      j := j + 1;
    }
    assert resources[..j] == resources;
    assert listed == [robotFile, CallJobScript, jobConfigFp] + templates + resources;
    ghost var body := testData;
    testData := testData + "  test_cmds: |\n";
    testData := testData + "    set -e\n";
    testData := testData + "    mkdir -p artifacts/logs/\n";
    testData := testData + "    cd attachments/test/\n";
    testData := testData + "    echo You can view the stream of the test here:\n";
    testData := testData + "    echo \"http://${ZAPPER_IP}:60010/stream\"\n";
    testData := testData + "    pip install paramiko\n";
    testData := testData + "    ./scripts/call_job.py --job-config " + jobConfigFp + " ";
    testData := testData + "--client-ip $ZAPPER_IP --output-dir ../../artifacts/ --dut-ip $DEVICE_IP\n";
    CommandScriptAppends(body, jobConfigFp);
  }

  /** The command lines appended one by one after `s` add up to the command script. */
  lemma CommandScriptAppends(s: string, jobConfigFp: string)
    ensures s + "  test_cmds: |\n"
              + "    set -e\n"
              + "    mkdir -p artifacts/logs/\n"
              + "    cd attachments/test/\n"
              + "    echo You can view the stream of the test here:\n"
              + "    echo \"http://${ZAPPER_IP}:60010/stream\"\n"
              + "    pip install paramiko\n"
              + "    ./scripts/call_job.py --job-config " + jobConfigFp + " "
              + "--client-ip $ZAPPER_IP --output-dir ../../artifacts/ --dut-ip $DEVICE_IP\n"
         == s + CommandsText(jobConfigFp)
  {
    // each step moves one more line from after `s` into the text following it
    Assoc(s, "  test_cmds: |\n", "    set -e\n");
    Assoc(s, "  test_cmds: |\n" + "    set -e\n", "    mkdir -p artifacts/logs/\n");
    Assoc(s, "  test_cmds: |\n" + "    set -e\n" + "    mkdir -p artifacts/logs/\n", "    cd attachments/test/\n");
    Assoc(s, "  test_cmds: |\n" + "    set -e\n" + "    mkdir -p artifacts/logs/\n" + "    cd attachments/test/\n", "    echo You can view the stream of the test here:\n");
    Assoc(s, "  test_cmds: |\n" + "    set -e\n" + "    mkdir -p artifacts/logs/\n" + "    cd attachments/test/\n" + "    echo You can view the stream of the test here:\n", "    echo \"http://${ZAPPER_IP}:60010/stream\"\n");
    Assoc(s, "  test_cmds: |\n" + "    set -e\n" + "    mkdir -p artifacts/logs/\n" + "    cd attachments/test/\n" + "    echo You can view the stream of the test here:\n" + "    echo \"http://${ZAPPER_IP}:60010/stream\"\n", "    pip install paramiko\n");
    var prelude := s + ScriptPrelude;
    var lead := "    ./scripts/call_job.py --job-config ";
    var rest := "--client-ip $ZAPPER_IP --output-dir ../../artifacts/ --dut-ip $DEVICE_IP\n";
    Assoc(prelude, lead, jobConfigFp);
    Assoc(prelude, lead + jobConfigFp, " ");
    Assoc(prelude, lead + jobConfigFp + " ", rest);
    Assoc(s, ScriptPrelude, InvocationLine(jobConfigFp));
  }

  /** String concatenation is associative. */
  lemma Assoc(a: string, b: string, c: string)
    ensures (a + b) + c == a + (b + c)
  {
  }

  /** Reads one attachment entry back from the front of `s`. */
  function ParseEntry(s: string): (r: Option<(Attachment, string)>)
    ensures r.Some? ==> |r.value.1| < |s|
  {
    if |s| < |EntryLead| || s[..|EntryLead|] != EntryLead then None
    else match IndexOf(s, '"', |EntryLead|)
      case None => None
      case Some(i) =>
        if i + |EntryMid| > |s| || s[i..i + |EntryMid|] != EntryMid then None
        else match IndexOf(s, '"', i + |EntryMid|)
          case None => None
          case Some(j) =>
            if j + |EntryEnd| > |s| || s[j..j + |EntryEnd|] != EntryEnd then None
            else Some((Attachment(s[|EntryLead|..i], s[i + |EntryMid|..j]), s[j + |EntryEnd|..]))
  }

  /** Reads attachment entries from the front of `s` for as long as there are
      any; returns them with the unread rest. */
  function ParseEntries(s: string): (seq<Attachment>, string)
    decreases |s|
  {
    match ParseEntry(s)
    case None => ([], s)
    case Some((a, rest)) =>
      var (more, tail) := ParseEntries(rest);
      ([a] + more, tail)
  }

  /** A path the YAML double quotes can carry unchanged. */
  predicate Quotable(p: string)
  {
    '"' !in p
  }

  /** One rendered entry reads back as itself. */
  lemma ParseEntryText(a: Attachment, t: string)
    requires Quotable(a.local) && Quotable(a.agent)
    ensures ParseEntry(EntryText(a) + t) == Some((a, t))
  {
    var s := EntryText(a) + t;
    var i := |EntryLead| + |a.local|;
    var j := i + |EntryMid| + |a.agent|;
    assert s == EntryLead + a.local + EntryMid + a.agent + EntryEnd + t;
    assert s[..|EntryLead|] == EntryLead;
    assert s[|EntryLead|..i] == a.local;
    assert s[i..i + |EntryMid|] == EntryMid;
    assert s[i + |EntryMid|..j] == a.agent;
    assert s[j..j + |EntryEnd|] == EntryEnd;
    assert s[j + |EntryEnd|..] == t;
    forall k | |EntryLead| <= k < i
      ensures s[k] != '"'
    {
      assert s[k] == s[|EntryLead|..i][k - |EntryLead|] == a.local[k - |EntryLead|];
    }
    assert s[i] == s[i..i + |EntryMid|][0] == '"';
    IndexOfFinds(s, '"', |EntryLead|, i);
    forall k | i + |EntryMid| <= k < j
      ensures s[k] != '"'
    {
      assert s[k] == s[i + |EntryMid|..j][k - i - |EntryMid|] == a.agent[k - i - |EntryMid|];
    }
    assert s[j] == s[j..j + |EntryEnd|][0] == '"';
    IndexOfFinds(s, '"', i + |EntryMid|, j);
  }

  /** A rendered attachment list reads back entry for entry, and reading stops
      where the rendered list ends. */
  lemma {:induction false} ParseEntriesText(entries: seq<Attachment>, t: string)
    requires forall k :: 0 <= k < |entries| ==> Quotable(entries[k].local) && Quotable(entries[k].agent)
    requires ParseEntry(t).None?
    ensures ParseEntries(EntriesText(entries) + t) == (entries, t)
    decreases |entries|
  {
    if entries == [] {
      assert EntriesText(entries) + t == t;
    } else {
      var rest := EntriesText(entries[1..]) + t;
      assert EntriesText(entries) + t == EntryText(entries[0]) + rest;
      ParseEntryText(entries[0], rest);
      ParseEntriesText(entries[1..], t);
      assert [entries[0]] + entries[1..] == entries;
    }
  }

  /** The rendered section lists exactly the manifest: the attachments read back
      from the text are the robot file, the runner script, the job config, the
      templates and the resources, in that order, each with `local` equal to
      `agent`; the section ends with the runner invocation. */
  lemma SectionListsManifest(robotFile: string, templates: seq<string>, resources: seq<string>, jobConfigFp: string)
    requires Quotable(robotFile) && Quotable(jobConfigFp)
    requires forall k :: 0 <= k < |templates| ==> Quotable(templates[k])
    requires forall k :: 0 <= k < |resources| ==> Quotable(resources[k])
    ensures var s := TestDataSection(robotFile, templates, resources, jobConfigFp);
            && s[..|SectionHeader|] == SectionHeader
            && ParseEntries(s[|SectionHeader|..])
               == (Manifest(robotFile, templates, resources, jobConfigFp), CommandsText(jobConfigFp))
            && s[|s| - |InvocationLine(jobConfigFp)|..] == InvocationLine(jobConfigFp)
  {
    var m := Manifest(robotFile, templates, resources, jobConfigFp);
    var cmds := CommandsText(jobConfigFp);
    var inv := InvocationLine(jobConfigFp);
    var s := TestDataSection(robotFile, templates, resources, jobConfigFp);
    ManifestQuotable(robotFile, templates, resources, jobConfigFp);
    CommandsAreNotAnEntry(jobConfigFp);
    ParseEntriesText(m, cmds);
    Assoc(SectionHeader, EntriesText(m), cmds);
    assert s[|SectionHeader|..] == EntriesText(m) + cmds;
    Assoc(SectionHeader + EntriesText(m), ScriptPrelude, inv);
    assert s == (SectionHeader + EntriesText(m) + ScriptPrelude) + inv;
  }

  /** Every manifest path is quote-free when the configured ones are. */
  lemma ManifestQuotable(robotFile: string, templates: seq<string>, resources: seq<string>, jobConfigFp: string)
    requires Quotable(robotFile) && Quotable(jobConfigFp)
    requires forall k :: 0 <= k < |templates| ==> Quotable(templates[k])
    requires forall k :: 0 <= k < |resources| ==> Quotable(resources[k])
    ensures var m := Manifest(robotFile, templates, resources, jobConfigFp);
            forall k :: 0 <= k < |m| ==> Quotable(m[k].local) && Quotable(m[k].agent)
  {
    var m := Manifest(robotFile, templates, resources, jobConfigFp);
    forall k | 0 <= k < |m|
      ensures Quotable(m[k].local) && Quotable(m[k].agent)
    {
      if 3 <= k < 3 + |templates| {
        assert m[k].local == templates[k - 3];
      } else if 3 + |templates| <= k {
        assert m[k].local == resources[k - 3 - |templates|];
      }
    }
  }

  /** The command script does not start like an attachment entry. */
  lemma {:induction false} CommandsAreNotAnEntry(jobConfigFp: string)
    ensures ParseEntry(CommandsText(jobConfigFp)).None?
  {
    var cmds := CommandsText(jobConfigFp);
    assert cmds[2] == 't';
    assert cmds[..|EntryLead|][2] != EntryLead[2];
  }

  /** The document `write_complete_testflinger_yaml` returns. */
  function CompleteYaml<C>(fs: FileSystem<C>, template: string, cfg: JobConfig, isoUrl: string, jobConfigFp: string)
    : string
  {
    ReplaceAll(template, UrlPlaceholder, isoUrl) + "\n"
    + TestDataSection(GetRobotFileFp(cfg), TemplateFiles(fs, TemplatesDir, cfg.templates),
                      ResourcePaths(ResourceDir, cfg.resources), jobConfigFp)
  }

  /** `write_complete_testflinger_yaml`: load the asset lists, render the
      section, fill the URL placeholder and join the two with a newline. */
  method WriteCompleteTestflingerYaml<C>(fs: FileSystem<C>, template: string, cfg: JobConfig, isoUrl: string, jobConfigFp: string)
    returns (doc: string)
    ensures doc == CompleteYaml(fs, template, cfg, isoUrl, jobConfigFp)
    ensures !Contains(template, UrlPlaceholder) ==>
              doc == template + "\n" + TestDataSection(GetRobotFileFp(cfg), TemplateFiles(fs, TemplatesDir, cfg.templates),
                                                       ResourcePaths(ResourceDir, cfg.resources), jobConfigFp)
  {
    var templates := LoadListOfTemplates(fs, cfg);
    var resources := LoadLocalResources(cfg);
    var testDataSection := CreateTestDataSection(templates, resources, jobConfigFp, cfg);
    var filled := ReplaceAll(template, UrlPlaceholder, isoUrl);
    doc := filled + "\n" + testDataSection;
    if !Contains(template, UrlPlaceholder) {
      ReplaceWithoutOccurrence(template, UrlPlaceholder, isoUrl);
    }
  }
}
