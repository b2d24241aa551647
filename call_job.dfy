/** The local part of the direct-mode runner: locating the robot file, the
    template and resource assets, bundling them by basename for the remote
    `robot_run` call, and the robot text that flashes the USB stick. */
module CallJob {
  import opened Text
  import opened Files
  import opened Bundle

  /** `ROOT_DIR / "robot" / "templates"` for the repository root `root`. */
  function TemplatesDir(root: string): string
  {
    root + "/robot/templates"
  }

  /** `RESOURCE_DIR`, that is `ROOT_DIR / "robot" / "resources"`. */
  function ResourceDir(root: string): string
  {
    root + "/robot/resources"
  }

  /** `load_robot_file`: the bytes at `ROOT_DIR/robot/suites/<suite>/<test>`. */
  function LoadRobotFile(fs: FileSystem<Bytes>, root: string, cfg: JobConfig): (r: Result<Bytes>)
    ensures var path := root + "/robot/suites/" + cfg.suite + "/" + cfg.test;
            && (r.Ok? <==> IsFile(fs, path))
            && (r.Ok? ==> r.value == fs.files[path])
            && (r.Err? ==> r.error == NotReadable(path))
  {
    var path := Join(Join(Join(root, "robot/suites"), cfg.suite), cfg.test);
    assert path == root + "/robot/suites/" + cfg.suite + "/" + cfg.test;
    Read(fs, path)
  }

  /** `load_list_of_templates`: the regular files of every configured template
      directory under the repository root, in config order. */
  method LoadListOfTemplates(fs: FileSystem<Bytes>, root: string, cfg: JobConfig) returns (r: seq<string>)
    ensures r == TemplateFiles(fs, root + "/robot/templates", cfg.templates)
  {
    r := CollectTemplateFiles(fs, TemplatesDir(root), cfg.templates);
  }

  /** `load_local_resources`: one path under `RESOURCE_DIR` per configured resource. */
  method LoadLocalResources(root: string, cfg: JobConfig) returns (r: seq<string>)
    ensures |r| == |cfg.resources|
    ensures forall i :: 0 <= i < |r| ==> r[i] == root + "/robot/resources/" + cfg.resources[i]
  {
    r := CollectResourcePaths(ResourceDir(root), cfg.resources);
  }

  /** The bundle `gather_test_assets` builds from `paths` processed in order:
      the bytes of each path stored under its basename, a later path
      overwriting an earlier one; the first path that is not a regular file
      aborts the whole bundle. */
  function Assets(fs: FileSystem<Bytes>, paths: seq<string>): Result<map<string, Bytes>>
  {
    if paths == [] then Ok(map[])
    else
      var last := paths[|paths| - 1];
      match Assets(fs, paths[..|paths| - 1])
      case Err(e) => Err(e)
      case Ok(m) =>
        if IsFile(fs, last) then Ok(m[Basename(last) := fs.files[last]])
        else Err(NotReadable(last))
  }

  /** Extending the processed paths by one path: a failure stays, a regular
      file is stored under its basename, anything else fails. */
  lemma AssetsSnoc(fs: FileSystem<Bytes>, xs: seq<string>, p: string)
    ensures Assets(fs, xs + [p]) ==
      if Assets(fs, xs).Err? then Assets(fs, xs)
      else if IsFile(fs, p) then Ok(Assets(fs, xs).value[Basename(p) := fs.files[p]])
      else Err(NotReadable(p))
  {
    assert (xs + [p])[..|xs|] == xs;
  }

  /** Once a prefix has failed, further paths do not change the outcome. */
  lemma {:induction false} AssetsFailureSticks(fs: FileSystem<Bytes>, xs: seq<string>, ys: seq<string>)
    requires Assets(fs, xs).Err?
    ensures Assets(fs, xs + ys) == Assets(fs, xs)
    decreases |ys|
  {
    if ys == [] {
      assert xs + ys == xs;
    } else {
      var k := |ys| - 1;
      AssetsFailureSticks(fs, xs, ys[..k]);
      AssetsSnoc(fs, xs + ys[..k], ys[k]);
      assert xs + ys[..k] + [ys[k]] == xs + ys;
    }
  }

  /** `gather_test_assets`: the two loops filling the dictionary, templates first. */
  method GatherTestAssets(fs: FileSystem<Bytes>, templates: seq<string>, resources: seq<string>)
    returns (r: Result<map<string, Bytes>>)
    ensures r == Assets(fs, templates + resources)
  {
    var paths := templates + resources;
    var assets: map<string, Bytes> := map[];
    var i := 0;
    while i < |paths|
      invariant 0 <= i <= |paths|
      invariant Assets(fs, paths[..i]) == Ok(assets)
    {
      // the first |templates| iterations are the template loop, the rest the resource loop
      var path := paths[i];
      AssetsSnoc(fs, paths[..i], path);
      assert paths[..i] + [path] == paths[..i + 1];
      if !IsFile(fs, path) {
        AssetsFailureSticks(fs, paths[..i + 1], paths[i + 1..]);
        assert paths[..i + 1] + paths[i + 1..] == paths;
        return Err(NotReadable(path));
      }
      assets := assets[Basename(path) := fs.files[path]];
      i := i + 1;
    }
    assert paths[..i] == paths;
    r := Ok(assets);
  }

  /** The bundle fails exactly when some path is not a regular file, and then
      names the first such path. */
  lemma {:induction false} AssetsFailure(fs: FileSystem<Bytes>, paths: seq<string>)
    ensures Assets(fs, paths).Ok? <==> forall i :: 0 <= i < |paths| ==> IsFile(fs, paths[i])
    ensures Assets(fs, paths).Err? ==>
      exists i :: 0 <= i < |paths| && !IsFile(fs, paths[i])
                  && Assets(fs, paths).error == NotReadable(paths[i])
                  && forall j :: 0 <= j < i ==> IsFile(fs, paths[j])
    decreases |paths|
  {
    if paths != [] {
      var k := |paths| - 1;
      var init := paths[..k];
      AssetsFailure(fs, init);
      AssetsSnoc(fs, init, paths[k]);
      assert init + [paths[k]] == paths;
      if Assets(fs, init).Err? {
        var i :| 0 <= i < |init| && !IsFile(fs, init[i])
                 && Assets(fs, init).error == NotReadable(init[i])
                 && forall j :: 0 <= j < i ==> IsFile(fs, init[j]);
        assert paths[i] == init[i];
      } else if !IsFile(fs, paths[k]) {
        assert forall j :: 0 <= j < k ==> IsFile(fs, init[j]);
      }
    }
  }

  /** The keys of the bundle are exactly the basenames of the paths. */
  lemma {:induction false} AssetsKeys(fs: FileSystem<Bytes>, paths: seq<string>)
    requires Assets(fs, paths).Ok?
    ensures forall i :: 0 <= i < |paths| ==> Basename(paths[i]) in Assets(fs, paths).value
    ensures forall k :: k in Assets(fs, paths).value ==>
              exists i :: 0 <= i < |paths| && Basename(paths[i]) == k
    decreases |paths|
  {
    if paths != [] {
      var k := |paths| - 1;
      var init := paths[..k];
      AssetsSnoc(fs, init, paths[k]);
      assert init + [paths[k]] == paths;
      AssetsKeys(fs, init);
      forall key | key in Assets(fs, paths).value
        ensures exists i :: 0 <= i < |paths| && Basename(paths[i]) == key
      {
        if key != Basename(paths[k]) {
          var i :| 0 <= i < |init| && Basename(init[i]) == key;
          assert paths[i] == init[i];
        }
      }
    }
  }

  /** Each value is the unaltered content of the LAST path with that basename. */
  lemma {:induction false} AssetsLastWins(fs: FileSystem<Bytes>, paths: seq<string>, i: int)
    requires Assets(fs, paths).Ok?
    requires 0 <= i < |paths|
    requires forall j :: i < j < |paths| ==> Basename(paths[j]) != Basename(paths[i])
    ensures IsFile(fs, paths[i]) && Basename(paths[i]) in Assets(fs, paths).value
    ensures Assets(fs, paths).value[Basename(paths[i])] == fs.files[paths[i]]
    decreases |paths|
  {
    var k := |paths| - 1;
    var init := paths[..k];
    AssetsSnoc(fs, init, paths[k]);
    assert init + [paths[k]] == paths;
    if i < k {
      assert init[i] == paths[i];
      AssetsLastWins(fs, init, i);
    }
  }

  /** A resource sharing its basename with a template replaces it in the bundle. */
  lemma ResourcesOverrideTemplates(fs: FileSystem<Bytes>, templates: seq<string>, resources: seq<string>, k: int)
    requires Assets(fs, templates + resources).Ok?
    requires 0 <= k < |resources|
    requires forall j :: k < j < |resources| ==> Basename(resources[j]) != Basename(resources[k])
    ensures IsFile(fs, resources[k]) && Basename(resources[k]) in Assets(fs, templates + resources).value
    ensures Assets(fs, templates + resources).value[Basename(resources[k])] == fs.files[resources[k]]
  {
    var paths := templates + resources;
    var i := |templates| + k;
    assert paths[i] == resources[k];
    forall j | i < j < |paths|
      ensures Basename(paths[j]) != Basename(paths[i])
    {
      assert paths[j] == resources[j - |templates|];
    }
    AssetsLastWins(fs, paths, i);
  }

  /** Template files are listed only when they are regular files, so bundling
      the configured assets fails exactly when a configured resource is missing. */
  lemma BundleFailsOnlyOnResources(fs: FileSystem<Bytes>, root: string, cfg: JobConfig)
    ensures var paths := TemplateFiles(fs, TemplatesDir(root), cfg.templates)
                         + ResourcePaths(ResourceDir(root), cfg.resources);
            Assets(fs, paths).Ok?
            <==> forall i :: 0 <= i < |cfg.resources| ==> IsFile(fs, Join(ResourceDir(root), cfg.resources[i]))
  {
    var ts := TemplateFiles(fs, TemplatesDir(root), cfg.templates);
    var rs := ResourcePaths(ResourceDir(root), cfg.resources);
    var paths := ts + rs;
    AssetsFailure(fs, paths);
    if forall i :: 0 <= i < |cfg.resources| ==> IsFile(fs, Join(ResourceDir(root), cfg.resources[i])) {
      forall i | 0 <= i < |paths|
        ensures IsFile(fs, paths[i])
      {
        if i < |ts| {
          assert paths[i] in ts;
        } else {
          assert paths[i] == rs[i - |ts|];
        }
      }
    } else {
      var i :| 0 <= i < |cfg.resources| && !IsFile(fs, Join(ResourceDir(root), cfg.resources[i]));
      assert paths[|ts| + i] == rs[i];
    }
  }

  /** The fixed robot text `flash_usb` sends, up to the ISO URL argument. */
  const RobotHeader: string :=
    "*** Settings ***\nResource    ${USB_RESOURCES}\n\n*** Variables ***\n${T}    ${CURDIR}\n\n"
    + "*** Test Cases ***\nFlash Noble USB\n    [Documentation] Flashes the USB with the Noble ISO\n"
    + "    Download and Provision via USB    "

  /** The robot text built in `flash_usb`: the header, the config's `iso-url`
      and one newline; a config without `iso-url` raises KeyError. */
  function FlashUsbRobotText(cfg: JobConfig): (r: Result<string>)
    ensures r.Ok? <==> cfg.isoUrl.Some?
    ensures r.Err? ==> r.error == KeyError("iso-url")
    ensures r.Ok? ==> |r.value| == |RobotHeader| + |cfg.isoUrl.value| + 1
    ensures r.Ok? ==> r.value[..|RobotHeader|] == RobotHeader && r.value[|r.value| - 1] == '\n'
    ensures r.Ok? ==> r.value[|RobotHeader|..|r.value| - 1] == cfg.isoUrl.value
  {
    match cfg.isoUrl
    case None => Err(KeyError("iso-url"))
    case Some(url) => Ok(RobotHeader + url + "\n")
  }

  /** The argument a robot text passes to `Download and Provision via USB`:
      what follows the header, without the final newline. */
  function ProvisionedUrl(text: string): Option<string>
  {
    if |text| > |RobotHeader| && text[..|RobotHeader|] == RobotHeader && text[|text| - 1] == '\n'
    then Some(text[|RobotHeader|..|text| - 1])
    else None
  }

  /** The flashing step provisions exactly the configured ISO URL. */
  lemma FlashUsbProvisionsConfiguredUrl(cfg: JobConfig)
    requires cfg.isoUrl.Some?
    ensures ProvisionedUrl(FlashUsbRobotText(cfg).value) == cfg.isoUrl
  {
    var text := FlashUsbRobotText(cfg).value;
    assert text[|RobotHeader|..|text| - 1] == cfg.isoUrl.value;
  }
}
