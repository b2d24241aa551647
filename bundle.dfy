/** Asset discovery shared by both scripts: the template files found under the
    templates directory and the resource paths under the resources directory.
    Each script fixes its own directories (`robot/templates` relative to the
    working directory, or under the repository root). */
module Bundle {
  import opened Text
  import opened Files

  /** The keys of the JSON job config that the modelled code reads; `iso-url` is optional. */
  datatype JobConfig = JobConfig(
    suite: string,
    test: string,
    templates: seq<string>,
    resources: seq<string>,
    isoUrl: Option<string>)

  /** `[dir / n for n in names if (dir / n).is_file()]`, in listing order. */
  function FilesIn<C>(fs: FileSystem<C>, dir: string, names: seq<string>): (r: seq<string>)
    ensures |r| <= |names|
    ensures forall p :: p in r ==> IsFile(fs, p)
  {
    if names == [] then []
    else (if IsFile(fs, Join(dir, names[0])) then [Join(dir, names[0])] else [])
         + FilesIn(fs, dir, names[1..])
  }

  /** A path is kept exactly when it is a listed name under `dir` and a regular file. */
  lemma {:induction false} FilesInMembership<C>(fs: FileSystem<C>, dir: string, names: seq<string>, p: string)
    ensures p in FilesIn(fs, dir, names) <==> IsFile(fs, p) && exists n :: n in names && p == Join(dir, n)
    decreases |names|
  {
    if names != [] {
      FilesInMembership(fs, dir, names[1..], p);
      if IsFile(fs, p) && exists n :: n in names && p == Join(dir, n) {
        var n :| n in names && p == Join(dir, n);
        if n != names[0] {
          assert n in names[1..];
        }
      }
    }
  }

  /** What `load_list_of_templates` returns: for each template name in config
      order, the regular files listed in `templatesDir / name`. */
  function TemplateFiles<C>(fs: FileSystem<C>, templatesDir: string, templates: seq<string>): (r: seq<string>)
    ensures forall p :: p in r ==> IsFile(fs, p)
  {
    if templates == [] then []
    else
      var dir := Join(templatesDir, templates[|templates| - 1]);
      TemplateFiles(fs, templatesDir, templates[..|templates| - 1]) + FilesIn(fs, dir, Entries(fs, dir))
  }

  /** A path is returned exactly when it is a regular file listed in one of the
      declared template directories. */
  lemma {:induction false} TemplateFilesMembership<C>(fs: FileSystem<C>, templatesDir: string, templates: seq<string>, p: string)
    ensures p in TemplateFiles(fs, templatesDir, templates) <==>
      IsFile(fs, p) &&
      exists i, n :: 0 <= i < |templates| && n in Entries(fs, Join(templatesDir, templates[i]))
                     && p == Join(Join(templatesDir, templates[i]), n)
    decreases |templates|
  {
    if templates != [] {
      var k := |templates| - 1;
      var init := templates[..k];
      var dir := Join(templatesDir, templates[k]);
      TemplateFilesMembership(fs, templatesDir, init, p);
      FilesInMembership(fs, dir, Entries(fs, dir), p);
      if p in TemplateFiles(fs, templatesDir, init) {
        var i, n :| 0 <= i < |init| && n in Entries(fs, Join(templatesDir, init[i]))
                    && p == Join(Join(templatesDir, init[i]), n);
        assert init[i] == templates[i];
      } else if p in FilesIn(fs, dir, Entries(fs, dir)) {
        var n :| n in Entries(fs, dir) && p == Join(dir, n);
        assert 0 <= k < |templates| && n in Entries(fs, Join(templatesDir, templates[k]));
      }
      if IsFile(fs, p) && exists i, n :: 0 <= i < |templates| && n in Entries(fs, Join(templatesDir, templates[i]))
                                         && p == Join(Join(templatesDir, templates[i]), n) {
        var i, n :| 0 <= i < |templates| && n in Entries(fs, Join(templatesDir, templates[i]))
                    && p == Join(Join(templatesDir, templates[i]), n);
        if i < k {
          assert init[i] == templates[i];
        }
      }
    }
  }

  /** Template files of consecutive config entries are concatenated in config order. */
  lemma {:induction false} TemplateFilesAppend<C>(fs: FileSystem<C>, templatesDir: string, a: seq<string>, b: seq<string>)
    ensures TemplateFiles(fs, templatesDir, a + b)
         == TemplateFiles(fs, templatesDir, a) + TemplateFiles(fs, templatesDir, b)
    decreases |b|
  {
    if b == [] {
      assert a + b == a;
    } else {
      var k := |b| - 1;
      assert (a + b)[..|a + b| - 1] == a + b[..k];
      assert (a + b)[|a + b| - 1] == b[k];
      TemplateFilesAppend(fs, templatesDir, a, b[..k]);
    }
  }

  /** `load_list_of_templates`: the loop over the configured template names. */
  method CollectTemplateFiles<C>(fs: FileSystem<C>, templatesDir: string, templates: seq<string>)
    returns (r: seq<string>)
    ensures r == TemplateFiles(fs, templatesDir, templates)
  {
    r := [];
    var i := 0;
    while i < |templates|
      invariant 0 <= i <= |templates|
      invariant r == TemplateFiles(fs, templatesDir, templates[..i])
    {
      var dir := Join(templatesDir, templates[i]);
      r := r + FilesIn(fs, dir, Entries(fs, dir));
      assert templates[..i + 1][..i] == templates[..i];
      i := i + 1;
    }
    assert templates[..i] == templates;
  }

  /** What `load_local_resources` returns: `resourceDir / name` for every configured resource. */
  function ResourcePaths(resourceDir: string, resources: seq<string>): (r: seq<string>)
    ensures |r| == |resources|
    ensures forall i :: 0 <= i < |resources| ==> r[i] == Join(resourceDir, resources[i])
  {
    if resources == [] then []
    else ResourcePaths(resourceDir, resources[..|resources| - 1]) + [Join(resourceDir, resources[|resources| - 1])]
  }

  /** `load_local_resources`: the loop appending one path per configured resource. */
  method CollectResourcePaths(resourceDir: string, resources: seq<string>) returns (r: seq<string>)
    ensures r == ResourcePaths(resourceDir, resources)
  {
    r := [];
    var i := 0;
    while i < |resources|
      invariant 0 <= i <= |resources|
      invariant r == ResourcePaths(resourceDir, resources[..i])
    {
      r := r + [Join(resourceDir, resources[i])];
      assert resources[..i + 1][..i] == resources[..i];
      i := i + 1;
    }
    assert resources[..i] == resources;
  }

  /** A resource path's basename is the configured name, so the asset bundle is
      keyed by the names the job config declares. */
  lemma ResourceBasenames(resourceDir: string, resources: seq<string>, i: int)
    requires 0 <= i < |resources| && '/' !in resources[i]
    ensures Basename(ResourcePaths(resourceDir, resources)[i]) == resources[i]
  {
    BasenameOfJoin(resourceDir, resources[i]);
  }
}
