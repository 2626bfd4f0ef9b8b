/** The OS driver object: its identity details, fixed at construction,
    the error list that its methods append to, and the autorun settings
    a concrete driver provides (autoRunDir, autoRunTemplatePath and the
    getAutoRunScript hook). The filesystem is a separate object. */
module OsDriver {
  import opened Outcomes
  import opened ClassNames
  import opened Ancestry
  import opened Discovery
  import opened FileSystems
  import opened AutoRun

  /** Discovery result with the driver classes found so far in front. */
  function Prefixed(found: seq<ClassName>, r: Attempt<seq<ClassName>>): Attempt<seq<ClassName>> {
    match r
    case Failed(errs) => Failed(errs)
    case Done(classes) => Done(found + classes)
  }

  class Driver {
    /** The PHP class of the object (get_class($this)). */
    const className: ClassName
    /** The declared classes and their parents. */
    const hierarchy: Hierarchy
    /** _osDetails, set only by the constructor. */
    const details: OsDetails
    /** The driver's getAutoRunScript. */
    const hook: ScriptHook

    var errors: seq<Error>
    var autoRunDir: Path
    var autoRunTemplatePath: Path

    ghost predicate Valid() {
      Ancestry.Valid(hierarchy) && details == DetailsOf(hierarchy, className)
    }

    /** __construct: records the shorthand of the object's own class and
        the shorthands of its ancestors, direct parent first. */
    constructor (h: Hierarchy, cls: ClassName, script: ScriptHook, dir: Path, templatePath: Path)
      requires Ancestry.Valid(h)
      ensures Valid()
      ensures className == cls && hierarchy == h && hook == script
      ensures details.shorthand == ShortHand(PhpString(cls))
      ensures |details.ancestors| == AncestorCount(h, cls)
      ensures forall i :: 0 <= i < |details.ancestors| ==>
        details.ancestors[i] == ShortHand(PhpString(Ancestors(h, cls)[i]))
      ensures errors == [] && autoRunDir == dir && autoRunTemplatePath == templatePath
    {
      var ancs := GetAncestors(h, cls);
      var shorts: seq<Option<string>> := [];
      for i := 0 to |ancs|
        invariant |shorts| == i
        invariant forall j :: 0 <= j < i ==> shorts[j] == ShortHand(PhpString(ancs[j]))
      {
        shorts := shorts + [ShortHand(PhpString(ancs[i]))];
      }
      className, hierarchy, hook := cls, h, script;
      details := OsDetails(ShortHand(PhpString(cls)), shorts);
      errors, autoRunDir, autoRunTemplatePath := [], dir, templatePath;
    }

    /** factory: loads the driver classes in discovery order, aborting at
        the first missing one, keeps those whose isInstalled() is true
        and picks the most specific. */
    method Factory(files: seq<DriverFile>, installed: set<ClassName>) returns (s: Selection)
      requires Ancestry.Valid(hierarchy)
      modifies this`errors
      ensures s == Select(hierarchy, files, installed)
      ensures errors == old(errors) + (if s.MissingClass? then s.errs else [])
    {
      var drivers: seq<ClassName> := [];
      var i := 0;
      assert files[0..] == files;
      assert forall t: seq<ClassName> :: drivers + t == t;
      while i < |files|
        invariant 0 <= i <= |files|
        invariant Discover(hierarchy, files) == Prefixed(drivers, Discover(hierarchy, files[i..]))
        invariant errors == old(errors)
      {
        var file := files[i];
        assert files[i..][1..] == files[i + 1..];
        if file.name == "Exception" || !file.isFile {
          i := i + 1;
          continue;
        }
        var cls := ClassPrefix + file.name;
        if cls !in hierarchy.level {
          assert Discover(hierarchy, files[i..]) == Failed([ClassMissing(cls)]);
          errors := errors + [ClassMissing(cls)];
          return MissingClass([ClassMissing(cls)]);
        }
        assert drivers + ([cls] + []) == drivers + [cls];
        assert forall t :: (drivers + [cls]) + t == drivers + ([cls] + t);
        drivers := drivers + [cls];
        i := i + 1;
      }
      assert drivers + [] == drivers;

      var valid: seq<ClassName> := [];
      for k := 0 to |drivers|
        invariant valid == InstalledOnly(drivers[..k], installed)
      {
        assert drivers[..k + 1][..k] == drivers[..k];
        if drivers[k] in installed {
          valid := valid + [drivers[k]];
        }
      }
      assert drivers[..|drivers|] == drivers;

      assert Discover(hierarchy, files) == Done(drivers);
      var useName := MostSpecific(hierarchy, valid);
      s := if useName.Some? then Chosen(useName.value) else NoDriver;
    }

    /** isInstalled in the base class: reports that it is not
        implemented and answers false. */
    method IsInstalled() returns (installed: bool)
      modifies this`errors
      ensures !installed
      ensures errors == old(errors) + [NotImplemented]
    {
      errors := errors + [NotImplemented];
      installed := false;
    }

    /** getDetails */
    function GetDetails(): (d: OsDetails)
      requires Valid()
      ensures d.shorthand == ShortHand(PhpString(className))
      ensures |d.ancestors| == AncestorCount(hierarchy, className)
      ensures forall i :: 0 <= i < |d.ancestors| ==>
        d.ancestors[i] == ShortHand(PhpString(Ancestors(hierarchy, className)[i]))
    {
      details
    }

    /** getAutoRunPath */
    method GetAutoRunPath(appName: string, fs: FileSystem) returns (r: Attempt<Path>)
      modifies this`errors
      ensures r == AutoRunPath(autoRunDir, appName, fs.State())
      ensures errors == old(errors) + (if r.Failed? then r.errs else [])
    {
      if autoRunDir == "" || autoRunDir == "0" {
        errors := errors + [NoAutoRunDir];
        return Failed([NoAutoRunDir]);
      }
      var path := autoRunDir + "/" + appName;
      var dir := Dirname(path);
      if dir !in fs.dirs {
        errors := errors + [DirMissing(dir)];
        return Failed([DirMissing(dir)]);
      }
      if dir !in fs.writable {
        errors := errors + [DirNotWritable(dir)];
        return Failed([DirNotWritable(dir)]);
      }
      return Done(path);
    }

    /** getAutoRunTemplate */
    method GetAutoRunTemplate(fs: FileSystem) returns (r: Attempt<string>)
      modifies this`errors
      ensures r == AutoRunTemplate(autoRunTemplatePath, fs.State())
      ensures errors == old(errors) + (if r.Failed? then r.errs else [])
    {
      if autoRunTemplatePath == "" || autoRunTemplatePath == "0" {
        errors := errors + [NoTemplatePath];
        return Failed([NoTemplatePath]);
      }
      if !(autoRunTemplatePath in fs.files || autoRunTemplatePath in fs.dirs) {
        errors := errors + [TemplateMissing(autoRunTemplatePath)];
        return Failed([TemplateMissing(autoRunTemplatePath)]);
      }
      if autoRunTemplatePath !in fs.files {
        // file_get_contents on a directory reads no data
        return Done("");
      }
      return Done(fs.files[autoRunTemplatePath].contents);
    }

    /** getAutoRunScript: the hook; its errors are appended. */
    method GetAutoRunScript(props: Properties) returns (r: Attempt<string>)
      modifies this`errors
      ensures r == Script(hook, props)
      ensures errors == old(errors) + (if r.Failed? then r.errs else [])
    {
      match hook
      case BaseScript =>
        errors := errors + [NotImplemented];
        r := Failed([NotImplemented]);
      case DriverScript(render) =>
        r := render(props);
        if r.Failed? {
          errors := errors + r.errs;
        }
    }

    /** _testAutoRunProperties */
    method TestAutoRunProperties(props: Properties, fs: FileSystem) returns (success: bool)
      modifies this`errors
      ensures errors == old(errors) + PropertyErrors(props, fs.State())
      ensures success <==> PropertyErrors(props, fs.State()) == []
    {
      if props.None? || |props.value| == 0 {
        errors := errors + [NoProperties];
        return false;
      }
      var m := props.value;
      ghost var st := fs.State();
      success := true;
      assert RequiredProps[..0] == [];
      for i := 0 to |RequiredProps|
        invariant errors == old(errors) + MissingErrors(MissingKeys(m, RequiredProps[..i]))
        invariant success <==> MissingKeys(m, RequiredProps[..i]) == []
      {
        var key := RequiredProps[i];
        assert RequiredProps[..i + 1][..i] == RequiredProps[..i];
        ghost var before := MissingKeys(m, RequiredProps[..i]);
        if key !in m {
          assert MissingErrors(before + [key]) == MissingErrors(before) + [MissingProperty(key)];
          errors := errors + [MissingProperty(key)];
          success := false;
        }
      }
      assert RequiredProps[..|RequiredProps|] == RequiredProps;
      ghost var missing := MissingErrors(MissingKeys(m, RequiredProps));

      var daemonPath := Lookup(m, "appDir") + "/" + Lookup(m, "appExecutable");
      if !(daemonPath in fs.files || daemonPath in fs.dirs) {
        errors := errors + [DaemonMissing(daemonPath)];
        success := false;
      }
      ghost var existence := if Exists(st, daemonPath) then [] else [DaemonMissing(daemonPath)];
      assert errors == old(errors) + missing + existence;
      if !(daemonPath in fs.files && fs.files[daemonPath].executable) {
        errors := errors + [DaemonNotExecutable(daemonPath)];
        success := false;
      }
      ghost var execution := if IsExecutable(st, daemonPath) then [] else [DaemonNotExecutable(daemonPath)];
      assert errors == old(errors) + (missing + existence + execution);
      assert PropertyErrors(props, st) == missing + existence + execution;
    }

    /** writeAutoRun: validate, render, resolve the path, keep an
        existing file unless overwrite is set, write, chmod 0777. */
    method WriteAutoRun(props: Properties, overwrite: bool, fs: FileSystem) returns (result: WriteResult)
      modifies this`errors, fs
      ensures var run := AutoRun.WriteAutoRun(autoRunDir, hook, props, overwrite, old(fs.State()));
        result == run.result && errors == old(errors) + run.errs && fs.State() == run.fs
    {
      ghost var st := fs.State();
      ghost var run := AutoRun.WriteAutoRun(autoRunDir, hook, props, overwrite, st);
      var accepted := TestAutoRunProperties(props, fs);
      if !accepted {
        assert run == WriteRun(WriteFailed, PropertyErrors(props, st), st);
        return WriteFailed;
      }
      var body := GetAutoRunScript(props);
      if body.Failed? {
        assert run == WriteRun(WriteFailed, body.errs, st);
        return WriteFailed;
      }
      var path := GetAutoRunPath(props.value["appName"], fs);
      if path.Failed? {
        assert run == WriteRun(WriteFailed, path.errs, st);
        return WriteFailed;
      }
      var p := path.value;
      assert run == InstallAt(p, body.value, overwrite, st);
      ghost var errs := errors;
      assert errs == old(errors);
      if (p in fs.files || p in fs.dirs) && !overwrite {
        return KeptExisting;
      }
      var written := fs.FilePutContents(p, body.value);
      if written.None? || written.value == 0 {
        errors := errors + [NotWritten(p)];
        return WriteFailed;
      }
      var chmodded := fs.ChangeMode(p, AutoRunMode);
      if !chmodded {
        errors := errors + [NotChmodded(p)];
        return WriteFailed;
      }
      return Installed(p);
    }
  }
}
