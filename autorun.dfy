/** The autorun workflow of a driver, as functions of the driver's
    settings, the daemon properties and the filesystem state: the
    property check, path resolution, template loading, the script hook,
    and writeAutoRun, which chains them. Each function returns the
    errors the driver appends; the driver's methods are proved equal to
    these functions. */
module AutoRun {
  import opened Outcomes
  import opened FileSystems

  /** A PHP array of daemon properties (string keys and values). */
  type PropertyMap = map<string, string>

  /** The daemon properties argument: None when it is not an array. */
  type Properties = Option<PropertyMap>

  const RequiredProps: seq<string> :=
    ["appName", "appExecutable", "appDescription", "appDir", "authorName", "authorEmail"]

  /** The required keys absent from m, in the order of keys. */
  function MissingKeys(m: PropertyMap, keys: seq<string>): seq<string>
  {
    if keys == [] then []
    else
      var last := keys[|keys| - 1];
      MissingKeys(m, keys[..|keys| - 1]) + (if last in m then [] else [last])
  }

  /** Exactly the keys absent from m are reported. */
  lemma {:induction false} MissingKeysMembers(m: PropertyMap, keys: seq<string>)
    ensures forall k :: k in MissingKeys(m, keys) <==> k in keys && k !in m
  {
    if keys != [] {
      var init, last := keys[..|keys| - 1], keys[|keys| - 1];
      MissingKeysMembers(m, init);
      assert keys == init + [last];
    }
  }

  function MissingErrors(missing: seq<string>): (r: seq<Error>)
    ensures |r| == |missing|
    ensures forall i :: 0 <= i < |r| ==> r[i] == MissingProperty(missing[i])
  {
    seq(|missing|, i requires 0 <= i < |missing| => MissingProperty(missing[i]))
  }

  /** $properties[$key], with PHP's null (concatenated as "") for a
      missing key. */
  function Lookup(m: PropertyMap, k: string): string {
    if k in m then m[k] else ""
  }

  /** appDir/appExecutable, built even when either is missing. */
  function DaemonPath(m: PropertyMap): Path {
    Lookup(m, "appDir") + "/" + Lookup(m, "appExecutable")
  }

  /** The errors _testAutoRunProperties appends; it succeeds iff none,
      that is, exactly when all six keys are set and the daemon file
      exists and is executable. */
  function PropertyErrors(props: Properties, fs: FsState): (r: seq<Error>)
    ensures r == [] <==>
      props.Some? && (forall k :: k in RequiredProps ==> k in props.value) &&
      Exists(fs, DaemonPath(props.value)) && IsExecutable(fs, DaemonPath(props.value))
  {
    match props
    case None => [NoProperties]
    case Some(m) =>
      MissingKeysEmpty(m, RequiredProps);
      assert (forall k :: k in RequiredProps ==> k in m) ==> "appName" in m;
      if |m| == 0 then [NoProperties]
      else
        var path := DaemonPath(m);
        MissingErrors(MissingKeys(m, RequiredProps)) +
        (if Exists(fs, path) then [] else [DaemonMissing(path)]) +
        (if IsExecutable(fs, path) then [] else [DaemonNotExecutable(path)])
  }

  /** A non-array or empty property set yields one error and nothing is
      checked; otherwise there is one error per missing key, in order,
      then one if the daemon file is missing and one if it is not
      executable, independently of each other. */
  lemma PropertyErrorsShape(props: Properties, fs: FsState)
    ensures props.None? || |props.value| == 0 ==> PropertyErrors(props, fs) == [NoProperties]
    ensures props.Some? && |props.value| > 0 ==>
      var missing := MissingKeys(props.value, RequiredProps);
      var path := DaemonPath(props.value);
      var errs := PropertyErrors(props, fs);
      |errs| == |missing| + (if Exists(fs, path) then 0 else 1) + (if IsExecutable(fs, path) then 0 else 1) &&
      (forall i :: 0 <= i < |missing| ==> errs[i] == MissingProperty(missing[i])) &&
      (!Exists(fs, path) ==> errs[|missing|] == DaemonMissing(path)) &&
      (!IsExecutable(fs, path) ==> errs[|errs| - 1] == DaemonNotExecutable(path))
  {
  }

  /** No key is reported missing iff every key is present. */
  lemma {:induction false} MissingKeysEmpty(m: PropertyMap, keys: seq<string>)
    ensures MissingKeys(m, keys) == [] <==> forall k :: k in keys ==> k in m
  {
    if keys != [] {
      var init, last := keys[..|keys| - 1], keys[|keys| - 1];
      MissingKeysEmpty(m, init);
      assert keys == init + [last];
    }
  }

  /** The keys of keys that m lacks, as a set. */
  function MissingSet(m: PropertyMap, keys: seq<string>): set<string> {
    set k | k in keys && k !in m
  }

  /** With distinct keys, k missing keys give exactly k entries. */
  lemma {:induction false} MissingKeysCount(m: PropertyMap, keys: seq<string>)
    requires forall i, j :: 0 <= i < j < |keys| ==> keys[i] != keys[j]
    ensures |MissingKeys(m, keys)| == |MissingSet(m, keys)|
  {
    if keys != [] {
      var init, last := keys[..|keys| - 1], keys[|keys| - 1];
      MissingKeysCount(m, init);
      assert last !in init;
      MissingSetSnoc(m, keys);
      assert last !in MissingSet(m, init);
    }
  }

  lemma MissingSetSnoc(m: PropertyMap, keys: seq<string>)
    requires keys != []
    ensures var last := keys[|keys| - 1];
      MissingSet(m, keys) == MissingSet(m, keys[..|keys| - 1]) + (if last in m then {} else {last})
  {
    var init, last := keys[..|keys| - 1], keys[|keys| - 1];
    assert keys == init + [last];
    assert forall k :: k in keys <==> k in init || k == last;
  }

  /** For a non-empty property array missing k of the six required keys,
      the property check reports exactly k MissingProperty errors, and
      they come first. */
  lemma MissingPropertyErrorCount(m: PropertyMap, fs: FsState)
    requires |m| > 0
    ensures var errs := PropertyErrors(Some(m), fs);
      var k := |MissingSet(m, RequiredProps)|;
      k <= |errs| &&
      (forall i :: 0 <= i < k ==> errs[i].MissingProperty?) &&
      (forall i :: k <= i < |errs| ==> !errs[i].MissingProperty?)
  {
    assert forall i, j :: 0 <= i < j < |RequiredProps| ==> RequiredProps[i] != RequiredProps[j];
    MissingKeysCount(m, RequiredProps);
    PropertyErrorsShape(Some(m), fs);
  }

  /** getAutoRunPath: autoRunDir/appName, provided autoRunDir is set and
      the path's dirname is an existing, writable directory. */
  function AutoRunPath(autoRunDir: Path, appName: string, fs: FsState): (r: Attempt<Path>)
    ensures r.Done? <==> (!Falsy(autoRunDir) &&
      Dirname(autoRunDir + "/" + appName) in fs.dirs &&
      Dirname(autoRunDir + "/" + appName) in fs.writable)
    ensures r.Done? ==> r.value == autoRunDir + "/" + appName
    ensures r.Failed? ==> |r.errs| == 1
  {
    if Falsy(autoRunDir) then Failed([NoAutoRunDir])
    else
      var path := autoRunDir + "/" + appName;
      var dir := Dirname(path);
      if dir !in fs.dirs then Failed([DirMissing(dir)])
      else if dir !in fs.writable then Failed([DirNotWritable(dir)])
      else Done(path)
  }

  /** For a plain application name, the directory that must exist and be
      writable is autoRunDir itself (without trailing slashes). */
  lemma AutoRunPathOfPlainName(autoRunDir: Path, appName: string, fs: FsState)
    requires appName != "" && '/' !in appName
    requires !Falsy(autoRunDir) && DropSlashes(autoRunDir) == autoRunDir
    ensures AutoRunPath(autoRunDir, appName, fs).Done? <==>
      autoRunDir in fs.dirs && autoRunDir in fs.writable
  {
    DirnameOfJoin(autoRunDir, appName);
  }

  /** getAutoRunTemplate: the contents of the template file. An unset
      path or a missing path appends one error. file_exists holds for a
      directory too; reading one yields no data, so a directory gives the
      empty template. */
  function AutoRunTemplate(templatePath: Path, fs: FsState): (r: Attempt<string>)
    ensures r.Done? <==> !Falsy(templatePath) && Exists(fs, templatePath)
    ensures r.Done? ==> r.value == if templatePath in fs.files then fs.files[templatePath].contents else ""
    ensures r.Failed? ==> |r.errs| == 1
  {
    if Falsy(templatePath) then Failed([NoTemplatePath])
    else if !Exists(fs, templatePath) then Failed([TemplateMissing(templatePath)])
    else if templatePath in fs.files then Done(fs.files[templatePath].contents)
    else Done("")
  }

  /** getAutoRunScript: the base class only reports that it is not
      implemented; a concrete driver renders its template from the
      properties, which is not part of this model and is given as a
      function. */
  datatype ScriptHook = BaseScript | DriverScript(render: Properties -> Attempt<string>)

  function Script(hook: ScriptHook, props: Properties): Attempt<string> {
    match hook
    case BaseScript => Failed([NotImplemented])
    case DriverScript(render) => render(props)
  }

  /** writeAutoRun's return value: false, true (the file was there and
      is kept), or the path written. */
  datatype WriteResult = WriteFailed | KeptExisting | Installed(path: Path)

  /** The outcome of writeAutoRun: the result, the errors appended and
      the filesystem afterwards. */
  datatype WriteRun = WriteRun(result: WriteResult, errs: seq<Error>, fs: FsState)

  /** The application name writeAutoRun passes to getAutoRunPath. */
  function AppName(props: Properties): string {
    if props.Some? then Lookup(props.value, "appName") else ""
  }

  /** writeAutoRun: validate, render, resolve the path, then InstallAt.
      A result other than false appends no error, and a returned path is
      autoRunDir/appName. */
  function WriteAutoRun(autoRunDir: Path, hook: ScriptHook, props: Properties, overwrite: bool, fs: FsState): (r: WriteRun)
    ensures r.result != WriteFailed ==> r.errs == []
    ensures r.result.Installed? ==> r.result.path == autoRunDir + "/" + AppName(props)
    ensures r.result.KeptExisting? ==> r.fs == fs
  {
    var perrs := PropertyErrors(props, fs);
    if perrs != [] then WriteRun(WriteFailed, perrs, fs)
    else
      match Script(hook, props)
      case Failed(serrs) => WriteRun(WriteFailed, serrs, fs)
      case Done(body) =>
        match AutoRunPath(autoRunDir, AppName(props), fs)
        case Failed(perrs) => WriteRun(WriteFailed, perrs, fs)
        case Done(path) => InstallAt(path, body, overwrite, fs)
  }

  /** The last steps of writeAutoRun, once the body and the path are
      known: keep an existing file unless overwrite is set, write the
      body (0 bytes written counts as a failure), chmod 0777. */
  function InstallAt(path: Path, body: string, overwrite: bool, fs: FsState): (r: WriteRun)
    ensures r.result.KeptExisting? <==> Exists(fs, path) && !overwrite
    ensures r.result.KeptExisting? ==> r == WriteRun(KeptExisting, [], fs)
    ensures r.result.Installed? ==>
      r == WriteRun(Installed(path), [], fs.(files := fs.files[path := FileEntry(body, AutoRunMode, true)]))
    ensures r.result.WriteFailed? ==> |r.errs| == 1
    ensures body == "" ==> r.result != Installed(path)
  {
    if Exists(fs, path) && !overwrite then WriteRun(KeptExisting, [], fs)
    else
      var (fs1, written) := PutContents(fs, path, body);
      if written.None? || written.value == 0 then WriteRun(WriteFailed, [NotWritten(path)], fs1)
      else
        var (fs2, ok) := Chmod(fs1, path, AutoRunMode);
        if !ok then WriteRun(WriteFailed, [NotChmodded(path)], fs2)
        else WriteRun(Installed(path), [], fs2)
  }

  /** Validation, rendering and path resolution all succeed. */
  predicate Ready(autoRunDir: Path, hook: ScriptHook, props: Properties, fs: FsState) {
    PropertyErrors(props, fs) == [] && Script(hook, props).Done? &&
    AutoRunPath(autoRunDir, AppName(props), fs).Done?
  }

  /** Nothing is written unless validation, rendering and path
      resolution succeed and the file is absent or may be overwritten;
      any earlier failure returns false with the errors of that step. */
  lemma WriteAutoRunGuarded(autoRunDir: Path, hook: ScriptHook, props: Properties, overwrite: bool, fs: FsState)
    ensures var r := WriteAutoRun(autoRunDir, hook, props, overwrite, fs);
      (r.fs != fs ==> (Ready(autoRunDir, hook, props, fs) &&
        (overwrite || !Exists(fs, AutoRunPath(autoRunDir, AppName(props), fs).value)))) &&
      (!Ready(autoRunDir, hook, props, fs) ==> r.result == WriteFailed && r.fs == fs) &&
      (PropertyErrors(props, fs) != [] ==> r.errs == PropertyErrors(props, fs)) &&
      (PropertyErrors(props, fs) == [] && Script(hook, props).Failed? ==> r.errs == Script(hook, props).errs) &&
      (r.errs != [] ==> r.result == WriteFailed)
  {
  }

  /** An existing file is kept when overwrite is off: true is returned
      and neither the filesystem nor the errors change. */
  lemma WriteAutoRunKeepsExisting(autoRunDir: Path, hook: ScriptHook, props: Properties, fs: FsState)
    requires Ready(autoRunDir, hook, props, fs)
    requires Exists(fs, AutoRunPath(autoRunDir, AppName(props), fs).value)
    ensures WriteAutoRun(autoRunDir, hook, props, false, fs) == WriteRun(KeptExisting, [], fs)
  {
  }

  /** A returned path is autoRunDir/appName, and the file there holds
      exactly the rendered body with mode 0777; nothing else changed. */
  lemma WriteAutoRunInstalled(autoRunDir: Path, hook: ScriptHook, props: Properties, overwrite: bool, fs: FsState)
    ensures var r := WriteAutoRun(autoRunDir, hook, props, overwrite, fs);
      r.result.Installed? ==>
        Ready(autoRunDir, hook, props, fs) &&
        r.result.path == autoRunDir + "/" + AppName(props) &&
        r.errs == [] &&
        r.fs == fs.(files := fs.files[r.result.path := FileEntry(Script(hook, props).value, AutoRunMode, true)])
  {
  }

  /** With overwrite on, an accepted, non-empty body is always written,
      even over an existing file, unless the filesystem refuses. */
  lemma WriteAutoRunOverwrites(autoRunDir: Path, hook: ScriptHook, props: Properties, fs: FsState)
    requires Ready(autoRunDir, hook, props, fs)
    requires Script(hook, props).value != ""
    requires !fs.writeFails && !fs.chmodFails
    requires AutoRunPath(autoRunDir, AppName(props), fs).value !in fs.dirs
    ensures WriteAutoRun(autoRunDir, hook, props, true, fs).result ==
      Installed(AutoRunPath(autoRunDir, AppName(props), fs).value)
  {
  }

  /** An empty body is reported as a write failure (file_put_contents
      returns 0), although the file has been written. */
  lemma WriteAutoRunEmptyBody(autoRunDir: Path, hook: ScriptHook, props: Properties, overwrite: bool, fs: FsState)
    requires Ready(autoRunDir, hook, props, fs)
    requires Script(hook, props).value == ""
    requires !fs.writeFails
    requires overwrite || !Exists(fs, AutoRunPath(autoRunDir, AppName(props), fs).value)
    requires AutoRunPath(autoRunDir, AppName(props), fs).value !in fs.dirs
    ensures var path := AutoRunPath(autoRunDir, AppName(props), fs).value;
      var r := WriteAutoRun(autoRunDir, hook, props, overwrite, fs);
      r.result == WriteFailed && r.errs == [NotWritten(path)] &&
      path in r.fs.files && r.fs.files[path].contents == ""
  {
  }

  /** Re-running after a successful run without overwrite is a no-op
      that returns true. */
  lemma WriteAutoRunIdempotent(autoRunDir: Path, hook: ScriptHook, props: Properties, overwrite: bool, fs: FsState)
    requires WriteAutoRun(autoRunDir, hook, props, overwrite, fs).result != WriteFailed
    ensures var fs1 := WriteAutoRun(autoRunDir, hook, props, overwrite, fs).fs;
      WriteAutoRun(autoRunDir, hook, props, false, fs1) == WriteRun(KeptExisting, [], fs1)
  {
    var r := WriteAutoRun(autoRunDir, hook, props, overwrite, fs);
    assert Ready(autoRunDir, hook, props, fs);
    var m := props.value;
    var path := AutoRunPath(autoRunDir, AppName(props), fs).value;
    var daemon := DaemonPath(m);
    if r.result.Installed? {
      WriteAutoRunInstalled(autoRunDir, hook, props, overwrite, fs);
      assert r.fs.files[path].executable;
      if daemon != path {
        assert r.fs.files[daemon] == fs.files[daemon];
      }
      assert AutoRunPath(autoRunDir, AppName(props), r.fs) == AutoRunPath(autoRunDir, AppName(props), fs);
      assert Exists(r.fs, path);
    }
    WriteAutoRunKeepsExisting(autoRunDir, hook, props, r.fs);
  }
}
