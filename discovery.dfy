/** What factory decides: which driver files become driver classes,
    which of those report themselves installed, and which one is used.
    Directory globbing and autoloading are replaced by the list of files
    found in the driver directory (in glob order) and the hierarchy's set
    of declared classes; isInstalled() is given as the set of classes
    whose probe answers true. */
module Discovery {
  import opened Outcomes
  import opened Ancestry

  const ClassPrefix: string := "System_Daemon_OS_"

  /** An entry of the driver directory: its basename without ".php" and
      whether it is a regular file. */
  datatype DriverFile = DriverFile(name: string, isFile: bool)

  /** factory skips the Exception file and anything that is not a file. */
  predicate IsDriverFile(f: DriverFile) {
    f.name != "Exception" && f.isFile
  }

  function ClassOf(f: DriverFile): ClassName {
    ClassPrefix + f.name
  }

  /** The first loop of factory: the driver classes in discovery order,
      or the first one that does not exist. */
  function Discover(h: Hierarchy, files: seq<DriverFile>): (r: Attempt<seq<ClassName>>)
    ensures r.Failed? ==> |r.errs| == 1 && r.errs[0].ClassMissing? && !Declared(h, r.errs[0].cls)
    ensures r.Done? ==> forall c :: c in r.value ==> Declared(h, c)
  {
    if files == [] then Done([])
    else if !IsDriverFile(files[0]) then Discover(h, files[1..])
    else if !Declared(h, ClassOf(files[0])) then Failed([ClassMissing(ClassOf(files[0]))])
    else match Discover(h, files[1..])
      case Failed(errs) => Failed(errs)
      case Done(classes) => Done([ClassOf(files[0])] + classes)
  }

  /** The classes of all driver files, in order. */
  function DriverClasses(files: seq<DriverFile>): seq<ClassName> {
    if files == [] then []
    else (if IsDriverFile(files[0]) then [ClassOf(files[0])] else []) + DriverClasses(files[1..])
  }

  /** Some driver file names an undeclared class. */
  predicate SomeClassMissing(h: Hierarchy, files: seq<DriverFile>) {
    exists i :: 0 <= i < |files| && IsDriverFile(files[i]) && !Declared(h, ClassOf(files[i]))
  }

  /** Discovery fails exactly when some driver class is missing, with
      one error naming the first such class; otherwise it yields every
      driver class, in order, all of them declared. */
  lemma {:induction false} DiscoverSpec(h: Hierarchy, files: seq<DriverFile>)
    ensures Discover(h, files).Failed? <==> SomeClassMissing(h, files)
    ensures Discover(h, files).Failed? ==>
      exists i :: 0 <= i < |files| && IsDriverFile(files[i]) && !Declared(h, ClassOf(files[i])) &&
        Discover(h, files).errs == [ClassMissing(ClassOf(files[i]))] &&
        forall j :: 0 <= j < i && IsDriverFile(files[j]) ==> Declared(h, ClassOf(files[j]))
    ensures Discover(h, files).Done? ==>
      Discover(h, files).value == DriverClasses(files) &&
      forall c :: c in DriverClasses(files) ==> Declared(h, c)
  {
    if files != [] {
      DiscoverSpec(h, files[1..]);
      var r, rest := Discover(h, files), Discover(h, files[1..]);
      if SomeClassMissing(h, files[1..]) {
        var i :| 0 < i + 1 <= |files[1..]| && IsDriverFile(files[1..][i]) && !Declared(h, ClassOf(files[1..][i]));
        assert IsDriverFile(files[i + 1]) && !Declared(h, ClassOf(files[i + 1]));
      }
      if SomeClassMissing(h, files) && !(IsDriverFile(files[0]) && !Declared(h, ClassOf(files[0]))) {
        var i :| 0 <= i < |files| && IsDriverFile(files[i]) && !Declared(h, ClassOf(files[i]));
        assert i > 0;
        assert IsDriverFile(files[1..][i - 1]) && !Declared(h, ClassOf(files[1..][i - 1]));
      }
      if r.Failed? {
        if IsDriverFile(files[0]) && !Declared(h, ClassOf(files[0])) {
          assert r.errs == [ClassMissing(ClassOf(files[0]))];
        } else {
          var i :| 0 <= i < |files[1..]| && IsDriverFile(files[1..][i]) && !Declared(h, ClassOf(files[1..][i])) &&
            rest.errs == [ClassMissing(ClassOf(files[1..][i]))] &&
            forall j :: 0 <= j < i && IsDriverFile(files[1..][j]) ==> Declared(h, ClassOf(files[1..][j]));
          assert forall j :: 0 <= j < i + 1 && IsDriverFile(files[j]) ==> Declared(h, ClassOf(files[j])) by {
            forall j | 0 <= j < i + 1 && IsDriverFile(files[j])
              ensures Declared(h, ClassOf(files[j]))
            {
              if j > 0 { assert files[j] == files[1..][j - 1]; }
            }
          }
        }
      }
    }
  }

  /** The driver file named Exception never yields a candidate class. */
  lemma {:induction false} ExceptionNeverLoaded(files: seq<DriverFile>)
    ensures ClassPrefix + "Exception" !in DriverClasses(files)
  {
    if files != [] {
      ExceptionNeverLoaded(files[1..]);
      if IsDriverFile(files[0]) {
        assert files[0].name == ClassOf(files[0])[|ClassPrefix|..];
      }
    }
  }

  /** The second loop of factory: the classes whose isInstalled() is
      true. */
  function InstalledOnly(classes: seq<ClassName>, installed: set<ClassName>): (r: seq<ClassName>)
    ensures forall c :: c in r <==> c in classes && c in installed
  {
    if classes == [] then []
    else
      var last := classes[|classes| - 1];
      var init := InstalledOnly(classes[..|classes| - 1], installed);
      assert forall c :: c in classes <==> c in classes[..|classes| - 1] || c == last;
      init + (if last in installed then [last] else [])
  }

  /** The outcome of factory: a driver, the class that did not exist
      (PHP: false), or no installed driver (PHP: a null object). */
  datatype Selection = Chosen(driver: ClassName) | MissingClass(errs: seq<Error>) | NoDriver

  function Select(h: Hierarchy, files: seq<DriverFile>, installed: set<ClassName>): (s: Selection)
    requires Valid(h)
    ensures s.MissingClass? ==> |s.errs| == 1 && s.errs[0].ClassMissing?
    ensures s.Chosen? ==> s.driver in installed && Declared(h, s.driver)
  {
    match Discover(h, files)
    case Failed(errs) => MissingClass(errs)
    case Done(classes) =>
      match MostSpecific(h, InstalledOnly(classes, installed))
      case None => NoDriver
      case Some(c) => Chosen(c)
  }

  /** What factory promises: a missing class aborts with one error and no
      probing; otherwise the driver used is an installed driver class
      (never the Exception file) whose weight no other installed driver
      class exceeds, and there is none exactly when no driver class is
      installed. */
  lemma SelectSpec(h: Hierarchy, files: seq<DriverFile>, installed: set<ClassName>)
    requires Valid(h)
    ensures var s := Select(h, files, installed);
      (s.MissingClass? <==> SomeClassMissing(h, files)) &&
      (s.MissingClass? ==> |s.errs| == 1 && s.errs[0].ClassMissing?) &&
      (s.NoDriver? <==>
        !SomeClassMissing(h, files) && forall c :: c in DriverClasses(files) ==> c !in installed) &&
      (s.Chosen? ==>
        s.driver in DriverClasses(files) && s.driver in installed && Declared(h, s.driver) &&
        s.driver != ClassPrefix + "Exception" &&
        forall c :: c in DriverClasses(files) && c in installed ==>
          AncestorCount(h, c) <= AncestorCount(h, s.driver))
  {
    DiscoverSpec(h, files);
    ExceptionNeverLoaded(files);
  }
}
