# System_Daemon OS drivers, modelled in Dafny

This project models `System_Daemon_OS`, the base class of System_Daemon's
operating-system drivers. The base class does two jobs:

- **Driver identity and selection.** A driver's *shorthand* is the last
  `_`-separated segment of its class name (`System_Daemon_OS_Ubuntu` →
  `Ubuntu`). Its *ancestors* are its parent classes, direct parent first.
  Its *specificity weight* is the number of ancestors. `factory` loads every
  driver file, keeps the drivers that report themselves installed, and
  returns the most specific one.
- **Autorun installation.** `writeAutoRun` checks the daemon properties,
  renders the script through the driver's `getAutoRunScript` hook, and
  resolves `autoRunDir/appName`. It keeps an existing file unless
  `overwrite` is set; otherwise it writes the body and chmods the file to
  `0777`. Most failures append an error to the driver's `errors` list;
  the list is only ever appended to. Some failures append nothing: a
  concrete `getAutoRunScript` that fails silently, and a failed
  `file_get_contents`.

Modules, one per component:

- `Outcomes` (outcomes.dfy): `Option`, the `Error` datatype (one
  constructor per message), and `Attempt` (a value, or the errors appended).
  It also defines PHP string truthiness: `""` and `"0"` are false.
- `ClassNames` (class_names.dfy): `explode("_", …)`, its inverse, and
  `_getShortHand`.
- `Ancestry` (ancestry.dfy): the class hierarchy as an explicit parent map.
  Each class has a rank that is smaller for its parent, so the chain is
  acyclic and recursion decreases on the rank. This module holds
  `_getAncestors` (a `while` loop proved equal to the function `Ancestors`),
  `_getAncestorCount`, the `_osDetails` record and `_mostSpecific`.
- `Discovery` (discovery.dfy): the decisions `factory` makes, as functions
  of the driver files found, the declared classes and the set of classes
  whose `isInstalled()` answers true.
- `FileSystems` (filesystem.dfy): the filesystem state and a
  `FileSystem` object. The state holds files (contents, mode, executable
  flag), directories and writable directories, plus two flags that make
  `file_put_contents` or `chmod` fail. The module also models PHP's
  `file_exists`, `is_executable`, `dirname`, `file_put_contents` and
  `chmod` over that state. It simplifies two things, listed under
  "## Left out": paths are compared as written, and no directory is
  executable.
- `AutoRun` (autorun.dfy): the autorun workflow as functions of the
  driver settings, the properties and the filesystem state, with the
  lemmas stating what the workflow promises.
- `OsDriver` (driver.dfy): the class `Driver`, with the fields `errors`,
  `autoRunDir` and `autoRunTemplatePath`, and the source's methods written
  imperatively. Each method's postcondition ties its result, the appended
  errors and the new filesystem state to the functions above.

Inputs that stand in for PHP runtime effects:

- directory globbing becomes a sequence of `DriverFile(name, isFile)` in
  glob order;
- `class_exists` becomes membership in the hierarchy;
- `isInstalled()` of each concrete driver becomes a set of class names;
- a concrete driver's `getAutoRunScript` becomes a function from the
  properties to a body or a list of errors.

Behaviour the model follows from the code:

- The existence and the executability of `appDir/appExecutable` are
  checked independently. A missing file therefore yields two errors.
- The daemon path is built even when `appDir` or `appExecutable` is
  missing; the missing value reads as the empty string.
- A file that already exists with `overwrite` off makes `writeAutoRun`
  return `true` (`KeptExisting`), not the path.
- An empty body is reported as a write failure, because
  `file_put_contents` returns 0. The empty file has been written all the
  same (`AutoRun.WriteAutoRunEmptyBody`).
- The first missing driver class makes `factory` return `false` before
  any driver is probed. When no driver is installed, `factory` has no
  driver to return (`NoDriver`, PHP's null).
- `file_exists` holds for directories, so a template path naming a
  directory passes the existence check. Reading a directory yields no
  data, so the template returned is the empty string.

## Model

| member | source | states |
|---|---|---|
| ClassNames.Explode | System/Daemon/OS.php:388 | the pieces of `explode("_", s)`: at least one, none containing `_` |
| ClassNames.ImplodeExplode | System/Daemon/OS.php:388 | joining the pieces with `_` gives back the class name |
| ClassNames.ExplodeImplode | System/Daemon/OS.php:388 | splitting a `_`-join of `_`-free pieces gives back those pieces |
| ClassNames.LastSegmentIsSuffix | System/Daemon/OS.php:388-389 | `end(explode("_", s))` is a `_`-free suffix of s that is all of s or follows a `_` |
| ClassNames.LastSegmentUnique | System/Daemon/OS.php:388-389 | any `_`-free suffix that is all of s or follows a `_` is that last segment |
| ClassNames.ShortHand | System/Daemon/OS.php:383-390 | false exactly for a non-string or a falsy string (`""`, `"0"`) |
| ClassNames.ShortHandIsLastSegment | System/Daemon/OS.php:383-390 | for a truthy string, the shorthand is the text after the last `_`, or the whole name |
| ClassNames.ShortHandUbuntu | System/Daemon/OS.php:377 | `System_Daemon_OS_Ubuntu` has shorthand `Ubuntu` |
| Ancestry.GetAncestors | System/Daemon/OS.php:411-418 | the loop returns the parent chain `Ancestors(h, c)` |
| Ancestry.AncestorsChain | System/Daemon/OS.php:399-418 | the chain starts at the direct parent, follows parent links, ends at a class without parent, is bounded by the rank; a subclass's count is its parent's plus 1 |
| Ancestry.AncestorCount | System/Daemon/OS.php:399-402 | the weight is 0 exactly for a class without parent, and never exceeds the class's rank |
| Ancestry.DetailsOf | System/Daemon/OS.php:77-84 | the details of a class: its own shorthand, and one entry per ancestor, the shorthand of that ancestor in chain order |
| Ancestry.DetailsOfSubclass | System/Daemon/OS.php:77-84 | the ancestors detail has the ancestor count as length; for a subclass it is the parent's shorthand followed by the parent's ancestors detail |
| Ancestry.MostSpecific | System/Daemon/OS.php:368-374 | no key for no candidates; otherwise a candidate whose ancestor count no candidate exceeds |
| Discovery.Discover | System/Daemon/OS.php:99-119 | the first loop of `factory`: a failure is one error naming an undeclared class; a success lists only declared classes |
| Discovery.DiscoverSpec | System/Daemon/OS.php:99-119 | loading fails iff some driver file names a missing class, with one error naming the first; otherwise it yields every driver class in order, all declared |
| Discovery.ExceptionNeverLoaded | System/Daemon/OS.php:106-109 | the class of the `Exception` file is never a driver class |
| Discovery.InstalledOnly | System/Daemon/OS.php:124-129 | the kept classes are exactly the loaded ones whose `isInstalled()` is true |
| Discovery.Select | System/Daemon/OS.php:92-137 | the outcome of `factory`: a missing class is one ClassMissing error; a chosen driver is installed and declared |
| Discovery.SelectSpec | System/Daemon/OS.php:92-137 | a missing class aborts with one error; otherwise the driver used is an installed driver class of maximal weight, never `Exception`, and there is none iff no driver class is installed |
| OsDriver.Driver.constructor | System/Daemon/OS.php:71-85 | `shorthand` is the shorthand of the object's class; `ancestors` has the ancestor count as length and holds the ancestors' shorthands in chain order |
| OsDriver.Driver.Factory | System/Daemon/OS.php:92-137 | the two loops and the final choice compute `Select`; only a missing class appends (one error) |
| OsDriver.Driver.IsInstalled | System/Daemon/OS.php:144-148 | the base class answers false and appends one error |
| OsDriver.Driver.GetDetails | System/Daemon/OS.php:155-158 | the details: own shorthand, and the ancestors' shorthands in chain order |
| OsDriver.Driver.GetAutoRunPath | System/Daemon/OS.php:167-191 | computes `AutoRunPath`; appends its one error on failure, nothing on success |
| OsDriver.Driver.GetAutoRunTemplate | System/Daemon/OS.php:200-214 | computes `AutoRunTemplate`; appends its errors on failure, nothing on success |
| OsDriver.Driver.GetAutoRunScript | System/Daemon/OS.php:223-227 | the hook's result; the base class fails with one error |
| OsDriver.Driver.TestAutoRunProperties | System/Daemon/OS.php:309-354 | appends exactly `PropertyErrors(props, fs)` and succeeds iff that list is empty |
| OsDriver.Driver.WriteAutoRun | System/Daemon/OS.php:240-286 | result, appended errors and new filesystem are those of `AutoRun.WriteAutoRun` on the old filesystem |
| FileSystems.Exists | System/Daemon/OS.php:207 | `file_exists`: every directory exists, as does every file |
| FileSystems.IsExecutable | System/Daemon/OS.php:345 | `is_executable`: only a file with its executable flag set; an executable path exists |
| FileSystems.PutContents | System/Daemon/OS.php:269 | fails, changing nothing, iff writing is refused or the target is a directory; otherwise it returns the body's length and only the target changes: an existing file gets the new contents and keeps its mode and executable flag, a new file gets mode 0644, not executable |
| FileSystems.Chmod | System/Daemon/OS.php:277 | succeeds iff the path exists and chmod is not refused; then only the file's mode and executable flag change |
| FileSystems.FileSystem.FilePutContents | System/Daemon/OS.php:269 | the object's new state and result are `PutContents` of its old state |
| FileSystems.FileSystem.ChangeMode | System/Daemon/OS.php:277 | the object's new state and result are `Chmod` of its old state |
| FileSystems.Dirname | System/Daemon/OS.php:177 | PHP's `dirname`: empty only for the empty path; apart from `.` and `/` it is a proper prefix of the path not ending in `/` |
| FileSystems.DirnameOfJoin | System/Daemon/OS.php:177 | `dirname(dir + "/" + name)` for a plain name is dir without trailing slashes, or `/` |
| AutoRun.MissingKeysMembers | System/Daemon/OS.php:321-331 | exactly the absent required keys are reported |
| AutoRun.MissingKeysEmpty | System/Daemon/OS.php:321-331 | no key is reported iff all required keys are present |
| AutoRun.MissingKeysCount | System/Daemon/OS.php:311-331 | over distinct keys, the number of reports is the number of absent keys |
| AutoRun.PropertyErrorsShape | System/Daemon/OS.php:314-350 | non-array or empty: one error only; else one error per missing key in order, then one for a missing daemon file and one for a non-executable one |
| AutoRun.PropertyErrors | System/Daemon/OS.php:309-354 | the errors the property check appends; none iff all six keys are set and `appDir/appExecutable` exists and is executable |
| AutoRun.MissingPropertyErrorCount | System/Daemon/OS.php:321-331 | for a non-empty array missing k of the six keys, exactly k MissingProperty errors, coming first |
| AutoRun.AutoRunPath | System/Daemon/OS.php:167-191 | succeeds iff `autoRunDir` is truthy and the path's dirname is an existing, writable directory; the path is `autoRunDir/appName`; a failure has one error |
| AutoRun.AutoRunPathOfPlainName | System/Daemon/OS.php:174-188 | for a plain name, the directory checked is `autoRunDir` itself |
| AutoRun.AutoRunTemplate | System/Daemon/OS.php:200-214 | succeeds iff the path is truthy and exists; yields the file's contents, or the empty string for a directory; each failure has one error |
| AutoRun.WriteAutoRun | System/Daemon/OS.php:240-286 | the whole workflow: a result other than false appends no error, a returned path is `autoRunDir/appName`, and keeping an existing file leaves the filesystem as it was |
| AutoRun.InstallAt | System/Daemon/OS.php:263-285 | the existing file is kept iff it exists and overwrite is off, with no change; a success installs exactly the body with mode 0777 at the path; a failure has one error; an empty body is never installed |
| AutoRun.WriteAutoRunGuarded | System/Daemon/OS.php:240-264 | the filesystem changes only after validation, rendering and path resolution succeed and the file is absent or may be overwritten; earlier failures return false with that step's errors; any error means false |
| AutoRun.WriteAutoRunKeepsExisting | System/Daemon/OS.php:263-266 | an existing file with overwrite off returns true and changes neither filesystem nor errors |
| AutoRun.WriteAutoRunInstalled | System/Daemon/OS.php:268-285 | a returned path is `autoRunDir/appName`, no error was appended, and only that file changed, to the body with mode 0777 |
| AutoRun.WriteAutoRunOverwrites | System/Daemon/OS.php:263-285 | with overwrite on, an accepted non-empty body is written even over an existing file unless the filesystem refuses |
| AutoRun.WriteAutoRunEmptyBody | System/Daemon/OS.php:269-274 | an empty body returns false with one write error, though the empty file is written |
| AutoRun.WriteAutoRunIdempotent | System/Daemon/OS.php:240-286 | after a run that did not fail, a second run without overwrite returns true and changes nothing |

## Left out

- Reflective driver discovery is not modelled. This covers `realpath`,
  `glob`, autoloading through `class_exists`, `new $class`,
  `call_user_func` and `get_parent_class`. The inputs described above
  replace them.
- OsDriver.Driver.Factory: returns the chosen class name, not a freshly
  constructed driver object. The errors that probed drivers append to
  their own lists are not modelled.
- `clearstatcache()` is a PHP runtime cache effect with no logical
  content.
- Concrete drivers' `isInstalled` probes and their `getAutoRunScript`
  template substitution (`autoRunTemplateReplace`) are not in the base
  class. They are inputs here.
- The real filesystem is replaced by the abstract state. `file_put_contents`
  and `chmod` fail only for a directory target, a missing path or the two
  failure flags. A new file gets mode 0644 (umask 022
  assumed). Directory modes are not tracked.
- Error message wording is left out. Each error keeps the class name,
  key or path its message mentions.
- Tie order among equally specific drivers is left open. `MostSpecific`
  keeps the earliest, but `arsort`'s order of equal weights depends on
  the PHP version, so no lemma claims which tied driver wins.
- Property values are PHP strings. A key set to null, which `isset`
  treats as missing, is not modelled.
- FileSystems.IsExecutable: a directory is never executable. PHP's
  `is_executable`, which uses access(2) with X_OK, answers true for a
  searchable directory. So with `appExecutable` set to `""` and
  `appDir/` an existing directory, the model rejects properties that
  PHP accepts.
- FileSystems.Exists: paths are compared as unnormalised strings, so
  `/etc/init.d//myd` and `/etc/init.d/myd` are different files here. PHP
  resolves both to the same file.
- AutoRun.AutoRunTemplate: reading an existing template never fails.
  For an unreadable file PHP's `file_get_contents` silently returns
  false; that case is not modelled.
- Concrete rendering: a driver's rendering is a function of
  the properties alone and does not see the filesystem. A real driver
  reads its template through `getAutoRunTemplate`, so the idempotence
  lemma does not cover a template that is itself the install target.
- OsDriver.Driver.WriteAutoRun: `overwrite` is a required argument. In
  PHP it defaults to false.
