/** Values shared by every part of the OS-driver model: an optional value,
    the errors a driver records, and the result of a step that either
    produces a value or reports the errors it appended. */
module Outcomes {

  datatype Option<+T> = None | Some(value: T)

  type ClassName = string
  type Path = string

  /** One constructor per message the driver appends to its error list.
      The message wording is not modelled; each constructor keeps the data
      the message interpolates (a class name, a key, a path). */
  datatype Error =
    | ClassMissing(cls: ClassName)         // a declared driver class cannot be loaded
    | NotImplemented                       // base-class isInstalled / getAutoRunScript
    | NoAutoRunDir                         // autoRunDir is not set
    | DirMissing(dir: Path)                // dirname of the autorun path is no directory
    | DirNotWritable(dir: Path)            // ... or is not writable
    | NoTemplatePath                       // autoRunTemplatePath is not set
    | TemplateMissing(path: Path)          // the template file does not exist
    | NoProperties                         // the property set is no array or is empty
    | MissingProperty(key: string)         // a required daemon property is not set
    | DaemonMissing(path: Path)            // appDir/appExecutable does not exist
    | DaemonNotExecutable(path: Path)      // appDir/appExecutable is not executable
    | NotWritten(path: Path)               // the autorun file could not be written
    | NotChmodded(path: Path)              // the autorun file could not be chmodded

  /** A step of the driver that yields a value, or fails having appended
      errs to the driver's error list (PHP: returning false). */
  datatype Attempt<+T> = Done(value: T) | Failed(errs: seq<Error>)

  /** PHP's truthiness on strings: "" and "0" are false. */
  predicate Falsy(s: string) {
    s == "" || s == "0"
  }
}
