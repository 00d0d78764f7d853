/** The swarm exception value type: a class of the fixed hierarchy, a message,
    an integer code and an optional nested cause that is owned (deep-copied)
    by the exception holding it. The macro-generated subclasses differ only in
    their class, so the hierarchy becomes an enumeration of kinds with a
    parent table, and one datatype carries every exception. */
module Exceptions {

  import opened Wrappers

  /** A C++ `int`. */
  newtype int32 = x: int | -0x8000_0000 <= x < 0x8000_0000

  /** The classes of the hierarchy; `Base` is swarm::Exception itself and
      every other constructor is the class of the same name. */
  datatype Kind =
    | Base
    | LogicException
    | AssertionViolationException
    | NullPointerException
    | BugcheckException
    | InvalidArgumentException
    | NotImplementedException
    | RangeException
    | IllegalStateException
    | InvalidAccessException
    | SignalException
    | UnhandledException
    | RuntimeException
    | NotFoundException
    | ExistsException
    | TimeoutException
    | SystemException
    | RegularExpressionException
    | LibraryLoadException
    | LibraryAlreadyLoadedException
    | NoThreadAvailableException
    | PropertyNotSupportedException
    | PoolOverflowException
    | NoPermissionException
    | OutOfMemoryException
    | DataException
    | DataFormatException
    | SyntaxException
    | CircularReferenceException
    | PathSyntaxException
    | IOException
    | FileException
    | FileExistsException
    | FileNotFoundException
    | PathNotFoundException
    | FileReadOnlyException
    | FileAccessDeniedException
    | CreateFileException
    | OpenFileException
    | WriteFileException
    | ReadFileException
    | UnknownURISchemeException
    | NetException
    | ApplicationException
    | BadCastException

  /** Number of inheritance steps from swarm::Exception down to the class. */
  function Level(k: Kind): nat
  {
    match k
    case Base => 0
    case LogicException => 1
    case AssertionViolationException => 2
    case NullPointerException => 2
    case BugcheckException => 2
    case InvalidArgumentException => 2
    case NotImplementedException => 2
    case RangeException => 2
    case IllegalStateException => 2
    case InvalidAccessException => 2
    case SignalException => 2
    case UnhandledException => 2
    case RuntimeException => 1
    case NotFoundException => 2
    case ExistsException => 2
    case TimeoutException => 2
    case SystemException => 2
    case RegularExpressionException => 2
    case LibraryLoadException => 2
    case LibraryAlreadyLoadedException => 2
    case NoThreadAvailableException => 2
    case PropertyNotSupportedException => 2
    case PoolOverflowException => 2
    case NoPermissionException => 2
    case OutOfMemoryException => 2
    case DataException => 2
    case DataFormatException => 3
    case SyntaxException => 3
    case CircularReferenceException => 3
    case PathSyntaxException => 4
    case IOException => 2
    case FileException => 3
    case FileExistsException => 4
    case FileNotFoundException => 4
    case PathNotFoundException => 4
    case FileReadOnlyException => 4
    case FileAccessDeniedException => 4
    case CreateFileException => 4
    case OpenFileException => 4
    case WriteFileException => 4
    case ReadFileException => 4
    case UnknownURISchemeException => 2
    case NetException => 3
    case ApplicationException => 1
    case BadCastException => 2
  }

  /** The base class each class is declared with; the root has none. */
  function Parent(k: Kind): (r: Option<Kind>)
    ensures r.None? <==> k == Base
  {
    match k
    case Base => None
    case LogicException => Some(Base)
    case AssertionViolationException => Some(LogicException)
    case NullPointerException => Some(LogicException)
    case BugcheckException => Some(LogicException)
    case InvalidArgumentException => Some(LogicException)
    case NotImplementedException => Some(LogicException)
    case RangeException => Some(LogicException)
    case IllegalStateException => Some(LogicException)
    case InvalidAccessException => Some(LogicException)
    case SignalException => Some(LogicException)
    case UnhandledException => Some(LogicException)
    case RuntimeException => Some(Base)
    case NotFoundException => Some(RuntimeException)
    case ExistsException => Some(RuntimeException)
    case TimeoutException => Some(RuntimeException)
    case SystemException => Some(RuntimeException)
    case RegularExpressionException => Some(RuntimeException)
    case LibraryLoadException => Some(RuntimeException)
    case LibraryAlreadyLoadedException => Some(RuntimeException)
    case NoThreadAvailableException => Some(RuntimeException)
    case PropertyNotSupportedException => Some(RuntimeException)
    case PoolOverflowException => Some(RuntimeException)
    case NoPermissionException => Some(RuntimeException)
    case OutOfMemoryException => Some(RuntimeException)
    case DataException => Some(RuntimeException)
    case DataFormatException => Some(DataException)
    case SyntaxException => Some(DataException)
    case CircularReferenceException => Some(DataException)
    case PathSyntaxException => Some(SyntaxException)
    case IOException => Some(RuntimeException)
    case FileException => Some(IOException)
    case FileExistsException => Some(FileException)
    case FileNotFoundException => Some(FileException)
    case PathNotFoundException => Some(FileException)
    case FileReadOnlyException => Some(FileException)
    case FileAccessDeniedException => Some(FileException)
    case CreateFileException => Some(FileException)
    case OpenFileException => Some(FileException)
    case WriteFileException => Some(FileException)
    case ReadFileException => Some(FileException)
    case UnknownURISchemeException => Some(RuntimeException)
    case NetException => Some(IOException)
    case ApplicationException => Some(Base)
    case BadCastException => Some(RuntimeException)
  }

  /** Each declared base class sits exactly one level higher, so the
      hierarchy has no cycles. */
  lemma ParentIsOneLevelUp(k: Kind)
    ensures Parent(k).Some? ==> Level(Parent(k).value) + 1 == Level(k)
  {
    match k
    case Base =>
    case LogicException =>
    case AssertionViolationException =>
    case NullPointerException =>
    case BugcheckException =>
    case InvalidArgumentException =>
    case NotImplementedException =>
    case RangeException =>
    case IllegalStateException =>
    case InvalidAccessException =>
    case SignalException =>
    case UnhandledException =>
    case RuntimeException =>
    case NotFoundException =>
    case ExistsException =>
    case TimeoutException =>
    case SystemException =>
    case RegularExpressionException =>
    case LibraryLoadException =>
    case LibraryAlreadyLoadedException =>
    case NoThreadAvailableException =>
    case PropertyNotSupportedException =>
    case PoolOverflowException =>
    case NoPermissionException =>
    case OutOfMemoryException =>
    case DataException =>
    case DataFormatException =>
    case SyntaxException =>
    case CircularReferenceException =>
    case PathSyntaxException =>
    case IOException =>
    case FileException =>
    case FileExistsException =>
    case FileNotFoundException =>
    case PathNotFoundException =>
    case FileReadOnlyException =>
    case FileAccessDeniedException =>
    case CreateFileException =>
    case OpenFileException =>
    case WriteFileException =>
    case ReadFileException =>
    case UnknownURISchemeException =>
    case NetException =>
    case ApplicationException =>
    case BadCastException =>
  }

  /** The fixed text name() returns for each class. */
  function Name(k: Kind): (r: string)
    ensures |r| > 0
  {
    match k
    case Base => "Exception"
    case LogicException => "Logic exception"
    case AssertionViolationException => "Assertion violation"
    case NullPointerException => "Null pointer"
    case BugcheckException => "Bugcheck"
    case InvalidArgumentException => "Invalid argument"
    case NotImplementedException => "Not implemented"
    case RangeException => "Out of range"
    case IllegalStateException => "Illegal state"
    case InvalidAccessException => "Invalid access"
    case SignalException => "Signal received"
    case UnhandledException => "Unhandled exception"
    case RuntimeException => "Runtime exception"
    case NotFoundException => "Not found"
    case ExistsException => "Exists"
    case TimeoutException => "Timeout"
    case SystemException => "System exception"
    case RegularExpressionException => "Error in regular expression"
    case LibraryLoadException => "Cannot load library"
    case LibraryAlreadyLoadedException => "Library already loaded"
    case NoThreadAvailableException => "No thread available"
    case PropertyNotSupportedException => "Property not supported"
    case PoolOverflowException => "Pool overflow"
    case NoPermissionException => "No permission"
    case OutOfMemoryException => "Out of memory"
    case DataException => "Data error"
    case DataFormatException => "Bad data format"
    case SyntaxException => "Syntax error"
    case CircularReferenceException => "Circular reference"
    case PathSyntaxException => "Bad path syntax"
    case IOException => "I/O error"
    case FileException => "File access error"
    case FileExistsException => "File exists"
    case FileNotFoundException => "File not found"
    case PathNotFoundException => "Path not found"
    case FileReadOnlyException => "File is read-only"
    case FileAccessDeniedException => "Access to file denied"
    case CreateFileException => "Cannot create file"
    case OpenFileException => "Cannot open file"
    case WriteFileException => "Cannot write file"
    case ReadFileException => "Cannot read file"
    case UnknownURISchemeException => "Unknown URI scheme"
    case NetException => "NET Exception"
    case ApplicationException => "Application exception"
    case BadCastException => "Bad cast exception"
  }

  /** `k` is the class `a` or derives from it (a C++ reference to `a` can
      refer to an object of class `k`). */
  predicate IsA(k: Kind, a: Kind)
    decreases Level(k)
  {
    k == a || (k != Base && (ParentIsOneLevelUp(k); IsA(Parent(k).value, a)))
  }

  /** Every class derives from swarm::Exception. */
  lemma {:induction false} DerivesFromBase(k: Kind)
    ensures IsA(k, Base)
    decreases Level(k)
  {
    if k != Base {
      ParentIsOneLevelUp(k);
      DerivesFromBase(Parent(k).value);
    }
  }

  /** Derivation is transitive. */
  lemma {:induction false} IsATransitive(a: Kind, b: Kind, c: Kind)
    requires IsA(a, b) && IsA(b, c)
    ensures IsA(a, c)
    decreases Level(a)
  {
    if a != b {
      ParentIsOneLevelUp(a);
      IsATransitive(Parent(a).value, b, c);
    }
  }

  /** A class only derives from classes at a smaller depth, so derivation
      is antisymmetric. */
  lemma {:induction false} IsADepth(a: Kind, b: Kind)
    requires IsA(a, b)
    ensures Level(b) <= Level(a)
    ensures Level(b) == Level(a) ==> a == b
    decreases Level(a)
  {
    if a != b {
      ParentIsOneLevelUp(a);
      IsADepth(Parent(a).value, b);
    }
  }

  /** The chains of the two examples in the declarations. */
  lemma DeclaredChains()
    ensures Parent(PathSyntaxException) == Some(SyntaxException)
    ensures Parent(SyntaxException) == Some(DataException)
    ensures Parent(DataException) == Some(RuntimeException)
    ensures Parent(RuntimeException) == Some(Base)
    ensures Parent(NetException) == Some(IOException)
    ensures Parent(IOException) == Some(RuntimeException)
    ensures Parent(NotFoundException) == Some(RuntimeException)
  {
  }

  /** Derivation along those chains. */
  lemma DeclaredDerivations()
    ensures IsA(PathSyntaxException, RuntimeException) && IsA(NetException, RuntimeException)
    ensures IsA(NotFoundException, RuntimeException) && IsA(SyntaxException, RuntimeException)
  {
    DeclaredChains();
    IsAStep(DataException, RuntimeException);
    IsAStep(SyntaxException, RuntimeException);
    IsAStep(PathSyntaxException, RuntimeException);
    IsAStep(IOException, RuntimeException);
    IsAStep(NetException, RuntimeException);
    IsAStep(NotFoundException, RuntimeException);
  }

  /** Sibling branches stay apart: a network error is no file error and a
      not-found error is no logic error. */
  lemma SeparateBranches()
    ensures !IsA(NetException, FileException) && !IsA(NotFoundException, LogicException)
  {
    DeclaredChains();
    IsAStep(RuntimeException, FileException);
    IsAStep(IOException, FileException);
    IsAStep(NetException, FileException);
    IsAStep(RuntimeException, LogicException);
    IsAStep(NotFoundException, LogicException);
  }

  /** Below the root, a class is an `a` exactly when its parent is one. */
  lemma IsAStep(k: Kind, a: Kind)
    requires k != a && k != Base
    ensures Parent(k).Some? && (IsA(k, a) <==> IsA(Parent(k).value, a))
  {
    ParentIsOneLevelUp(k);
  }

  /** An exception object: its dynamic class, message, code and the clone of
      the exception it wraps, if any. */
  datatype Exception = Exception(kind: Kind, msg: string, nested: Option<Exception>, code: int32)

  /** Number of exceptions in the nested-cause chain, this one included. */
  function ChainLength(e: Exception): (n: nat)
    ensures n >= 1
    decreases e
  {
    match e.nested
    case None => 1
    case Some(inner) => 1 + ChainLength(inner)
  }

  /** `CLS(int code = 0)`: no message and no cause. */
  function Make(kind: Kind, code: int32 := 0): (r: Exception)
    ensures r.kind == kind && r.code == code && r.msg == [] && r.nested.None?
    ensures What(r) == Name(kind) && DisplayText(r) == Name(kind)
  {
    Exception(kind, [], None, code)
  }

  /** `CLS(msg, int code = 0)`. */
  function WithMessage(kind: Kind, msg: string, code: int32 := 0): (r: Exception)
    ensures r.kind == kind && r.msg == msg && r.code == code && r.nested.None?
    ensures msg != [] ==> What(r) == msg
  {
    Exception(kind, msg, None, code)
  }

  /** `CLS(msg, arg, int code = 0)`: a non-empty argument is appended to the
      message after a colon and a space. */
  function WithArgument(kind: Kind, msg: string, arg: string, code: int32 := 0): (r: Exception)
    ensures r.kind == kind && r.code == code && r.nested.None?
    ensures arg == [] ==> r.msg == msg
    ensures arg != [] ==> |r.msg| == |msg| + 2 + |arg|
    ensures arg != [] ==> r.msg[..|msg|] == msg && r.msg[|msg|..|msg| + 2] == ": " && r.msg[|msg| + 2..] == arg
  {
    Exception(kind, if arg == [] then msg else msg + ": " + arg, None, code)
  }

  /** `CLS(msg, nested, int code = 0)`: the cause is a clone of `nested`. */
  function WithNested(kind: Kind, msg: string, nested: Exception, code: int32 := 0): (r: Exception)
    ensures r.kind == kind && r.msg == msg && r.code == code
    ensures r.nested == Some(nested)
    ensures ChainLength(r) == 1 + ChainLength(nested)
  {
    CloneIsCopy(nested);
    Exception(kind, msg, Some(Clone(nested)), code)
  }

  /** `clone()` and the copy constructor: a new exception of the same class
      with the message, the code and a clone of the cause. */
  function Clone(e: Exception): (r: Exception)
    ensures r.kind == e.kind && r.msg == e.msg && r.code == e.code
    ensures r.nested.Some? <==> e.nested.Some?
    decreases e
  {
    Exception(e.kind, e.msg, CloneCause(e), e.code)
  }

  /** The cause of a copy: null stays null, otherwise the cause is cloned. */
  function CloneCause(e: Exception): (r: Option<Exception>)
    ensures r.Some? <==> e.nested.Some?
    decreases e, 0
  {
    match e.nested
    case None => None
    case Some(inner) => Some(Clone(inner))
  }

  /** Deep copy loses nothing: the whole cause chain is reproduced. */
  lemma {:induction false} CloneIsCopy(e: Exception)
    ensures Clone(e) == e
    decreases e
  {
    match e.nested
    case None =>
    case Some(inner) =>
      CloneIsCopy(inner);
  }

  /** Copy construction into a variable of static class `cls`: the object
      built is of class `cls` (a copy into a base-class variable keeps only
      the base part) and carries the message, code and a clone of the cause. */
  function CopyAs(cls: Kind, src: Exception): (r: Exception)
    requires IsA(src.kind, cls)
    ensures r.kind == cls && r.msg == src.msg && r.code == src.code && r.nested == src.nested
  {
    CloneIsCopy(src);
    Exception(cls, src.msg, CloneCause(src), src.code)
  }

  /** `Exception(const std::exception&)`: the message is the foreign
      exception's what(), code 0, no cause. */
  function FromStd(what: string): (r: Exception)
    ensures r.kind == Base && r.msg == what && r.code == 0 && r.nested.None?
  {
    Exception(Base, what, None, 0)
  }

  /** `Exception(const boost::system::system_error&)`: as FromStd, but the
      code is the error code's value. */
  function FromSystemError(what: string, value: int32): (r: Exception)
    ensures r.kind == Base && r.msg == what && r.code == value && r.nested.None?
  {
    Exception(Base, what, None, value)
  }

  /** `operator=(const Exception&)`: the target keeps its own class and takes
      the message, code and a clone of the cause of `src`. */
  function Assign(target: Exception, src: Exception): (r: Exception)
    ensures r.kind == target.kind
    ensures r.msg == src.msg && r.code == src.code && r.nested == src.nested
  {
    CloneIsCopy(src);
    Exception(target.kind, src.msg, CloneCause(src), src.code)
  }

  /** Self-assignment changes nothing. */
  lemma AssignSelf(e: Exception)
    ensures Assign(e, e) == e
  {
  }

  /** The right-hand side of `operator=(const std::exception&)`: another
      object, seen through its what(), or the target object itself. */
  datatype StdSource = Other(what: string) | SameObject

  /** `operator=(const std::exception&)`: unless the source is the target
      itself, the message becomes what(), the code 0 and the cause is dropped. */
  function AssignStd(target: Exception, src: StdSource): (r: Exception)
    ensures src.SameObject? ==> r == target
    ensures src.Other? ==> r == FromStd(src.what).(kind := target.kind)
  {
    match src
    case SameObject => target
    case Other(what) => Exception(target.kind, what, None, 0)
  }

  /** `operator=(const boost::system::system_error&)` (no self check: an
      exception of this library is never a system_error). */
  function AssignSystemError(target: Exception, what: string, value: int32): (r: Exception)
    ensures r == FromSystemError(what, value).(kind := target.kind)
  {
    Exception(target.kind, what, None, value)
  }

  /** `what()`: the message, or the class name when the message is empty. */
  function What(e: Exception): (r: string)
    ensures |r| > 0
    ensures e.msg != [] ==> r == e.msg
    ensures e.msg == [] ==> r == Name(e.kind)
  {
    if e.msg == [] then Name(e.kind) else e.msg
  }

  /** `displayText()`: the class name, then ": " and the message when there
      is one. */
  function DisplayText(e: Exception): (r: string)
    ensures |Name(e.kind)| <= |r| && r[..|Name(e.kind)|] == Name(e.kind)
    ensures r == Name(e.kind) <==> e.msg == []
    ensures e.msg != [] ==> r[|Name(e.kind)|..] == ": " + What(e)
  {
    if e.msg == [] then Name(e.kind) else Name(e.kind) + ": " + e.msg
  }

  /** The message composition is the same whatever the class: subclasses
      forward their constructor arguments unchanged. */
  lemma ComposedMessageIgnoresKind(k1: Kind, k2: Kind, msg: string, arg: string, code: int32)
    ensures WithArgument(k1, msg, arg, code).msg == WithArgument(k2, msg, arg, code).msg
    ensures WithArgument(k1, msg, arg, code) == WithArgument(k2, msg, arg, code).(kind := k1)
  {
  }

  /** The display text of a constructed exception with a message and an
      argument names the class, the message and the argument in that order. */
  lemma {:induction false} DisplayTextOfArgument(k: Kind, msg: string, arg: string, code: int32)
    requires msg != [] && arg != []
    ensures DisplayText(WithArgument(k, msg, arg, code)) == Name(k) + ": " + msg + ": " + arg
  {
    var e := WithArgument(k, msg, arg, code);
    assert e.msg == msg + ": " + arg;
  }

}
