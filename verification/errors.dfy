/** The error taxonomy of the gateway (`src/service/errors.py`): ten error
    kinds with fixed codes and labels, the `DataverseError` carrier, and the
    class hierarchy that puts every error into one of three categories. The
    module also names the other exceptions the core raises, so that every
    operation can return `Result<_, Raised>`. */
module Errors {
  import opened Wrappers
  import opened Strings
  import opened Values

  // ---------------------------------------------------------------------
  // Error kinds
  // ---------------------------------------------------------------------

  datatype ErrorType =
    | AuthenticationFailed
    | NoToken
    | InvalidToken
    | InvalidAuthHeader
    | Unauthorized
    | MissingParameter
    | RequestValidationFailed
    | IllegalParameter
    | NoDataFound
    | UnsupportedOp

  /** The kinds in declaration order. */
  const AllErrorTypes: seq<ErrorType> := [
    AuthenticationFailed, NoToken, InvalidToken, InvalidAuthHeader, Unauthorized,
    MissingParameter, RequestValidationFailed, IllegalParameter, NoDataFound, UnsupportedOp
  ]

  /** `ErrorType.X.error_code`. */
  function Code(t: ErrorType): int {
    match t
    case AuthenticationFailed => 10000
    case NoToken => 10010
    case InvalidToken => 10020
    case InvalidAuthHeader => 10030
    case Unauthorized => 20000
    case MissingParameter => 30000
    case RequestValidationFailed => 30010
    case IllegalParameter => 30001
    case NoDataFound => 40000
    case UnsupportedOp => 100000
  }

  /** `ErrorType.X.error_type`, the short label. */
  function Label(t: ErrorType): string {
    match t
    case AuthenticationFailed => "Authentication failed"
    case NoToken => "No authentication token"
    case InvalidToken => "Invalid token"
    case InvalidAuthHeader => "Invalid authentication header"
    case Unauthorized => "Unauthorized"
    case MissingParameter => "Missing input parameter"
    case RequestValidationFailed => "Request validation failed"
    case IllegalParameter => "Illegal input parameter"
    case NoDataFound => "Requested data not found"
    case UnsupportedOp => "Unsupported operation"
  }

  /** The kind that carries a given code, found by scanning the declared kinds. */
  function KindOfCode(c: int): (r: Option<ErrorType>)
    ensures r.Some? ==> Code(r.value) == c
    ensures r.None? ==> forall t: ErrorType :: Code(t) != c
  {
    KindOfCodeFrom(c, 0)
  }

  function KindOfCodeFrom(c: int, i: nat): (r: Option<ErrorType>)
    requires i <= |AllErrorTypes|
    ensures r.Some? ==> Code(r.value) == c
    ensures r.None? ==> forall j :: i <= j < |AllErrorTypes| ==> Code(AllErrorTypes[j]) != c
    decreases |AllErrorTypes| - i
  {
    if i == |AllErrorTypes| then None
    else if Code(AllErrorTypes[i]) == c then Some(AllErrorTypes[i])
    else KindOfCodeFrom(c, i + 1)
  }

  /** The list of kinds is complete and without repetition, and the ten codes
      are pairwise distinct, so a code identifies its kind. */
  lemma CodesIdentifyKinds()
    ensures forall t: ErrorType :: t in AllErrorTypes
    ensures forall i, j :: 0 <= i < j < |AllErrorTypes| ==> Code(AllErrorTypes[i]) != Code(AllErrorTypes[j])
    ensures forall t: ErrorType :: KindOfCode(Code(t)) == Some(t)
  {
    forall t: ErrorType ensures t in AllErrorTypes {
      assert AllErrorTypes[Position(t)] == t;
    }
    forall t: ErrorType ensures KindOfCode(Code(t)) == Some(t) {
      assert AllErrorTypes[Position(t)] == t;
      var r := KindOfCode(Code(t));
      assert r.Some?;
    }
  }

  /** The place of a kind in the declaration order. */
  function Position(t: ErrorType): (i: nat)
    ensures i < |AllErrorTypes|
  {
    match t
    case AuthenticationFailed => 0
    case NoToken => 1
    case InvalidToken => 2
    case InvalidAuthHeader => 3
    case Unauthorized => 4
    case MissingParameter => 5
    case RequestValidationFailed => 6
    case IllegalParameter => 7
    case NoDataFound => 8
    case UnsupportedOp => 9
  }

  // ---------------------------------------------------------------------
  // The DataverseError class hierarchy
  // ---------------------------------------------------------------------

  /** The Python exception classes of the taxonomy. */
  datatype ErrorClass =
    | DataverseErrorClass
    | AuthenticationErrorClass
    | MissingTokenErrorClass
    | InvalidAuthHeaderClass
    | InvalidTokenErrorClass
    | NoDataExceptionClass
    | NoDataFoundErrorClass
    | UnauthorizedErrorClass
    | MissingParameterErrorClass
    | IllegalParameterErrorClass

  /** The direct superclass within the taxonomy. */
  function Parent(c: ErrorClass): Option<ErrorClass> {
    match c
    case DataverseErrorClass => None
    case AuthenticationErrorClass => Some(DataverseErrorClass)
    case MissingTokenErrorClass => Some(AuthenticationErrorClass)
    case InvalidAuthHeaderClass => Some(AuthenticationErrorClass)
    case InvalidTokenErrorClass => Some(AuthenticationErrorClass)
    case NoDataExceptionClass => Some(DataverseErrorClass)
    case NoDataFoundErrorClass => Some(NoDataExceptionClass)
    case UnauthorizedErrorClass => Some(DataverseErrorClass)
    case MissingParameterErrorClass => Some(DataverseErrorClass)
    case IllegalParameterErrorClass => Some(DataverseErrorClass)
  }

  function Depth(c: ErrorClass): nat {
    match c
    case DataverseErrorClass => 0
    case AuthenticationErrorClass | NoDataExceptionClass | UnauthorizedErrorClass
      | MissingParameterErrorClass | IllegalParameterErrorClass => 1
    case _ => 2
  }

  /** `issubclass(c, ancestor)`, and so `isinstance(e, ancestor)` for an error of class `c`. */
  predicate IsSubclass(c: ErrorClass, ancestor: ErrorClass)
    decreases Depth(c)
  {
    c == ancestor || (Parent(c).Some? && IsSubclass(Parent(c).value, ancestor))
  }

  /** The kind a concrete subclass passes to the base constructor; the three
      base classes take the kind as an argument instead. */
  function FixedKind(c: ErrorClass): Option<ErrorType> {
    match c
    case MissingTokenErrorClass => Some(NoToken)
    case InvalidAuthHeaderClass => Some(InvalidAuthHeader)
    case InvalidTokenErrorClass => Some(InvalidToken)
    case NoDataFoundErrorClass => Some(NoDataFound)
    case UnauthorizedErrorClass => Some(Unauthorized)
    case MissingParameterErrorClass => Some(MissingParameter)
    case IllegalParameterErrorClass => Some(IllegalParameter)
    case _ => None
  }

  datatype Category = AuthenticationCategory | NotFoundCategory | OtherCategory

  /** The category table: the three token/header errors (and their base) are
      authentication errors, the no-data errors are not-found errors, and all
      other classes are neither. It agrees with the subclass lattice. */
  function CategoryOf(c: ErrorClass): (cat: Category)
    ensures cat == AuthenticationCategory <==> IsSubclass(c, AuthenticationErrorClass)
    ensures cat == NotFoundCategory <==> IsSubclass(c, NoDataExceptionClass)
  {
    match c
    case AuthenticationErrorClass | MissingTokenErrorClass | InvalidAuthHeaderClass
      | InvalidTokenErrorClass => AuthenticationCategory
    case NoDataExceptionClass | NoDataFoundErrorClass => NotFoundCategory
    case _ => OtherCategory
  }

  /** Every class descends from `DataverseError`, and no class is both an
      authentication error and a not-found error or `UnauthorizedError`. */
  lemma HierarchyShape(c: ErrorClass)
    ensures IsSubclass(c, DataverseErrorClass)
    ensures !(IsSubclass(c, AuthenticationErrorClass) && IsSubclass(c, NoDataExceptionClass))
    ensures IsSubclass(c, UnauthorizedErrorClass) ==> CategoryOf(c) == OtherCategory
  {
  }

  /** No concrete subclass fixes `UNSUPPORTED_OP`, `AUTHENTICATION_FAILED` or
      `REQUEST_VALIDATION_FAILED`; these kinds are reachable only through the
      base constructors. Every other kind is fixed by exactly one class. */
  lemma KindsOfConcreteClasses()
    ensures forall c: ErrorClass :: FixedKind(c) != Some(UnsupportedOp)
    ensures forall c: ErrorClass :: FixedKind(c) != Some(AuthenticationFailed)
    ensures forall c: ErrorClass :: FixedKind(c) != Some(RequestValidationFailed)
    ensures forall c1: ErrorClass, c2: ErrorClass :: FixedKind(c1).Some? && FixedKind(c1) == FixedKind(c2) ==> c1 == c2
  {
  }

  // ---------------------------------------------------------------------
  // The carrier
  // ---------------------------------------------------------------------

  /** A raised `DataverseError`: its class, its `error_type`, the single
      exception argument passed to `Exception.__init__`, and its `message`
      attribute. */
  datatype DataverseError = DataverseError(
    cls: ErrorClass,
    kind: ErrorType,
    arg: Option<string>,
    message: Option<string>)

  /** The exception argument: the stripped message, absent when the message
      is absent, empty or all whitespace. */
  function ExceptionArg(message: Option<string>): (a: Option<string>)
    ensures a.None? <==> (message.None? || AllSpace(message.value))
    ensures a.Some? ==> a.value == Strip(message.value) && a.value != "" && NoEdgeSpace(a.value)
  {
    match message
    case None => None
    case Some(m) =>
      StripEmptyIffAllSpace(m);
      if m != "" && Strip(m) != "" then Some(Strip(m)) else None
  }

  /** The constructor of `DataverseError`, `AuthenticationError` and
      `NoDataException`, which take the kind as an argument. A missing kind
      raises `TypeError`; otherwise the error keeps the caller's message
      unchanged in `message` and the normalised one as its argument. */
  function NewError(cls: ErrorClass, kind: Option<ErrorType>, message: Option<string>): (r: Result<DataverseError, Raised>)
    requires FixedKind(cls).None?
    ensures kind.None? <==> r.Failure?
    ensures r.Failure? ==> r.error == TypeError("error_type cannot be None")
    ensures r.Success? ==> r.value.cls == cls && r.value.kind == kind.value
    ensures r.Success? ==> r.value.message == message && r.value.arg == ExceptionArg(message)
  {
    match kind
    case None => Failure(TypeError("error_type cannot be None"))
    case Some(k) => Success(DataverseError(cls, k, ExceptionArg(message), message))
  }

  /** The constructor of a concrete subclass, which supplies its own kind and
      so cannot fail. */
  function NewFixedError(cls: ErrorClass, message: Option<string>): (e: DataverseError)
    requires FixedKind(cls).Some?
    ensures WellFormedError(e)
    ensures e.cls == cls && e.message == message
  {
    DataverseError(cls, FixedKind(cls).value, ExceptionArg(message), message)
  }

  /** What every constructed error satisfies: a concrete class carries its
      fixed kind, and the argument is the normalised message. */
  predicate WellFormedError(e: DataverseError) {
    && (FixedKind(e.cls).Some? ==> e.kind == FixedKind(e.cls).value)
    && e.arg == ExceptionArg(e.message)
  }

  /** The concrete subclasses used by the request layer. */
  function MissingTokenError(message: string): DataverseError {
    NewFixedError(MissingTokenErrorClass, Some(message))
  }

  function IllegalParameterError(message: string): DataverseError {
    NewFixedError(IllegalParameterErrorClass, Some(message))
  }

  // ---------------------------------------------------------------------
  // Everything that can be raised
  // ---------------------------------------------------------------------

  /** A raised exception, as the web layer's handlers distinguish them. */
  datatype Raised =
    | AppError(err: DataverseError)
      /** FastAPI's `RequestValidationError`, with the list `exc.errors()`. */
    | ValidationFailure(details: seq<Value>)
      /** Starlette's `HTTPException`, with `str(exc.detail)`. */
    | HttpError(status: int, detail: string)
      /** Any other exception: its class name and its `args`. */
    | Other(cls: string, args: seq<Value>)

  function ValueError(message: string): Raised {
    Other("ValueError", [Str(message)])
  }

  function TypeError(message: string): Raised {
    Other("TypeError", [Str(message)])
  }

  /** `raise Exception(message)`. */
  function PlainException(message: string): Raised {
    Other("Exception", [Str(message)])
  }

  /** An exception raised by a backend library (workspace client, HTTP
      client): its class, its args, and `str(e)`. */
  datatype BackendExc = BackendExc(cls: string, args: seq<Value>, text: string)

  /** A backend exception that is not caught propagates unchanged. */
  function Propagated(e: BackendExc): Raised {
    Other(e.cls, e.args)
  }

  /** `raise ValueError(prefix + str(e)) from e`. */
  function Wrapped(prefix: string, e: BackendExc): (r: Raised)
    ensures r.Other? && r.cls == "ValueError" && |r.args| == 1
    ensures r.args[0].Str? && StartsWith(r.args[0].s, prefix)
    ensures r.args[0].s[|prefix|..] == e.text
  {
    assert (prefix + e.text)[..|prefix|] == prefix;
    ValueError(prefix + e.text)
  }
}
