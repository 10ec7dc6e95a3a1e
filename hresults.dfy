/** Status codes, the exceptions the native layer can throw, and the diagnostic log.
    Everything else in the error-handling layer is stated in these terms. */
module HResults {

  /** A Windows HRESULT: a signed 32-bit status code. */
  type HRESULT = x: int | -0x8000_0000 <= x < 0x8000_0000

  /** The Windows SDK codes the layer uses, written as signed 32-bit values
      (0x00000000, 0x80004005, 0x8007000E, 0x8000000B). The proofs rely only on
      S_OK being zero and on the other three being negative and distinct. */
  const S_OK: HRESULT := 0
  const E_FAIL: HRESULT := -0x7FFF_BFFB
  const E_OUTOFMEMORY: HRESULT := -0x7FF8_FFF2
  const E_BOUNDS: HRESULT := -0x7FFF_FFF5

  /** The FAILED macro: a code fails exactly when it is negative. */
  predicate Failed(hr: HRESULT) {
    hr < 0
  }

  datatype Option<T> = None | Some(value: T)

  /** A Windows `wchar_t`: one UTF-16 code unit, so half of a surrogate pair is
      one element, as it is one array entry in C++. */
  newtype WChar = x: int | 0 <= x < 0x1_0000

  /** The terminating `L'\0'`. */
  const NUL: WChar := 0

  /** Which exception handlers the translation unit compiles: `_INC_COMDEF` enables
      the `_com_error` arm and `__cplusplus_winrt` (C++/CX) the `Platform::Exception` arm. */
  datatype Build = Build(comdef: bool, winrt: bool)

  /** The C++/CX exception classes thrown or caught by this layer; all derive from
      `Platform::Exception` and carry an `HResult`. */
  datatype PlatformClass = COMException | NullReferenceException | OutOfMemoryException | OtherPlatformClass

  /** The standard-library exception classes the boundary distinguishes; all derive
      from `std::exception`. */
  datatype StdClass = BadAlloc | OutOfRange | OtherStdClass

  /** A thrown value. */
  datatype Exn =
    | ComError(error: HRESULT)                                  // _com_error
    | PlatformException(cls: PlatformClass, hresult: HRESULT)   // Platform::Exception^
    | StdException(stdClass: StdClass, what: string)           // std::exception and subclasses
    | Foreign                                                   // anything else that can be thrown

  /** How a statement or a unit of work ends: normally, or by throwing. */
  datatype Completion = Normal | Throw(exn: Exn)

  /** The `HResult` values the C++/CX runtime gives to the exceptions that
      CHKNULL and CHKOOM construct; they belong to the runtime, not to this layer. */
  datatype RuntimeCodes = RuntimeCodes(nullReference: HRESULT, outOfMemory: HRESULT)

  datatype LogLevel = Verbose | Information | Error

  /** The kinds of line the layer writes; formatting is not modelled. */
  datatype Message =
    | OriginFailed(hr: HRESULT, description: Option<seq<WChar>>) // "failed hr=%08X[: %S]"
    | BoundaryEnter                                               // "boundary enter"
    | CaughtUnknownStl(what: string)                              // "caught unknown STL exception: %s"
    | CaughtUnknown                                               // "caught unknown exception"
    | BoundaryExitFailed(hr: HRESULT)                             // "boundary exit - failed hr=%08X"
    | BoundaryExit                                                // "boundary exit"

  /** One call of `s_logger.Log(function, level, ...)`. */
  datatype LogEvent = LogEvent(func: string, level: LogLevel, message: Message)

  /** The process-wide logger `s_logger`, as the sequence of events written to it. */
  class Logger {
    var events: seq<LogEvent>

    constructor ()
      ensures events == []
    {
      events := [];
    }

    method Log(func: string, level: LogLevel, message: Message)
      modifies this
      ensures events == old(events) + [LogEvent(func, level, message)]
    {
      events := events + [LogEvent(func, level, message)];
    }

    /** Events written by code the layer calls (a unit of work), in their order. */
    method LogAll(written: seq<LogEvent>)
      modifies this
      ensures events == old(events) + written
    {
      events := events + written;
    }
  }
}
