/** The exception boundary, `Details::TracedExceptionBoundary::operator()` and
    the `ExceptionBoundary` macro: run a unit of work, turn whatever it throws
    into one HRESULT, and log the enter and exit of the boundary. */
module Boundary {
  import opened HResults
  import Propagation

  /** The catch clauses of the boundary. */
  datatype Handler =
    | ComErrorHandler        // catch (const _com_error& e)
    | PlatformHandler        // catch (Platform::Exception^ e)
    | BadAllocHandler        // catch (const std::bad_alloc&)
    | OutOfRangeHandler      // catch (const std::out_of_range&)
    | StdExceptionHandler    // catch (const std::exception& e)
    | CatchAllHandler        // catch (...)

  /** The catch clauses in their source order, as compiled for `build`. */
  function Handlers(build: Build): (hs: seq<Handler>)
    ensures |hs| == 4 + (if build.comdef then 1 else 0) + (if build.winrt then 1 else 0)
    ensures (ComErrorHandler in hs <==> build.comdef) && (PlatformHandler in hs <==> build.winrt)
    ensures hs[|hs| - 1] == CatchAllHandler
    ensures hs[|hs| - 3] == OutOfRangeHandler && hs[|hs| - 2] == StdExceptionHandler
    ensures hs[|hs| - 4] == BadAllocHandler
    ensures build.winrt ==> hs[|hs| - 5] == PlatformHandler
    ensures build.comdef ==> hs[0] == ComErrorHandler
  {
    (if build.comdef then [ComErrorHandler] else []) +
    (if build.winrt then [PlatformHandler] else []) +
    [BadAllocHandler, OutOfRangeHandler, StdExceptionHandler, CatchAllHandler]
  }

  /** Whether a clause's declared type matches the thrown value: its own class or
      a base of it (`std::exception` is a base of `bad_alloc` and `out_of_range`). */
  predicate Catches(h: Handler, e: Exn) {
    match h
    case ComErrorHandler => e.ComError?
    case PlatformHandler => e.PlatformException?
    case BadAllocHandler => e.StdException? && e.stdClass == BadAlloc
    case OutOfRangeHandler => e.StdException? && e.stdClass == OutOfRange
    case StdExceptionHandler => e.StdException?
    case CatchAllHandler => true
  }

  /** C++ handler selection: the first clause, in order, that matches; `|hs|`
      when none does and the exception would propagate. */
  function FirstCatching(hs: seq<Handler>, e: Exn): (i: nat)
    ensures i <= |hs|
    ensures forall j :: 0 <= j < i ==> !Catches(hs[j], e)
    ensures i < |hs| ==> Catches(hs[i], e)
  {
    if hs == [] then 0
    else if Catches(hs[0], e) then 0
    else 1 + FirstCatching(hs[1..], e)
  }

  /** The code the boundary returns: `S_OK` when the work completes, otherwise the
      code mapped from the exception: the carried code for `_com_error` and
      `Platform::Exception`, `E_OUTOFMEMORY` for `bad_alloc`, `E_BOUNDS` for
      `out_of_range` and `E_FAIL` for everything else, including the
      classes whose clause is not compiled. */
  function BoundaryResult(build: Build, c: Completion): HRESULT {
    match c
    case Normal => S_OK
    case Throw(ComError(code)) => if build.comdef then code else E_FAIL
    case Throw(PlatformException(_, code)) => if build.winrt then code else E_FAIL
    case Throw(StdException(BadAlloc, _)) => E_OUTOFMEMORY
    case Throw(StdException(OutOfRange, _)) => E_BOUNDS
    case Throw(StdException(OtherStdClass, _)) => E_FAIL
    case Throw(Foreign) => E_FAIL
  }

  /** The "caught unknown" line the boundary writes for an exception that reaches
      one of the two last clauses, and nothing for any other outcome. */
  function UnknownLog(func: string, build: Build, c: Completion): seq<LogEvent> {
    match c
    case Normal => []
    case Throw(ComError(_)) => if build.comdef then [] else [LogEvent(func, Error, CaughtUnknown)]
    case Throw(PlatformException(_, _)) => if build.winrt then [] else [LogEvent(func, Error, CaughtUnknown)]
    case Throw(StdException(BadAlloc, _)) => []
    case Throw(StdException(OutOfRange, _)) => []
    case Throw(StdException(OtherStdClass, what)) => [LogEvent(func, Error, CaughtUnknownStl(what))]
    case Throw(Foreign) => [LogEvent(func, Error, CaughtUnknown)]
  }

  /** The exit line: Error level for a failing code, Verbose otherwise. */
  function ExitEvent(func: string, hr: HRESULT): LogEvent {
    if Failed(hr) then LogEvent(func, Error, BoundaryExitFailed(hr))
    else LogEvent(func, Verbose, BoundaryExit)
  }

  /** A unit of work (the lambda): the events it writes while it runs, and how it ends. */
  datatype Work = Work(log: seq<LogEvent>, completion: Completion)

  /** Everything the boundary writes around and during the work. */
  function BoundaryLog(func: string, build: Build, work: Work): seq<LogEvent> {
    [LogEvent(func, Verbose, BoundaryEnter)] + work.log +
    UnknownLog(func, build, work.completion) +
    [ExitEvent(func, BoundaryResult(build, work.completion))]
  }

  class TracedExceptionBoundary {
    const func: string
    const build: Build

    /** The `ExceptionBoundary` macro constructs one of these with `__FUNCTION__`. */
    constructor (func: string, build: Build)
      ensures this.func == func && this.build == build
    {
      this.func := func;
      this.build := build;
    }

    /** The catch clauses: the first compiled clause that matches the thrown
        value assigns the code and, for the two last clauses, logs one line. */
    method Catch(logger: Logger, e: Exn) returns (hr: HRESULT)
      modifies logger
      ensures hr == BoundaryResult(build, Throw(e))
      ensures logger.events == old(logger.events) + UnknownLog(func, build, Throw(e))
    {
      var hs := Handlers(build);
      var i := FirstCatching(hs, e);
      CatchAllIsLast(build, e);
      match hs[i]
      case ComErrorHandler =>
        hr := e.error;
      case PlatformHandler =>
        hr := e.hresult;
      case BadAllocHandler =>
        hr := E_OUTOFMEMORY;
      case OutOfRangeHandler =>
        hr := E_BOUNDS;
      case StdExceptionHandler =>
        logger.Log(func, Error, CaughtUnknownStl(e.what));
        hr := E_FAIL;
      case CatchAllHandler =>
        logger.Log(func, Error, CaughtUnknown);
        hr := E_FAIL;
    }

    /** `operator()`: runs the work and returns the finalized code; nothing the
        work throws escapes. */
    method Invoke(logger: Logger, work: Work) returns (hr: HRESULT)
      modifies logger
      ensures hr == BoundaryResult(build, work.completion)
      ensures logger.events == old(logger.events) + BoundaryLog(func, build, work)
    {
      logger.Log(func, Verbose, BoundaryEnter);
      hr := S_OK;
      logger.LogAll(work.log);
      if work.completion.Throw? {
        hr := Catch(logger, work.completion.exn);
      }
      if Failed(hr) {
        logger.Log(func, Error, BoundaryExitFailed(hr));
      } else {
        logger.Log(func, Verbose, BoundaryExit);
      }
    }
  }

  /** No exception escapes the boundary: some clause always catches, and the
      clause selected is the one of the exception's own class when it is compiled. */
  lemma CatchAllIsLast(build: Build, e: Exn)
    ensures var hs := Handlers(build);
            var i := FirstCatching(hs, e);
            i < |hs| &&
            hs[i] == match e
              case ComError(_) => if build.comdef then ComErrorHandler else CatchAllHandler
              case PlatformException(_, _) => if build.winrt then PlatformHandler else CatchAllHandler
              case StdException(BadAlloc, _) => BadAllocHandler
              case StdException(OutOfRange, _) => OutOfRangeHandler
              case StdException(OtherStdClass, _) => StdExceptionHandler
              case Foreign => CatchAllHandler
  {
  }

  /** The `out_of_range` clause only works because it comes before the
      `std::exception` clause: in every build, with the two clauses of
      `Handlers` swapped, an `out_of_range` would be caught by the
      `std::exception` clause as an unknown STL exception and mapped to `E_FAIL`. */
  lemma OutOfRangeClauseMustPrecedeStdException(build: Build, what: string)
    ensures var hs := Handlers(build);
            var n := |hs|;
            var swapped := hs[n - 3 := StdExceptionHandler][n - 2 := OutOfRangeHandler];
            var i := FirstCatching(swapped, StdException(OutOfRange, what));
            i == n - 3 && swapped[i] == StdExceptionHandler
  {
    var hs := Handlers(build);
    var n := |hs|;
    var swapped := hs[n - 3 := StdExceptionHandler][n - 2 := OutOfRangeHandler];
    var e := StdException(OutOfRange, what);
    var head := (if build.comdef then [ComErrorHandler] else []) + (if build.winrt then [PlatformHandler] else []);
    assert hs == head + [BadAllocHandler, OutOfRangeHandler, StdExceptionHandler, CatchAllHandler];
    forall j | 0 <= j < n - 3
      ensures !Catches(swapped[j], e)
    {
      assert swapped[j] == hs[j];
      assert hs[j] in head || hs[j] == BadAllocHandler;
    }
    assert Catches(swapped[n - 3], e);
  }

  /** A unit of work that completes normally: `S_OK`, and exactly an enter line,
      the work's own lines and a Verbose exit line. */
  lemma NormalCompletion(func: string, build: Build, work: Work)
    requires work.completion == Normal
    ensures BoundaryResult(build, work.completion) == S_OK
    ensures BoundaryLog(func, build, work) ==
            [LogEvent(func, Verbose, BoundaryEnter)] + work.log + [LogEvent(func, Verbose, BoundaryExit)]
  {
  }

  /** The mapping of each catch clause. */
  lemma ExceptionMapping(build: Build, e: Exn)
    ensures e.ComError? && build.comdef ==> BoundaryResult(build, Throw(e)) == e.error
    ensures e.PlatformException? && build.winrt ==> BoundaryResult(build, Throw(e)) == e.hresult
    ensures e.StdException? && e.stdClass == BadAlloc ==> BoundaryResult(build, Throw(e)) == E_OUTOFMEMORY
    ensures e.StdException? && e.stdClass == OutOfRange ==> BoundaryResult(build, Throw(e)) == E_BOUNDS
    ensures e.StdException? && e.stdClass == OtherStdClass ==> BoundaryResult(build, Throw(e)) == E_FAIL
    ensures e == Foreign ==> BoundaryResult(build, Throw(e)) == E_FAIL
  {
  }

  /** Only the two last clauses add a line, and each adds exactly one. */
  lemma UnknownLineOnlyFromLastClauses(func: string, build: Build, e: Exn)
    ensures var hs := Handlers(build);
            var i := FirstCatching(hs, e);
            i < |hs| &&
            ((hs[i] == StdExceptionHandler || hs[i] == CatchAllHandler) <==> |UnknownLog(func, build, Throw(e))| == 1)
    ensures |UnknownLog(func, build, Throw(e))| <= 1
  {
    CatchAllIsLast(build, e);
  }

  /** The exit line's level depends only on whether the final code fails. In
      particular a `Platform::Exception` whose `HResult` does not fail yields
      that code and a Verbose exit. */
  lemma ExitLevelFollowsResult(func: string, build: Build, work: Work)
    ensures var log := BoundaryLog(func, build, work);
            var hr := BoundaryResult(build, work.completion);
            (log[|log| - 1].level == Error <==> Failed(hr)) &&
            (log[|log| - 1].level == Verbose <==> !Failed(hr))
  {
  }

  lemma NonFailingPlatformException(func: string, build: Build, log: seq<LogEvent>, cls: PlatformClass, code: HRESULT)
    requires build.winrt && !Failed(code)
    ensures var work := Work(log, Throw(PlatformException(cls, code)));
            BoundaryResult(build, work.completion) == code &&
            BoundaryLog(func, build, work) ==
              [LogEvent(func, Verbose, BoundaryEnter)] + log + [LogEvent(func, Verbose, BoundaryExit)]
  {
  }

  /** An `out_of_range` thrown by the work: `E_BOUNDS`, one enter line, the
      work's lines, and one Error exit line and nothing else. */
  lemma OutOfRangeScenario(func: string, build: Build, log: seq<LogEvent>, what: string)
    ensures var work := Work(log, Throw(StdException(OutOfRange, what)));
            BoundaryResult(build, work.completion) == E_BOUNDS &&
            BoundaryLog(func, build, work) ==
              [LogEvent(func, Verbose, BoundaryEnter)] + log + [LogEvent(func, Error, BoundaryExitFailed(E_BOUNDS))]
  {
  }

  /** The boundary applied to `CHK(hr)` returns `hr` for every failing `hr`, and
      `S_OK` (not `hr`) for a succeeding one. */
  lemma BoundaryOfChk(build: Build, hr: HRESULT)
    requires build.winrt
    ensures BoundaryResult(build, Propagation.Chk(hr)) == if Failed(hr) then hr else S_OK
  {
  }

  /** The boundary applied to `CHKNULL(p)` / `CHKOOM(p)` returns the runtime's
      code for the exception when `p` is null and `S_OK` otherwise. */
  lemma BoundaryOfNullChecks<T>(build: Build, p: Option<T>, runtime: RuntimeCodes)
    requires build.winrt
    ensures BoundaryResult(build, Propagation.ChkNull(p, runtime)) ==
            if p.None? then runtime.nullReference else S_OK
    ensures BoundaryResult(build, Propagation.ChkOom(p, runtime)) ==
            if p.None? then runtime.outOfMemory else S_OK
  {
  }

  /** The two idioms agree at the boundary: a body of `CHK` statements, run in a
      boundary, returns the code that the same statements as `CHK_RETURN` return
      (the first failing one) whenever one fails, and `S_OK` otherwise. */
  lemma IdiomsAgreeAtBoundary(build: Build, steps: seq<HRESULT>)
    requires build.winrt
    ensures var k := Propagation.FirstFailure(steps);
            BoundaryResult(build, Propagation.ChkEach(steps).completion) == if k < |steps| then steps[k] else S_OK
  {
  }
}
