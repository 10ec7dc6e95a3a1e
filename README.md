# Error handling and resource lifetime of MediaCaptureReader

This project models the error-handling and resource-lifetime layer of the
MediaCaptureReader component, declared in `pch.h`, and proves properties of it.

- **Status codes and exceptions** (`HResults`). An `HRESULT` is a signed 32-bit
  code, and `Failed` is the `FAILED` macro (negative means failure). `Exn` lists
  what can be thrown: `_com_error`, a C++/CX `Platform::Exception` with its
  class and `HResult`, a `std::exception` (`bad_alloc`, `out_of_range` or
  another class) with its `what()`, and any other value. `Logger` is the
  process-wide `s_logger`. It records the `(function, level, kind)` of each line
  it receives.
- **Origin tagging** (`ErrorOrigin`). Both `TracedOriginateError` overloads and
  the `OriginateError` macro are pure functions. Each returns the code together
  with the log lines written and the `RoOriginateErrorW` calls made. A
  description is a sequence of `WChar`, one UTF-16 code unit per `wchar_t`
  array entry, so N counts code units as it does in C++.
- **Propagation** (`Propagation`). `CHK`, `CHKNULL` and `CHKOOM` each map their
  input to a `Completion`: normal, or throwing an exception. `CHK_RETURN`
  statements in a row are a loop that stops at the first failing code.
- **Exception boundary** (`Boundary`). The catch clauses form an ordered list,
  and the first clause whose type matches is selected, as C++ does.
  `TracedExceptionBoundary.Invoke` writes its lines in order, and its `Catch`
  method assigns `hr` in the selected clause. Both are proved against a reference mapping, `BoundaryResult`,
  and a reference log, `BoundaryLog`. The lemmas are stated about those two.
- **Guards** (`Guards`). `AutoMF`, `ScopeExitCall` and `PropVariant` are classes.
  Their C++ destructors are `Destroy` methods. A `Platform` object counts the
  `MFStartup`, `MFShutdown` and `PropVariantInit` calls and records each value
  passed to `PropVariantClear`. Each `With...` method models one scope that
  uses a guard, and it holds on both exit paths of the body.
- **Casting** (`Casting`). The three `As<T>` overloads share one model. A
  `QueryInterface` result stands in for the QI call, and a failure is thrown
  through `CHK`.

Parameters stand in for platform behaviour:
- the code `MFStartup` returns;
- the `HResult` that the C++/CX runtime gives `NullReferenceException` and
  `OutOfMemoryException` (`RuntimeCodes`);
- what `QueryInterface` reports;
- whether `_INC_COMDEF` and `__cplusplus_winrt` are defined (`Build`). This
  decides which of the `_com_error` and `Platform::Exception` clauses are
  compiled.

`S_OK`, `E_FAIL`, `E_OUTOFMEMORY` and `E_BOUNDS` take their Windows SDK values,
written as signed integers. The proofs use only two facts: `S_OK` is zero, and
the other three are negative and distinct.

Some behaviour of the code is easy to misread, and the model follows the code in each case:
- Tagging is not one-shot by itself. Each call with a failing code logs again
  and calls `RoOriginateErrorW` again (`RetaggingRepeatsTheSideEffects`).
  Tagging once per failure is left to the callers.
- The boundary logs a "caught unknown" line only from its last two clauses. Only
  the `std::exception` clause includes a message (`what()`). An exception whose
  clause is not compiled falls to `catch (...)`: `E_FAIL` and a "caught unknown"
  line.
- Under a boundary, a succeeding `CHK` gives `S_OK`, not the statement's code.
  For example, a positive code such as `S_FALSE` does not throw, so the boundary
  returns `S_OK`. In the same way, a `Platform::Exception` with a non-failing
  `HResult` returns that code with a Verbose exit line.
- When `AutoMF`'s constructor throws, C++ runs no destructor. `WithAutoMF`
  follows that rule. `DestroyAfterFailedStartup` also shows that the
  `_initialized` test alone would rule out shutdown.

## Model

| member | source | states |
|---|---|---|
| `ErrorOrigin.TracedOriginateErrorWith` | MediaCaptureReader/MediaCaptureReader/MediaCaptureReader.Shared/pch.h:143-152 | returns exactly `hr`; for a failing `hr` one Error line with the description and one `RoOriginateErrorW` call with length N-1 and the array; for a succeeding `hr` nothing at all |
| `ErrorOrigin.TracedOriginateError` | MediaCaptureReader/MediaCaptureReader/MediaCaptureReader.Shared/pch.h:154-164 | returns exactly `hr`; for a failing `hr` one Error line and one `RoOriginateErrorW(hr, 0, nullptr)`; for a succeeding `hr` nothing |
| `ErrorOrigin.OriginateError` | MediaCaptureReader/MediaCaptureReader/MediaCaptureReader.Shared/pch.h:171 | either overload returns the code unchanged; when it fails, exactly one Error line `OriginFailed(hr, description)` tagged with the caller's `__FUNCTION__`, and exactly one `RoOriginateErrorW` call carrying `hr`, length N-1 with the description array when one is given, or 0 and `nullptr` when none is; nothing at all when it succeeds |
| `ErrorOrigin.DescriptionLengthIsStringLength` | MediaCaptureReader/MediaCaptureReader/MediaCaptureReader.Shared/pch.h:144-149 | for a wide string literal with no embedded NUL, the length passed to `RoOriginateErrorW` is its string length (`wcslen`), so the registered text is the literal without its terminator; for any other array (a buffer, or a literal such as `L"a\0b"`) the length passed is still N-1, so the property is stated for literals with no embedded NUL only |
| `ErrorOrigin.SucceedingCodeIsPassThrough` | MediaCaptureReader/MediaCaptureReader/MediaCaptureReader.Shared/pch.h:146-163 | a succeeding code comes back unchanged with no log line and no origination, whichever overload the macro picks |
| `ErrorOrigin.RetaggingRepeatsTheSideEffects` | MediaCaptureReader/MediaCaptureReader/MediaCaptureReader.Shared/pch.h:156-163 | tagging an already tagged failure returns the same code but logs and originates again: one-shot tagging is a caller discipline |
| `Propagation.Chk` | MediaCaptureReader/MediaCaptureReader/MediaCaptureReader.Shared/pch.h:125 | `CHK(s)` throws iff `FAILED(s)`, and the `COMException` carries the same code |
| `Propagation.ChkNull` | MediaCaptureReader/MediaCaptureReader/MediaCaptureReader.Shared/pch.h:126 | throws a `NullReferenceException` iff the pointer is null; a non-null pointer passes with no effect |
| `Propagation.ChkOom` | MediaCaptureReader/MediaCaptureReader/MediaCaptureReader.Shared/pch.h:127 | throws an `OutOfMemoryException` iff the pointer is null; a non-null pointer passes with no effect |
| `Propagation.ChkEach` | MediaCaptureReader/MediaCaptureReader/MediaCaptureReader.Shared/pch.h:125 | a run of `CHK` statements completes normally iff none of their codes fails, having evaluated every statement; when it throws, the last statement evaluated is a failing one and the `COMException` carries its code |
| `Propagation.ChkEachThrowsFirstFailure` | MediaCaptureReader/MediaCaptureReader/MediaCaptureReader.Shared/pch.h:125 | a body of `CHK` statements throws the first failing code, having evaluated exactly the statements up to and including it, so nothing after it runs; it completes normally after evaluating all of them when none fails |
| `Propagation.ChkReturnEach` | MediaCaptureReader/MediaCaptureReader/MediaCaptureReader.Shared/pch.h:130 | for `CHK_RETURN` statements in a row: returns the first failing code, having run exactly the statements up to it; with no failure, `hr` holds the last statement's code (or its prior value when there are none) |
| `Boundary.Handlers` | MediaCaptureReader/MediaCaptureReader/MediaCaptureReader.Shared/pch.h:200-229 | the compiled catch clauses, in order: `_com_error` first iff `_INC_COMDEF`, then `Platform::Exception` iff `__cplusplus_winrt`, then `bad_alloc`, `out_of_range`, `std::exception` and `catch (...)` last |
| `Boundary.FirstCatching` | MediaCaptureReader/MediaCaptureReader/MediaCaptureReader.Shared/pch.h:196-229 | selects the first catch clause, in source order, whose type matches the thrown value; none before it matches |
| `Boundary.CatchAllIsLast` | MediaCaptureReader/MediaCaptureReader/MediaCaptureReader.Shared/pch.h:200-229 | nothing the work throws escapes: for every thrown value and every build some clause catches, and it is the clause of the value's own class when that clause is compiled, `catch (...)` otherwise |
| `Boundary.OutOfRangeClauseMustPrecedeStdException` | MediaCaptureReader/MediaCaptureReader/MediaCaptureReader.Shared/pch.h:216-224 | the `out_of_range` clause is reachable only because it precedes `std::exception`: in every build, with those two clauses of the compiled list swapped, an `out_of_range` is taken by the `std::exception` clause |
| `Boundary.TracedExceptionBoundary.constructor` | MediaCaptureReader/MediaCaptureReader/MediaCaptureReader.Shared/pch.h:183-186 | a boundary remembers the calling function's name (the `ExceptionBoundary` macro passes `__FUNCTION__`) |
| `Boundary.TracedExceptionBoundary.Catch` | MediaCaptureReader/MediaCaptureReader/MediaCaptureReader.Shared/pch.h:200-229 | the catch clauses, selected first-match over `Handlers`: the code assigned is exactly the reference mapping `BoundaryResult` of the thrown value, and the only line written is the "caught unknown" line of `UnknownLog` (for the `std::exception` and `catch (...)` clauses) |
| `Boundary.TracedExceptionBoundary.Invoke` | MediaCaptureReader/MediaCaptureReader/MediaCaptureReader.Shared/pch.h:191-241 | the imperative catch-and-log sequence returns exactly the reference mapping `BoundaryResult` and appends exactly `BoundaryLog`: enter line, the work's lines, an optional "caught unknown" line, then the exit line |
| `Boundary.NormalCompletion` | MediaCaptureReader/MediaCaptureReader/MediaCaptureReader.Shared/pch.h:193-240 | work that completes gives `S_OK` and the log is exactly Verbose "boundary enter", the work's own lines, Verbose "boundary exit" |
| `Boundary.ExceptionMapping` | MediaCaptureReader/MediaCaptureReader/MediaCaptureReader.Shared/pch.h:200-229 | `_com_error` gives `e.Error()`, `Platform::Exception` gives `e->HResult`, `bad_alloc` gives `E_OUTOFMEMORY`, `out_of_range` gives `E_BOUNDS`, any other `std::exception` and anything else give `E_FAIL` |
| `Boundary.UnknownLineOnlyFromLastClauses` | MediaCaptureReader/MediaCaptureReader/MediaCaptureReader.Shared/pch.h:220-229 | a "caught unknown" line is written iff the selected clause is `std::exception` or `catch (...)`, and at most one such line |
| `Boundary.ExitLevelFollowsResult` | MediaCaptureReader/MediaCaptureReader/MediaCaptureReader.Shared/pch.h:231-238 | the last line is at Error level iff the returned code fails, Verbose otherwise |
| `Boundary.NonFailingPlatformException` | MediaCaptureReader/MediaCaptureReader/MediaCaptureReader.Shared/pch.h:207-237 | a `Platform::Exception` with a non-failing `HResult` returns that `HResult` with a Verbose exit and no "caught unknown" line |
| `Boundary.OutOfRangeScenario` | MediaCaptureReader/MediaCaptureReader/MediaCaptureReader.Shared/pch.h:216-240 | an `out_of_range` gives `E_BOUNDS`; the log is exactly one enter line, the work's own lines, and one Error "exit - failed" line |
| `Boundary.BoundaryOfChk` | MediaCaptureReader/MediaCaptureReader/MediaCaptureReader.Shared/pch.h:125 | the boundary around `CHK(hr)` returns `hr` for every failing `hr`, and `S_OK` for a succeeding one |
| `Boundary.BoundaryOfNullChecks` | MediaCaptureReader/MediaCaptureReader/MediaCaptureReader.Shared/pch.h:126-127 | the boundary around `CHKNULL(p)` / `CHKOOM(p)` returns the runtime's code of the thrown exception for a null `p` and `S_OK` otherwise |
| `Boundary.IdiomsAgreeAtBoundary` | MediaCaptureReader/MediaCaptureReader/MediaCaptureReader.Shared/pch.h:125-130 | statements run as `CHK` inside a boundary return the same first failing code that `CHK_RETURN` returns, and `S_OK` when none fails |
| `Guards.AutoMF.constructor` | MediaCaptureReader/MediaCaptureReader/MediaCaptureReader.Shared/pch.h:319-324 | calls `MFStartup` once; `_initialized` is true exactly when it succeeded; the constructor throws the startup code otherwise |
| `Guards.AutoMF.Destroy` | MediaCaptureReader/MediaCaptureReader/MediaCaptureReader.Shared/pch.h:326-332 | calls `MFShutdown` exactly when `_initialized`, and only once per token |
| `Guards.WithAutoMF` | MediaCaptureReader/MediaCaptureReader/MediaCaptureReader.Shared/pch.h:319-332 | over a scope: one startup; one shutdown when startup succeeded, on either exit path of the body; none, and the startup code thrown, when it failed |
| `Guards.DestroyAfterFailedStartup` | MediaCaptureReader/MediaCaptureReader/MediaCaptureReader.Shared/pch.h:328-331 | a token whose startup failed makes no `MFShutdown` call even if destroyed |
| `Guards.ScopeExitCall.constructor` | MediaCaptureReader/MediaCaptureReader/MediaCaptureReader.Shared/pch.h:349-352 | storing the function calls nothing |
| `Guards.ScopeExitCall.Destroy` | MediaCaptureReader/MediaCaptureReader/MediaCaptureReader.Shared/pch.h:354-357 | destruction calls the stored function once |
| `Guards.WithScopeExit` | MediaCaptureReader/MediaCaptureReader/MediaCaptureReader.Shared/pch.h:349-357 | over a scope the stored function runs exactly once, after the body, whether the body completed or threw, and the body's outcome passes through |
| `Guards.PropVariant.constructor` | MediaCaptureReader/MediaCaptureReader/MediaCaptureReader.Shared/pch.h:298-301 | `PropVariantInit` is called once and the slot starts empty |
| `Guards.PropVariant.Destroy` | MediaCaptureReader/MediaCaptureReader/MediaCaptureReader.Shared/pch.h:302-305 | `PropVariantClear` is called once, on the value the slot holds, leaving it empty |
| `Guards.WithPropVariant` | MediaCaptureReader/MediaCaptureReader/MediaCaptureReader.Shared/pch.h:298-305 | over a scope the slot is initialised once and cleared once with its current value, filled or not, on either exit path |
| `Casting.As` | MediaCaptureReader/MediaCaptureReader/MediaCaptureReader.Shared/pch.h:254-276 | throws a `COMException` with `QueryInterface`'s code iff it fails; otherwise returns the interface `QueryInterface` produced |
| `Casting.CastIsAllOrNothing` | MediaCaptureReader/MediaCaptureReader/MediaCaptureReader.Shared/pch.h:254-276 | with a `QueryInterface` that keeps COM's contract, a cast either returns a usable interface or throws its code, never a null result |

## Left out
- CatchAllIsLast: states only that nothing the work throws escapes the boundary. The `try` covers only the call of the work (pch.h:196-199). The enter line, the lines written in the last two clauses and the exit line are logged outside it, and the model assumes the logger never throws, as the design requires of diagnostic logging. Converting the caller's lambda to the `std::function` parameter (pch.h:191, 248) happens at the call site, before the boundary runs, and a `bad_alloc` from it is not covered.
- Log formatting (the printf formats, `%08X`, `%S`) and the function-name length `L` given to `s_logger.Log`: lines are recorded as `(function, level, kind)` only.
- Level gating inside the logger: `DebuggerLogger.h` is not part of this model. Every call to `s_logger.Log` is recorded.
- The `Trace`, `TraceError` and `TraceScope` macros behind `NTRACELOG`, with their second sink (pch.h:43-73). The layer's core does not use them.
- The `NT_ASSERT` debug-break macro, the `MIDL_INTERFACE` declarations, the namespace aliases and the includes: they declare things and have no behaviour to state.
- `GetData` (pch.h:282-289): a buffer-access wrapper over `QueryInterface` and `IBufferByteAccess`, outside the error layer.
- `PropVariant`'s copy assignment. pch.h:308 deletes the binary `operator&`, not `operator=`, so copy assignment is still available. It is not modelled, and the model does not claim that it is forbidden. Only the deletion of the copy constructor (pch.h:307) matters here: `Fill` is the only way a slot gets a value.
- `TracedExceptionBoundary`'s deleted copy operations: the model never copies a boundary.
- The unit of work's own effects other than its log lines, and the side effects of the function a `ScopeExitCall` stores. A work item is its log and its completion. A stored function is a value whose call is recorded.
- `AutoMF` copies: pch.h:315-337 deletes no copy operation, so a copy of an initialised token would call `MFShutdown` again when the copy is destroyed. "At most one shutdown" holds per token object; the model covers one token object per scope and does not model copies.
- `ScopeExitCall` copies: pch.h:345-362 deletes no copy operation, so a copied guard would call the function again when the copy is destroyed. The model covers one guard object per scope and does not model copies. An empty `std::function` is not modelled either: calling it in the destructor throws `bad_function_call`, which terminates the process.
- `As` on a null source: all three overloads dereference `in` before `QueryInterface` (pch.h:258, 266, 274), so a null `in` crashes. The `QueryResult` parameter cannot express a null source, so the model does not cover that case.
- `RoOriginateErrorW`, `MFStartup`, `MFShutdown`, `PropVariantInit`, `PropVariantClear` and `QueryInterface` belong to the platform. They appear as recorded calls or as parameters, and `MF_VERSION` is not modelled.
- Concurrency: the layer holds no shared state apart from the logger, and the model is sequential.
