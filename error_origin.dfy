/** Origin tagging: `Details::ErrorOrigin::TracedOriginateError` and the
    `OriginateError` macro. A failing code is logged once at Error level and
    registered with `RoOriginateErrorW`; the code itself is returned unchanged. */
module ErrorOrigin {
  import opened HResults

  /** One call of `RoOriginateErrorW(error, length, message)`; `message` is the
      whole wide-character array passed, or `None` for `nullptr`. */
  datatype Origination = Origination(hr: HRESULT, length: nat, message: Option<seq<WChar>>)

  /** What one tagging call returns and what it emits on the two side channels. */
  datatype Traced = Traced(result: HRESULT, log: seq<LogEvent>, originated: seq<Origination>)

  /** The number of code units before the first NUL (`wcslen`), or the whole
      array when it holds none. */
  function WideLength(s: seq<WChar>): (n: nat)
    ensures n <= |s|
    ensures forall i :: 0 <= i < n ==> s[i] != NUL
    ensures n < |s| ==> s[n] == NUL
  {
    if s == [] || s[0] == NUL then 0 else 1 + WideLength(s[1..])
  }

  /** A wide string literal with no embedded NUL, as the array
      `wchar_t const (&)[N]` holds it: its code units, none of them NUL,
      followed by the terminating NUL. */
  ghost predicate IsWideLiteral(literal: seq<WChar>) {
    |literal| >= 1 && literal[|literal| - 1] == NUL &&
    forall i :: 0 <= i < |literal| - 1 ==> literal[i] != NUL
  }

  /** The overload taking a description array of N characters (N >= 1, as for
      every C++ array). The length passed is N - 1 whatever the array holds: a
      literal, a buffer, or text with an embedded NUL. */
  function TracedOriginateErrorWith(func: string, hr: HRESULT, description: seq<WChar>): (t: Traced)
    requires |description| >= 1
    ensures t.result == hr
    ensures !Failed(hr) ==> t.log == [] && t.originated == []
    ensures Failed(hr) ==> t.log == [LogEvent(func, Error, OriginFailed(hr, Some(description)))]
    ensures Failed(hr) ==> t.originated == [Origination(hr, |description| - 1, Some(description))]
  {
    if Failed(hr) then
      Traced(hr, [LogEvent(func, Error, OriginFailed(hr, Some(description)))],
                 [Origination(hr, |description| - 1, Some(description))])
    else
      Traced(hr, [], [])
  }

  /** The overload without a description: length 0 and a null message. */
  function TracedOriginateError(func: string, hr: HRESULT): (t: Traced)
    ensures t.result == hr
    ensures !Failed(hr) ==> t.log == [] && t.originated == []
    ensures Failed(hr) ==> t.log == [LogEvent(func, Error, OriginFailed(hr, None))]
    ensures Failed(hr) ==> t.originated == [Origination(hr, 0, None)]
  {
    if Failed(hr) then
      Traced(hr, [LogEvent(func, Error, OriginFailed(hr, None))], [Origination(hr, 0, None)])
    else
      Traced(hr, [], [])
  }

  /** The `OriginateError(hr, ...)` macro, called from `caller` (its `__FUNCTION__`),
      with or without a description array; C++ overload resolution picks the overload. */
  function OriginateError(caller: string, hr: HRESULT, description: Option<seq<WChar>>): (t: Traced)
    requires description.Some? ==> |description.value| >= 1
    ensures t.result == hr
    ensures |t.log| == |t.originated| == if Failed(hr) then 1 else 0
    ensures !Failed(hr) ==> t.log == [] && t.originated == []
    ensures Failed(hr) ==> t.log == [LogEvent(caller, Error, OriginFailed(hr, description))]
    ensures Failed(hr) ==>
              t.originated == [Origination(hr, if description.Some? then |description.value| - 1 else 0, description)]
  {
    match description
    case None => TracedOriginateError(caller, hr)
    case Some(text) => TracedOriginateErrorWith(caller, hr, text)
  }

  /** For a wide literal, the length reported to `RoOriginateErrorW` is the
      length of the string without its terminator, so the registered message is
      exactly the literal's text. This is a fact about literals with no embedded
      NUL: for a buffer, or a literal such as `L"a\0b"`, the length passed is
      still N - 1. */
  lemma DescriptionLengthIsStringLength(func: string, hr: HRESULT, literal: seq<WChar>)
    requires IsWideLiteral(literal)
    requires Failed(hr)
    ensures TracedOriginateErrorWith(func, hr, literal).originated[0].length == WideLength(literal)
    ensures literal[..WideLength(literal)] == literal[..|literal| - 1]
  {
  }

  /** Tagging a code never changes it, and a succeeding code passes through
      with nothing logged and nothing registered, whichever overload is used. */
  lemma SucceedingCodeIsPassThrough(caller: string, hr: HRESULT, description: Option<seq<WChar>>)
    requires description.Some? ==> |description.value| >= 1
    requires !Failed(hr)
    ensures OriginateError(caller, hr, description) == Traced(hr, [], [])
  {
  }

  /** The tag is not one-shot by itself: tagging the result of a tag logs and
      registers the failure a second time. Tagging once per failure is left to
      the callers, which tag only where they first observe the failure. */
  lemma RetaggingRepeatsTheSideEffects(caller: string, hr: HRESULT)
    requires Failed(hr)
    ensures var first := TracedOriginateError(caller, hr);
            var second := TracedOriginateError(caller, first.result);
            second.result == hr && second.log == first.log && second.originated == first.originated
  {
  }
}
