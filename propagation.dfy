/** The two propagation idioms: the throwing macros `CHK`, `CHKNULL`, `CHKOOM`
    and the returning macro `CHK_RETURN`. A statement is modelled by the code it
    produces; a macro use by the `Completion` it leaves behind. */
module Propagation {
  import opened HResults

  /** `CHK(statement)`: throws a `Platform::COMException` carrying the code when
      the code fails, and does nothing otherwise. */
  function Chk(hr: HRESULT): (c: Completion)
    ensures c.Throw? <==> Failed(hr)
    ensures c.Throw? ==> c.exn == PlatformException(COMException, hr)
  {
    if Failed(hr) then Throw(PlatformException(COMException, hr)) else Normal
  }

  /** `CHKNULL(p)`: throws a `Platform::NullReferenceException` when `p` is null. */
  function ChkNull<T>(p: Option<T>, runtime: RuntimeCodes): (c: Completion)
    ensures c.Throw? <==> p.None?
    ensures c.Throw? ==> c.exn == PlatformException(NullReferenceException, runtime.nullReference)
  {
    if p.None? then Throw(PlatformException(NullReferenceException, runtime.nullReference)) else Normal
  }

  /** `CHKOOM(p)`: throws a `Platform::OutOfMemoryException` when `p` is null. */
  function ChkOom<T>(p: Option<T>, runtime: RuntimeCodes): (c: Completion)
    ensures c.Throw? <==> p.None?
    ensures c.Throw? ==> c.exn == PlatformException(OutOfMemoryException, runtime.outOfMemory)
  {
    if p.None? then Throw(PlatformException(OutOfMemoryException, runtime.outOfMemory)) else Normal
  }

  /** The index of the first failing code, or `|steps|` when none fails. */
  function FirstFailure(steps: seq<HRESULT>): (k: nat)
    ensures k <= |steps|
    ensures forall j :: 0 <= j < k ==> !Failed(steps[j])
    ensures k < |steps| ==> Failed(steps[k])
  {
    if steps == [] then 0
    else if Failed(steps[0]) then 0
    else 1 + FirstFailure(steps[1..])
  }

  /** How a run of statements ends, and how many of them were evaluated. */
  datatype Run = Run(completion: Completion, ran: nat)

  /** A body written in the throwing idiom, `CHK(s0); CHK(s1); ...`, where
      `steps[i]` is the code statement `si` produces. A statement is evaluated
      only when every `CHK` before it completed normally. */
  function ChkEach(steps: seq<HRESULT>): (r: Run)
    ensures r.ran <= |steps|
    ensures r.completion.Normal? <==> forall j :: 0 <= j < |steps| ==> !Failed(steps[j])
    ensures r.completion.Normal? ==> r.ran == |steps|
    ensures r.completion.Throw? ==>
              0 < r.ran && Failed(steps[r.ran - 1]) &&
              r.completion.exn == PlatformException(COMException, steps[r.ran - 1])
  {
    if steps == [] then Run(Normal, 0)
    else match Chk(steps[0])
      case Normal =>
        var rest := ChkEach(steps[1..]);
        Run(rest.completion, 1 + rest.ran)
      case Throw(e) => Run(Throw(e), 1)
  }

  /** The throwing idiom stops at the first failing statement and throws its code,
      so no statement after it is evaluated; when no statement fails, the body
      completes normally after evaluating all of them. */
  lemma {:induction false} ChkEachThrowsFirstFailure(steps: seq<HRESULT>)
    ensures var k := FirstFailure(steps);
            ChkEach(steps) ==
              if k < |steps| then Run(Throw(PlatformException(COMException, steps[k])), k + 1)
              else Run(Normal, |steps|)
  {
    if steps != [] && !Failed(steps[0]) {
      ChkEachThrowsFirstFailure(steps[1..]);
    }
  }

  /** A body written in the returning idiom, `CHK_RETURN(s0); CHK_RETURN(s1); ...
      return hr;`, with `hr` holding `initial` beforehand. Returns the `hr` the body
      returns and how many statements ran. Each macro assigns the statement's code
      to `hr` and returns it at once when it fails, so no later statement runs. */
  method ChkReturnEach(initial: HRESULT, steps: seq<HRESULT>) returns (hr: HRESULT, executed: nat)
    ensures var k := FirstFailure(steps);
            executed == if k < |steps| then k + 1 else |steps|
    ensures FirstFailure(steps) < |steps| ==> hr == steps[FirstFailure(steps)] && Failed(hr)
    ensures FirstFailure(steps) == |steps| ==>
              hr == if steps == [] then initial else steps[|steps| - 1]
  {
    hr := initial;
    executed := 0;
    while executed < |steps|
      invariant executed <= |steps|
      invariant forall j :: 0 <= j < executed ==> !Failed(steps[j])
      invariant hr == if executed == 0 then initial else steps[executed - 1]
    {
      hr := steps[executed];
      executed := executed + 1;
      if Failed(hr) {
        return;
      }
    }
  }
}
