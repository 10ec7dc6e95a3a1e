/** The `As<T>` casts: `QueryInterface` for the target interface, thrown
    through `CHK` on failure. The three overloads (from a `ComPtr`, a raw
    interface pointer and a C++/CX handle) differ only in how they reach
    `QueryInterface`, so they share one model. */
module Casting {
  import opened HResults
  import Propagation

  /** What `QueryInterface` reports: its code and the interface pointer it
      wrote to the out parameter (null when it wrote none). */
  datatype QueryResult<T> = QueryResult(hr: HRESULT, out: Option<T>)

  /** A call that either returns a value or throws. */
  datatype Fallible<T> = Returned(value: T) | Raised(exn: Exn)

  /** `As<T>(in)`: the `ComPtr<T>` that `QueryInterface` filled in, or the
      `COMException` that `CHK` throws with its code. No value is returned on
      failure. */
  function As<T>(query: QueryResult<T>): (r: Fallible<Option<T>>)
    ensures r.Raised? <==> Failed(query.hr)
    ensures r.Raised? ==> r.exn == PlatformException(COMException, query.hr)
    ensures r.Returned? ==> r.value == query.out
  {
    match Propagation.Chk(query.hr)
    case Throw(e) => Raised(e)
    case Normal => Returned(query.out)
  }

  /** A `QueryInterface` that keeps COM's rule (success exactly when it hands
      out an interface) never lets a cast return a null `ComPtr`: the caller
      either gets a usable interface or an exception carrying the code, for
      instance `E_NOINTERFACE` for an interface the object does not implement. */
  lemma CastIsAllOrNothing<T>(query: QueryResult<T>)
    requires !Failed(query.hr) <==> query.out.Some?
    ensures As(query).Returned? ==> As(query).value.Some?
    ensures As(query).Raised? ==> As(query).exn.hresult == query.hr && query.out.None?
  {
  }
}
