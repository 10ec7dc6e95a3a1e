/** The scoped resource guards: `AutoMF` (Media Foundation startup and
    shutdown), `ScopeExitCall` (run a function at scope exit) and `PropVariant`
    (a PROPVARIANT that is initialised on construction and cleared on destruction).
    A C++ destructor is modelled as a `Destroy` method that the enclosing scope
    calls once; each guard's `With...` method is one scope using it, on every exit
    path of its body. */
module Guards {
  import opened HResults
  import Propagation

  /** A value a PROPVARIANT slot can hold: `VT_EMPTY`, or some typed value
      identified by the resource it owns. */
  datatype VariantValue = Empty | Holding(resource: nat)

  /** The platform functions the guards call, as counters and a record of what
      was released. `MFStartup`'s result is supplied by the caller. */
  class Platform {
    var mfStartupCalls: nat
    var mfShutdownCalls: nat
    var propVariantInitCalls: nat
    var cleared: seq<VariantValue>   // the values passed to PropVariantClear, in order

    constructor ()
      ensures mfStartupCalls == 0 && mfShutdownCalls == 0
      ensures propVariantInitCalls == 0 && cleared == []
    {
      mfStartupCalls, mfShutdownCalls := 0, 0;
      propVariantInitCalls, cleared := 0, [];
    }

    method MFStartup(result: HRESULT) returns (hr: HRESULT)
      modifies this
      ensures hr == result
      ensures mfStartupCalls == old(mfStartupCalls) + 1
      ensures mfShutdownCalls == old(mfShutdownCalls)
      ensures propVariantInitCalls == old(propVariantInitCalls) && cleared == old(cleared)
    {
      mfStartupCalls := mfStartupCalls + 1;
      hr := result;
    }

    method MFShutdown()
      modifies this
      ensures mfShutdownCalls == old(mfShutdownCalls) + 1
      ensures mfStartupCalls == old(mfStartupCalls)
      ensures propVariantInitCalls == old(propVariantInitCalls) && cleared == old(cleared)
    {
      mfShutdownCalls := mfShutdownCalls + 1;
    }

    method PropVariantInit()
      modifies this
      ensures propVariantInitCalls == old(propVariantInitCalls) + 1 && cleared == old(cleared)
      ensures mfStartupCalls == old(mfStartupCalls) && mfShutdownCalls == old(mfShutdownCalls)
    {
      propVariantInitCalls := propVariantInitCalls + 1;
    }

    method PropVariantClear(v: VariantValue)
      modifies this
      ensures cleared == old(cleared) + [v] && propVariantInitCalls == old(propVariantInitCalls)
      ensures mfStartupCalls == old(mfStartupCalls) && mfShutdownCalls == old(mfShutdownCalls)
    {
      cleared := cleared + [v];
    }
  }

  /** The Media Foundation lifetime token. */
  class AutoMF {
    const platform: Platform
    var initialized: bool
    /** How the constructor ended: it throws when `CHK(MFStartup(...))` throws. */
    var construction: Completion
    /** Whether the object's destructor has yet to run. */
    ghost var live: bool

    /** `_initialized(false)`, then `CHK(MFStartup(MF_VERSION))`, then
        `_initialized = true`, which is reached only when startup succeeded. */
    constructor (platform: Platform, startup: HRESULT)
      modifies platform
      ensures this.platform == platform
      ensures initialized <==> !Failed(startup)
      ensures construction == Propagation.Chk(startup)
      ensures live
      ensures platform.mfStartupCalls == old(platform.mfStartupCalls) + 1
      ensures platform.mfShutdownCalls == old(platform.mfShutdownCalls)
      ensures platform.propVariantInitCalls == old(platform.propVariantInitCalls)
      ensures platform.cleared == old(platform.cleared)
    {
      this.platform := platform;
      initialized := false;
      construction := Normal;
      live := true;
      new;
      var hr := platform.MFStartup(startup);
      construction := Propagation.Chk(hr);
      if construction.Normal? {
        initialized := true;
      }
    }

    /** `~AutoMF()`: `MFShutdown` exactly when `_initialized`. */
    method Destroy()
      requires live
      modifies this, platform
      ensures !live && initialized == old(initialized) && construction == old(construction)
      ensures platform.mfShutdownCalls == old(platform.mfShutdownCalls) + if initialized then 1 else 0
      ensures platform.mfStartupCalls == old(platform.mfStartupCalls)
      ensures platform.propVariantInitCalls == old(platform.propVariantInitCalls)
      ensures platform.cleared == old(platform.cleared)
    {
      if initialized {
        platform.MFShutdown();
      }
      live := false;
    }
  }

  /** A scope holding an `AutoMF` around a body that ends with `body`. When
      startup fails the constructor throws, the body never runs and, as for any
      C++ object whose constructor threw, no destructor runs: startup is called
      once and shutdown never. Otherwise shutdown is called exactly once,
      whether the body completed or threw, and the body's completion passes
      through. */
  method WithAutoMF(platform: Platform, startup: HRESULT, body: Completion) returns (c: Completion)
    modifies platform
    ensures platform.mfStartupCalls == old(platform.mfStartupCalls) + 1
    ensures platform.mfShutdownCalls == old(platform.mfShutdownCalls) + if Failed(startup) then 0 else 1
    ensures c == if Failed(startup) then Throw(PlatformException(COMException, startup)) else body
    ensures platform.propVariantInitCalls == old(platform.propVariantInitCalls)
    ensures platform.cleared == old(platform.cleared)
  {
    var token := new AutoMF(platform, startup);
    if token.construction.Throw? {
      c := token.construction;
      return;
    }
    c := body;
    token.Destroy();
  }

  /** A token whose startup failed would not shut down even if destroyed: the
      destructor's `_initialized` test alone rules out shutdown without startup. */
  method DestroyAfterFailedStartup(platform: Platform, startup: HRESULT)
    requires Failed(startup)
    modifies platform
    ensures platform.mfStartupCalls == old(platform.mfStartupCalls) + 1
    ensures platform.mfShutdownCalls == old(platform.mfShutdownCalls)
    ensures platform.propVariantInitCalls == old(platform.propVariantInitCalls)
    ensures platform.cleared == old(platform.cleared)
  {
    var token := new AutoMF(platform, startup);
    token.Destroy();
  }

  /** The calls made by the functions stored in `ScopeExitCall`s, in order. */
  class CallLog<F> {
    var calls: seq<F>

    constructor ()
      ensures calls == []
    {
      calls := [];
    }

    method Call(fn: F)
      modifies this
      ensures calls == old(calls) + [fn]
    {
      calls := calls + [fn];
    }
  }

  /** Holds a function and calls it once, when destroyed. The function cannot
      throw (it runs in a destructor). */
  class ScopeExitCall<F> {
    const fn: F
    const log: CallLog<F>
    ghost var live: bool

    /** Storing the function calls nothing. */
    constructor (fn: F, log: CallLog<F>)
      ensures this.fn == fn && this.log == log && live
    {
      this.fn := fn;
      this.log := log;
      live := true;
    }

    /** `~ScopeExitCall()`: `_fn()`. */
    method Destroy()
      requires live
      modifies this, log
      ensures !live
      ensures log.calls == old(log.calls) + [fn]
    {
      log.Call(fn);
      live := false;
    }
  }

  /** A scope holding a `ScopeExitCall` around a body that ends with `body`: the
      function is called exactly once, after the body, on either exit path,
      and the body's completion passes through. */
  method WithScopeExit<F>(fn: F, log: CallLog<F>, body: Completion) returns (c: Completion)
    modifies log
    ensures log.calls == old(log.calls) + [fn]
    ensures c == body
  {
    var guard := new ScopeExitCall(fn, log);
    c := body;
    guard.Destroy();
  }

  /** An exception-safe PROPVARIANT. Copy construction is deleted. */
  class PropVariant {
    const platform: Platform
    var value: VariantValue
    ghost var live: bool

    /** `PropVariantInit(this)`: the slot starts out `VT_EMPTY`. */
    constructor (platform: Platform)
      modifies platform
      ensures this.platform == platform && value == Empty && live
      ensures platform.propVariantInitCalls == old(platform.propVariantInitCalls) + 1
      ensures platform.cleared == old(platform.cleared)
      ensures platform.mfStartupCalls == old(platform.mfStartupCalls)
      ensures platform.mfShutdownCalls == old(platform.mfShutdownCalls)
    {
      this.platform := platform;
      value := Empty;
      live := true;
      new;
      platform.PropVariantInit();
    }

    /** A callee filling the slot through the PROPVARIANT base (an out parameter). */
    method Fill(v: VariantValue)
      requires live
      modifies this
      ensures value == v && live
    {
      value := v;
    }

    /** `~PropVariant()`: `PropVariantClear(this)` on whatever the slot holds,
      which leaves it `VT_EMPTY`. */
    method Destroy()
      requires live
      modifies this, platform
      ensures !live && value == Empty
      ensures platform.cleared == old(platform.cleared) + [old(value)]
      ensures platform.propVariantInitCalls == old(platform.propVariantInitCalls)
      ensures platform.mfStartupCalls == old(platform.mfStartupCalls)
      ensures platform.mfShutdownCalls == old(platform.mfShutdownCalls)
    {
      platform.PropVariantClear(value);
      value := Empty;
      live := false;
    }
  }

  /** A scope holding a `PropVariant` that a callee may fill before the body
      ends with `body`: the slot is initialised once, and cleared once with the
      value it holds, whether it was filled or not and whether the body completed
      or threw. */
  method WithPropVariant(platform: Platform, fill: Option<VariantValue>, body: Completion) returns (c: Completion)
    modifies platform
    ensures platform.propVariantInitCalls == old(platform.propVariantInitCalls) + 1
    ensures platform.cleared == old(platform.cleared) + [if fill.Some? then fill.value else Empty]
    ensures c == body
    ensures platform.mfStartupCalls == old(platform.mfStartupCalls)
    ensures platform.mfShutdownCalls == old(platform.mfShutdownCalls)
  {
    var slot := new PropVariant(platform);
    if fill.Some? {
      slot.Fill(fill.value);
    }
    c := body;
    slot.Destroy();
  }
}
