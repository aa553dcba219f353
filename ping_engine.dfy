/**
 * The ICMP ping engine as far as its factory sees it: the IP version it was
 * built for, whether it has been stopped, and whether it is still alive.
 * Its probing internals (sockets, packets, the receiver worker) are outside
 * this model.
 */
module Engines {

  datatype Option<T> = None | Some(value: T)

  /** Nedrysoft::Core::IPVersion. */
  datatype IPVersion = V4 | V6

  /** Run state; `NotStarted` is whatever the engine constructor leaves. */
  datatype RunState = NotStarted | Running | Stopped

  /**
   * Object lifetime: alive, handed to Qt's deferred deletion (deleteLater),
   * or deleted outright.
   */
  datatype Lifecycle = Live | DeletionScheduled | Destroyed

  class IcmpPingEngine {
    const version: IPVersion
    var state: RunState
    var lifecycle: Lifecycle

    /** `new ICMPPingEngine(version)`: a live engine for the requested IP version. */
    constructor (version: IPVersion)
      ensures this.version == version
      ensures state == NotStarted && lifecycle == Live
    {
      this.version := version;
      state := NotStarted;
      lifecycle := Live;
    }

    /** IPingEngine::stop, reduced to its effect on the run state. */
    method Stop()
      modifies this
      ensures state == Stopped
      ensures lifecycle == old(lifecycle)
    {
      state := Stopped;
    }
  }

  /**
   * What an IPingEngine pointer handed to the factory can be: null, an ICMP
   * engine, or an engine of another probing strategy.
   */
  datatype EngineRef =
    | NullEngine
    | IcmpEngine(engine: IcmpPingEngine)
    | OtherEngine(kind: nat)

  /** qobject_cast to ICMPPingEngine: the engine when it is one, otherwise null. */
  function QobjectCast(r: EngineRef): (cast: Option<IcmpPingEngine>)
    ensures cast.Some? <==> r.IcmpEngine?
    ensures cast.Some? ==> cast.value == r.engine
  {
    match r
    case IcmpEngine(e) => Some(e)
    case _ => None
  }

  /** The objects a call through `r` may touch. */
  function Targets(r: EngineRef): set<IcmpPingEngine>
  {
    if r.IcmpEngine? then {r.engine} else {}
  }
}
