/**
 * ICMPPingEngineFactory: creates ICMP ping engines, keeps the list of the
 * engines it created, stops and releases them on request, tears them all
 * down together with the shared receiver worker, and reports whether raw
 * ICMP is usable on this machine.
 */
module Factory {
  import opened EngineList
  import opened Engines

  /** The platform the factory was compiled for (the Q_OS_LINUX switch). */
  datatype Platform = Linux | OtherPlatform

  /** A QJsonObject, reduced to what the factory needs of it. */
  datatype JsonValue = JsonNull | JsonBool(b: bool) | JsonNumber(n: int) | JsonString(s: string)
  type JsonObject = map<string, JsonValue>

  /**
   * available(): on Linux, whether a raw IPv4 read socket could be opened;
   * on every other platform, always.
   */
  function Available(platform: Platform, socketOpens: bool): (r: bool)
    ensures platform == Linux ==> (r <==> socketOpens)
    ensures platform != Linux ==> r
  {
    if platform == Linux then socketOpens else true
  }

  /**
   * priority(): 0 (lowest) or 1 (highest), and the highest exactly when the
   * engine is available for the same probe outcome.
   */
  function Priority(platform: Platform, socketOpens: bool): (r: real)
    ensures r == 0.0 || r == 1.0
    ensures r == 1.0 <==> Available(platform, socketOpens)
    ensures r == 0.0 <==> !Available(platform, socketOpens)
  {
    if platform == Linux then (if socketOpens then 1.0 else 0.0) else 1.0
  }

  /**
   * The capability probe both priority() and available() run: open a raw
   * IPv4 read socket (whether the operating system grants it is the input
   * `socketOpens`), and delete it again if it was opened. `openSockets`
   * counts the open sockets of the process.
   */
  method ProbeReadSocket(socketOpens: bool, openSockets: nat) returns (gotSocket: bool, openAfter: nat)
    ensures gotSocket == socketOpens
    ensures openAfter == openSockets
  {
    openAfter := openSockets;
    gotSocket := socketOpens;
    if gotSocket {
      openAfter := openAfter + 1;   // createReadSocket handed back a socket
    }
    if gotSocket {
      openAfter := openAfter - 1;   // delete socket
    }
  }

  /**
   * One step of the factory's history, in the order it happened. Each step
   * but scheduling records what held at that moment: a stop, whether the
   * engine was still listed; an untrack, whether the engine was already
   * stopped and still listed; an engine deletion, whether exactly the engines
   * before it in the list were already destroyed; the worker deletion,
   * whether the worker existed and every listed engine was already destroyed.
   */
  datatype Action =
    | StopEngine(engine: IcmpPingEngine, wasListed: bool)
    | Untrack(engine: IcmpPingEngine, stoppedWhileListed: bool)
    | ScheduleDeletion(engine: IcmpPingEngine)
    | DestroyEngine(engine: IcmpPingEngine, prefixDestroyed: bool)
    | DestroyReceiverWorker(afterEngines: bool)

  /**
   * The deletions qDeleteAll performs on `s`: in list order, each one taken
   * when exactly the engines before it are destroyed.
   */
  function DestroyEach(s: seq<IcmpPingEngine>): (r: seq<Action>)
    ensures |r| == |s|
    ensures forall k :: 0 <= k < |s| ==> r[k] == DestroyEngine(s[k], true)
  {
    if s == [] then [] else [DestroyEngine(s[0], true)] + DestroyEach(s[1..])
  }

  /** The process-wide receiver worker instance, which may or may not exist. */
  class ReceiverWorkerSlot {
    var present: bool

    constructor (present: bool)
      ensures this.present == present
    {
      this.present := present;
    }
  }

  class IcmpPingEngineFactory {
    /** m_engineList: the engines created and not yet deleted, oldest first. */
    var engines: seq<IcmpPingEngine>
    /** What the factory has done to engines and to the worker so far. */
    ghost var trace: seq<Action>

    /** Every tracked engine is tracked once and is still alive. */
    ghost predicate Valid()
      reads this, engines
    {
      && NoDuplicates(engines)
      && forall k :: 0 <= k < |engines| ==> engines[k].lifecycle == Live
    }

    constructor ()
      ensures Valid()
      ensures engines == [] && trace == []
    {
      engines := [];
      trace := [];
    }

    /** createEngine: a new engine for `version`, appended to the list. */
    method CreateEngine(version: IPVersion) returns (engine: IcmpPingEngine)
      requires Valid()
      modifies this
      ensures Valid()
      ensures fresh(engine)
      ensures engine.version == version && engine.state == NotStarted && engine.lifecycle == Live
      ensures engine !in old(engines)
      ensures engines == old(engines) + [engine]
      ensures trace == old(trace)
    {
      engine := new IcmpPingEngine(version);
      RemoveAppended(engines, engine);
      engines := engines + [engine];
    }

    /**
     * deleteEngine: when `engine` is an ICMP engine in the list, stop it
     * while it is still listed, take it out of the list and schedule it for
     * deletion; otherwise do nothing. Reports true either way.
     */
    method DeleteEngine(engine: EngineRef) returns (deleted: bool)
      requires Valid()
      modifies this, Targets(engine)
      ensures Valid()
      ensures deleted
      ensures engine.IcmpEngine? && engine.engine in old(engines) ==>
        var e := engine.engine;
        && e.state == Stopped
        && e.lifecycle == DeletionScheduled
        && e !in engines
        && engines == RemoveAll(old(engines), e)
        && (exists i :: 0 <= i < |old(engines)| && old(engines)[i] == e &&
                        engines == old(engines)[..i] + old(engines)[i + 1..])
        && trace == old(trace) + [StopEngine(e, true), Untrack(e, true), ScheduleDeletion(e)]
      ensures !(engine.IcmpEngine? && engine.engine in old(engines)) ==>
        && engines == old(engines)
        && trace == old(trace)
        && (engine.IcmpEngine? ==> unchanged(engine.engine))
    {
      var pingEngine := QobjectCast(engine);
      if pingEngine.Some? && pingEngine.value in engines {
        var e := pingEngine.value;
        ghost var before := engines;
        RemoveAllTracked(before, e);
        trace := trace + [StopEngine(e, e in engines)];
        e.Stop();
        trace := trace + [Untrack(e, e.state == Stopped && e in engines)];
        engines := RemoveAll(engines, e);
        e.lifecycle := DeletionScheduled;
        trace := trace + [ScheduleDeletion(e)];
        forall k | 0 <= k < |engines| ensures engines[k].lifecycle == Live {
          assert engines[k] != e && engines[k] in before;
        }
      }
      deleted := true;
    }

    /**
     * The destructor: delete every listed engine (qDeleteAll), then the
     * receiver worker if there is one, then drop the list.
     */
    method Destroy(worker: ReceiverWorkerSlot)
      requires Valid()
      modifies this, engines, worker
      ensures Valid()
      ensures engines == []
      ensures forall e :: e in old(engines) ==> e.lifecycle == Destroyed && e.state == old(e.state)
      ensures !worker.present
      ensures trace == old(trace) + DestroyEach(old(engines))
                       + (if old(worker.present) then [DestroyReceiverWorker(true)] else [])
    {
      var i := 0;
      while i < |engines|
        invariant 0 <= i <= |engines|
        invariant engines == old(engines) && worker.present == old(worker.present)
        invariant NoDuplicates(engines)
        invariant forall k :: 0 <= k < i ==> engines[k].lifecycle == Destroyed
        invariant forall k :: i <= k < |engines| ==> engines[k].lifecycle == Live
        invariant forall e :: e in engines ==> e.state == old(e.state)
        invariant trace == old(trace) + DestroyEach(engines[..i])
      {
        trace := trace + [DestroyEngine(engines[i], forall k :: 0 <= k < |engines| ==> (engines[k].lifecycle == Destroyed <==> k < i))];
        engines[i].lifecycle := Destroyed;
        i := i + 1;
      }
      assert engines[..i] == engines;
      if worker.present {
        trace := trace + [DestroyReceiverWorker(worker.present && forall k :: 0 <= k < |engines| ==> engines[k].lifecycle == Destroyed)];
        worker.present := false;
      }
      engines := [];
    }

    /** priority(), running the capability probe. */
    method ProbePriority(platform: Platform, socketOpens: bool, openSockets: nat)
      returns (priority: real, openAfter: nat)
      ensures priority == Priority(platform, socketOpens)
      ensures openAfter == openSockets
    {
      if platform == Linux {
        var gotSocket;
        gotSocket, openAfter := ProbeReadSocket(socketOpens, openSockets);
        if gotSocket {
          return 1.0, openAfter;
        }
        return 0.0, openAfter;
      }
      return 1.0, openSockets;
    }

    /** available(), running the capability probe. */
    method ProbeAvailable(platform: Platform, socketOpens: bool, openSockets: nat)
      returns (available: bool, openAfter: nat)
      ensures available == Available(platform, socketOpens)
      ensures openAfter == openSockets
    {
      if platform == Linux {
        var gotSocket;
        gotSocket, openAfter := ProbeReadSocket(socketOpens, openSockets);
        if gotSocket {
          return true, openAfter;
        }
        return false, openAfter;
      }
      return true, openSockets;
    }

    /** description: the factory's descriptive name (before translation). */
    method Description() returns (name: string)
      ensures name == "ICMP Socket"
    {
      name := "ICMP Socket";
    }

    /** saveConfiguration: this engine has nothing to save. */
    method SaveConfiguration() returns (configuration: JsonObject)
      ensures configuration == map[]
    {
      configuration := map[];
    }

    /** loadConfiguration: ignores its argument, loads nothing and says so. */
    method LoadConfiguration(configuration: JsonObject) returns (loaded: bool)
      ensures !loaded
    {
      loaded := false;
    }
  }
}
