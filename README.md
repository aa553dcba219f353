# ICMP ping-engine factory of Pingnoo, in Dafny

Pingnoo is a traceroute analyser. Its ICMP ping engine is one of several
probing strategies, and a plug-in factory, `ICMPPingEngineFactory`, provides
it to the application. This project models that factory:

- the ordered list of engines it created and has not yet deleted (`m_engineList`);
- `createEngine`, which appends a freshly built engine for the requested IP version;
- `deleteEngine`, which does three things, in this order, to an ICMP engine on
  the list:
  - stops it;
  - takes it off the list (`QList::removeAll`);
  - hands it to deferred deletion (`deleteLater`).
  For anything else, `deleteEngine` changes nothing;
- the destructor, which deletes every listed engine (`qDeleteAll`) and then
  the shared receiver worker, if one exists;
- `priority()` and `available()`, which decide from one capability probe
  whether the engine is usable. On Linux the probe opens a raw IPv4 read
  socket and deletes it at once. On other platforms the answers are fixed;
- `saveConfiguration` / `loadConfiguration`, which have nothing to persist, and
  `description`, the constant name "ICMP Socket".

Files:

- `engine_list.dfy` (module `EngineList`) holds the list semantics. It
  defines `RemoveAll` and proves what removal does to a list without
  duplicates: it closes the gap and keeps order, and appending a new
  element then removing it is the identity.
- `ping_engine.dfy` (module `Engines`) holds the engine class. An engine has
  an IP version, a run state (`NotStarted`, `Running`, `Stopped`) and a
  lifecycle (`Live`, `DeletionScheduled`, `Destroyed`). The module also holds
  `EngineRef`, which models an `IPingEngine *` argument. That pointer can be
  null, an ICMP engine, or an engine of another strategy; the last case is
  where `qobject_cast` yields null.
- `factory.dfy` (module `Factory`) holds the factory class and the capability
  decision functions.

The factory's invariant (`Valid`) has two parts:

- every listed engine is listed once;
- every listed engine is still live.

A ghost `trace` records what the factory did, and in which order. Each step
records what held at the moment it ran:

- stopping an engine records whether the engine was still listed;
- untracking records whether the engine was already stopped and still listed;
- destroying an engine records whether exactly the engines before it in the
  list were already destroyed;
- destroying the receiver worker records whether the worker existed and every
  listed engine was already destroyed.

`DeleteEngine` ensures the trace ends in `StopEngine(e, true)`,
`Untrack(e, true)`, `ScheduleDeletion(e)`. That proves the engine was stopped
while still listed, and was stopped before it left the list. `Destroy` ensures
the k-th engine step is `DestroyEngine(e, true)` for the k-th listed engine,
and that the worker step is `DestroyReceiverWorker(true)`. Together these prove
that each engine is destroyed when exactly the engines before it are, so the
deletions run in list order, and that all engines are destroyed before the
worker.

The socket probe's outcome is an input, `socketOpens`. The platform is an input
too (`Platform`, standing for the `Q_OS_LINUX` switch). The number of sockets
the process has open is passed in and handed back, which shows that the probe
never leaks its socket.

Where the header and the code disagree, the model follows the code:

- `ICMPPingEngineFactory.h:105` says `deleteEngine` returns false when no
  engine was deleted. The code (`ICMPPingEngineFactory.cpp:133`) returns true
  in every case. `DeleteEngine` therefore ensures `deleted` unconditionally,
  and in the untracked case it also ensures that nothing changed.

## Model

| member | source | states |
|---|---|---|
| `EngineList.RemoveAll` | src/components/ICMPPingEngine/ICMPPingEngineFactory.cpp:129 | `removeAll`: the element is gone; every other element that was present is still present, and nothing new appears; the list shrinks exactly when the element was present and is untouched when it was not |
| `EngineList.RemoveAllCounts` | src/components/ICMPPingEngine/ICMPPingEngineFactory.cpp:129 | as a multiset, the result of `removeAll` is the input with the element's count set to zero: every copy of the element goes, and every other element keeps its number of copies |
| `EngineList.RemoveAllUnique` | src/components/ICMPPingEngine/ICMPPingEngineFactory.cpp:129 | on a list without duplicates, removing the element at position i yields the elements before i followed by those after i, in their original order |
| `EngineList.RemoveAllTracked` | src/components/ICMPPingEngine/ICMPPingEngineFactory.cpp:127-129 | removing a listed engine from a duplicate-free list takes out exactly its one position and leaves the list duplicate-free |
| `EngineList.RemoveAppended` | src/components/ICMPPingEngine/ICMPPingEngineFactory.cpp:68-134 | appending a new engine keeps the list duplicate-free, and deleting that engine afterwards gives back the original list |
| `Engines.QobjectCast` | src/components/ICMPPingEngine/ICMPPingEngineFactory.cpp:125 | the cast yields an engine exactly when the argument is an ICMP engine, and then yields that same engine; for null and for other strategies' engines it yields null |
| `Engines.IcmpPingEngine.constructor` | src/components/ICMPPingEngine/ICMPPingEngineFactory.cpp:71 | a new engine is live and carries the requested IP version |
| `Engines.IcmpPingEngine.Stop` | src/components/ICMPPingEngine/ICMPPingEngineFactory.cpp:128 | stopping leaves the engine Stopped and does not change whether it is alive |
| `Factory.Available` | src/components/ICMPPingEngine/ICMPPingEngineFactory.cpp:107-120 | on Linux: available exactly when the raw read socket opens; elsewhere: always available |
| `Factory.Priority` | src/components/ICMPPingEngine/ICMPPingEngineFactory.cpp:92-105 | the priority is 0 or 1; it is 1 exactly when `Available` holds and 0 exactly when it does not |
| `Factory.ProbeReadSocket` | src/components/ICMPPingEngine/ICMPPingEngineFactory.cpp:94-99 | the probe reports whether the socket opened and leaves the number of open sockets unchanged |
| `Factory.IcmpPingEngineFactory.ProbePriority` | src/components/ICMPPingEngine/ICMPPingEngineFactory.cpp:92-105 | `priority()` returns `Priority` for the probe's outcome and leaks no socket |
| `Factory.IcmpPingEngineFactory.ProbeAvailable` | src/components/ICMPPingEngine/ICMPPingEngineFactory.cpp:107-120 | `available()` returns `Available` for the probe's outcome and leaks no socket |
| `Factory.DestroyEach` | src/components/ICMPPingEngine/ICMPPingEngineFactory.cpp:57 | `qDeleteAll` performs one deletion per listed engine: the k-th deletion is of the k-th engine in the list, taken when exactly the engines before it are destroyed |
| `Factory.ReceiverWorkerSlot.constructor` | src/components/ICMPPingEngine/ICMPPingEngineFactory.cpp:59-61 | the worker singleton slot starts out holding an instance or not, as given |
| `Factory.IcmpPingEngineFactory.Description` | src/components/ICMPPingEngine/ICMPPingEngineFactory.cpp:88-90 | the factory's descriptive name is "ICMP Socket" |
| `Factory.IcmpPingEngineFactory.constructor` | src/components/ICMPPingEngine/ICMPPingEngineFactory.cpp:51-54 | a new factory tracks no engines and satisfies the invariant |
| `Factory.IcmpPingEngineFactory.CreateEngine` | src/components/ICMPPingEngine/ICMPPingEngineFactory.cpp:68-76 | returns a fresh live engine for the requested IP version that was not on the list; the new list is the old one plus that engine at the end; the invariant (no duplicates, all live) is kept |
| `Factory.IcmpPingEngineFactory.DeleteEngine` | src/components/ICMPPingEngine/ICMPPingEngineFactory.cpp:122-134 | returns true always. For a listed ICMP engine, the trace shows a stop while the engine was still listed, then its removal while it was stopped and still listed, then scheduled deletion; the engine ends Stopped and DeletionScheduled; the list loses exactly that engine's position and keeps the others in order. For anything else, the list, the trace and the engine are unchanged. The invariant is kept |
| `Factory.IcmpPingEngineFactory.Destroy` | src/components/ICMPPingEngine/ICMPPingEngineFactory.cpp:56-66 | from a valid factory: every listed engine is destroyed in list order: the trace records, for the k-th engine, that exactly the first k engines had been destroyed at the moment of its deletion; its run state is untouched. Then the worker, if present, is destroyed, and the trace records that it existed and all engines were already destroyed at that point. Afterwards the slot holds no worker and the list is empty |
| `Factory.IcmpPingEngineFactory.SaveConfiguration` | src/components/ICMPPingEngine/ICMPPingEngineFactory.cpp:78-80 | the saved configuration is the empty object |
| `Factory.IcmpPingEngineFactory.LoadConfiguration` | src/components/ICMPPingEngine/ICMPPingEngineFactory.cpp:82-86 | loading always reports that nothing was loaded, and it changes no state |

## Left out

- Raw socket creation (`ICMPSocket::createReadSocket`) is an operating-system call, and its code is not part of this model. Its outcome is the input `socketOpens`. `priority()` and `available()` each run their own probe, so in the program the two probes can get different outcomes; the model compares them for the same outcome.
- `description()` is the method `Description`, which returns the untranslated name. Its `tr()` translation is not modelled.
- Qt's object machinery (`Q_OBJECT`, `Q_INTERFACES`, `qobject_cast`) is left out. `qobject_cast` is the function `QobjectCast` over `EngineRef`.
- `deleteLater` only marks the engine `DeletionScheduled`. The event-loop pass that later deletes it is not modelled.
- The internals of `ICMPPingEngine` are left out: its constructor, `start`, `stop`, probing and timeouts. `Stop` only sets the run state. The model does not say what the constructor leaves the run state as, so it calls that state `NotStarted`.
- The internals of `ICMPPingReceiverWorker` are left out: its thread, the meaning of `getInstance(true)`, and whether that call may create an instance. The worker is `ReceiverWorkerSlot`, a singleton that may or may not exist. The source only shows `delete receiverWorker`. Whether `getInstance` then forgets the deleted pointer is in code not part of this model, so `Destroy` making the slot empty is an assumption of the model.
- The private data object, its `std::shared_ptr` ownership and `d.reset()` are left out. The destructor is the method `Destroy`, which ends with an empty list.
- ICMP packet encoding and decoding, reply matching and timeout sweeping are not in the factory, and the model has none of them.
