/** The lifecycle of the gauge chart's engine instance, as a state machine.

    The panel holds three effects. The create effect runs when the container
    element changes: its cleanup disposes the instance the previous run
    created, then it creates an instance in the new container if there is one
    and stores it in the `chart` state. The sync effect hands the current
    option to the stored instance, if any. The resize effect resizes the stored
    instance when the size differs from the last applied size, and then
    records the new size. Which effect the reactive scheduler runs when is the
    environment's choice: a run of the machine is any sequence of events.

    The engine is observed only through the calls made to it, kept in a log;
    an instance is named by the position of its `Init` call in that log. */
module ChartLifecycle {
  import opened Wrappers
  import opened GaugeOption

  /** Identity of a container element. */
  type Container = nat

  /** Identity of an engine instance. */
  type ChartId = nat

  datatype Size = Size(width: int, height: int)

  /** A call into the chart engine. */
  datatype EngineCall =
    | Init(container: Container, chart: ChartId)
    | Dispose(chart: ChartId)
    | SetOption(chart: ChartId, option: ChartOption)
    | Resize(chart: ChartId, size: Size)

  /** The panel's state: the container element, the instance the create
      effect's cleanup will dispose, the `chart` state, the `prevSize` ref (and
      the size it started from), and the engine calls made so far. */
  datatype Panel = Panel(
    container: Option<Container>,
    owned: Option<ChartId>,
    chart: Option<ChartId>,
    prevSize: Size,
    initialSize: Size,
    calls: seq<EngineCall>)

  // ---------------------------------------------------------------------
  // Reading the engine log

  function Prefix(log: seq<EngineCall>): seq<EngineCall>
    requires log != []
  {
    log[..|log| - 1]
  }

  function Last(log: seq<EngineCall>): EngineCall
    requires log != []
  {
    log[|log| - 1]
  }

  /** Instances created so far. */
  function Created(log: seq<EngineCall>): set<ChartId>
  {
    if log == [] then {}
    else if Last(log).Init? then Created(Prefix(log)) + {Last(log).chart}
    else Created(Prefix(log))
  }

  /** Instances created and not yet disposed. */
  function Live(log: seq<EngineCall>): set<ChartId>
  {
    if log == [] then {}
    else
      match Last(log)
      case Init(_, id) => Live(Prefix(log)) + {id}
      case Dispose(id) => Live(Prefix(log)) - {id}
      case _ => Live(Prefix(log))
  }

  function InitCount(log: seq<EngineCall>, id: ChartId): nat
  {
    if log == [] then 0
    else InitCount(Prefix(log), id) + if Last(log).Init? && Last(log).chart == id then 1 else 0
  }

  function DisposeCount(log: seq<EngineCall>, id: ChartId): nat
  {
    if log == [] then 0
    else DisposeCount(Prefix(log), id) + if Last(log) == Dispose(id) then 1 else 0
  }

  /** Total numbers of Init and Dispose calls. */
  function Inits(log: seq<EngineCall>): nat
  {
    if log == [] then 0 else Inits(Prefix(log)) + if Last(log).Init? then 1 else 0
  }

  function Disposes(log: seq<EngineCall>): nat
  {
    if log == [] then 0 else Disposes(Prefix(log)) + if Last(log).Dispose? then 1 else 0
  }

  /** Lifecycle discipline of the engine: an instance is created once, is
      disposed only while live, and receives options and resizes only after
      it was created. */
  predicate LogOk(log: seq<EngineCall>)
  {
    if log == [] then true
    else
      && LogOk(Prefix(log))
      && match Last(log)
         case Init(_, id) => id !in Created(Prefix(log))
         case Dispose(id) => id in Live(Prefix(log))
         case SetOption(id, _) => id in Created(Prefix(log))
         case Resize(id, _) => id in Created(Prefix(log))
  }

  /** The last size applied: the last Resize, or the size the panel mounted with. */
  function LastSize(log: seq<EngineCall>, initial: Size): Size
  {
    if log == [] then initial
    else if Last(log).Resize? then Last(log).size
    else LastSize(Prefix(log), initial)
  }

  /** Every Resize changes the size: no resize repeats the applied size. */
  predicate ResizesChangeSize(log: seq<EngineCall>, initial: Size)
  {
    if log == [] then true
    else
      && ResizesChangeSize(Prefix(log), initial)
      && (Last(log).Resize? ==> Last(log).size != LastSize(Prefix(log), initial))
  }

  /** Appending one call extends each reading of the log by that call. */
  lemma AppendCall(log: seq<EngineCall>, e: EngineCall)
    ensures Prefix(log + [e]) == log && Last(log + [e]) == e
  {
  }

  // ---------------------------------------------------------------------
  // The machine

  /** The panel as first rendered: no container yet, hence no instance. The
      first run of each effect does nothing: the create effect sees no
      container, the sync effect no chart, the resize effect an unchanged size. */
  function Mount(size: Size): (p: Panel)
    ensures p.calls == [] && p.chart.None? && p.prevSize == size
  {
    Panel(None, None, None, size, size, [])
  }

  /** The create effect, run for a new container: dispose the instance of the
      previous run, then create one in the container if it is not null. The
      `chart` state is replaced only when an instance is created. */
  function SetContainer(p: Panel, c: Option<Container>): (q: Panel)
    ensures c == p.container ==> q == p
    ensures Inits(q.calls) == Inits(p.calls) + (if c != p.container && c.Some? then 1 else 0)
    ensures Disposes(q.calls) == Disposes(p.calls) + (if c != p.container && p.owned.Some? then 1 else 0)
    ensures c != p.container && c.Some? ==>
              q.chart.Some? && q.calls != [] && Last(q.calls) == Init(c.value, q.chart.value)
    ensures c.None? ==> q.chart == p.chart
    ensures |q.calls| >= |p.calls| && q.calls[..|p.calls|] == p.calls
    ensures c != p.container ==> q.container == c
    ensures c != p.container && p.owned.Some? ==> |q.calls| > |p.calls| && q.calls[|p.calls|] == Dispose(p.owned.value)
    ensures c != p.container && p.owned.None? && c.Some? ==> q.calls == p.calls + [Init(c.value, |p.calls|)]
    ensures c != p.container ==>
              q.calls == p.calls + (if p.owned.Some? then [Dispose(p.owned.value)] else [])
                                 + (if c.Some? then [Init(c.value, q.chart.value)] else [])
    ensures c != p.container ==> q.owned == (if c.Some? then q.chart else None)
    ensures q.prevSize == p.prevSize && q.initialSize == p.initialSize
  {
    if c == p.container then p
    else
      var cleaned := if p.owned.Some? then p.calls + [Dispose(p.owned.value)] else p.calls;
      assert p.owned.Some? ==> Prefix(cleaned) == p.calls && Last(cleaned) == Dispose(p.owned.value);
      match c
      case None => p.(container := None, owned := None, calls := cleaned)
      case Some(element) =>
        var id := |cleaned|;
        AppendCall(cleaned, Init(element, id));
        p.(container := c, owned := Some(id), chart := Some(id), calls := cleaned + [Init(element, id)])
  }

  /** The sync effect: hand the option to the chart, if there is one. */
  function SyncOption(p: Panel, option: ChartOption): (q: Panel)
    ensures p.chart.None? ==> q == p
    ensures p.chart.Some? ==> q.calls == p.calls + [SetOption(p.chart.value, option)]
    ensures q.container == p.container && q.chart == p.chart && q.prevSize == p.prevSize
    ensures q.owned == p.owned && q.initialSize == p.initialSize
  {
    if p.chart.None? then p
    else p.(calls := p.calls + [SetOption(p.chart.value, option)])
  }

  /** The resize effect: nothing if the size equals `prevSize` or there is no
      chart; otherwise resize the chart and record the size. */
  function SyncSize(p: Panel, size: Size): (q: Panel)
    ensures size == p.prevSize ==> q == p
    ensures p.chart.None? ==> q == p
    ensures size != p.prevSize && p.chart.Some? ==>
              q.prevSize == size && q.calls == p.calls + [Resize(p.chart.value, size)]
    ensures q.prevSize == p.prevSize || q.prevSize == size
    ensures q.container == p.container && q.owned == p.owned && q.chart == p.chart
    ensures q.initialSize == p.initialSize
  {
    if p.prevSize == size then p
    else if p.chart.None? then p
    else p.(prevSize := size, calls := p.calls + [Resize(p.chart.value, size)])
  }

  /** Unmounting runs the create effect's last cleanup. */
  function Unmount(p: Panel): (q: Panel)
    ensures q.owned.None?
    ensures Disposes(q.calls) == Disposes(p.calls) + (if p.owned.Some? then 1 else 0)
    ensures Inits(q.calls) == Inits(p.calls)
    ensures q.container.None?
    ensures p.owned.Some? ==> q.calls == p.calls + [Dispose(p.owned.value)]
    ensures p.owned.None? ==> q.calls == p.calls
    ensures q.chart == p.chart && q.prevSize == p.prevSize && q.initialSize == p.initialSize
  {
    if p.owned.Some? then
      AppendCall(p.calls, Dispose(p.owned.value));
      p.(container := None, owned := None, calls := p.calls + [Dispose(p.owned.value)])
    else p.(container := None)
  }

  datatype Event =
    | ContainerChanged(container: Option<Container>)
    | OptionChanged(option: ChartOption)
    | SizeChanged(size: Size)

  function Step(p: Panel, e: Event): Panel
  {
    match e
    case ContainerChanged(c) => SetContainer(p, c)
    case OptionChanged(option) => SyncOption(p, option)
    case SizeChanged(size) => SyncSize(p, size)
  }

  function Run(p: Panel, events: seq<Event>): Panel
    decreases |events|
  {
    if events == [] then p else Run(Step(p, events[0]), events[1..])
  }

  // ---------------------------------------------------------------------
  // The invariant

  /** What holds of every reachable panel. */
  predicate Valid(p: Panel)
  {
    && LogOk(p.calls)
    && (forall id :: id in Created(p.calls) ==> id < |p.calls|)
    && (p.owned.Some? <==> p.container.Some?)
    && Live(p.calls) == (if p.owned.Some? then {p.owned.value} else {})
    && (p.container.Some? ==> p.chart == p.owned)
    && (p.chart.Some? ==> p.chart.value in Created(p.calls))
    && p.prevSize == LastSize(p.calls, p.initialSize)
    && ResizesChangeSize(p.calls, p.initialSize)
  }

  lemma {:induction false} LiveAreCreated(log: seq<EngineCall>)
    ensures Live(log) <= Created(log)
    decreases |log|
  {
    if log != [] {
      LiveAreCreated(Prefix(log));
    }
  }

  lemma MountValid(size: Size)
    ensures Valid(Mount(size))
  {
  }

  /** The create effect keeps the invariant. */
  lemma SetContainerValid(p: Panel, c: Option<Container>)
    requires Valid(p)
    ensures Valid(SetContainer(p, c))
  {
    if c != p.container {
      var cleaned := if p.owned.Some? then p.calls + [Dispose(p.owned.value)] else p.calls;
      if p.owned.Some? {
        AppendCall(p.calls, Dispose(p.owned.value));
        assert LogOk(cleaned);
      }
      assert Created(cleaned) == Created(p.calls);
      assert Live(cleaned) == {};
      assert LastSize(cleaned, p.initialSize) == p.prevSize;
      assert ResizesChangeSize(cleaned, p.initialSize);
      if c.Some? {
        var id := |cleaned|;
        AppendCall(cleaned, Init(c.value, id));
        assert id !in Created(cleaned);
        assert LogOk(cleaned + [Init(c.value, id)]);
        assert Created(cleaned + [Init(c.value, id)]) == Created(cleaned) + {id};
        assert Live(cleaned + [Init(c.value, id)]) == {id};
      }
    }
  }

  /** The sync effect keeps the invariant. */
  lemma SyncOptionValid(p: Panel, option: ChartOption)
    requires Valid(p)
    ensures Valid(SyncOption(p, option))
  {
    if p.chart.Some? {
      var e := SetOption(p.chart.value, option);
      AppendCall(p.calls, e);
      assert LogOk(p.calls + [e]);
      assert Created(p.calls + [e]) == Created(p.calls);
      assert Live(p.calls + [e]) == Live(p.calls);
    }
  }

  /** The resize effect keeps the invariant. */
  lemma SyncSizeValid(p: Panel, size: Size)
    requires Valid(p)
    ensures Valid(SyncSize(p, size))
  {
    if size != p.prevSize && p.chart.Some? {
      var e := Resize(p.chart.value, size);
      AppendCall(p.calls, e);
      assert LogOk(p.calls + [e]);
      assert Created(p.calls + [e]) == Created(p.calls);
      assert Live(p.calls + [e]) == Live(p.calls);
      assert LastSize(p.calls + [e], p.initialSize) == size;
      assert ResizesChangeSize(p.calls + [e], p.initialSize);
    }
  }

  /** Each effect run keeps the invariant. */
  lemma StepValid(p: Panel, e: Event)
    requires Valid(p)
    ensures Valid(Step(p, e))
  {
    match e
    case ContainerChanged(c) => SetContainerValid(p, c);
    case OptionChanged(option) => SyncOptionValid(p, option);
    case SizeChanged(size) => SyncSizeValid(p, size);
  }

  /** Every panel reached from a mount by any sequence of effect runs is valid. */
  lemma {:induction false} RunValid(p: Panel, events: seq<Event>)
    requires Valid(p)
    ensures Valid(Run(p, events))
    decreases |events|
  {
    if events != [] {
      StepValid(p, events[0]);
      RunValid(Step(p, events[0]), events[1..]);
    }
  }

  // ---------------------------------------------------------------------
  // Properties

  /** On a well-formed log, an instance was initialised once if it was created
      and never otherwise, and it was disposed once if it was created and is
      no longer live, and never otherwise. */
  lemma {:induction false} CountsFollowLiveness(log: seq<EngineCall>, id: ChartId)
    requires LogOk(log)
    ensures InitCount(log, id) == if id in Created(log) then 1 else 0
    ensures DisposeCount(log, id) == if id in Created(log) && id !in Live(log) then 1 else 0
    decreases |log|
  {
    if log != [] {
      CountsFollowLiveness(Prefix(log), id);
      LiveAreCreated(Prefix(log));
    }
  }

  /** Unmounting a valid panel leaves no live instance: every instance the
      panel ever created was initialised exactly once and disposed exactly once. */
  lemma UnmountDisposesEveryInstance(p: Panel)
    requires Valid(p)
    ensures Live(Unmount(p).calls) == {}
    ensures LogOk(Unmount(p).calls)
    ensures forall id :: id in Created(Unmount(p).calls) ==>
              InitCount(Unmount(p).calls, id) == 1 && DisposeCount(Unmount(p).calls, id) == 1
  {
    var q := Unmount(p);
    if p.owned.Some? {
      AppendCall(p.calls, Dispose(p.owned.value));
    }
    assert Live(q.calls) == {};
    forall id | id in Created(q.calls)
      ensures InitCount(q.calls, id) == 1 && DisposeCount(q.calls, id) == 1
    {
      CountsFollowLiveness(q.calls, id);
    }
  }

  /** While a container is set, the options go to the one live instance. */
  lemma OptionsReachLiveChart(p: Panel, option: ChartOption)
    requires Valid(p) && p.container.Some?
    ensures Last(SyncOption(p, option).calls) == SetOption(p.owned.value, option)
    ensures Live(p.calls) == {p.owned.value}
  {
  }

  /** A null container creates no instance and leaves the `chart` state as it
      was: after container, then null, an option sync reaches the disposed
      instance 0. */
  lemma NullContainerKeepsDisposedChart(size: Size, element: Container, option: ChartOption)
    ensures var p := SetContainer(SetContainer(Mount(size), Some(element)), None);
            && p.chart == Some(0)
            && 0 !in Live(p.calls)
            && SyncOption(p, option).calls == [Init(element, 0), Dispose(0), SetOption(0, option)]
  {
    var p1 := SetContainer(Mount(size), Some(element));
    assert p1.calls == [Init(element, 0)];
    var p := SetContainer(p1, None);
    assert p.calls == [Init(element, 0), Dispose(0)];
    assert Prefix(p.calls) == p1.calls;
    assert Prefix(p1.calls) == [];
  }

  /** Option and size changes alone never create or dispose an instance. */
  lemma {:induction false} SyncsKeepInstances(p: Panel, events: seq<Event>)
    requires forall i :: 0 <= i < |events| ==> !events[i].ContainerChanged?
    ensures Inits(Run(p, events).calls) == Inits(p.calls)
    ensures Disposes(Run(p, events).calls) == Disposes(p.calls)
    ensures Run(p, events).owned == p.owned
    decreases |events|
  {
    if events != [] {
      var q := Step(p, events[0]);
      match events[0] {
        case OptionChanged(option) =>
          if p.chart.Some? {
            AppendCall(p.calls, SetOption(p.chart.value, option));
          }
        case SizeChanged(size) =>
          if size != p.prevSize && p.chart.Some? {
            AppendCall(p.calls, Resize(p.chart.value, size));
          }
      }
      SyncsKeepInstances(q, events[1..]);
    }
  }

  /** Mounting, attaching a container, updating the data any number of times
      and unmounting makes exactly one Init and exactly one Dispose call. */
  lemma OneCreateOneDispose(size: Size, element: Container, updates: seq<Event>)
    requires forall i :: 0 <= i < |updates| ==> !updates[i].ContainerChanged?
    ensures var p := Unmount(Run(SetContainer(Mount(size), Some(element)), updates));
            Inits(p.calls) == 1 && Disposes(p.calls) == 1
  {
    var p0 := SetContainer(Mount(size), Some(element));
    assert Inits(p0.calls) == 1 && Disposes(p0.calls) == 0 && p0.owned.Some?;
    SyncsKeepInstances(p0, updates);
    var p1 := Run(p0, updates);
    assert Inits(p1.calls) == 1 && Disposes(p1.calls) == 0 && p1.owned.Some?;
  }

  /** No resize is issued for the size last applied. */
  lemma NoResizeForSameSize(p: Panel)
    ensures SyncSize(p, p.prevSize) == p
  {
  }

  /** Along any run, each Resize changes the applied size and `prevSize` is
      the last size applied. */
  lemma RunResizesChangeSize(size: Size, events: seq<Event>)
    ensures var p := Run(Mount(size), events);
            ResizesChangeSize(p.calls, size) && p.prevSize == LastSize(p.calls, size)
  {
    MountValid(size);
    RunValid(Mount(size), events);
    assert Run(Mount(size), events).initialSize == size by {
      RunKeepsInitialSize(Mount(size), events);
    }
  }

  lemma {:induction false} RunKeepsInitialSize(p: Panel, events: seq<Event>)
    ensures Run(p, events).initialSize == p.initialSize
    decreases |events|
  {
    if events != [] {
      RunKeepsInitialSize(Step(p, events[0]), events[1..]);
    }
  }
}
