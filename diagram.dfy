/**
 * The core-system diagram (components/diagram.tsx): a hub ("orchestral")
 * surrounded by six processing cores, a fixed table of connections between
 * them, a tab bar that renames the hub, a rolling window of the two most
 * recently highlighted connections, and a hover machine that starts an
 * "agentic flow" on a core and advances it from gathering to processing.
 *
 * The random pick of the interval timer is a parameter (`pick`); timers are
 * explicit events; a timer handle is a number chosen by the caller.
 */
module Diagram {
  import opened Wrappers

  /** The hub and the six cores, as the connection table names them. */
  datatype Node = Orchestral | Geo | Extraction | Foundry | Manufacturing | Optimization | Circular

  /** The string id the component uses for a node. */
  function NodeId(n: Node): string
  {
    match n
    case Orchestral => "orchestral"
    case Geo => "geo"
    case Extraction => "extraction"
    case Foundry => "foundry"
    case Manufacturing => "manufacturing"
    case Optimization => "optimization"
    case Circular => "circular"
  }

  datatype Point = Point(x: int, y: int)

  datatype Core = Core(id: string, name: string, position: Point)

  datatype CentralCore = CentralCore(name: string, icon: string)

  datatype Tab = Tab(id: string, name: string, centralCore: CentralCore)

  /** A connection is high priority when the table marks it so, normal otherwise. */
  datatype Priority = High | Normal

  datatype Connection = Connection(from: Node, to: Node, description: string, priority: Priority)

  datatype Phase = Gathering | Processing

  datatype Flow = Flow(coreId: string, phase: Phase)

  /** The line drawn for a connection. */
  datatype Path = Path(x1: int, y1: int, x2: int, y2: int)

  const Tabs: seq<Tab> := [
    Tab("Template", "Template", CentralCore("ORCHESTRAL", "\U{1F3BC}")),
    Tab("Carbon", "Carbon", CentralCore("CABAL", "\U{26AB}")),
    Tab("Lithium", "Lithium", CentralCore("LABAL", "\U{1F50B}")),
    Tab("Nickel", "Nickel", CentralCore("NABAL", "\U{1F529}")),
    Tab("Copper", "Copper", CentralCore("CuABAL", "\U{1F7EB}")),
    Tab("Steel", "Steel", CentralCore("SABAL", "\U{1F527}"))
  ]

  const Cores: seq<Core> := [
    Core("geo", "GeoCORE", Point(50, 15)),
    Core("extraction", "ExtractionCORE", Point(85, 35)),
    Core("foundry", "FoundryCORE", Point(85, 65)),
    Core("manufacturing", "ManufacturingCORE", Point(50, 85)),
    Core("optimization", "OptimizationCORE", Point(15, 65)),
    Core("circular", "CircularCORE", Point(15, 35))
  ]

  /** Where the hub is drawn. */
  const HubPosition := Point(50, 50)

  const Connections: seq<Connection> := [
    Connection(Geo, Orchestral, "Mineral discovery coordination", High),
    Connection(Extraction, Foundry, "Material preparation for design", High),
    Connection(Manufacturing, Orchestral, "Production planning coordination", High),
    Connection(Optimization, Circular, "Lifecycle optimization planning", High),
    Connection(Orchestral, Geo, "Strategic mineral guidance", High),
    Connection(Foundry, Extraction, "Material requirements feedback", High),
    Connection(Orchestral, Manufacturing, "Production coordination", High),
    Connection(Circular, Optimization, "End-of-life optimization", High),
    Connection(Extraction, Orchestral, "Processing optimization coordination", Normal),
    Connection(Foundry, Orchestral, "Product design coordination", Normal),
    Connection(Optimization, Orchestral, "Performance optimization coordination", Normal),
    Connection(Circular, Orchestral, "Sustainability coordination", Normal),
    Connection(Geo, Extraction, "Raw material sourcing to extraction", Normal),
    Connection(Foundry, Manufacturing, "Design to production handoff", Normal),
    Connection(Manufacturing, Optimization, "Factory optimization integration", Normal),
    Connection(Circular, Geo, "Circular sourcing strategies", Normal),
    Connection(Extraction, Geo, "Extraction feedback to sourcing", Normal),
    Connection(Manufacturing, Foundry, "Production constraints feedback", Normal),
    Connection(Optimization, Manufacturing, "Real-time factory optimization", Normal),
    Connection(Geo, Circular, "Sustainability planning integration", Normal)
  ]

  // -----------------------------------------------------------------------
  // Lookups

  /** The first tab with the id, if any. */
  function FindTab(tabs: seq<Tab>, id: string): Option<Tab>
  {
    if tabs == [] then None
    else if tabs[0].id == id then Some(tabs[0])
    else FindTab(tabs[1..], id)
  }

  /** `getCurrentCentralCore`: the active tab's hub, or the first tab's when no tab has that id. */
  function CurrentCentralCore(activeTab: string): CentralCore
  {
    match FindTab(Tabs, activeTab)
    case Some(t) => t.centralCore
    case None => Tabs[0].centralCore
  }

  /** The first core with the id, if any. */
  function FindCore(cores: seq<Core>, id: string): Option<Core>
  {
    if cores == [] then None
    else if cores[0].id == id then Some(cores[0])
    else FindCore(cores[1..], id)
  }

  /** The position of an endpoint: the hub's for "orchestral", otherwise the core's with that id. */
  function PositionOf(id: string): Option<Point>
  {
    if id == "orchestral" then Some(HubPosition)
    else match FindCore(Cores, id)
      case Some(c) => Some(c.position)
      case None => None
  }

  /**
   * `getConnectionPath`: the line between two endpoints. The component
   * reads the position of whatever the lookup returns, so an unknown id
   * would fail; here that is `None`.
   */
  function ConnectionPath(from: string, to: string): Option<Path>
  {
    match (PositionOf(from), PositionOf(to))
    case (Some(a), Some(b)) => Some(Path(a.x, a.y, b.x, b.y))
    case _ => None
  }

  /** `[...prev, c].slice(-2)`: the two most recent entries. */
  function LastTwo(s: seq<Connection>): (r: seq<Connection>)
  {
    if |s| <= 2 then s else s[|s| - 2..]
  }

  /** The phase-advance timer's update: a flow moves on to processing; no flow stays none. */
  function Advance(flow: Option<Flow>): Option<Flow>
  {
    match flow
    case Some(f) => Some(f.(phase := Processing))
    case None => None
  }

  // -----------------------------------------------------------------------
  // The component's state

  class DiagramState {
    var hoveredCore: Option<string>
    var activeConnections: seq<Connection>
    var agenticFlow: Option<Flow>
    /** The handle of the last leave timer started. */
    var hoverTimeout: Option<nat>
    /** The leave timers started and neither fired nor cancelled. */
    var liveLeaveTimers: set<nat>
    var activeTab: string

    predicate Valid()
      reads this
    {
      && |activeConnections| <= 2
      && (forall i :: 0 <= i < |activeConnections| ==> activeConnections[i] in Connections)
    }

    constructor()
      ensures Valid()
      ensures hoveredCore == None && activeConnections == [] && agenticFlow == None
      ensures hoverTimeout == None && liveLeaveTimers == {} && activeTab == "Template"
    {
      hoveredCore := None;
      activeConnections := [];
      agenticFlow := None;
      hoverTimeout := None;
      liveLeaveTimers := {};
      activeTab := "Template";
    }

    method SelectTab(id: string)
      modifies this
      ensures activeTab == id
      ensures hoveredCore == old(hoveredCore) && agenticFlow == old(agenticFlow)
      ensures activeConnections == old(activeConnections) && liveLeaveTimers == old(liveLeaveTimers)
      ensures hoverTimeout == old(hoverTimeout)
    {
      activeTab := id;
    }

    /** The interval timer fires and picked connection `pick` joins the window of two. */
    method Tick(pick: nat)
      requires Valid() && pick < |Connections|
      modifies this
      ensures Valid()
      ensures activeConnections == LastTwo(old(activeConnections) + [Connections[pick]])
      ensures activeConnections[|activeConnections| - 1] == Connections[pick]
      ensures hoveredCore == old(hoveredCore) && agenticFlow == old(agenticFlow)
      ensures liveLeaveTimers == old(liveLeaveTimers) && hoverTimeout == old(hoverTimeout)
      ensures activeTab == old(activeTab)
    {
      LastTwoWindow(activeConnections, Connections[pick]);
      activeConnections := LastTwo(activeConnections + [Connections[pick]]);
    }

    /**
     * `handleMouseEnter`: cancels the last leave timer, marks the node
     * hovered, and starts a gathering flow unless the node is the hub.
     */
    method MouseEnter(coreId: string)
      modifies this
      ensures hoveredCore == Some(coreId)
      ensures coreId != "orchestral" ==> agenticFlow == Some(Flow(coreId, Gathering))
      ensures coreId == "orchestral" ==> agenticFlow == old(agenticFlow)
      ensures liveLeaveTimers == if old(hoverTimeout).Some? then old(liveLeaveTimers) - {old(hoverTimeout).value} else old(liveLeaveTimers)
      ensures hoverTimeout.Some? ==> hoverTimeout.value !in liveLeaveTimers
      ensures hoverTimeout == old(hoverTimeout) && activeConnections == old(activeConnections) && activeTab == old(activeTab)
    {
      if hoverTimeout.Some? {
        liveLeaveTimers := liveLeaveTimers - {hoverTimeout.value};
      }
      hoveredCore := Some(coreId);
      if coreId != "orchestral" {
        agenticFlow := Some(Flow(coreId, Gathering));
      }
    }

    /** `handleMouseLeave`: starts leave timer `timer` and remembers it. */
    method MouseLeave(timer: nat)
      requires timer !in liveLeaveTimers
      modifies this
      ensures liveLeaveTimers == old(liveLeaveTimers) + {timer}
      ensures hoverTimeout == Some(timer)
      ensures hoveredCore == old(hoveredCore) && agenticFlow == old(agenticFlow)
      ensures activeConnections == old(activeConnections) && activeTab == old(activeTab)
    {
      liveLeaveTimers := liveLeaveTimers + {timer};
      hoverTimeout := Some(timer);
    }

    /** A leave timer that was not cancelled fires: nothing is hovered and the flow stops. */
    method LeaveTimerFires(timer: nat)
      requires timer in liveLeaveTimers
      modifies this
      ensures hoveredCore == None && agenticFlow == None
      ensures liveLeaveTimers == old(liveLeaveTimers) - {timer}
      ensures hoverTimeout == old(hoverTimeout) && activeConnections == old(activeConnections) && activeTab == old(activeTab)
    {
      hoveredCore := None;
      agenticFlow := None;
      liveLeaveTimers := liveLeaveTimers - {timer};
    }

    /** The phase timer, armed while the flow is gathering, fires: the flow moves on to processing. */
    method PhaseTimerFires()
      requires agenticFlow.Some? && agenticFlow.value.phase == Gathering
      modifies this
      ensures agenticFlow == Advance(old(agenticFlow))
      ensures agenticFlow == Some(Flow(old(agenticFlow).value.coreId, Processing))
      ensures hoveredCore == old(hoveredCore) && liveLeaveTimers == old(liveLeaveTimers)
      ensures hoverTimeout == old(hoverTimeout) && activeConnections == old(activeConnections) && activeTab == old(activeTab)
    {
      agenticFlow := Advance(agenticFlow);
    }
  }

  // -----------------------------------------------------------------------
  // Lemmas

  /** The window keeps at most two entries, ends with the new one, and drops the oldest first. */
  lemma LastTwoWindow(s: seq<Connection>, c: Connection)
    requires |s| <= 2
    ensures |LastTwo(s + [c])| <= 2
    ensures LastTwo(s + [c])[|LastTwo(s + [c])| - 1] == c
    ensures |s| < 2 ==> LastTwo(s + [c]) == s + [c]
    ensures |s| == 2 ==> LastTwo(s + [c]) == [s[1], c]
    ensures forall x :: x in LastTwo(s + [c]) ==> x in s || x == c
  {
    if |s| == 2 {
      assert (s + [c])[1..] == [s[1], c];
    }
  }

  /** `FindTab` finds the first tab with the id, and fails only when no tab has it. */
  lemma {:induction false} FindTabIff(tabs: seq<Tab>, id: string)
    ensures FindTab(tabs, id).Some? <==> exists i :: 0 <= i < |tabs| && tabs[i].id == id
    ensures FindTab(tabs, id).Some? ==> FindTab(tabs, id).value in tabs && FindTab(tabs, id).value.id == id
  {
    if tabs != [] {
      FindTabIff(tabs[1..], id);
      if tabs[0].id != id && exists i :: 0 <= i < |tabs| && tabs[i].id == id {
        var i :| 0 <= i < |tabs| && tabs[i].id == id;
        assert tabs[1..][i - 1].id == id;
      }
    }
  }

  /** The hub shown is the active tab's, or the first tab's ("ORCHESTRAL") when no tab has the id. */
  lemma CentralCoreOfTab(activeTab: string)
    ensures (exists i :: 0 <= i < |Tabs| && Tabs[i].id == activeTab) ==>
              exists i :: 0 <= i < |Tabs| && Tabs[i].id == activeTab && CurrentCentralCore(activeTab) == Tabs[i].centralCore
    ensures (forall i :: 0 <= i < |Tabs| ==> Tabs[i].id != activeTab) ==>
              CurrentCentralCore(activeTab) == Tabs[0].centralCore && CurrentCentralCore(activeTab).name == "ORCHESTRAL"
  {
    FindTabIff(Tabs, activeTab);
    if FindTab(Tabs, activeTab).Some? {
      var t := FindTab(Tabs, activeTab).value;
      var i :| 0 <= i < |Tabs| && Tabs[i] == t;
    }
  }

  /** The Lithium tab renames the hub "LABAL". */
  lemma LithiumTabShowsLabal()
    ensures CurrentCentralCore("Lithium").name == "LABAL"
  {
    var ts := Tabs;
    assert ts[0].id != "Lithium" && ts[1].id != "Lithium" by {
      assert |ts[0].id| != |"Lithium"|;
      assert ts[1].id[0] != "Lithium"[0];
    }
    assert ts[2].id == "Lithium";
    assert FindTab(ts, "Lithium") == FindTab(ts[1..], "Lithium") == FindTab(ts[2..], "Lithium");
  }

  /** Every core id finds its core. */
  lemma {:induction false} FindCoreIff(cores: seq<Core>, id: string)
    ensures FindCore(cores, id).Some? <==> exists i :: 0 <= i < |cores| && cores[i].id == id
    ensures FindCore(cores, id).Some? ==> FindCore(cores, id).value in cores && FindCore(cores, id).value.id == id
  {
    if cores != [] {
      FindCoreIff(cores[1..], id);
      if cores[0].id != id && exists i :: 0 <= i < |cores| && cores[i].id == id {
        var i :| 0 <= i < |cores| && cores[i].id == id;
        assert cores[1..][i - 1].id == id;
      }
    }
  }

  /** Every node has a position: the hub at (50, 50), each core where the core table puts it. */
  lemma NodeHasPosition(n: Node)
    ensures PositionOf(NodeId(n)).Some?
    ensures n == Orchestral ==> PositionOf(NodeId(n)) == Some(Point(50, 50))
    ensures n != Orchestral ==> exists i :: 0 <= i < |Cores| && Cores[i].id == NodeId(n) && PositionOf(NodeId(n)) == Some(Cores[i].position)
  {
    var cs := Cores;
    if n != Orchestral {
      var i := match n
        case Geo => 0 case Extraction => 1 case Foundry => 2
        case Manufacturing => 3 case Optimization => 4 case _ => 5;
      assert cs[i].id == NodeId(n);
      FindCoreIff(cs, NodeId(n));
      var c := FindCore(cs, NodeId(n)).value;
      var j :| 0 <= j < |cs| && cs[j] == c;
      assert NodeId(n) != "orchestral" by {
        assert |NodeId(n)| != 10 || NodeId(n)[0] != 'o';
      }
    }
  }

  /** Every connection in the table has a path: the lookup in `getConnectionPath` never fails. */
  lemma EveryConnectionHasPath(k: nat)
    requires k < |Connections|
    ensures ConnectionPath(NodeId(Connections[k].from), NodeId(Connections[k].to)).Some?
  {
    NodeHasPosition(Connections[k].from);
    NodeHasPosition(Connections[k].to);
  }

  /** Every high-priority connection a→b has a high-priority reverse b→a. */
  lemma HighPriorityReversible(k: nat)
    requires k < |Connections| && Connections[k].priority == High
    ensures exists j :: 0 <= j < |Connections| && Connections[j].priority == High
                        && Connections[j].from == Connections[k].to && Connections[j].to == Connections[k].from
  {
    var cs := Connections;
    assert k < 8;
    var j := if k < 4 then k + 4 else k - 4;
    assert cs[j].priority == High && cs[j].from == cs[k].to && cs[j].to == cs[k].from;
  }

  /** No two connections join the same ordered pair, so `from-to` is a usable key. */
  lemma ConnectionPairsDistinct(i: nat, j: nat)
    requires i < j < |Connections|
    ensures (Connections[i].from, Connections[i].to) != (Connections[j].from, Connections[j].to)
  {
    ConnectionAtIdentifies(i);
    ConnectionAtIdentifies(j);
  }

  /** Looking up a connection's two endpoints gives back its own position in the table. */
  lemma ConnectionAtIdentifies(k: nat)
    requires k < |Connections|
    ensures ConnectionAt(Connections[k].from, Connections[k].to) == k
  {
  }

  /** The position in the table of the connection from `a` to `b` (-1 if there is none). */
  function ConnectionAt(a: Node, b: Node): int
  {
    match a
    case Orchestral => if b == Geo then 4 else if b == Manufacturing then 6 else -1
    case Geo => if b == Orchestral then 0 else if b == Extraction then 12 else if b == Circular then 19 else -1
    case Extraction => if b == Foundry then 1 else if b == Orchestral then 8 else if b == Geo then 16 else -1
    case Foundry => if b == Extraction then 5 else if b == Orchestral then 9 else if b == Manufacturing then 13 else -1
    case Manufacturing => if b == Orchestral then 2 else if b == Optimization then 14 else if b == Foundry then 17 else -1
    case Optimization => if b == Circular then 3 else if b == Orchestral then 10 else if b == Manufacturing then 18 else -1
    case Circular => if b == Optimization then 7 else if b == Orchestral then 11 else if b == Geo then 15 else -1
  }

  /** The phase only moves forward: advancing yields processing, keeps the core, and leaves no flow as none. */
  lemma AdvanceOnlyForward(flow: Option<Flow>)
    ensures flow.None? <==> Advance(flow).None?
    ensures Advance(flow).Some? ==> Advance(flow).value.phase == Processing && Advance(flow).value.coreId == flow.value.coreId
    ensures Advance(Advance(flow)) == Advance(flow)
  {
  }
}
