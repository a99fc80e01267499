/**
 * The routing service's handlers (services/routing-go/main.go): the seed
 * graph of Arizona cities built at start-up, the JSON route endpoint and the
 * query-string endpoint that also returns an interpolated road geometry.
 *
 * HTTP plumbing is reduced to values: a decoded request body is a `Result`,
 * an error response is its status code and message, and the global graph is
 * passed to each handler.
 */
module RoutingService {
  import opened Wrappers
  import opened Geo
  import opened RoutingGraph
  import opened RoutingSearch

  // ---------------------------------------------------------------------
  // The seed graph

  /** The ids of the sixteen cities `init` adds. */
  const CityIds: set<string> := {
    "phx", "phx-airport", "tempe", "mesa", "scottsdale", "glendale", "chandler",
    "tucson", "yuma", "casa-grande",
    "flagstaff", "sedona", "grand-canyon", "prescott", "page",
    "show-low"
  }

  /** The sixteen cities `init` adds, keyed by id. */
  const CityNodes: map<string, Node> := map[
    "phx" := Node("phx", "Phoenix Downtown", 33.4484, -112.0740),
    "phx-airport" := Node("phx-airport", "Phoenix Sky Harbor", 33.4373, -112.0078),
    "tempe" := Node("tempe", "Tempe (ASU)", 33.4255, -111.9400),
    "mesa" := Node("mesa", "Mesa", 33.4152, -111.8315),
    "scottsdale" := Node("scottsdale", "Scottsdale", 33.4942, -111.9261),
    "glendale" := Node("glendale", "Glendale", 33.5387, -112.1859),
    "chandler" := Node("chandler", "Chandler", 33.3062, -111.8413),
    "tucson" := Node("tucson", "Tucson", 32.2226, -110.9747),
    "yuma" := Node("yuma", "Yuma", 32.6927, -114.6277),
    "casa-grande" := Node("casa-grande", "Casa Grande", 32.8795, -111.7574),
    "flagstaff" := Node("flagstaff", "Flagstaff", 35.1983, -111.6513),
    "sedona" := Node("sedona", "Sedona", 34.8697, -111.7610),
    "grand-canyon" := Node("grand-canyon", "Grand Canyon", 36.0544, -112.1401),
    "prescott" := Node("prescott", "Prescott", 34.5400, -112.4685),
    "page" := Node("page", "Page (Lake Powell)", 36.9147, -111.4558),
    "show-low" := Node("show-low", "Show Low", 34.2542, -110.0298)
  ]
  /** The adjacency list of Phoenix Downtown after `init`, in insertion order;
      the road to Glendale is added twice (I-10 West repeats it). */
  const PhoenixEdges: seq<Edge> := [
    Edge("phx", "phx-airport", 8.0),
    Edge("phx", "tempe", 12.0),
    Edge("phx", "scottsdale", 15.0),
    Edge("phx", "glendale", 14.0),
    Edge("phx", "glendale", 14.0),
    Edge("phx", "casa-grande", 70.0),
    Edge("phx", "prescott", 100.0)
  ]

  /** The graph holds exactly the sixteen cities, each under its own id, and
      every road between them so far has a positive length. */
  ghost predicate Seeded(nodes: map<string, Node>, edges: map<string, seq<Edge>>)
  {
    && nodes.Keys == CityIds
    && (forall id :: id in nodes ==> nodes[id].id == id)
    && Closed(nodes, edges) && PositiveWeights(edges)
  }

  /** The cities alone, before any road, form a seeded graph. */
  lemma CityNodesSeeded()
    ensures Seeded(CityNodes, map[])
  {
    CityNodesKeys();
    CityNodesKeyed();
  }

  lemma CityNodesKeys()
    ensures CityNodes.Keys == CityIds
  {
  }

  /** Each city is stored under its own id. */
  lemma CityNodesKeyed()
    ensures forall id :: id in CityNodes ==> CityNodes[id].id == id
  {
  }

  // The adjacency lists after each section of `init`'s `AddEdge` calls.

  /** Phoenix Metro connections (I-10, I-17, US-60, Loop 101/202). */
  function MetroRoads(e: map<string, seq<Edge>>): map<string, seq<Edge>>
  {
    var e1 := WithEdge(e, "phx", "phx-airport", 8.0);
    var e2 := WithEdge(e1, "phx", "tempe", 12.0);
    var e3 := WithEdge(e2, "phx", "scottsdale", 15.0);
    var e4 := WithEdge(e3, "phx", "glendale", 14.0);
    var e5 := WithEdge(e4, "phx-airport", "tempe", 6.0);
    var e6 := WithEdge(e5, "tempe", "mesa", 10.0);
    var e7 := WithEdge(e6, "tempe", "chandler", 12.0);
    var e8 := WithEdge(e7, "mesa", "chandler", 8.0);
    WithEdge(e8, "scottsdale", "tempe", 10.0)
  }

  /** I-10 West, Phoenix to Yuma; repeats the Phoenix-Glendale road. */
  function WestRoads(e: map<string, seq<Edge>>): map<string, seq<Edge>>
  {
    var e1 := WithEdge(e, "phx", "glendale", 14.0);
    WithEdge(e1, "glendale", "yuma", 180.0)
  }

  /** I-10 East/South, Phoenix to Tucson. */
  function SouthRoads(e: map<string, seq<Edge>>): map<string, seq<Edge>>
  {
    var e1 := WithEdge(e, "phx", "casa-grande", 70.0);
    var e2 := WithEdge(e1, "chandler", "casa-grande", 45.0);
    WithEdge(e2, "casa-grande", "tucson", 65.0)
  }

  /** I-17 North, Phoenix to Flagstaff. */
  function NorthRoads(e: map<string, seq<Edge>>): map<string, seq<Edge>>
  {
    var e1 := WithEdge(e, "phx", "prescott", 100.0);
    var e2 := WithEdge(e1, "prescott", "sedona", 60.0);
    WithEdge(e2, "sedona", "flagstaff", 45.0)
  }

  /** US-89 North, Flagstaff to the Grand Canyon and Page. */
  function CanyonRoads(e: map<string, seq<Edge>>): map<string, seq<Edge>>
  {
    var e1 := WithEdge(e, "flagstaff", "grand-canyon", 80.0);
    var e2 := WithEdge(e1, "flagstaff", "page", 135.0);
    WithEdge(e2, "grand-canyon", "page", 140.0)
  }

  /** US-60 East, Phoenix to Show Low. */
  function EastRoads(e: map<string, seq<Edge>>): map<string, seq<Edge>>
  {
    var e1 := WithEdge(e, "mesa", "show-low", 175.0);
    WithEdge(e1, "show-low", "flagstaff", 125.0)
  }

  /** The adjacency lists `init` builds: the six sections in order. */
  function CityEdges(): map<string, seq<Edge>>
  {
    EastRoads(CanyonRoads(NorthRoads(SouthRoads(WestRoads(MetroRoads(NoRoads()))))))
  }

  /** The adjacency lists before `init` adds any road. */
  function NoRoads(): map<string, seq<Edge>>
  {
    map[]
  }

  /** A road between two cities, of positive length, keeps the graph seeded. */
  lemma SeededStep(e: map<string, seq<Edge>>, from: string, to: string, weight: real)
    requires Seeded(CityNodes, e) && from in CityIds && to in CityIds && weight > 0.0
    ensures Seeded(CityNodes, WithEdge(e, from, to, weight))
  {
    CityNodesKeys();
    WithEdgeKeepsClosed(CityNodes, e, from, to, weight);
  }

  lemma MetroRoadsSeeded(e: map<string, seq<Edge>>)
    requires Seeded(CityNodes, e)
    ensures Seeded(CityNodes, MetroRoads(e))
  {
    SeededStep(e, "phx", "phx-airport", 8.0);
    var e1 := WithEdge(e, "phx", "phx-airport", 8.0);
    SeededStep(e1, "phx", "tempe", 12.0);
    var e2 := WithEdge(e1, "phx", "tempe", 12.0);
    SeededStep(e2, "phx", "scottsdale", 15.0);
    var e3 := WithEdge(e2, "phx", "scottsdale", 15.0);
    SeededStep(e3, "phx", "glendale", 14.0);
    var e4 := WithEdge(e3, "phx", "glendale", 14.0);
    SeededStep(e4, "phx-airport", "tempe", 6.0);
    var e5 := WithEdge(e4, "phx-airport", "tempe", 6.0);
    SeededStep(e5, "tempe", "mesa", 10.0);
    var e6 := WithEdge(e5, "tempe", "mesa", 10.0);
    SeededStep(e6, "tempe", "chandler", 12.0);
    var e7 := WithEdge(e6, "tempe", "chandler", 12.0);
    SeededStep(e7, "mesa", "chandler", 8.0);
    var e8 := WithEdge(e7, "mesa", "chandler", 8.0);
    SeededStep(e8, "scottsdale", "tempe", 10.0);
  }

  lemma WestRoadsSeeded(e: map<string, seq<Edge>>)
    requires Seeded(CityNodes, e)
    ensures Seeded(CityNodes, WestRoads(e))
  {
    SeededStep(e, "phx", "glendale", 14.0);
    var e1 := WithEdge(e, "phx", "glendale", 14.0);
    SeededStep(e1, "glendale", "yuma", 180.0);
  }

  lemma SouthRoadsSeeded(e: map<string, seq<Edge>>)
    requires Seeded(CityNodes, e)
    ensures Seeded(CityNodes, SouthRoads(e))
  {
    SeededStep(e, "phx", "casa-grande", 70.0);
    var e1 := WithEdge(e, "phx", "casa-grande", 70.0);
    SeededStep(e1, "chandler", "casa-grande", 45.0);
    var e2 := WithEdge(e1, "chandler", "casa-grande", 45.0);
    SeededStep(e2, "casa-grande", "tucson", 65.0);
  }

  lemma NorthRoadsSeeded(e: map<string, seq<Edge>>)
    requires Seeded(CityNodes, e)
    ensures Seeded(CityNodes, NorthRoads(e))
  {
    SeededStep(e, "phx", "prescott", 100.0);
    var e1 := WithEdge(e, "phx", "prescott", 100.0);
    SeededStep(e1, "prescott", "sedona", 60.0);
    var e2 := WithEdge(e1, "prescott", "sedona", 60.0);
    SeededStep(e2, "sedona", "flagstaff", 45.0);
  }

  lemma CanyonRoadsSeeded(e: map<string, seq<Edge>>)
    requires Seeded(CityNodes, e)
    ensures Seeded(CityNodes, CanyonRoads(e))
  {
    SeededStep(e, "flagstaff", "grand-canyon", 80.0);
    var e1 := WithEdge(e, "flagstaff", "grand-canyon", 80.0);
    SeededStep(e1, "flagstaff", "page", 135.0);
    var e2 := WithEdge(e1, "flagstaff", "page", 135.0);
    SeededStep(e2, "grand-canyon", "page", 140.0);
  }

  lemma EastRoadsSeeded(e: map<string, seq<Edge>>)
    requires Seeded(CityNodes, e)
    ensures Seeded(CityNodes, EastRoads(e))
  {
    SeededStep(e, "mesa", "show-low", 175.0);
    var e1 := WithEdge(e, "mesa", "show-low", 175.0);
    SeededStep(e1, "show-low", "flagstaff", 125.0);
  }

  /** Every road of `init` joins two of its cities and has a positive length. */
  lemma CityEdgesSeeded()
    ensures Seeded(CityNodes, CityEdges())
  {
    CityNodesSeeded();
    var e1 := MetroRoads(NoRoads());
    MetroRoadsSeeded(NoRoads());
    var e2 := WestRoads(e1);
    WestRoadsSeeded(e1);
    var e3 := SouthRoads(e2);
    SouthRoadsSeeded(e2);
    var e4 := NorthRoads(e3);
    NorthRoadsSeeded(e3);
    CanyonRoadsSeeded(e4);
    EastRoadsSeeded(CanyonRoads(e4));
  }

  lemma MetroRoadsLists(e: map<string, seq<Edge>>)
    ensures EdgesOf(MetroRoads(e), "phx") == EdgesOf(e, "phx") + PhoenixEdges[..4]
    ensures EdgesOf(MetroRoads(e), "glendale") == EdgesOf(e, "glendale") + [Edge("glendale", "phx", 14.0)]
  {
  }

  lemma WestRoadsLists(e: map<string, seq<Edge>>)
    ensures EdgesOf(WestRoads(e), "phx") == EdgesOf(e, "phx") + [PhoenixEdges[4]]
    ensures EdgesOf(WestRoads(e), "glendale") == EdgesOf(e, "glendale") + [Edge("glendale", "phx", 14.0), Edge("glendale", "yuma", 180.0)]
  {
  }

  lemma SouthRoadsLists(e: map<string, seq<Edge>>)
    ensures EdgesOf(SouthRoads(e), "phx") == EdgesOf(e, "phx") + [PhoenixEdges[5]]
    ensures EdgesOf(SouthRoads(e), "glendale") == EdgesOf(e, "glendale")
  {
  }

  lemma NorthRoadsLists(e: map<string, seq<Edge>>)
    ensures EdgesOf(NorthRoads(e), "phx") == EdgesOf(e, "phx") + [PhoenixEdges[6]]
    ensures EdgesOf(NorthRoads(e), "glendale") == EdgesOf(e, "glendale")
  {
  }

  lemma CanyonRoadsLists(e: map<string, seq<Edge>>)
    ensures EdgesOf(CanyonRoads(e), "phx") == EdgesOf(e, "phx")
    ensures EdgesOf(CanyonRoads(e), "glendale") == EdgesOf(e, "glendale")
  {
  }

  lemma EastRoadsLists(e: map<string, seq<Edge>>)
    ensures EdgesOf(EastRoads(e), "phx") == EdgesOf(e, "phx")
    ensures EdgesOf(EastRoads(e), "glendale") == EdgesOf(e, "glendale")
  {
  }

  /** Phoenix's list holds the Glendale road twice, and so does Glendale's. */
  lemma CityEdgesLists()
    ensures EdgesOf(CityEdges(), "phx") == PhoenixEdges
    ensures EdgesOf(CityEdges(), "glendale") == [Edge("glendale", "phx", 14.0), Edge("glendale", "phx", 14.0), Edge("glendale", "yuma", 180.0)]
  {
    CityPhoenixList();
    CityGlendaleList();
  }

  lemma CityPhoenixList()
    ensures EdgesOf(CityEdges(), "phx") == PhoenixEdges
  {
    var e1 := MetroRoads(NoRoads());
    MetroRoadsLists(NoRoads());
    assert EdgesOf(e1, "phx") == PhoenixEdges[..4];
    var e2 := WestRoads(e1);
    WestRoadsLists(e1);
    assert EdgesOf(e2, "phx") == PhoenixEdges[..5];
    var e3 := SouthRoads(e2);
    SouthRoadsLists(e2);
    assert EdgesOf(e3, "phx") == PhoenixEdges[..6];
    var e4 := NorthRoads(e3);
    NorthRoadsLists(e3);
    assert EdgesOf(e4, "phx") == PhoenixEdges;
    var e5 := CanyonRoads(e4);
    CanyonRoadsLists(e4);
    assert EdgesOf(e5, "phx") == PhoenixEdges;
    EastRoadsLists(e5);
  }

  lemma CityGlendaleList()
    ensures EdgesOf(CityEdges(), "glendale") == [Edge("glendale", "phx", 14.0), Edge("glendale", "phx", 14.0), Edge("glendale", "yuma", 180.0)]
  {
    var glendale := Edge("glendale", "phx", 14.0);
    var e1 := MetroRoads(NoRoads());
    MetroRoadsLists(NoRoads());
    assert EdgesOf(e1, "glendale") == [glendale];
    var e2 := WestRoads(e1);
    WestRoadsLists(e1);
    var glendaleList := [glendale, glendale, Edge("glendale", "yuma", 180.0)];
    assert EdgesOf(e2, "glendale") == glendaleList;
    var e3 := SouthRoads(e2);
    SouthRoadsLists(e2);
    var e4 := NorthRoads(e3);
    NorthRoadsLists(e3);
    assert EdgesOf(e4, "glendale") == glendaleList;
    var e5 := CanyonRoads(e4);
    CanyonRoadsLists(e4);
    EastRoadsLists(e5);
  }

  /** Phoenix Metro connections (I-10, I-17, US-60, Loop 101/202). */
  method AddMetroRoads(g: Graph)
    modifies g
    ensures g.nodes == old(g.nodes) && g.edges == MetroRoads(old(g.edges))
  {
    g.AddEdge("phx", "phx-airport", 8.0);
    g.AddEdge("phx", "tempe", 12.0);
    g.AddEdge("phx", "scottsdale", 15.0);
    g.AddEdge("phx", "glendale", 14.0);
    g.AddEdge("phx-airport", "tempe", 6.0);
    g.AddEdge("tempe", "mesa", 10.0);
    g.AddEdge("tempe", "chandler", 12.0);
    g.AddEdge("mesa", "chandler", 8.0);
    g.AddEdge("scottsdale", "tempe", 10.0);
  }

  /** I-10 West, Phoenix to Yuma; repeats the Phoenix-Glendale road. */
  method AddWestRoads(g: Graph)
    modifies g
    ensures g.nodes == old(g.nodes) && g.edges == WestRoads(old(g.edges))
  {
    g.AddEdge("phx", "glendale", 14.0);
    g.AddEdge("glendale", "yuma", 180.0);
  }

  /** I-10 East/South, Phoenix to Tucson. */
  method AddSouthRoads(g: Graph)
    modifies g
    ensures g.nodes == old(g.nodes) && g.edges == SouthRoads(old(g.edges))
  {
    g.AddEdge("phx", "casa-grande", 70.0);
    g.AddEdge("chandler", "casa-grande", 45.0);
    g.AddEdge("casa-grande", "tucson", 65.0);
  }

  /** I-17 North, Phoenix to Flagstaff. */
  method AddNorthRoads(g: Graph)
    modifies g
    ensures g.nodes == old(g.nodes) && g.edges == NorthRoads(old(g.edges))
  {
    g.AddEdge("phx", "prescott", 100.0);
    g.AddEdge("prescott", "sedona", 60.0);
    g.AddEdge("sedona", "flagstaff", 45.0);
  }

  /** US-89 North, Flagstaff to the Grand Canyon and Page. */
  method AddCanyonRoads(g: Graph)
    modifies g
    ensures g.nodes == old(g.nodes) && g.edges == CanyonRoads(old(g.edges))
  {
    g.AddEdge("flagstaff", "grand-canyon", 80.0);
    g.AddEdge("flagstaff", "page", 135.0);
    g.AddEdge("grand-canyon", "page", 140.0);
  }

  /** US-60 East, Phoenix to Show Low. */
  method AddEastRoads(g: Graph)
    modifies g
    ensures g.nodes == old(g.nodes) && g.edges == EastRoads(old(g.edges))
  {
    g.AddEdge("mesa", "show-low", 175.0);
    g.AddEdge("show-low", "flagstaff", 125.0);
  }

  /** `init`: the sixteen cities, then the twenty-two roads between them. */
  method InitCityGraph() returns (g: Graph)
    ensures fresh(g)
    ensures g.nodes == CityNodes && g.edges == CityEdges()
    ensures Seeded(g.nodes, g.edges)
    ensures EdgesOf(g.edges, "phx") == PhoenixEdges
    ensures EdgesOf(g.edges, "glendale") == [Edge("glendale", "phx", 14.0), Edge("glendale", "phx", 14.0), Edge("glendale", "yuma", 180.0)]
  {
    g := new Graph();

    // Phoenix Metro Area
    g.AddNode(Node("phx", "Phoenix Downtown", 33.4484, -112.0740));
    g.AddNode(Node("phx-airport", "Phoenix Sky Harbor", 33.4373, -112.0078));
    g.AddNode(Node("tempe", "Tempe (ASU)", 33.4255, -111.9400));
    g.AddNode(Node("mesa", "Mesa", 33.4152, -111.8315));
    g.AddNode(Node("scottsdale", "Scottsdale", 33.4942, -111.9261));
    g.AddNode(Node("glendale", "Glendale", 33.5387, -112.1859));
    g.AddNode(Node("chandler", "Chandler", 33.3062, -111.8413));

    // Southern Arizona
    g.AddNode(Node("tucson", "Tucson", 32.2226, -110.9747));
    g.AddNode(Node("yuma", "Yuma", 32.6927, -114.6277));
    g.AddNode(Node("casa-grande", "Casa Grande", 32.8795, -111.7574));

    // Northern Arizona
    g.AddNode(Node("flagstaff", "Flagstaff", 35.1983, -111.6513));
    g.AddNode(Node("sedona", "Sedona", 34.8697, -111.7610));
    g.AddNode(Node("grand-canyon", "Grand Canyon", 36.0544, -112.1401));
    g.AddNode(Node("prescott", "Prescott", 34.5400, -112.4685));
    g.AddNode(Node("page", "Page (Lake Powell)", 36.9147, -111.4558));

    // Eastern Arizona
    g.AddNode(Node("show-low", "Show Low", 34.2542, -110.0298));

    AddMetroRoads(g);
    AddWestRoads(g);
    AddSouthRoads(g);
    AddNorthRoads(g);
    AddCanyonRoads(g);
    AddEastRoads(g);
    CityEdgesSeeded();
    CityEdgesLists();
  }

  // ---------------------------------------------------------------------
  // Road geometry

  /** A node's position as the service emits it, `[Lat, Lon]`. */
  function Position(n: Node): Coord
  {
    Coord(n.lat, n.lon)
  }

  /** The positions of the path's nodes, in order. */
  function Waypoints(nodes: map<string, Node>, path: seq<string>): (ws: seq<Coord>)
    requires forall i :: 0 <= i < |path| ==> path[i] in nodes
    ensures |ws| == |path|
    ensures forall i :: 0 <= i < |path| ==> ws[i] == Position(nodes[path[i]])
  {
    seq(|path|, i requires 0 <= i < |path| => Position(nodes[path[i]]))
  }

  /** The twenty points emitted for one leg: fractions 1/20, 2/20, ..., 20/20
      of the way from `a` to `b`, so the leg ends exactly on `b`. */
  function Leg(a: Coord, b: Coord): (leg: seq<Coord>)
    ensures |leg| == 20
    ensures leg[19] == b
    ensures forall j :: 0 <= j < 20 ==> leg[j] == Interpolate(a, b, (j + 1) as real / 20.0)
  {
    seq(20, j requires 0 <= j < 20 => Interpolate(a, b, (j + 1) as real / 20.0))
  }

  /** The interpolated geometry through the waypoints: the first waypoint,
      then one leg per following waypoint. */
  function RoadGeometry(ws: seq<Coord>): seq<Coord>
  {
    if |ws| == 0 then []
    else if |ws| == 1 then [ws[0]]
    else RoadGeometry(ws[..|ws| - 1]) + Leg(ws[|ws| - 2], ws[|ws| - 1])
  }

  /** One point for the first waypoint and twenty per leg. */
  lemma {:induction false} RoadGeometryLength(ws: seq<Coord>)
    requires |ws| >= 1
    ensures |RoadGeometry(ws)| == 1 + 20 * (|ws| - 1)
  {
    if |ws| > 1 {
      RoadGeometryLength(ws[..|ws| - 1]);
    }
  }

  /** Every twentieth point is a waypoint: point 20k is waypoint k, since the
      last fraction of each leg is 20/20. */
  lemma {:induction false} RoadGeometryWaypoints(ws: seq<Coord>)
    requires |ws| >= 1
    ensures |RoadGeometry(ws)| == 1 + 20 * (|ws| - 1)
    ensures forall k :: 0 <= k < |ws| ==> RoadGeometry(ws)[20 * k] == ws[k]
  {
    RoadGeometryLength(ws);
    if |ws| > 1 {
      var init := ws[..|ws| - 1];
      RoadGeometryWaypoints(init);
      var r := RoadGeometry(ws);
      assert r == RoadGeometry(init) + Leg(ws[|ws| - 2], ws[|ws| - 1]);
      forall k | 0 <= k < |ws|
        ensures r[20 * k] == ws[k]
      {
        if k < |ws| - 1 {
          assert r[20 * k] == RoadGeometry(init)[20 * k];
          assert init[k] == ws[k];
        } else {
          assert r[20 * k] == Leg(ws[|ws| - 2], ws[|ws| - 1])[19];
        }
      }
    }
  }

  /** Each point of the leg into waypoint k lies, coordinate by coordinate,
      between waypoints k - 1 and k. */
  lemma {:induction false} RoadGeometryBetween(ws: seq<Coord>, k: nat, j: nat)
    requires 1 <= k < |ws| && 1 <= j <= 20
    ensures |RoadGeometry(ws)| == 1 + 20 * (|ws| - 1)
    ensures var p := RoadGeometry(ws)[20 * (k - 1) + j];
      Between(ws[k - 1].first, ws[k].first, p.first) && Between(ws[k - 1].second, ws[k].second, p.second)
  {
    RoadGeometryLength(ws);
    var init := ws[..|ws| - 1];
    RoadGeometryLength(init);
    var r := RoadGeometry(ws);
    assert r == RoadGeometry(init) + Leg(ws[|ws| - 2], ws[|ws| - 1]);
    if k < |ws| - 1 {
      RoadGeometryBetween(init, k, j);
      assert r[20 * (k - 1) + j] == RoadGeometry(init)[20 * (k - 1) + j];
      assert init[k - 1] == ws[k - 1] && init[k] == ws[k];
    } else {
      assert r[20 * (k - 1) + j] == Leg(ws[k - 1], ws[k])[j - 1];
    }
  }

  // ---------------------------------------------------------------------
  // Handlers

  /** An error reply: the HTTP status and the message `http.Error` writes. */
  datatype HttpError = HttpError(status: nat, message: string)

  /** The body of a successful `GET /route`. */
  datatype GeoResponse = GeoResponse(path: seq<string>, distance: real, roadGeometry: seq<Coord>, nodes: seq<Node>)

  /** The decoded body of `POST /route`. */
  datatype RouteRequest = RouteRequest(startID: string, endID: string)

  /** The body of a `POST /route` reply. */
  datatype RouteResponse = RouteResponse(path: seq<string>, distance: real, nodes: seq<Node>, instructions: seq<Instruction>)

  /** The inner loop of `GetRouteQuery`: the twenty points interpolated
      between two waypoints, at fractions 1/20, ..., 20/20. */
  method LegPoints(prevNode: Node, node: Node) returns (leg: seq<Coord>)
    ensures leg == Leg(Position(prevNode), Position(node))
  {
    ghost var spec := Leg(Position(prevNode), Position(node));
    leg := [];
    var j := 1;
    while j <= 20
      invariant 1 <= j <= 21
      invariant leg == spec[..j - 1]
    {
      var t := j as real / 20.0;
      var lat := prevNode.lat + t * (node.lat - prevNode.lat);
      var lon := prevNode.lon + t * (node.lon - prevNode.lon);
      assert Coord(lat, lon) == spec[j - 1];
      leg := leg + [Coord(lat, lon)];
      j := j + 1;
    }
  }

  /** The loop of `GetRouteQuery` over the path: one node record per entry,
      the first node's position, then twenty interpolated points per leg. */
  method BuildRoadGeometry(g: Graph, path: seq<string>) returns (geometry: seq<Coord>, nodes: seq<Node>)
    requires |path| >= 1 && forall i :: 0 <= i < |path| ==> path[i] in g.nodes
    ensures |nodes| == |path| && forall i :: 0 <= i < |path| ==> nodes[i] == g.nodes[path[i]]
    ensures geometry == RoadGeometry(Waypoints(g.nodes, path))
    ensures |geometry| == 1 + 20 * (|path| - 1)
    ensures forall k :: 0 <= k < |path| ==> geometry[20 * k] == Position(nodes[k])
  {
    ghost var ws := Waypoints(g.nodes, path);
    geometry, nodes := [], [];
    var i := 0;
    while i < |path|
      invariant 0 <= i <= |path|
      invariant |nodes| == i && forall k :: 0 <= k < i ==> nodes[k] == g.nodes[path[k]]
      invariant geometry == RoadGeometry(ws[..i])
    {
      var node := g.nodes[path[i]];
      nodes := nodes + [node];
      if i == 0 {
        geometry := geometry + [Coord(node.lat, node.lon)];
        assert ws[..1] == [ws[0]];
      } else {
        var prevNode := g.nodes[path[i - 1]];
        var leg := LegPoints(prevNode, node);
        geometry := geometry + leg;
        assert ws[..i + 1][..i] == ws[..i];
      }
      i := i + 1;
    }
    assert ws[..|path|] == ws;
    RoadGeometryWaypoints(ws);
  }

  /** `GetRouteQuery`: 400 without both query parameters, 404 when A* finds
      no path, otherwise the path with one node record per path entry and
      the interpolated road geometry through their positions. The path
      follows the stored roads `used`, whose weight is at most the distance
      reported; a 404 between two known cities means that no walk lighter
      than `Unreached` joins them, unless the search ran out of `fuel`. */
  method GetRouteQuery(dist: DistanceFn, g: Graph, startID: string, endID: string, fuel: nat)
    returns (reply: Result<GeoResponse, HttpError>, ghost exhausted: bool, ghost used: seq<Edge>)
    requires IsDistance(dist) && PositiveWeights(g.edges)
    ensures reply.Failure? && reply.error.status == 400 <==> startID == "" || endID == ""
    ensures startID != "" && endID != "" && (startID !in g.nodes || endID !in g.nodes) ==>
      reply == Failure(HttpError(404, "No route found"))
    ensures reply.Failure? ==> reply.error.status in {400, 404}
    ensures reply.Success? ==> var r := reply.value;
      && |r.path| >= 1 && r.path[0] == startID && r.path[|r.path| - 1] == endID
      && r.distance >= 0.0
      && |r.nodes| == |r.path|
      && (forall i :: 0 <= i < |r.path| ==> r.path[i] in g.nodes && r.nodes[i] == g.nodes[r.path[i]])
      && r.roadGeometry == RoadGeometry(Waypoints(g.nodes, r.path))
      && |r.roadGeometry| == 1 + 20 * (|r.path| - 1)
      && r.roadGeometry[0] == Position(r.nodes[0])
      && (forall k :: 0 <= k < |r.path| ==> r.roadGeometry[20 * k] == Position(r.nodes[k]))
    ensures reply.Success? ==> var r := reply.value;
      && |used| == |r.path| - 1 && Weight(used) <= r.distance
      && forall i :: 0 <= i < |r.path| - 1 ==> used[i] in EdgesOf(g.edges, r.path[i]) && used[i].to == r.path[i + 1]
    ensures reply == Failure(HttpError(404, "No route found")) && startID in g.nodes && endID in g.nodes ==>
      exhausted || !Reachable(g.nodes, g.edges, startID, endID, Unreached)
    ensures startID != "" && startID == endID && startID in g.nodes && fuel > 0 ==>
      reply == Success(GeoResponse([startID], 0.0, [Position(g.nodes[startID])], [g.nodes[startID]]))
  {
    exhausted, used := false, [];
    if startID == "" || endID == "" {
      reply := Failure(HttpError(400, "Missing start or end parameter"));
      return;
    }
    var path, cost;
    path, cost, exhausted, used := AStar(dist, g, startID, endID, fuel);
    if |path| == 0 {
      reply := Failure(HttpError(404, "No route found"));
      return;
    }

    var geometry, nodes := BuildRoadGeometry(g, path);
    if |path| == 1 {
      assert nodes == [g.nodes[path[0]]];
      assert geometry == [Position(g.nodes[path[0]])];
    }
    reply := Success(GeoResponse(path, cost, geometry, nodes));
  }

  /** `GetRoute`: 400 when the body does not decode; otherwise the A* path
      (empty when there is none), its distance, one instruction per leg and
      one node record per path entry. A path returned follows the stored
      roads `used`, whose weight is at most the distance; an empty path
      between two known cities means that no walk lighter than `Unreached`
      joins them, unless the search ran out of `fuel`. */
  method GetRoute(dist: DistanceFn, g: Graph, body: Result<RouteRequest, string>, fuel: nat)
    returns (reply: Result<RouteResponse, HttpError>, ghost exhausted: bool, ghost used: seq<Edge>)
    requires IsDistance(dist) && PositiveWeights(g.edges)
    ensures body.Failure? <==> reply.Failure?
    ensures body.Failure? ==> reply == Failure(HttpError(400, body.error))
    ensures reply.Success? ==> var r := reply.value; var req := body.value;
      && (|r.path| > 0 ==> r.path[0] == req.startID && r.path[|r.path| - 1] == req.endID)
      && (req.startID !in g.nodes || req.endID !in g.nodes ==> r.path == [] && r.distance == 0.0)
      && r.distance >= 0.0
      && |r.nodes| == |r.path|
      && (forall i :: 0 <= i < |r.path| ==> r.path[i] in g.nodes && r.nodes[i] == g.nodes[r.path[i]])
      && (|r.path| < 2 ==> r.instructions == [])
      && (|r.path| >= 2 ==> |r.instructions| == |r.path| - 1)
      && (forall i :: 0 <= i < |r.instructions| ==>
            r.instructions[i].kind == KindAt(i, |r.path|)
            && r.instructions[i].distance == Distance(dist, g.nodes[r.path[i]], g.nodes[r.path[i + 1]]))
    ensures reply.Success? ==> var r := reply.value; var req := body.value;
      && (|r.path| > 0 ==> |used| == |r.path| - 1 && Weight(used) <= r.distance)
      && (forall i :: 0 <= i < |r.path| - 1 ==> used[i] in EdgesOf(g.edges, r.path[i]) && used[i].to == r.path[i + 1])
      && (r.path == [] && req.startID in g.nodes && req.endID in g.nodes ==>
            exhausted || !Reachable(g.nodes, g.edges, req.startID, req.endID, Unreached))
  {
    exhausted, used := false, [];
    if body.Failure? {
      reply := Failure(HttpError(400, body.error));
      return;
    }
    var req := body.value;
    var path, cost;
    path, cost, exhausted, used := AStar(dist, g, req.startID, req.endID, fuel);
    var instructions := GenerateInstructions(dist, g, path);
    var nodes: seq<Node> := [];
    var i := 0;
    while i < |path|
      invariant 0 <= i <= |path|
      invariant |nodes| == i && forall k :: 0 <= k < i ==> nodes[k] == g.nodes[path[k]]
    {
      nodes := nodes + [g.nodes[path[i]]];
      i := i + 1;
    }
    reply := Success(RouteResponse(path, cost, nodes, instructions));
  }
}
