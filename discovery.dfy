/**
 * Endpoint discovery: the application's routes grouped by device type into
 * the GET and PUT property names each device type serves, with the
 * parameters each property's handler takes, and the action endpoints of a
 * device type, the names it accepts a PUT for but serves no GET for, in
 * ascending order. The simulator and the observatory simulator carry the
 * same two functions.
 */
module Discovery {
  import opened Text
  import opened Sorting
  import opened Wrappers

  /** One parameter of a route's handler: its name and the name of its annotated type. */
  datatype Param = Param(name: string, typeName: string)

  /**
   * A route of the application: a path operation with its HTTP methods and
   * the parameters of its handler, or a route that has no path and methods.
   */
  datatype Route = PathRoute(path: string, methods: set<string>, params: seq<Param>) | Unrouted

  /** What `info` records for a property: its handler's own parameters, or the `{"name": "Value", "type": "bool"}` placeholder. */
  datatype Info = Params(ps: seq<Param>) | DefaultInfo

  /** The discovered entry of one device type. */
  datatype Group = Group(get: seq<string>, put: seq<string>, info: map<string, Info>)

  const EmptyGroup := Group([], [], map[])

  /** The parameters every device route takes and that discovery does not report. */
  predicate Bookkeeping(name: string)
  {
    name == "device_number" || name == "ClientTransactionID"
  }

  /** The handler's parameters without the bookkeeping ones, in their order. */
  function Kept(ps: seq<Param>): (r: seq<Param>)
    ensures |r| <= |ps|
    ensures forall p :: p in r <==> p in ps && !Bookkeeping(p.name)
    decreases |ps|
  {
    if ps == [] then []
    else
      var last := ps[|ps| - 1];
      assert ps == ps[..|ps| - 1] + [last];
      Kept(ps[..|ps| - 1]) + (if Bookkeeping(last.name) then [] else [last])
  }

  function InfoFor(kept: seq<Param>): Info
  {
    if |kept| > 0 then Params(kept) else DefaultInfo
  }

  /** The fourth `/`-separated piece of the path, or the text `None` when there is none. */
  function DeviceTypeSegment(path: string): string
  {
    var parts := Split(path, '/');
    if |parts| > 3 then parts[3] else "None"
  }

  /** The last `/`-separated piece of the path. */
  function PropertyName(path: string): string
  {
    var parts := Split(path, '/');
    parts[|parts| - 1]
  }

  /**
   * A path names a device property: it has its device type between slashes
   * and `/{device_number}/`, has at least five pieces and does not end in
   * the device number itself.
   */
  predicate Grouped(path: string)
  {
    Contains(path, "/" + DeviceTypeSegment(path) + "/") && Contains(path, "/{device_number}/")
    && |Split(path, '/')| >= 5 && PropertyName(path) != "{device_number}"
  }

  /** Where a route lands: its device type, its property name, its methods and its `info`. */
  datatype Entry = Entry(dt: string, name: string, methods: set<string>, info: Info)

  /** The entry a route contributes, if it is grouped at all. */
  function Place(r: Route): Option<Entry>
  {
    if r.PathRoute? && Grouped(r.path) then
      Some(Entry(DeviceTypeSegment(r.path), PropertyName(r.path), r.methods, InfoFor(Kept(r.params))))
    else None
  }

  /** The entry, if any, is under device type `dt`. */
  predicate Under(o: Option<Entry>, dt: string)
  {
    o.Some? && o.value.dt == dt
  }

  /** The entry, if any, is under `dt` with property `x`. */
  predicate Named(o: Option<Entry>, dt: string, x: string)
  {
    Under(o, dt) && o.value.name == x
  }

  /** The entry, if any, is under `dt` with property `x` and method `m`. */
  predicate Listed(o: Option<Entry>, dt: string, m: string, x: string)
  {
    Named(o, dt, x) && m in o.value.methods
  }

  /** The route is grouped under device type `dt`. */
  predicate Contributes(r: Route, dt: string)
  {
    Under(Place(r), dt)
  }

  /** The route is grouped under `dt` with property `x`. */
  predicate Names(r: Route, dt: string, x: string)
  {
    Named(Place(r), dt, x)
  }

  /** The route is grouped under `dt` with property `x` and method `m`. */
  predicate Lists(r: Route, dt: string, m: string, x: string)
  {
    Listed(Place(r), dt, m, x)
  }

  /** The GET or the PUT list of a group. */
  function Listing(g: Group, m: string): seq<string>
  {
    if m == "GET" then g.get else g.put
  }

  /** One entry added to the discovered groups. */
  function Add(groups: map<string, Group>, e: Entry): map<string, Group>
  {
    var g := if e.dt in groups then groups[e.dt] else EmptyGroup;
    groups[e.dt := Group(
      g.get + (if "GET" in e.methods then [e.name] else []),
      g.put + (if "PUT" in e.methods then [e.name] else []),
      g.info[e.name := e.info])]
  }

  /** One route's entry, if any, added to the groups. */
  function Step(groups: map<string, Group>, o: Option<Entry>): map<string, Group>
  {
    match o
    case Some(e) => Add(groups, e)
    case None => groups
  }

  /** The groups after the entries, taken in order. */
  function Grouping(es: seq<Option<Entry>>): map<string, Group>
    decreases |es|
  {
    if es == [] then map[] else Step(Grouping(es[..|es| - 1]), es[|es| - 1])
  }

  /** The entry of each route, in route order. */
  function Placements(routes: seq<Route>): (es: seq<Option<Entry>>)
    ensures |es| == |routes|
    ensures forall i :: 0 <= i < |routes| ==> es[i] == Place(routes[i])
  {
    seq(|routes|, i requires 0 <= i < |routes| => Place(routes[i]))
  }

  /** The groups after the routes, taken in order: one per device type some route contributes to. */
  function Discovered(routes: seq<Route>): (r: map<string, Group>)
    ensures forall dt :: dt in r <==> exists i :: 0 <= i < |routes| && Contributes(routes[i], dt)
  {
    var es := Placements(routes);
    forall dt ensures dt in Grouping(es) <==> exists i :: 0 <= i < |routes| && Contributes(routes[i], dt)
    {
      GroupingKeys(es, dt);
      if exists i :: 0 <= i < |es| && Under(es[i], dt) {
        var i :| 0 <= i < |es| && Under(es[i], dt);
        assert Contributes(routes[i], dt);
      }
    }
    Grouping(es)
  }

  /** Discovery over one route more is one step more. */
  lemma DiscoveredStep(routes: seq<Route>, i: nat)
    requires i < |routes|
    ensures Discovered(routes[..i + 1]) == Step(Discovered(routes[..i]), Place(routes[i]))
  {
    assert Placements(routes[..i + 1])[..i] == Placements(routes[..i]);
  }

  /** The reported parameters, collected one by one. */
  method KeepParams(ps: seq<Param>) returns (kept: seq<Param>)
    ensures kept == Kept(ps)
  {
    kept := [];
    var i := 0;
    while i < |ps|
      invariant 0 <= i <= |ps|
      invariant kept == Kept(ps[..i])
    {
      assert ps[..i + 1][..i] == ps[..i];
      if !Bookkeeping(ps[i].name) {
        kept := kept + [ps[i]];
      }
      i := i + 1;
    }
    assert ps[..|ps|] == ps;
  }

  /** `discover_device_endpoints`: the routes grouped by device type. */
  method Discover(routes: seq<Route>) returns (endpoints: map<string, Group>)
    ensures endpoints == Discovered(routes)
  {
    endpoints := map[];
    var i := 0;
    while i < |routes|
      invariant 0 <= i <= |routes|
      invariant endpoints == Discovered(routes[..i])
    {
      DiscoveredStep(routes, i);
      endpoints := RecordRoute(endpoints, routes[i]);
      i := i + 1;
    }
    assert routes[..|routes|] == routes;
  }

  /** The body of the discovery loop: one route grouped under its device type, or skipped. */
  method RecordRoute(endpoints: map<string, Group>, route: Route) returns (after: map<string, Group>)
    ensures after == Step(endpoints, Place(route))
  {
    var place := PlaceRoute(route);
    after := endpoints;
    if place.Some? {
      var e := place.value;
      if e.dt !in after {
        after := after[e.dt := EmptyGroup];
      }
      var group := AddByMethod(after[e.dt], e.methods, e.name);
      group := group.(info := group.info[e.name := e.info]);
      after := after[e.dt := group];
    }
  }

  /** Where the discovery loop puts a route: the device type and property it reads off the path, and the parameters it keeps. */
  method PlaceRoute(route: Route) returns (place: Option<Entry>)
    ensures place == Place(route)
  {
    place := None;
    if route.PathRoute? {
      var path := route.path;
      var parts := Split(path, '/');
      var deviceType := if |parts| > 3 then parts[3] else "None";
      if Contains(path, "/" + deviceType + "/") && Contains(path, "/{device_number}/") && |parts| >= 5 {
        var name := parts[|parts| - 1];
        if name != "{device_number}" {
          var params := KeepParams(route.params);
          place := Some(Entry(deviceType, name, route.methods, InfoFor(params)));
        }
      }
    }
  }

  /** The inner loop over a route's methods: the name appended to the GET and the PUT list as the methods include them. */
  method AddByMethod(group: Group, methods: set<string>, name: string) returns (g: Group)
    ensures g.get == group.get + (if "GET" in methods then [name] else [])
    ensures g.put == group.put + (if "PUT" in methods then [name] else [])
    ensures g.info == group.info
  {
    g := group;
    var todo := methods;
    while todo != {}
      invariant todo <= methods
      invariant g.get == group.get + (if "GET" in methods - todo then [name] else [])
      invariant g.put == group.put + (if "PUT" in methods - todo then [name] else [])
      invariant g.info == group.info
      decreases |todo|
    {
      var m :| m in todo;
      if m == "GET" {
        g := g.(get := g.get + [name]);
      } else if m == "PUT" {
        g := g.(put := g.put + [name]);
      }
      todo := todo - {m};
    }
  }

  lemma {:induction false} GroupingKeys(es: seq<Option<Entry>>, dt: string)
    ensures dt in Grouping(es) <==> exists i :: 0 <= i < |es| && Under(es[i], dt)
    decreases |es|
  {
    if es != [] {
      var init := es[..|es| - 1];
      GroupingKeys(init, dt);
      if exists i :: 0 <= i < |init| && Under(init[i], dt) {
        var i :| 0 <= i < |init| && Under(init[i], dt);
        assert es[i] == init[i];
      }
      if exists i :: 0 <= i < |es| && Under(es[i], dt) {
        var i :| 0 <= i < |es| && Under(es[i], dt);
        if i < |init| {
          assert init[i] == es[i];
        }
      }
    }
  }

  lemma {:induction false} GroupingListing(es: seq<Option<Entry>>, dt: string, m: string, x: string)
    requires m == "GET" || m == "PUT"
    requires dt in Grouping(es)
    ensures x in Listing(Grouping(es)[dt], m) <==> exists i :: 0 <= i < |es| && Listed(es[i], dt, m, x)
    decreases |es|
  {
    var init := es[..|es| - 1];
    if dt in Grouping(init) {
      GroupingListing(init, dt, m, x);
    } else {
      GroupingKeys(init, dt);
    }
    if exists i :: 0 <= i < |init| && Listed(init[i], dt, m, x) {
      var i :| 0 <= i < |init| && Listed(init[i], dt, m, x);
      assert es[i] == init[i];
    }
    if exists i :: 0 <= i < |es| && Listed(es[i], dt, m, x) {
      var i :| 0 <= i < |es| && Listed(es[i], dt, m, x);
      if i < |init| {
        assert init[i] == es[i];
      }
    }
  }

  lemma {:induction false} GroupingInfoKeys(es: seq<Option<Entry>>, dt: string, x: string)
    requires dt in Grouping(es)
    ensures x in Grouping(es)[dt].info <==> exists i :: 0 <= i < |es| && Named(es[i], dt, x)
    decreases |es|
  {
    var init := es[..|es| - 1];
    if dt in Grouping(init) {
      GroupingInfoKeys(init, dt, x);
    } else {
      GroupingKeys(init, dt);
    }
    if exists i :: 0 <= i < |init| && Named(init[i], dt, x) {
      var i :| 0 <= i < |init| && Named(init[i], dt, x);
      assert es[i] == init[i];
    }
    if exists i :: 0 <= i < |es| && Named(es[i], dt, x) {
      var i :| 0 <= i < |es| && Named(es[i], dt, x);
      if i < |init| {
        assert init[i] == es[i];
      }
    }
  }

  lemma {:induction false} GroupingLastInfo(es: seq<Option<Entry>>, dt: string, x: string) returns (i: nat)
    requires dt in Grouping(es) && x in Grouping(es)[dt].info
    ensures i < |es| && Named(es[i], dt, x) && Grouping(es)[dt].info[x] == es[i].value.info
    ensures forall j :: i < j < |es| ==> !Named(es[j], dt, x)
    decreases |es|
  {
    var init := es[..|es| - 1];
    if Named(es[|es| - 1], dt, x) {
      i := |es| - 1;
    } else {
      i := GroupingLastInfo(init, dt, x);
      assert es[i] == init[i];
      forall j | i < j < |es|
        ensures !Named(es[j], dt, x)
      {
        if j < |init| {
          assert es[j] == init[j];
        }
      }
    }
  }

  /** A device type is discovered exactly when some route is grouped under it. */
  lemma DiscoveredKeys(routes: seq<Route>, dt: string)
    ensures dt in Discovered(routes) <==> exists i :: 0 <= i < |routes| && Contributes(routes[i], dt)
  {
    var es := Placements(routes);
    GroupingKeys(es, dt);
    if exists i :: 0 <= i < |es| && Under(es[i], dt) {
      var i :| 0 <= i < |es| && Under(es[i], dt);
      assert Contributes(routes[i], dt);
    }
  }

  /**
   * A name is in a device type's GET (PUT) list exactly when some route
   * grouped under that type with that property name has the GET (PUT) method.
   */
  lemma DiscoveredListing(routes: seq<Route>, dt: string, m: string, x: string)
    requires m == "GET" || m == "PUT"
    requires dt in Discovered(routes)
    ensures x in Listing(Discovered(routes)[dt], m) <==> exists i :: 0 <= i < |routes| && Lists(routes[i], dt, m, x)
  {
    var es := Placements(routes);
    GroupingListing(es, dt, m, x);
    if exists i :: 0 <= i < |es| && Listed(es[i], dt, m, x) {
      var i :| 0 <= i < |es| && Listed(es[i], dt, m, x);
      assert Lists(routes[i], dt, m, x);
    }
  }

  /** A name has an `info` entry exactly when some route grouped under the type names that property. */
  lemma DiscoveredInfoKeys(routes: seq<Route>, dt: string, x: string)
    requires dt in Discovered(routes)
    ensures x in Discovered(routes)[dt].info <==> exists i :: 0 <= i < |routes| && Names(routes[i], dt, x)
  {
    var es := Placements(routes);
    GroupingInfoKeys(es, dt, x);
    if exists i :: 0 <= i < |es| && Named(es[i], dt, x) {
      var i :| 0 <= i < |es| && Named(es[i], dt, x);
      assert Names(routes[i], dt, x);
    }
  }

  /** A property's `info` comes from the last route that names it: later routes overwrite earlier ones. */
  lemma InfoFromLastRoute(routes: seq<Route>, dt: string, x: string)
    requires dt in Discovered(routes) && x in Discovered(routes)[dt].info
    ensures exists i ::
              0 <= i < |routes| && Names(routes[i], dt, x)
              && Discovered(routes)[dt].info[x] == InfoFor(Kept(routes[i].params))
              && (forall j :: i < j < |routes| ==> !Names(routes[j], dt, x))
  {
    var es := Placements(routes);
    var i := GroupingLastInfo(es, dt, x);
    assert Names(routes[i], dt, x);
    forall j | i < j < |routes|
      ensures !Names(routes[j], dt, x)
    {
      assert !Named(es[j], dt, x);
    }
  }

  /**
   * Every `info` entry is either the placeholder or a nonempty list of the
   * handler's parameters without the bookkeeping ones.
   */
  lemma InfoShape(routes: seq<Route>, dt: string, x: string)
    requires dt in Discovered(routes) && x in Discovered(routes)[dt].info
    ensures var info := Discovered(routes)[dt].info[x];
      info.DefaultInfo? || (info.ps != [] && forall k :: 0 <= k < |info.ps| ==> !Bookkeeping(info.ps[k].name))
  {
    InfoFromLastRoute(routes, dt, x);
  }

  /** No discovered property is the device number itself. */
  lemma NoDeviceNumberProperty(routes: seq<Route>, dt: string)
    requires dt in Discovered(routes)
    ensures "{device_number}" !in Discovered(routes)[dt].get
    ensures "{device_number}" !in Discovered(routes)[dt].put
    ensures "{device_number}" !in Discovered(routes)[dt].info
  {
    DiscoveredListing(routes, dt, "GET", "{device_number}");
    DiscoveredListing(routes, dt, "PUT", "{device_number}");
    DiscoveredInfoKeys(routes, dt, "{device_number}");
  }

  /** The Alpaca device route layout `/api/v1/<device type>/{device_number}/<property>`. */
  function DevicePath(dt: string, name: string): string
  {
    "/api/v1/" + dt + "/{device_number}/" + name
  }

  lemma DevicePathPieces(dt: string, name: string)
    requires '/' !in dt && '/' !in name
    ensures Split(DevicePath(dt, name), '/') == ["", "api", "v1", dt, "{device_number}", name]
  {
    var parts := ["", "api", "v1", dt, "{device_number}", name];
    DevicePathIsJoin(dt, name);
    assert forall k :: 0 <= k < |parts| ==> '/' !in parts[k];
    SplitJoin(parts, '/');
  }

  lemma DevicePathIsJoin(dt: string, name: string)
    ensures DevicePath(dt, name) == Join(["", "api", "v1", dt, "{device_number}", name], '/')
  {
    var r4 := ["{device_number}", name];
    var r3 := [dt] + r4;
    var r2 := ["v1"] + r3;
    var r1 := ["api"] + r2;
    JoinCons("{device_number}", [name], '/');
    var j4 := "{device_number}" + "/" + name;
    assert Join(r4, '/') == j4;
    JoinCons(dt, r4, '/');
    var j3 := dt + "/" + j4;
    assert Join(r3, '/') == j3;
    JoinCons("v1", r3, '/');
    var j2 := "v1" + "/" + j3;
    assert Join(r2, '/') == j2;
    JoinCons("api", r2, '/');
    var j1 := "api" + "/" + j2;
    assert Join(r1, '/') == j1;
    JoinCons("", r1, '/');
    assert [""] + r1 == ["", "api", "v1", dt, "{device_number}", name];
    DevicePathSpelled(dt, name);
  }

  lemma DevicePathSpelled(dt: string, name: string)
    ensures DevicePath(dt, name) == "" + "/" + ("api" + "/" + ("v1" + "/" + (dt + "/" + ("{device_number}" + "/" + name))))
  {
  }

  lemma DevicePathMarkers(dt: string, name: string)
    ensures Contains(DevicePath(dt, name), "/" + dt + "/")
    ensures Contains(DevicePath(dt, name), "/{device_number}/")
  {
    var path := DevicePath(dt, name);
    assert path[7..7 + |dt| + 2] == "/" + dt + "/";
    ContainsAt(path, "/" + dt + "/", 7);
    assert path[8 + |dt|..8 + |dt| + 17] == "/{device_number}/";
    ContainsAt(path, "/{device_number}/", 8 + |dt|);
  }

  /**
   * A route of that layout is grouped under its device type with its
   * property name, when neither holds a slash.
   */
  lemma DevicePathPlaced(dt: string, name: string)
    requires '/' !in dt && '/' !in name && name != "{device_number}"
    ensures Grouped(DevicePath(dt, name))
    ensures DeviceTypeSegment(DevicePath(dt, name)) == dt
    ensures PropertyName(DevicePath(dt, name)) == name
  {
    DevicePathPieces(dt, name);
    DevicePathMarkers(dt, name);
  }

  /** The elements of `xs` that are not in `ys`, in their order. */
  function Without(xs: seq<string>, ys: seq<string>): (r: seq<string>)
    ensures forall x :: x in r <==> x in xs && x !in ys
    decreases |xs|
  {
    if xs == [] then []
    else (if xs[0] in ys then [] else [xs[0]]) + Without(xs[1..], ys)
  }

  /**
   * `get_action_endpoints`: for a discovered device type, its PUT names
   * that are not GET names, each once, ascending; nothing for a type that
   * was not discovered.
   */
  function ActionEndpoints(deviceType: string, endpoints: map<string, Group>): (r: seq<string>)
    ensures deviceType !in endpoints ==> r == []
    ensures StrictlySorted(r)
    ensures deviceType in endpoints ==>
      forall x :: x in r <==> x in endpoints[deviceType].put && x !in endpoints[deviceType].get
  {
    if deviceType !in endpoints then []
    else SortedUnique(Without(endpoints[deviceType].put, endpoints[deviceType].get))
  }

  /** The action list is the one ascending duplicate-free listing of PUT names without GET names. */
  lemma ActionsAreTheSortedListing(deviceType: string, endpoints: map<string, Group>, t: seq<string>)
    requires deviceType in endpoints && StrictlySorted(t)
    requires forall x :: x in t <==> x in endpoints[deviceType].put && x !in endpoints[deviceType].get
    ensures t == ActionEndpoints(deviceType, endpoints)
  {
    SortedListingIsUnique(t, ActionEndpoints(deviceType, endpoints));
  }

  /** Over discovered routes: an action is a property some route accepts a PUT for and no route serves a GET for. */
  lemma DiscoveredActions(routes: seq<Route>, dt: string, x: string)
    ensures x in ActionEndpoints(dt, Discovered(routes)) <==>
      (exists i :: 0 <= i < |routes| && Lists(routes[i], dt, "PUT", x))
      && !(exists i :: 0 <= i < |routes| && Lists(routes[i], dt, "GET", x))
  {
    if dt in Discovered(routes) {
      DiscoveredListing(routes, dt, "PUT", x);
      DiscoveredListing(routes, dt, "GET", x);
    } else {
      DiscoveredKeys(routes, dt);
    }
  }
}
