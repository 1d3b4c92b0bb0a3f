/** Which panel of the configuration is shown on which serial port. */
module Routing {
  import opened Basics
  import opened Protocol
  import opened Assistant
  import opened Layout
  import opened Configuration
  import opened Snapshot

  datatype Device = Device(port: string, location: Option<string>)

  datatype Route = Route(name: string, port: string)

  function Matching(devices: seq<Device>, binding: string): seq<Device> {
    if devices == [] then []
    else
      var before := Matching(devices[..|devices| - 1], binding);
      var last := devices[|devices| - 1];
      if last.location == Some(binding) then before + [last] else before
  }

  /** The port of the one device at the panel's location. */
  function PortOf(panel: PanelLayout, devices: seq<Device>): Option<string> {
    if panel.binding.None? then None
    else
      var matching := Matching(devices, panel.binding.value);
      if |matching| == 1 then Some(matching[0].port) else None
  }

  function Resolve(panels: seq<PanelLayout>, devices: seq<Device>): seq<Route> {
    if panels == [] then []
    else
      var before := Resolve(panels[..|panels| - 1], devices);
      var last := panels[|panels| - 1];
      var port := PortOf(last, devices);
      if port.Some? then before + [Route(last.name, port.value)] else before
  }

  function RouteTo(routes: seq<Route>, port: string): Option<Route> {
    if routes == [] then None
    else if routes[0].port == port then Some(routes[0])
    else RouteTo(routes[1..], port)
  }

  function PanelNamed(panels: seq<PanelLayout>, name: string): Option<PanelLayout> {
    if panels == [] then None
    else if panels[0].name == name then Some(panels[0])
    else PanelNamed(panels[1..], name)
  }

  function RoutedReadings(config: Config, s: Snapshot): Readings {
    Readings(s.assistants.sessions, config.clockIntensity, s.hour, s.minute,
      if s.power.Some? && s.power.value.percent.Some? then Some(Finite(s.power.value.percent.value as real)) else None,
      None, None, None, None)
  }

  /** What the port should show, if anything. */
  function NormalFrame(port: string, config: Config, s: Snapshot, devices: seq<Device>): Option<Frame> {
    var route := RouteTo(Resolve(config.panels, devices), port);
    if route.None? then None
    else
      var panel := PanelNamed(config.panels, route.value.name);
      if panel.None? then None
      else Some(Drawn(panel.value, RoutedReadings(config, s), config.brightness))
  }

  /** The level its job is given; none puts the panel to sleep. */
  function NormalLevel(port: string, config: Config, devices: seq<Device>): Option<byte> {
    var route := RouteTo(Resolve(config.panels, devices), port);
    if route.None? then None
    else
      var panel := PanelNamed(config.panels, route.value.name);
      if panel.None? then None else Effective(config.brightness, panel.value).Level()
  }

  // ---------------------------------------------------------------- properties

  lemma {:induction false} MatchingExact(devices: seq<Device>, binding: string, d: Device)
    ensures d in Matching(devices, binding) <==> d in devices && d.location == Some(binding)
  {
    if devices != [] {
      var n := |devices| - 1;
      MatchingExact(devices[..n], binding, d);
      assert devices == devices[..n] + [devices[n]];
    }
  }

  /** The port of a panel is the port of a device at its location. */
  lemma PortIsAtLocation(panel: PanelLayout, devices: seq<Device>)
    requires PortOf(panel, devices).Some?
    ensures exists d :: d in devices && d.location == panel.binding && d.port == PortOf(panel, devices).value
  {
    var d := Matching(devices, panel.binding.value)[0];
    MatchingExact(devices, panel.binding.value, d);
    assert d in devices;
  }

  ghost predicate DistinctPorts(devices: seq<Device>) {
    forall d, e :: d in devices && e in devices && d.port == e.port ==> d == e
  }

  /** Panels with different locations never share a port. */
  lemma DifferentLocationsDifferentPorts(p: PanelLayout, q: PanelLayout, devices: seq<Device>)
    requires DistinctPorts(devices) && PortOf(p, devices).Some? && PortOf(q, devices).Some?
    requires p.binding != q.binding
    ensures PortOf(p, devices) != PortOf(q, devices)
  {
    PortIsAtLocation(p, devices);
    PortIsAtLocation(q, devices);
  }

  ghost predicate DistinctPanels(panels: seq<PanelLayout>) {
    && (forall i, j :: 0 <= i < j < |panels| ==> panels[i].name != panels[j].name)
    && (forall i, j :: 0 <= i < j < |panels| && panels[i].binding.Some? ==> panels[i].binding != panels[j].binding)
  }

  /** The i-th device is the one device at this location. */
  ghost predicate AloneAt(devices: seq<Device>, i: nat, location: string) {
    && i < |devices| && devices[i].location == Some(location)
    && forall j :: 0 <= j < |devices| && devices[j].location == Some(location) ==> j == i
  }

  lemma {:induction false} NoneMatches(devices: seq<Device>, location: string)
    ensures Matching(devices, location) == []
      <==> forall j :: 0 <= j < |devices| ==> devices[j].location != Some(location)
  {
    if devices != [] {
      NoneMatches(devices[..|devices| - 1], location);
    }
  }

  lemma {:induction false} OneMatches(devices: seq<Device>, location: string, i: nat)
    requires AloneAt(devices, i, location)
    ensures Matching(devices, location) == [devices[i]]
  {
    var n := |devices| - 1;
    if i < n {
      assert devices[..n][i] == devices[i];
      OneMatches(devices[..n], location, i);
    } else {
      NoneMatches(devices[..n], location);
    }
  }

  lemma {:induction false} SoleMatchIsAlone(devices: seq<Device>, location: string) returns (i: nat)
    requires |Matching(devices, location)| == 1
    ensures AloneAt(devices, i, location)
  {
    var n := |devices| - 1;
    if devices[n].location == Some(location) {
      NoneMatches(devices[..n], location);
      assert forall j :: 0 <= j < n ==> devices[..n][j] == devices[j];
      i := n;
    } else {
      i := SoleMatchIsAlone(devices[..n], location);
      assert forall j :: 0 <= j < n ==> devices[..n][j] == devices[j];
    }
  }

  /** The panel is bound to a location where the device with this port stands alone. */
  ghost predicate IsAt(p: PanelLayout, devices: seq<Device>, port: string) {
    p.binding.Some? && exists i: nat :: AloneAt(devices, i, p.binding.value) && devices[i].port == port
  }

  /** A panel has a port exactly if one device, and no second one, is at its location; and then that device's. */
  lemma PortExact(panel: PanelLayout, devices: seq<Device>, port: string)
    ensures PortOf(panel, devices) == Some(port)
      <==> IsAt(panel, devices, port)
  {
    if PortOf(panel, devices) == Some(port) {
      var i := SoleMatchIsAlone(devices, panel.binding.value);
      OneMatches(devices, panel.binding.value, i);
    }
    if panel.binding.Some? {
      if i: nat :| AloneAt(devices, i, panel.binding.value) && devices[i].port == port {
        OneMatches(devices, panel.binding.value, i);
      }
    }
  }

  lemma {:induction false} ResolveByPort(panels: seq<PanelLayout>, devices: seq<Device>, r: Route)
    ensures r in Resolve(panels, devices)
      <==> exists p :: p in panels && p.name == r.name && PortOf(p, devices) == Some(r.port)
  {
    if panels != [] {
      var n := |panels| - 1;
      ResolveByPort(panels[..n], devices, r);
      assert panels == panels[..n] + [panels[n]];
      assert panels[n] in panels;
    }
  }

  /** A route for every panel alone at its location, to the port that is there, and no other route. */
  lemma ResolveExact(panels: seq<PanelLayout>, devices: seq<Device>, r: Route)
    ensures r in Resolve(panels, devices) <==> exists p :: p in panels && p.name == r.name && IsAt(p, devices, r.port)
  {
    ResolveByPort(panels, devices, r);
    forall p ensures PortOf(p, devices) == Some(r.port) <==> IsAt(p, devices, r.port) {
      PortExact(p, devices, r.port);
    }
  }

  /** No two routes share a name or a port. */
  lemma {:induction false} RoutesAreDistinct(panels: seq<PanelLayout>, devices: seq<Device>)
    requires DistinctPanels(panels) && DistinctPorts(devices)
    ensures var routes := Resolve(panels, devices);
      forall i, j :: 0 <= i < j < |routes| ==> routes[i].name != routes[j].name && routes[i].port != routes[j].port
  {
    if panels != [] {
      var n := |panels| - 1;
      RoutesAreDistinct(panels[..n], devices);
      var before, last := Resolve(panels[..n], devices), panels[n];
      if PortOf(last, devices).Some? {
        forall i | 0 <= i < |before|
          ensures before[i].name != last.name && before[i].port != PortOf(last, devices).value
        {
          ResolveByPort(panels[..n], devices, before[i]);
          var p :| p in panels[..n] && p.name == before[i].name && PortOf(p, devices) == Some(before[i].port);
          DifferentLocationsDifferentPorts(p, last, devices);
        }
      }
    }
  }

  lemma {:induction false} RouteToFinds(routes: seq<Route>, r: Route)
    requires r in routes
    requires forall i, j :: 0 <= i < j < |routes| ==> routes[i].port != routes[j].port
    ensures RouteTo(routes, r.port) == Some(r)
  {
    if routes[0] != r {
      var k :| 0 <= k < |routes| && routes[k] == r;
      assert routes[1..][k - 1] == r;
      RouteToFinds(routes[1..], r);
    }
  }

  lemma {:induction false} PanelNamedFinds(panels: seq<PanelLayout>, p: PanelLayout)
    requires p in panels
    requires forall i, j :: 0 <= i < j < |panels| ==> panels[i].name != panels[j].name
    ensures PanelNamed(panels, p.name) == Some(p)
  {
    if panels[0] != p {
      var k :| 0 <= k < |panels| && panels[k] == p;
      assert panels[1..][k - 1] == p;
      PanelNamedFinds(panels[1..], p);
    }
  }

  /**
   Under a valid configuration every panel that is alone at its location gets its own
   port, and that port is given this panel's frame and level and no other's.
   */
  lemma PortShowsItsPanel(config: Config, s: Snapshot, devices: seq<Device>, p: PanelLayout, port: string)
    requires config.Valid() && DistinctPorts(devices)
    requires p in config.panels && IsAt(p, devices, port)
    ensures NormalFrame(port, config, s, devices) == Some(Drawn(p, RoutedReadings(config, s), config.brightness))
    ensures NormalLevel(port, config, devices) == Effective(config.brightness, p).Level()
  {
    PortExact(p, devices, port);
    var r := Route(p.name, port);
    ResolveByPort(config.panels, devices, r);
    RoutesAreDistinct(config.panels, devices);
    RouteToFinds(Resolve(config.panels, devices), r);
    PanelNamedFinds(config.panels, p);
  }
}
