/**
 * The synchroniser's state and control flow: the global route map
 * `proxies`, the one-shot `initialized` gate with the `development` flag and
 * the chosen template, the per-label update (`parseEntries`), the
 * configuration step (`setCaddyProxies`) and the dispatch of listed
 * containers and lifecycle events in `main`.
 *
 * DNS resolution, template parsing and loading a configuration into Caddy
 * are outside the model; they are the oracles of a `Host`.
 */
module Sync {
  import opened Wrappers
  import opened GoStrings
  import opened Labels
  import opened Snapshot

  /** The container label that carries the routes. */
  const HttpsLabel := "org.01-edu.https"

  /** The two template files: `development.tmpl` and `production.tmpl`. */
  datatype Template = DevelopmentTmpl | ProductionTmpl

  function TemplateFor(development: bool): Template {
    if development then DevelopmentTmpl else ProductionTmpl
  }

  /** Result of resolving a domain: whether its first address is loopback, or an error. */
  datatype Lookup = Resolved(loopback: bool) | LookupError

  /**
   * The world around the control flow. `lookup` stands for `net.LookupIP`
   * followed by `ips[0].IsLoopback()`; `parses` for `template.ParseFiles`
   * succeeding; `load` for executing the template on the data, POSTing the
   * result to Caddy's `/load` endpoint and getting status 200.
   */
  datatype Host = Host(
    lookup: string -> Lookup,
    parses: Template -> bool,
    load: (Template, seq<Route>) -> bool)

  /** The conditions on which the program panics. */
  datatype Failure =
    | LookupFailed(domain: string)
    | TemplateUnreadable(template: Template)
    | LoadRejected(template: Template, data: seq<Route>)
    | MissingName

  /** What one configuration step did. */
  datatype Outcome =
    | Skipped
    | Loaded(template: Template, data: seq<Route>)
    | Fatal(failure: Failure)

  /** Outcome of scanning the domains for one that resolves to loopback. */
  datatype Scan = NoLoopback | LoopbackAt(domain: string) | LookupFailedAt(domain: string)

  /**
   * The detection loop of setCaddyProxies: resolve the domains in the map's
   * arbitrary order, stop at the first one whose first address is loopback,
   * and fail on the first lookup error.
   */
  method ScanForLoopback(domains: set<string>, lookup: string -> Lookup) returns (r: Scan)
    ensures r.LoopbackAt? ==> r.domain in domains && lookup(r.domain) == Resolved(true)
    ensures r.LookupFailedAt? ==> r.domain in domains && lookup(r.domain) == LookupError
    ensures r.NoLoopback? ==> forall d :: d in domains ==> lookup(d) == Resolved(false)
  {
    var rest := domains;
    while rest != {}
      invariant rest <= domains
      invariant forall d :: d in domains && d !in rest ==> lookup(d) == Resolved(false)
      decreases |rest|
    {
      var d :| d in rest;
      match lookup(d)
      case LookupError =>
        return LookupFailedAt(d);
      case Resolved(loopback) =>
        if loopback {
          return LoopbackAt(d);
        }
      rest := rest - {d};
    }
    return NoLoopback;
  }

  /** Go's map index on labels and attributes: a missing key reads as "". */
  function Attr(m: map<string, string>, key: string): string {
    if key in m then m[key] else ""
  }

  /** A listed container: its names (each starting with '/') and labels. */
  datatype Container = Container(names: seq<string>, labels: map<string, string>)

  /** A lifecycle event: its status and the actor's attributes. */
  datatype Event = Event(status: string, attributes: map<string, string>)

  /** `container.Names[0][1:]`: the first name without its leading '/'; it panics when absent. */
  function ContainerName(c: Container): (r: Option<string>)
    ensures r.Some? <==> |c.names| > 0 && |c.names[0]| > 0
    ensures r.Some? ==> c.names[0] == [c.names[0][0]] + r.value
  {
    if |c.names| > 0 && |c.names[0]| > 0 then Some(c.names[0][1..]) else None
  }

  /** `up := event.Status == "start"`. */
  function EventUp(e: Event): bool {
    e.status == "start"
  }

  /** A start event brings its routes up; die and oom events take them down. */
  lemma EventStatuses(attributes: map<string, string>)
    ensures EventUp(Event("start", attributes))
    ensures !EventUp(Event("die", attributes)) && !EventUp(Event("oom", attributes))
  {
  }

  /** The route map after one event has been parsed. */
  function EventRoutes(m: Routes, e: Event): Routes {
    ApplyEntries(m, Attr(e.attributes, "name"), Entries(Attr(e.attributes, HttpsLabel)), EventUp(e))
  }

  /** The route map after a sequence of events, in delivery order. */
  function Replay(m: Routes, events: seq<Event>): Routes
    decreases |events|
  {
    if events == [] then m
    else EventRoutes(Replay(m, events[..|events| - 1]), events[|events| - 1])
  }

  /** One more event of a sequence, replayed. */
  lemma ReplayNext(m: Routes, events: seq<Event>, k: nat)
    requires k < |events|
    ensures Replay(m, events[..k + 1]) == EventRoutes(Replay(m, events[..k]), events[k])
  {
    assert events[..k + 1][..k] == events[..k];
  }

  predicate AllNamed(containers: seq<Container>) {
    forall i :: 0 <= i < |containers| ==> ContainerName(containers[i]).Some?
  }

  /** The route map after the listed containers have been parsed as up. */
  function SeedRoutes(m: Routes, containers: seq<Container>): Routes
    requires AllNamed(containers)
    decreases |containers|
  {
    if containers == [] then m
    else
      var n := |containers| - 1;
      var c := containers[n];
      ApplyEntries(SeedRoutes(m, containers[..n]), ContainerName(c).value, Entries(Attr(c.labels, HttpsLabel)), true)
  }

  /**
   * A start event followed by a die or oom event with the same label,
   * whatever the container names, leaves none of the label's domains routed
   * and every other route as it was.
   */
  lemma StartThenStop(m: Routes, start: Event, stop: Event)
    requires start.status == "start" && stop.status in {"die", "oom"}
    requires Attr(start.attributes, HttpsLabel) == Attr(stop.attributes, HttpsLabel)
    ensures var https := Attr(start.attributes, HttpsLabel);
      Replay(m, [start, stop]) == m - Domains(Entries(https))
  {
    var https := Attr(start.attributes, HttpsLabel);
    assert [start, stop][..1] == [start];
    assert [start][..0] == [];
    assert Replay(m, [start]) == EventRoutes(m, start);
    assert EventUp(start) && !EventUp(stop);
    UpThenDown(m, Attr(start.attributes, "name"), Attr(stop.attributes, "name"), https);
  }

  /**
   * The seed scenario: one running container named `/name` whose label is
   * the single entry `domain:port` routes `domain` to `name:port` and
   * nothing else.
   */
  lemma SeedOneContainer(name: string, e: Entry)
    requires WellFormed(e)
    ensures var c := Container(["/" + name], map[HttpsLabel := FormatLabel([e])]);
      AllNamed([c]) && SeedRoutes(map[], [c]) == map[e.domain := Upstream(name, e.port)]
  {
    var c := Container(["/" + name], map[HttpsLabel := FormatLabel([e])]);
    assert ContainerName(c) == Some(name);
    ParseFormatLabel([e]);
    var es := Entries(FormatLabel([e]));
    assert es[..0] == [];
    assert [c][..0] == [];
    assert Attr(c.labels, HttpsLabel) == FormatLabel([e]);
    assert ApplyEntries(map[], name, es, true) == Step(map[], name, es[0], true);
  }

  /** The one-shot state: whether initialized, the environment flag and the parsed template. */
  datatype Gate = Gate(initialized: bool, development: bool, tmpl: Option<Template>)

  /**
   * One configuration step (setCaddyProxies): the one-shot state before
   * and after it, the route map it renders and its outcome.
   */
  datatype Pass = Pass(before: Gate, after: Gate, proxies: Routes, r: Outcome)

  /** The gate of a configuration step: nothing happens while uninitialized and the map is empty. */
  ghost predicate GateStep(pass: Pass) {
    var Pass(before, after, proxies, r) := pass;
    && (!before.initialized && proxies == map[] ==> r == Skipped && after == before)
    && (r.Skipped? ==> !before.initialized && proxies == map[])
    && after.initialized == (before.initialized || proxies != map[])
    // Once initialized, the environment and the template are never recomputed.
    && (before.initialized ==> after.development == before.development && after.tmpl == before.tmpl)
    && (before.initialized ==> r.Loaded? || (r.Fatal? && r.failure.LoadRejected?))
    && (r.Fatal? ==> !r.failure.MissingName?)
  }

  /**
   * The one-shot detection of a configuration step: a lookup error is fatal
   * unless a loopback hit came first, a loopback hit selects development, and
   * the template of the chosen environment must parse.
   */
  ghost predicate DetectStep(host: Host, pass: Pass) {
    var Pass(before, after, proxies, r) := pass;
    && (r.Fatal? && r.failure.LookupFailed? ==>
          !before.initialized && r.failure.domain in proxies && host.lookup(r.failure.domain) == LookupError)
    && (!before.initialized && proxies != map[]
        && (forall d :: d in proxies ==> host.lookup(d) != Resolved(true))
        && (exists d :: d in proxies && host.lookup(d) == LookupError)
        ==> r.Fatal? && r.failure.LookupFailed?)
    && (!before.initialized && proxies != map[] && !(r.Fatal? && r.failure.LookupFailed?) ==>
          after.development == (before.development || exists d :: d in proxies && host.lookup(d) == Resolved(true)))
    && (r.Fatal? && r.failure.TemplateUnreadable? ==>
          !before.initialized && r.failure.template == TemplateFor(after.development) && !host.parses(r.failure.template))
    && (!before.initialized && (r.Loaded? || (r.Fatal? && r.failure.LoadRejected?)) ==>
          host.parses(TemplateFor(after.development)))
  }

  /** What a configuration step loads: the chosen template on the sorted snapshot of the map. */
  ghost predicate LoadStep(host: Host, pass: Pass) {
    var Pass(_, after, proxies, r) := pass;
    && (r.Loaded? ==>
          r.template == TemplateFor(after.development) && r.data == SnapshotOf(proxies) && host.load(r.template, r.data))
    && (r.Fatal? && r.failure.LoadRejected? ==>
          r.failure.template == TemplateFor(after.development) && r.failure.data == SnapshotOf(proxies)
          && !host.load(r.failure.template, r.failure.data))
  }

  /** What a configuration step does, given the world `host`. */
  ghost predicate ConfigStep(host: Host, pass: Pass) {
    GateStep(pass) && DetectStep(host, pass) && LoadStep(host, pass)
  }

  /** Every pass of `passes` is a configuration step. */
  ghost predicate AllSteps(host: Host, passes: seq<Pass>) {
    forall i {:trigger ConfigStep(host, passes[i])} :: 0 <= i < |passes| ==> ConfigStep(host, passes[i])
  }

  /** The one-shot state after `passes`, starting from `start`. */
  function LastGate(start: Gate, passes: seq<Pass>): Gate {
    if passes == [] then start else passes[|passes| - 1].after
  }

  /**
   * `passes` are the configuration passes after each of `events`, in order,
   * starting from the route map `m` and the one-shot state `start`: each
   * pass is a configuration step on the map after the events up to and
   * including its own, starts in the one-shot state the previous one left,
   * and only follows a pass that was not fatal.
   */
  ghost predicate IsTrace(m: Routes, start: Gate, events: seq<Event>, host: Host, passes: seq<Pass>) {
    && |passes| == |events|
    && AllSteps(host, passes)
    && (forall i :: 0 <= i < |passes| ==> passes[i].proxies == Replay(m, events[..i + 1]))
    && (passes != [] ==> passes[0].before == start)
    && (forall i, j :: 0 <= i && j == i + 1 && j < |passes| ==> passes[j].before == passes[i].after)
    && (forall i :: 0 <= i < |passes| - 1 ==> !passes[i].r.Fatal?)
  }

  /** The maps of a trace grow by the map after the next event. */
  lemma ReplaysExtend(m: Routes, events: seq<Event>, k: nat, passes: seq<Pass>, pass: Pass)
    requires k < |events| && |passes| == k
    requires forall i :: 0 <= i < k ==> passes[i].proxies == Replay(m, events[..k][..i + 1])
    requires pass.proxies == Replay(m, events[..k + 1])
    ensures forall i :: 0 <= i < k + 1 ==> (passes + [pass])[i].proxies == Replay(m, events[..k + 1][..i + 1])
  {
    var es, ss := events[..k + 1], passes + [pass];
    forall i | 0 <= i < k + 1
      ensures ss[i].proxies == Replay(m, es[..i + 1])
    {
      if i < k {
        assert ss[i] == passes[i] && es[..i + 1] == events[..k][..i + 1];
      } else {
        assert es[..i + 1] == es;
      }
    }
  }

  /** The one-shot states of a trace grow by a pass that starts where the last one ended. */
  lemma GatesExtend(start: Gate, passes: seq<Pass>, pass: Pass)
    requires passes != [] ==> passes[0].before == start
    requires forall i, j :: 0 <= i && j == i + 1 && j < |passes| ==> passes[j].before == passes[i].after
    requires pass.before == LastGate(start, passes)
    ensures (passes + [pass])[0].before == start
    ensures forall i, j :: 0 <= i && j == i + 1 && j < |passes| + 1 ==>
      (passes + [pass])[j].before == (passes + [pass])[i].after
  {
    var ss := passes + [pass];
    forall i, j | 0 <= i && j == i + 1 && j < |ss|
      ensures ss[j].before == ss[i].after
    {
      if j < |passes| {
        assert ss[i] == passes[i] && ss[j] == passes[j];
      } else {
        assert ss[i] == passes[|passes| - 1];
      }
    }
  }

  /** A pass may follow a trace only when its last pass was not fatal. */
  lemma NonFatalExtend(passes: seq<Pass>, pass: Pass)
    requires forall i :: 0 <= i < |passes| - 1 ==> !passes[i].r.Fatal?
    requires passes != [] ==> !passes[|passes| - 1].r.Fatal?
    ensures forall i :: 0 <= i < |passes| ==> !(passes + [pass])[i].r.Fatal?
  {
    forall i | 0 <= i < |passes|
      ensures !(passes + [pass])[i].r.Fatal?
    {
      assert (passes + [pass])[i] == passes[i];
    }
  }

  /** A trace grows by the next event and the pass that follows it. */
  lemma TraceExtend(m: Routes, start: Gate, events: seq<Event>, k: nat, host: Host, passes: seq<Pass>, pass: Pass)
    requires k < |events| && IsTrace(m, start, events[..k], host, passes)
    requires pass.before == LastGate(start, passes) && (passes != [] ==> !passes[|passes| - 1].r.Fatal?)
    requires pass.proxies == Replay(m, events[..k + 1]) && AllSteps(host, passes + [pass])
    ensures IsTrace(m, start, events[..k + 1], host, passes + [pass])
    ensures LastGate(start, passes + [pass]) == pass.after
  {
    ReplaysExtend(m, events, k, passes, pass);
    GatesExtend(start, passes, pass);
    NonFatalExtend(passes, pass);
  }

  /**
   * The trace, pass by pass: each pass is a configuration step on the map
   * after the events up to and including its own, starting where the
   * previous one left the one-shot state, after a pass that was not fatal.
   */
  lemma TraceAt(m: Routes, start: Gate, events: seq<Event>, host: Host, passes: seq<Pass>, i: nat)
    requires IsTrace(m, start, events, host, passes) && i < |passes|
    ensures ConfigStep(host, passes[i]) && passes[i].proxies == Replay(m, events[..i + 1])
    ensures i == 0 ==> passes[i].before == start
    ensures i > 0 ==> passes[i].before == passes[i - 1].after && !passes[i - 1].r.Fatal?
  {
  }

  /**
   * What the trace loads after the first `i + 1` events: the chosen
   * template on the sorted snapshot of the route map those events produce.
   */
  lemma TraceLoaded(m: Routes, start: Gate, events: seq<Event>, host: Host, passes: seq<Pass>, i: nat)
    requires IsTrace(m, start, events, host, passes) && i < |passes|
    requires passes[i].r.Loaded?
    ensures passes[i].r.template == TemplateFor(passes[i].after.development)
    ensures IsSnapshot(Replay(m, events[..i + 1]), passes[i].r.data)
    ensures host.load(passes[i].r.template, passes[i].r.data)
  {
    TraceAt(m, start, events, host, passes, i);
    SnapshotOfIsSnapshot(passes[i].proxies);
  }

  class Synchroniser {
    /** Domain to `container:port`. */
    var proxies: Routes
    /** Set by the first configuration step that finds a route. */
    var initialized: bool
    /** The `-dev` flag, possibly raised by the detection. */
    var development: bool
    /** The parsed template, present once initialized. */
    var tmpl: Option<Template>

    ghost predicate Valid()
      reads this
    {
      && (initialized ==> tmpl == Some(TemplateFor(development)))
      && (!initialized ==> tmpl == None)
    }

    /** Process start: an empty map, not initialized, `development` from the `-dev` flag. */
    constructor (devFlag: bool)
      ensures Valid()
      ensures proxies == map[] && !initialized && development == devFlag && tmpl == None
    {
      proxies := map[];
      initialized := false;
      development := devFlag;
      tmpl := None;
    }

    /** parseEntries: apply every valid entry of the label, in order. */
    method ParseEntries(container: string, https: string, up: bool)
      modifies this`proxies
      ensures proxies == ApplyEntries(old(proxies), container, Entries(https), up)
    {
      var entries := Split(https, ',');
      var i := 0;
      while i < |entries|
        invariant i <= |entries|
        invariant proxies == ApplyEntries(old(proxies), container, entries[..i], up)
      {
        assert entries[..i + 1][..i] == entries[..i];
        var parts := Split(entries[i], ':');
        if |parts| != 2 {
          i := i + 1;
          continue;
        }
        var domain, port := parts[0], parts[1];
        if up {
          proxies := proxies[domain := container + ":" + port];
        } else {
          proxies := proxies - {domain};
        }
        i := i + 1;
      }
      assert entries[..i] == entries;
    }

    /** The one-shot part of the state. */
    function GateOf(): Gate
      reads this
    {
      Gate(initialized, development, tmpl)
    }

    /**
     * The one-shot block of setCaddyProxies: mark the state initialized,
     * raise `development` when some domain resolves to loopback (a lookup
     * error first is fatal), and parse the chosen template.
     */
    method Initialize(host: Host) returns (fail: Option<Failure>)
      requires Valid() && !initialized && proxies != map[]
      modifies this`initialized, this`development, this`tmpl
      ensures initialized
      ensures fail.None? <==> tmpl.Some?
      ensures fail.None? ==> Valid()
      ensures fail.Some? ==> fail.value.LookupFailed? || fail.value.TemplateUnreadable?
      ensures fail.Some? && fail.value.LookupFailed? ==>
        fail.value.domain in proxies && host.lookup(fail.value.domain) == LookupError
      ensures (forall d :: d in proxies ==> host.lookup(d) != Resolved(true))
        && (exists d :: d in proxies && host.lookup(d) == LookupError)
        ==> fail.Some? && fail.value.LookupFailed?
      ensures !(fail.Some? && fail.value.LookupFailed?) ==>
        development == (old(development) || exists d :: d in proxies && host.lookup(d) == Resolved(true))
      ensures fail.Some? && fail.value.TemplateUnreadable? ==>
        fail.value.template == TemplateFor(development) && !host.parses(fail.value.template)
      ensures fail.None? ==> host.parses(TemplateFor(development))
    {
      initialized := true;
      var scan := ScanForLoopback(proxies.Keys, host.lookup);
      if scan.LookupFailedAt? {
        return Some(LookupFailed(scan.domain));
      }
      if scan.LoopbackAt? {
        development := true;
      }
      var t := TemplateFor(development);
      if !host.parses(t) {
        return Some(TemplateUnreadable(t));
      }
      tmpl := Some(t);
      return None;
    }

    /**
     * setCaddyProxies: on the first call that finds a route, decide the
     * environment once and parse its template; then hand the sorted
     * snapshot of the map to the template and load the result into Caddy.
     */
    method SetCaddyProxies(host: Host) returns (r: Outcome)
      requires Valid()
      modifies this`initialized, this`development, this`tmpl
      ensures GateStep(Pass(old(GateOf()), GateOf(), proxies, r))
      ensures DetectStep(host, Pass(old(GateOf()), GateOf(), proxies, r))
      ensures LoadStep(host, Pass(old(GateOf()), GateOf(), proxies, r))
      ensures !r.Fatal? || r.failure.LoadRejected? ==> Valid()
    {
      if !initialized {
        if |proxies| == 0 {
          return Skipped;
        }
        var fail := Initialize(host);
        if fail.Some? {
          return Fatal(fail.value);
        }
      }

      var data := BuildSnapshot(proxies);
      var t := tmpl.value;
      if !host.load(t, data) {
        return Fatal(LoadRejected(t, data));
      }
      return Loaded(t, data);
    }

    /**
     * One lifecycle event from the steady-state loop of main: parse its
     * label, up iff the status is `start`, then one configuration pass.
     */
    method HandleEvent(e: Event, host: Host) returns (r: Outcome, ghost pass: Pass)
      requires Valid()
      modifies this`proxies, this`initialized, this`development, this`tmpl
      ensures proxies == EventRoutes(old(proxies), e)
      ensures pass == Pass(old(GateOf()), GateOf(), proxies, r) && ConfigStep(host, pass)
      ensures !r.Fatal? || r.failure.LoadRejected? ==> Valid()
    {
      var containerName := Attr(e.attributes, "name");
      var https := Attr(e.attributes, HttpsLabel);
      var up := EventUp(e);
      ParseEntries(containerName, https, up);
      ghost var before := GateOf();
      r := SetCaddyProxies(host);
      pass := Pass(before, GateOf(), proxies, r);
    }

    /**
     * The seed loop of main: parse every listed container as up, under its
     * first name without the leading '/'; a container without one panics.
     */
    method ParseListed(containers: seq<Container>) returns (named: bool)
      modifies this`proxies
      ensures named == AllNamed(containers)
      ensures named ==> proxies == SeedRoutes(old(proxies), containers)
    {
      var i := 0;
      while i < |containers|
        invariant i <= |containers|
        invariant AllNamed(containers[..i])
        invariant proxies == SeedRoutes(old(proxies), containers[..i])
      {
        var containerName := ContainerName(containers[i]);
        if containerName.None? {
          return false;
        }
        assert containers[..i + 1][..i] == containers[..i];
        var https := Attr(containers[i].labels, HttpsLabel);
        var up := true;
        ParseEntries(containerName.value, https, up);
        i := i + 1;
      }
      assert containers[..i] == containers;
      return true;
    }

    /** The seed phase of main: the seed loop, then one configuration pass. */
    method Seed(containers: seq<Container>, host: Host) returns (r: Outcome)
      requires Valid()
      modifies this`proxies, this`initialized, this`development, this`tmpl
      ensures r == Fatal(MissingName) <==> !AllNamed(containers)
      ensures AllNamed(containers) ==> proxies == SeedRoutes(old(proxies), containers)
      ensures AllNamed(containers) ==> ConfigStep(host, Pass(old(GateOf()), GateOf(), proxies, r))
      ensures !r.Fatal? || r.failure.LoadRejected? ==> Valid()
    {
      var named := ParseListed(containers);
      if !named {
        return Fatal(MissingName);
      }
      r := SetCaddyProxies(host);
    }

    /**
     * The steady-state loop of main over the events delivered so far, in
     * order, one at a time; it stops at the first fatal outcome. `handled`
     * counts the events processed, the fatal one included; `passes` records
     * the configuration pass that followed each of them.
     */
    method Run(events: seq<Event>, host: Host) returns (handled: nat, last: Outcome, ghost passes: seq<Pass>)
      requires Valid()
      modifies this`proxies, this`initialized, this`development, this`tmpl
      ensures handled <= |events|
      ensures proxies == Replay(old(proxies), events[..handled])
      ensures IsTrace(old(proxies), old(GateOf()), events[..handled], host, passes)
      ensures GateOf() == LastGate(old(GateOf()), passes)
      // Processing stops at the first fatal outcome and only there.
      ensures forall i :: 0 <= i < handled - 1 ==> !passes[i].r.Fatal?
      ensures handled > 0 ==> last == passes[handled - 1].r
      ensures handled < |events| ==> handled > 0 && last.Fatal?
      ensures !last.Fatal? ==> handled == |events| && Valid()
      ensures handled == 0 ==> last == Skipped
    {
      handled := 0;
      last := Skipped;
      passes := [];
      while handled < |events| && !last.Fatal?
        invariant handled <= |events|
        invariant !last.Fatal? ==> Valid()
        invariant proxies == Replay(old(proxies), events[..handled])
        invariant IsTrace(old(proxies), old(GateOf()), events[..handled], host, passes)
        invariant GateOf() == LastGate(old(GateOf()), passes)
        invariant handled > 0 ==> last == passes[handled - 1].r
        invariant handled == 0 ==> last == Skipped
      {
        ghost var pass;
        last, pass := HandleEvent(events[handled], host);
        ReplayNext(old(proxies), events, handled);
        assert AllSteps(host, passes + [pass]);
        TraceExtend(old(proxies), old(GateOf()), events, handled, host, passes, pass);
        passes := passes + [pass];
        handled := handled + 1;
      }
    }
  }
}
