/** The control logic of the `knx-frontend` element (class `KnxFrontend`,
    src/main.ts) as values: the state the element's methods read and write,
    one transition function per method, the presence gate of `render`, and
    what follows for whole sequences of events. The class in module Frontend
    is proved to follow these functions step by step. */
module KnxPanel {
  import opened Wrappers
  import opened Theme

  /** Home Assistant's panel route: `path` is relative to `prefix`. */
  datatype Route = Route(prefix: string, path: string)

  /** The parts of the `hass` object the element reads. */
  datatype Hass = Hass(themes: Themes, selectedTheme: Option<ThemeSettings>)

  /** One call `navigate(path, { replace })`. */
  datatype Navigation = Navigation(path: string, replace: bool)

  /** One call `applyThemesOnElement(parentElement, themes, themeName, options)`. */
  datatype ThemeApplication = ThemeApplication(themes: Themes, themeName: string, options: ThemeOptions)

  /** The `knx-location-changed` event; `detail` is declared optional. */
  datatype LocationDetail = LocationDetail(route: Route)
  datatype LocationChangedEvent = LocationChangedEvent(detail: Option<LocationDetail>)

  /** What `render` passes on when it renders anything: the tab bar's
      `.selected` and the router's `.route`. */
  datatype View = View(selectedTab: string, routerRoute: Route)

  const PanelPrefix: string := "/knx"
  const LandingPath: string := "/knx/info"
  /** The `page-name` attributes of the two tabs. */
  const TabPageNames: seq<string> := ["/info", "/monitor"]

  /** The element's state. `knx` records only whether the configuration object
      is present. The counters and logs stand for the effects of foreign calls:
      `listeners` for `addEventListener`, `dialogManagers` for
      `makeDialogManager`, `configRequests` for `_getKNXConfigEntry`,
      `navigations` for `navigate`, `themeApplications` for
      `applyThemesOnElement`, `updateRequests` for `requestUpdate`. */
  datatype Shell = Shell(
    hass: Option<Hass>,
    knx: bool,
    route: Route,
    navigations: seq<Navigation>,
    listeners: nat,
    dialogManagers: nat,
    configRequests: nat,
    themeApplications: seq<ThemeApplication>,
    updateRequests: nat)

  /** A freshly mounted element with the properties the host supplied. */
  function Mounted(hass: Option<Hass>, knx: bool, route: Route): Shell {
    Shell(hass, knx, route, [], 0, 0, 0, [], 0)
  }

  predicate IsRootPath(path: string) {
    path == "" || path == "/"
  }

  predicate AllReplace(navs: seq<Navigation>) {
    forall i :: 0 <= i < |navs| ==> navs[i].replace
  }

  /** `navigate(path, { replace })` */
  function Navigate(s: Shell, path: string, replace: bool): Shell {
    s.(navigations := s.navigations + [Navigation(path, replace)])
  }

  /** `_applyTheme()`, reduced to the call it makes to the theme engine. */
  function ApplyTheme(s: Shell): Shell
    requires s.hass.Some?
  {
    var h := s.hass.value;
    s.(themeApplications := s.themeApplications
         + [ThemeApplication(h.themes, ThemeName(h.themes, h.selectedTheme), EngineOptions(h.themes, h.selectedTheme))])
  }

  /** `firstUpdated` (src/main.ts:30-46). Without `hass` nothing happens. With
      it: a configuration fetch exactly when `knx` is absent; one listener, one
      dialog manager and one theme application in any case; one replace
      navigation to the landing path exactly when the path is "" or "/". The
      route itself is never changed. */
  function FirstUpdated(s: Shell): (t: Shell)
    ensures s.hass.None? ==> t == s
    ensures t.hass == s.hass && t.knx == s.knx && t.route == s.route && t.updateRequests == s.updateRequests
    ensures s.hass.Some? ==> t.configRequests == if s.knx then s.configRequests else s.configRequests + 1
    ensures s.hass.Some? ==> t.listeners == s.listeners + 1 && t.dialogManagers == s.dialogManagers + 1
    ensures s.hass.Some? ==> t.navigations == s.navigations + if IsRootPath(s.route.path) then [Navigation(LandingPath, true)] else []
    ensures s.hass.Some? ==>
              var h := s.hass.value;
              t.themeApplications == s.themeApplications
                + [ThemeApplication(h.themes, ThemeName(h.themes, h.selectedTheme), EngineOptions(h.themes, h.selectedTheme))]
  {
    if s.hass.None? then s
    else
      var fetched := if !s.knx then s.(configRequests := s.configRequests + 1) else s;
      var listening := fetched.(listeners := fetched.listeners + 1);
      var managed := listening.(dialogManagers := listening.dialogManagers + 1);
      var normalised := if IsRootPath(s.route.path) then Navigate(managed, LandingPath, true) else managed;
      ApplyTheme(normalised)
  }

  /** `render`'s gate (src/main.ts:48-51, 67, 80): content exactly when both
      `hass` and `knx` are present, and then the tab bar selects the route's
      path and the router receives the route. */
  function Render(s: Shell): (v: Option<View>)
    ensures v.Some? <==> s.hass.Some? && s.knx
    ensures v.Some? ==> v.value.selectedTab == s.route.path && v.value.routerRoute == s.route
  {
    if s.hass.None? || !s.knx then None
    else Some(View(s.route.path, s.route))
  }

  /** `handleNavigationEvent` (src/main.ts:86-89): one replace navigation to the
      panel prefix followed by the tab's page name; the route is left alone. */
  function HandleNavigationEvent(s: Shell, pageName: string): (t: Shell)
    ensures t.navigations == s.navigations + [Navigation("/knx" + pageName, true)]
    ensures t == s.(navigations := t.navigations)
  {
    Navigate(s, PanelPrefix + pageName, true)
  }

  /** `_setRoute` (src/main.ts:115-119): the route becomes the event's route
      verbatim, one replace navigation to its path, one update request. The
      payload is dereferenced without a check, so it must be present. */
  function SetRoute(s: Shell, ev: LocationChangedEvent): (t: Shell)
    requires ev.detail.Some?
    ensures t.route == ev.detail.value.route
    ensures t.navigations == s.navigations + [Navigation(ev.detail.value.route.path, true)]
    ensures t.updateRequests == s.updateRequests + 1
    ensures t == s.(route := t.route, navigations := t.navigations, updateRequests := t.updateRequests)
  {
    var routed := s.(route := ev.detail.value.route);
    var navigated := Navigate(routed, routed.route.path, true);
    navigated.(updateRequests := navigated.updateRequests + 1)
  }

  /** The completion of the configuration fetch, which lives outside this file:
      the `knx` property becomes present. A completion needs a request, so
      without one nothing happens. */
  function ConfigArrived(s: Shell): Shell {
    if s.configRequests > 0 then s.(knx := true) else s
  }

  /** What can happen to a mounted element after its first update: a tab
      click, a location change from a descendant, the completion of the
      configuration fetch, or the host writing one of the public properties
      `hass` and `route` again (src/main.ts:22, 28). */
  datatype Event =
    | TabActivated(pageName: string)
    | LocationChanged(ev: LocationChangedEvent)
    | ConfigLoaded
    | HostSetsHass(hass: Option<Hass>)
    | HostSetsRoute(route: Route)

  /** An event the element's code handles without faulting. */
  predicate Deliverable(e: Event) {
    e.LocationChanged? ==> e.ev.detail.Some?
  }

  predicate AllDeliverable(evs: seq<Event>) {
    forall i :: 0 <= i < |evs| ==> Deliverable(evs[i])
  }

  function Step(s: Shell, e: Event): Shell
    requires Deliverable(e)
  {
    match e
    case TabActivated(p) => HandleNavigationEvent(s, p)
    case LocationChanged(ev) => SetRoute(s, ev)
    case ConfigLoaded => ConfigArrived(s)
    case HostSetsHass(h) => s.(hass := h)
    case HostSetsRoute(r) => s.(route := r)
  }

  /** The events handled one after another, in order. */
  function Run(s: Shell, evs: seq<Event>): Shell
    requires AllDeliverable(evs)
    decreases |evs|
  {
    if evs == [] then s else Run(Step(s, evs[0]), evs[1..])
  }

  /** The navigation an event issues, read off the event alone. */
  function NavigationOf(e: Event): seq<Navigation>
    requires Deliverable(e)
  {
    match e
    case TabActivated(p) => [Navigation(PanelPrefix + p, true)]
    case LocationChanged(ev) => [Navigation(ev.detail.value.route.path, true)]
    case ConfigLoaded => []
    case HostSetsHass(_) => []
    case HostSetsRoute(_) => []
  }

  function NavigationsOf(evs: seq<Event>): seq<Navigation>
    requires AllDeliverable(evs)
    decreases |evs|
  {
    if evs == [] then [] else NavigationOf(evs[0]) + NavigationsOf(evs[1..])
  }

  /** An event that assigns `this.route`. */
  predicate IsRouteWrite(e: Event) {
    e.LocationChanged? || e.HostSetsRoute?
  }

  /** The route such an event assigns. */
  function WrittenRoute(e: Event): Route
    requires IsRouteWrite(e) && Deliverable(e)
  {
    if e.LocationChanged? then e.ev.detail.value.route else e.route
  }

  predicate HasRouteWrite(evs: seq<Event>) {
    exists i :: 0 <= i < |evs| && IsRouteWrite(evs[i])
  }

  predicate HasConfigLoaded(evs: seq<Event>) {
    exists i :: 0 <= i < |evs| && evs[i].ConfigLoaded?
  }

  /** One event appends the navigation it asks for. */
  lemma StepNavigations(s: Shell, e: Event)
    requires Deliverable(e)
    ensures Step(s, e).navigations == s.navigations + NavigationOf(e)
  {
  }

  /** Handling a sequence of events appends exactly the navigations the events
      ask for, in order, and nothing else to the log. */
  lemma {:induction false} RunNavigations(s: Shell, evs: seq<Event>)
    requires AllDeliverable(evs)
    ensures Run(s, evs).navigations == s.navigations + NavigationsOf(evs)
    decreases |evs|
  {
    if evs != [] {
      var e, rest := evs[0], evs[1..];
      StepNavigations(s, e);
      RunNavigations(Step(s, e), rest);
      assert Run(s, evs) == Run(Step(s, e), rest);
      assert NavigationsOf(evs) == NavigationOf(e) + NavigationsOf(rest);
    }
  }

  /** Every navigation a tab click or a location change issues is a replace. */
  lemma {:induction false} NavigationsOfReplace(evs: seq<Event>)
    requires AllDeliverable(evs)
    ensures AllReplace(NavigationsOf(evs))
    decreases |evs|
  {
    if evs != [] {
      NavigationsOfReplace(evs[1..]);
    }
  }

  /** No event after the first update undoes or repeats the bootstrap: the
      listener, the dialog manager, the fetch and the theme stay as they were,
      whatever the host writes. */
  lemma {:induction false} RunKeepsBootstrap(s: Shell, evs: seq<Event>)
    requires AllDeliverable(evs)
    ensures var t := Run(s, evs);
            t.listeners == s.listeners && t.dialogManagers == s.dialogManagers
            && t.configRequests == s.configRequests && t.themeApplications == s.themeApplications
    decreases |evs|
  {
    if evs != [] {
      RunKeepsBootstrap(Step(s, evs[0]), evs[1..]);
    }
  }

  /** Running two sequences in turn is running their concatenation. */
  lemma {:induction false} RunAppend(s: Shell, a: seq<Event>, b: seq<Event>)
    requires AllDeliverable(a) && AllDeliverable(b)
    ensures AllDeliverable(a + b)
    ensures Run(s, a + b) == Run(Run(s, a), b)
    decreases |a|
  {
    if a != [] {
      assert (a + b)[1..] == a[1..] + b;
      RunAppend(Step(s, a[0]), a[1..], b);
    } else {
      assert a + b == b;
    }
  }

  /** Only a route write moves the route: tab clicks, the arrival of the
      configuration and a new `hass` leave it as it was. */
  lemma {:induction false} RouteOnlyMovesOnRouteWrite(s: Shell, evs: seq<Event>)
    requires AllDeliverable(evs) && !HasRouteWrite(evs)
    ensures Run(s, evs).route == s.route
    decreases |evs|
  {
    if evs != [] {
      assert !HasRouteWrite(evs[1..]) by {
        forall i | 0 <= i < |evs[1..]| ensures !IsRouteWrite(evs[1..][i]) {
          assert evs[1..][i] == evs[i + 1];
        }
      }
      RouteOnlyMovesOnRouteWrite(Step(s, evs[0]), evs[1..]);
    }
  }

  /** After any sequence of events, the route is the one written last, taken
      verbatim, whether a descendant's location change or the host wrote it. */
  lemma LastRouteWriteWins(s: Shell, evs: seq<Event>, k: nat)
    requires AllDeliverable(evs)
    requires k < |evs| && IsRouteWrite(evs[k])
    requires !HasRouteWrite(evs[k + 1..])
    ensures Run(s, evs).route == WrittenRoute(evs[k])
  {
    var before, at, after := evs[..k], [evs[k]], evs[k + 1..];
    assert evs == before + at + after;
    RunAppend(s, before + at, after);
    RunAppend(s, before, at);
    RouteOnlyMovesOnRouteWrite(Run(s, before + at), after);
  }

  /** The configuration is present after a sequence of events exactly when it
      was present before, or it was requested and its fetch completed during
      the sequence. */
  lemma {:induction false} KnxAfterRun(s: Shell, evs: seq<Event>)
    requires AllDeliverable(evs)
    ensures Run(s, evs).knx <==> s.knx || (s.configRequests > 0 && HasConfigLoaded(evs))
    decreases |evs|
  {
    if evs != [] {
      KnxAfterRun(Step(s, evs[0]), evs[1..]);
      assert HasConfigLoaded(evs) <==> evs[0].ConfigLoaded? || HasConfigLoaded(evs[1..]) by {
        if HasConfigLoaded(evs[1..]) {
          var i :| 0 <= i < |evs[1..]| && evs[1..][i].ConfigLoaded?;
          assert evs[i + 1].ConfigLoaded?;
        }
        if HasConfigLoaded(evs) && !evs[0].ConfigLoaded? {
          var i :| 0 <= i < |evs| && evs[i].ConfigLoaded?;
          assert evs[1..][i - 1].ConfigLoaded?;
        }
      }
    }
  }

  /** After any sequence of events the element renders content exactly when
      it holds a `hass` and the configuration was there from the start or was
      requested and has arrived since. */
  lemma RenderAfterRun(s: Shell, evs: seq<Event>)
    requires AllDeliverable(evs)
    ensures Render(Run(s, evs)).Some?
            <==> Run(s, evs).hass.Some? && (s.knx || (s.configRequests > 0 && HasConfigLoaded(evs)))
  {
    KnxAfterRun(s, evs);
  }

  /** `firstUpdated` runs once. If `hass` was missing then, a `hass` that
      arrives later brings no config request, no listener, no dialog manager
      and no theme, and an element mounted without its configuration stays
      blank whatever happens next. */
  lemma LateHassNeverBootstraps(knx: bool, route: Route, evs: seq<Event>)
    requires AllDeliverable(evs)
    ensures var t := Run(FirstUpdated(Mounted(None, knx, route)), evs);
            t.configRequests == 0 && t.listeners == 0 && t.dialogManagers == 0 && t.themeApplications == []
            && (!knx ==> Render(t).None?)
  {
    var booted := FirstUpdated(Mounted(None, knx, route));
    RunKeepsBootstrap(booted, evs);
    RenderAfterRun(booted, evs);
  }

  /** Clicking only the two tabs yields only navigations to `/knx/info` and
      `/knx/monitor`, each a replace. */
  lemma {:induction false} TabClicksReachOnlyTabPages(evs: seq<Event>)
    requires forall i :: 0 <= i < |evs| ==> evs[i].TabActivated? && evs[i].pageName in TabPageNames
    ensures AllDeliverable(evs)
    ensures var navs := NavigationsOf(evs);
            |navs| == |evs|
            && forall i :: 0 <= i < |navs| ==>
                 navs[i] == Navigation(PanelPrefix + evs[i].pageName, true)
                 && (navs[i].path == "/knx/info" || navs[i].path == "/knx/monitor")
    decreases |evs|
  {
    if evs != [] {
      TabClicksReachOnlyTabPages(evs[1..]);
      var navs := NavigationsOf(evs);
      forall i | 0 <= i < |navs|
        ensures navs[i] == Navigation(PanelPrefix + evs[i].pageName, true)
      {
        if i > 0 {
          assert navs[i] == NavigationsOf(evs[1..])[i - 1];
          assert evs[1..][i - 1] == evs[i];
        }
      }
    }
  }

  /** Over a whole lifetime, mount, bootstrap, then any events, every call the
      element makes to `navigate` asks for a replace. */
  lemma EveryNavigationReplaces(hass: Option<Hass>, knx: bool, route: Route, evs: seq<Event>)
    requires AllDeliverable(evs)
    ensures AllReplace(Run(FirstUpdated(Mounted(hass, knx, route)), evs).navigations)
  {
    var booted := FirstUpdated(Mounted(hass, knx, route));
    RunNavigations(booted, evs);
    NavigationsOfReplace(evs);
  }

  /** Nothing guards the bootstrap against running twice: a second run adds a
      second listener, a second dialog manager and a second theme
      application. */
  lemma BootstrapIsNotGuarded(s: Shell)
    requires s.hass.Some?
    ensures var t := FirstUpdated(FirstUpdated(s));
            t.listeners == s.listeners + 2 && t.dialogManagers == s.dialogManagers + 2
            && |t.themeApplications| == |s.themeApplications| + 2
  {
  }
}
