/** The `knx-frontend` custom element (class `KnxFrontend`, src/main.ts) as an
    object whose methods update its fields in the order the element's code
    does. Each method is proved to move the element's state exactly as the
    matching function of module KnxPanel does, so everything proved there
    about event sequences holds of the object. */
module Frontend {
  import opened Wrappers
  import opened Theme
  import opened KnxPanel

  class KnxFrontend {
    /** The reactive properties the host sets. */
    var hass: Option<Hass>
    var knx: bool
    var route: Route

    /** Recorded effects of the calls into the host and the theme engine. */
    var navigations: seq<Navigation>
    var listeners: nat
    var dialogManagers: nat
    var configRequests: nat
    var themeApplications: seq<ThemeApplication>
    var updateRequests: nat

    /** The element's state as a value. */
    function State(): Shell
      reads this
    {
      Shell(hass, knx, route, navigations, listeners, dialogManagers, configRequests, themeApplications, updateRequests)
    }

    /** Mounting: the host's properties are in place and nothing has been
        called yet. */
    constructor (hass: Option<Hass>, knx: bool, route: Route)
      ensures State() == Mounted(hass, knx, route)
    {
      this.hass := hass;
      this.knx := knx;
      this.route := route;
      navigations := [];
      listeners := 0;
      dialogManagers := 0;
      configRequests := 0;
      themeApplications := [];
      updateRequests := 0;
    }

    /** `navigate(path, { replace })` */
    method Navigate(path: string, replace: bool)
      modifies this
      ensures State() == KnxPanel.Navigate(old(State()), path, replace)
    {
      navigations := navigations + [Navigation(path, replace)];
    }

    /** `_applyTheme()`: derive the theme name and options from `hass` and hand
        them to the theme engine. */
    method ApplyTheme()
      requires hass.Some?
      modifies this
      ensures State() == KnxPanel.ApplyTheme(old(State()))
    {
      var themeName := ThemeName(hass.value.themes, hass.value.selectedTheme);
      var options := EngineOptions(hass.value.themes, hass.value.selectedTheme);
      themeApplications := themeApplications + [ThemeApplication(hass.value.themes, themeName, options)];
    }

    /** `firstUpdated`: the bootstrap, run once by the host framework. */
    method FirstUpdated()
      modifies this
      ensures State() == KnxPanel.FirstUpdated(old(State()))
      ensures route == old(route) && hass == old(hass) && knx == old(knx)
      ensures hass.Some? ==> listeners == old(listeners) + 1 && dialogManagers == old(dialogManagers) + 1
      ensures hass.Some? ==> (configRequests == old(configRequests) + 1 <==> !knx)
    {
      if hass.None? {
        return;
      }
      if !knx {
        configRequests := configRequests + 1;
      }
      listeners := listeners + 1;
      dialogManagers := dialogManagers + 1;
      if IsRootPath(route.path) {
        Navigate(LandingPath, true);
      }
      ApplyTheme();
    }

    /** `handleNavigationEvent`: a tab was clicked. */
    method HandleNavigationEvent(pageName: string)
      modifies this
      ensures State() == KnxPanel.HandleNavigationEvent(old(State()), pageName)
      ensures route == old(route)
    {
      var path := PanelPrefix + pageName;
      Navigate(path, true);
    }

    /** `_setRoute`: a descendant reported a location change. */
    method SetRoute(ev: LocationChangedEvent)
      requires ev.detail.Some?
      modifies this
      ensures State() == KnxPanel.SetRoute(old(State()), ev)
      ensures route == ev.detail.value.route
    {
      route := ev.detail.value.route;
      Navigate(route.path, true);
      updateRequests := updateRequests + 1;
    }

    /** The configuration fetch completed and set `knx`; there is no
        completion without a request. */
    method ConfigArrived()
      modifies this
      ensures State() == KnxPanel.ConfigArrived(old(State()))
    {
      if configRequests > 0 {
        knx := true;
      }
    }

    /** The host writes the `hass` property again. */
    method HostSetsHass(h: Option<Hass>)
      modifies this
      ensures State() == Step(old(State()), Event.HostSetsHass(h))
    {
      hass := h;
    }

    /** The host writes the `route` property again. */
    method HostSetsRoute(r: Route)
      modifies this
      ensures State() == Step(old(State()), Event.HostSetsRoute(r))
    {
      route := r;
    }
  }
}
