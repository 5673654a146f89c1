# knx-frontend panel shell: a verified model

`knx-frontend` is the root custom element of the KNX panel in Home Assistant
(class `KnxFrontend` in `src/main.ts`). Around its templates and styles sits a
small piece of control logic, and this project models that logic and proves
what it does:

- **Bootstrap** (`firstUpdated`). It does nothing without `hass`. With `hass`,
  it requests the KNX config entry when `knx` is absent. Then it registers the
  `knx-location-changed` listener, creates the dialog manager, issues a replace
  navigation to `/knx/info` when the route's path is `""` or `"/"`, and applies
  the theme.
- **Render gate** (`render`). Content appears only when both `hass` and `knx`
  are present. The tab bar then selects `route.path`, and the nested router
  receives `route`.
- **Route synchronisation.** A tab click (`handleNavigationEvent`) navigates
  with replace to `"/knx"` followed by the tab's `page-name`. A location change
  from a descendant (`_setRoute`) stores the event's route verbatim, navigates
  with replace to its path and requests an update.
- **Theme derivation** (`_applyTheme`). The theme name is the selected theme,
  else the dark default in dark mode, else the default. The options are the
  selected theme's fields with `dark` forced to `themes.darkMode`.

Files:

- `wrappers.dfy` (module `Wrappers`): `Option`, for properties that may be
  `undefined` or `null`.
- `theme.dfy` (module `Theme`): the theme name and options as pure functions.
  JavaScript truthiness (`||`, `?:`) and object spread are written out.
- `panel.dfy` (module `KnxPanel`): the element's state as a value (`Shell`).
  It has one transition function per method and the render gate. It also
  runs whole event sequences (`Run`) and holds the lemmas about them.
- `frontend.dfy` (module `Frontend`): class `KnxFrontend`. Its fields are the
  ones `src/main.ts` reads and writes, plus logs and counters for the foreign
  calls. Each method's `ensures` says its new `State()` is the matching
  `KnxPanel` function applied to the old one.

The foreign calls are recorded as effects in the state:

- `navigate(path, {replace})` appends a `Navigation` to `navigations`.
- `addEventListener` increments `listeners`.
- `makeDialogManager` increments `dialogManagers`.
- `_getKNXConfigEntry` increments `configRequests`.
- `applyThemesOnElement` appends a `ThemeApplication` (its arguments).
- `requestUpdate` increments `updateRequests`.

The fields of `hass.selectedTheme` are taken to be Home Assistant's
`ThemeSettings`: `theme`, and the optional `dark`, `primaryColor` and
`accentColor`. `@ha/types` is not part of this model.

Behaviour a reader might expect but the code does not have (the model
follows the code):

- The bootstrap registers the listener, creates the dialog manager and applies
  the theme as soon as `hass` is present, even while `knx` is still absent.
  It does not wait for both.
- The bootstrap registers the location listener (src/main.ts:38) before the
  normalising navigation (src/main.ts:41-43), not after it.
- `firstUpdated` runs once. If `hass` is missing then, a `hass` set later
  never brings the config request, the listener, the dialog manager or the
  theme (`KnxPanel.LateHassNeverBootstraps`).
- Normalising an empty or root path only calls `navigate`; `this.route` is not
  assigned (src/main.ts:41-43).
- A tab click only calls `navigate`; `this.route` is not assigned
  (src/main.ts:86-89).
- Nothing guards against a second bootstrap (`KnxPanel.BootstrapIsNotGuarded`).
- A location event without `detail` is not a no-op. `_setRoute` dereferences
  `ev.detail!`, so the model requires the payload to be present.

## Model

| member | source | states |
|---|---|---|
| `Theme.ThemeName` | src/main.ts:124-128 | The name is the selected theme when that name is non-empty. Otherwise it is the dark default when dark mode is on and a non-empty dark default is set. Otherwise it is the plain default. It is non-empty unless it is the plain default. |
| `Theme.ThemeNameIsACandidate` | src/main.ts:124-128 | The derived name is always the selected theme's name, the default theme or the dark default. |
| `Theme.DarkDefaultOnlyInDarkMode` | src/main.ts:124-128 | When the dark default differs from every other candidate, it is chosen if and only if dark mode is on and no non-empty theme is selected. |
| `Theme.EngineOptions` | src/main.ts:130-140 | The options handed to the engine always carry `dark` equal to `themes.darkMode`. With a selected theme they are its fields with `dark` overridden. With none they are exactly `{dark}`. |
| `Theme.CopyBranchKeepsContent` | src/main.ts:130-135 | Copying the selected record when the name is "default" and no `dark` was set never changes the content that reaches the engine. |
| `KnxPanel.FirstUpdated` | src/main.ts:30-46 | Without `hass` the state is unchanged. With `hass`: one config request exactly when `knx` is absent; one listener and one dialog manager; one `(/knx/info, replace)` navigation exactly when the path is `""` or `"/"`; one theme application with the derived name and options. The route, `hass` and `knx` are never changed. |
| `KnxPanel.Render` | src/main.ts:48-83 | There is content if and only if both `hass` and `knx` are present. The tab bar's selection is then `route.path` and the router gets `route`. |
| `KnxPanel.HandleNavigationEvent` | src/main.ts:86-89 | Appends exactly one navigation, `("/knx" + pageName, replace)`. Nothing else changes, the route included. |
| `KnxPanel.SetRoute` | src/main.ts:115-119 | The route becomes the event's route verbatim. It appends one navigation `(route.path, replace)` and one update request. Nothing else changes. |
| `KnxPanel.RunNavigations` | src/main.ts:86-119 | Across any event sequence, the navigation log grows by exactly the navigations the events ask for, in order. |
| `KnxPanel.NavigationsOfReplace` | src/main.ts:86-119 | Every navigation a tab click or a location change asks for is a replace. |
| `KnxPanel.RunKeepsBootstrap` | src/main.ts:30-46 | Events after the first update, host writes of `hass` and `route` included, never change the listener count, the dialog manager count, the config request count or the theme applications. |
| `KnxPanel.RouteOnlyMovesOnRouteWrite` | src/main.ts:86-119 | A sequence with no location change and no host write of `route` leaves the route as it was. |
| `KnxPanel.LastRouteWriteWins` | src/main.ts:115-119 | After any sequence, the route is exactly the route written last, verbatim, by a location change or by the host. |
| `KnxPanel.KnxAfterRun` | src/main.ts:35-37 | After any sequence, `knx` is present if and only if it was present before, or it was requested and its fetch completed during the sequence. |
| `KnxPanel.RenderAfterRun` | src/main.ts:48-51 | After any event sequence there is content if and only if the element holds a `hass` and `knx` was present or was requested and arrived during the sequence. |
| `KnxPanel.LateHassNeverBootstraps` | src/main.ts:30-34 | A first update without `hass` leaves no config request, listener, dialog manager or theme application whatever follows. If `knx` was also absent, nothing is ever rendered. |
| `KnxPanel.TabClicksReachOnlyTabPages` | src/main.ts:70-89 | Clicks on the two tabs yield one navigation per click. Each is `("/knx" + page-name, replace)`, so its target is `/knx/info` or `/knx/monitor`. |
| `KnxPanel.EveryNavigationReplaces` | src/main.ts:30-119 | Over a whole lifetime (mount, bootstrap, any events), every `navigate` call asks for a replace. |
| `KnxPanel.BootstrapIsNotGuarded` | src/main.ts:30-46 | Running the bootstrap twice with `hass` present adds two listeners, two dialog managers and two theme applications. |
| `Frontend.KnxFrontend.constructor` | src/main.ts:22-28 | A mounted element holds the host's `hass`, `knx` and `route`, and nothing has been called yet. |
| `Frontend.KnxFrontend.ApplyTheme` | src/main.ts:121-140 | Records one engine call with `hass.themes`, the derived name and the derived options. |
| `Frontend.KnxFrontend.FirstUpdated` | src/main.ts:30-46 | The bootstrap moves the object's state exactly as `KnxPanel.FirstUpdated` does. |
| `Frontend.KnxFrontend.HandleNavigationEvent` | src/main.ts:86-89 | A tab click moves the object's state exactly as `KnxPanel.HandleNavigationEvent` does, and the route is unchanged. |
| `Frontend.KnxFrontend.HostSetsHass` | src/main.ts:22 | A host write of `hass` replaces `hass` and changes nothing else. |
| `Frontend.KnxFrontend.HostSetsRoute` | src/main.ts:28 | A host write of `route` replaces `route` and changes nothing else. |
| `Frontend.KnxFrontend.SetRoute` | src/main.ts:115-119 | A location change moves the object's state exactly as `KnxPanel.SetRoute` does, and the route is the event's route. |

## Left out

- Lit templates, `html`/`css` literals, `styles`, the header, menu button and
  tab markup, and `narrow`. They are presentation. Only the tab bar's
  `.selected` and the router's `.route` are kept (in `KnxPanel.View`).
- The internals of `navigate`, `makeDialogManager` and `applyThemesOnElement`.
  They are foreign calls and are recorded only as effects. The table of named
  themes passes through to the engine unexamined.
- `_getKNXConfigEntry` and its asynchronous completion. `./knx` is not part of
  this model. The request is a counter. The completion is the explicit
  transition `ConfigArrived`, which sets `knx` when a request was made. The
  code shows no failure or retry behaviour, so none is modelled. The host
  writing `knx` or `narrow` directly is not an event of the model; the host
  writing `hass` or `route` is.
- KnxPanel.FirstUpdated: the relative order of its effects is not captured,
  because each effect is recorded in its own counter or log. The code
  registers the listener, then creates the dialog manager, then navigates,
  then applies the theme. The call `super.firstUpdated(changedProps)`
  (src/main.ts:31) goes into the base class in `./knx`, which is not part of
  this model.
- The write to `parentElement.style.backgroundColor` (src/main.ts:141). It is a
  DOM side effect.
- Event delivery through `addEventListener` and bubbling. A location change
  calls `SetRoute` directly. So the model does not capture that an event sent
  before the bootstrap is lost, or that a listener registered twice would
  handle each event twice.
- Re-rendering after `requestUpdate` or after a property changes. Rendering is
  the function `KnxPanel.Render` of the current state. It is not a scheduled
  step.
