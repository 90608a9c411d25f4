# Auto-connect for the Meshtastic web client, modelled in Dafny

This project models the web client's auto-connect path. It has three parts:

- **Configuration loader** (`packages/web/src/core/services/autoconnect.ts`).
  It fetches `/autoconnect.json` once and checks the document against the
  schema. The `autoConnect` member must be an object whose `transport` is the
  literal `"http"` and whose `url` is a non-empty string. Each fetch ends in
  one of three ways: *absent* (`null`), *valid* (the `autoConnect` object), or
  *invalid* (a validation error is thrown).
- **The `useAutoConnect` hook** (`packages/web/src/core/hooks/useAutoConnect.ts`).
  This is a state machine over `loading`, `connecting`, `error` and `config`,
  plus the app store's kiosk flag:
  - a one-shot load that feeds the first connection attempt;
  - connection attempts that register a device, node DB and message store
    under one id and select it;
  - `retry`, which reuses the stored config.
- **View selection** (`packages/web/src/App.tsx`). The app shows one of: the
  loading screen, the config-error toast, the kiosk error page, or the normal
  UI, with the connect dialog only outside kiosk mode.

Modules:

| file | module | contents |
|---|---|---|
| `wrappers.dfy` | `Wrappers` | `Option`, `Result` |
| `json.dfy` | `JsonValues` | the `Json` datatype, member access |
| `autoconnect.dfy` | `AutoConnect` | the schema as a predicate, the validator, fetch classification, the loader |
| `transport_url.dfy` | `TransportUrl` | how the transport host and TLS flag are derived from the url |
| `use_auto_connect.dfy` | `UseAutoConnect` | hook state, effect log, transitions, sessions |
| `app_view.dfy` | `AppView` | view selection and its composition with the lifecycle |

How the model is built:

- **Validation.** The schema is the predicate `ConformsToSchema`. The
  validator `ParseDocument` works like the schema library: it checks every
  member and collects the violations as `Issue`s. The error message the
  library builds from those issues is a parameter, `render`. That validation
  error is an `Error`, so the hook records `render(issues)`.
- **Side effects.** Every side effect goes, in order, into an append-only log
  (`Effect`):
  - the configuration fetch;
  - each transport request, with its host and TLS flag;
  - each device, node DB and message store registration;
  - each device selection.

  The state of the stores is read back from this log.
- **Sequencing.** React state updates take effect immediately. Each
  asynchronous function runs to completion before the next event: the load
  effect, including its first attempt, and each retry. So a session is a
  startup followed by a sequence of retries (`Session`).
- **Inputs from outside.** Four things come from outside the model and are
  passed in as parameters:
  - the response to the one fetch (`FetchResult`);
  - the id that `randId()` draws;
  - whether `TransportHTTP.create` succeeds or throws (`CreateResult`);
  - the validation message (`render`).

Four points where the code does something other than a reader of its comments or of the lifecycle's intent might expect; the model follows the code:

- **Unparseable body.** A body that is not valid JSON is *absent*, not
  *invalid*. The doc comment at `autoconnect.ts:21` says malformed JSON
  throws. But the catch block at lines 38-43 rethrows only errors that carry
  `issues`. A JSON syntax error does not, so `loadAutoConnectConfig` returns
  `null` (`AutoConnect.SyntaxErrorIsAbsent`).
- **Loading and connecting overlap.** The first connection attempt runs inside
  the load effect, and `setLoading(false)` is in its `finally`. So `loading`
  and `connecting` are both true while that attempt is in flight, although
  the lifecycle is meant to finish loading before connecting starts. The
  overlap is not visible, because the loading screen hides it
  (`UseAutoConnect.InitialAttemptOverlapsLoading`,
  `AppView.LoadingScreenUntilFirstAttemptEnds`).
- **Registration timing.** Device, node DB and message store are registered
  only after the transport has been created. A failure to create the transport
  leaves no registration and no selection behind. The id is published before
  the device is configured, but that step is the un-awaited `configure()`
  call, which is left out.
- **Nothing is cleared.** The hook's doc comment (`useAutoConnect.ts:27`)
  says it clears existing device state, but no line of the hook removes a
  device, node DB, message store or selection. The model follows the code:
  its effect log only ever grows, and earlier registrations stay.

## Model

| member | source | states |
|---|---|---|
| `AutoConnect.ParseDocument` | packages/web/src/core/services/autoconnect.ts:7-12 | The validator accepts a document exactly when it conforms to the schema: an object whose `autoConnect` object has `transport` equal to `"http"` and a `url` string of length at least one. It returns that object's transport and url; a rejection carries at least one issue |
| `AutoConnect.ParseConnection` | packages/web/src/core/services/autoconnect.ts:8-11 | The `autoConnect` value is accepted exactly when it is an object with `transport` equal to `"http"` and a non-empty `url` string, and the result carries that url; a rejection carries at least one issue |
| `AutoConnect.EncodeParseRoundTrip` | packages/web/src/core/services/autoconnect.ts:7-16 | Writing a config with a non-empty url as a document and validating it gives back the same config |
| `AutoConnect.ExtraMembersIgnored` | packages/web/src/core/services/autoconnect.ts:7-12 | Adding a member outside the schema changes nothing, at the top level or inside `autoConnect`: unknown keys are ignored, not rejected |
| `AutoConnect.Classify` | packages/web/src/core/services/autoconnect.ts:23-45 | A fetch is absent exactly when it was rejected, not ok, or its body is not JSON. It is valid exactly when the body conforms to the schema, with that document's url. Otherwise it is invalid, with at least one issue |
| `AutoConnect.LoadAutoConnectConfig` | packages/web/src/core/services/autoconnect.ts:23-45 | The loader requests exactly `/autoconnect.json`, once. It resolves to null on a rejected fetch, a non-ok status or an unparseable body. It resolves to the config on a conforming document. It rejects exactly when a parsed document does not conform, with an `Error` whose message is rendered from the issues |
| `AutoConnect.NotOkNeverReadsBody` | packages/web/src/core/services/autoconnect.ts:27-30 | A non-ok response is absent whatever its body holds |
| `AutoConnect.SyntaxErrorIsAbsent` | packages/web/src/core/services/autoconnect.ts:32-43 | A body that fails to parse as JSON is absent, not invalid, because a syntax error carries no `issues` |
| `AutoConnect.WrongTransportIsInvalid` | packages/web/src/core/services/autoconnect.ts:9 | A `transport` other than `"http"` is invalid, not absent, with an issue at `autoConnect.transport` |
| `AutoConnect.BadUrlIsInvalid` | packages/web/src/core/services/autoconnect.ts:10 | A missing, non-string or empty `url` is invalid, with an issue at `autoConnect.url` |
| `AutoConnect.MissingAutoConnectIsInvalid` | packages/web/src/core/services/autoconnect.ts:8 | A document without an `autoConnect` object is invalid, with one type issue |
| `AutoConnect.ExampleDocumentLoads` | packages/web/src/core/services/autoconnect.test.ts:34-52 | The sample document with url `http://192.168.1.100` loads as exactly its `autoConnect` object |
| `TransportUrl.StripScheme` | packages/web/src/core/hooks/useAutoConnect.ts:49 | The host is the url without a leading `https://` or `http://`, and the url itself when it starts with neither |
| `TransportUrl.TransportArgsRoundTrip` | packages/web/src/core/hooks/useAutoConnect.ts:48-51 | For any host and flag, the url written with `https://` or `http://` yields that same host and TLS flag back |
| `TransportUrl.SchemedUrlRecovered` | packages/web/src/core/hooks/useAutoConnect.ts:48-51 | A url that starts with `http://` or `https://` is rebuilt exactly from its host and TLS flag |
| `TransportUrl.HostIsSuffix` | packages/web/src/core/hooks/useAutoConnect.ts:49 | The host is a suffix of the url, and what is removed is nothing, `http://` or `https://` |
| `TransportUrl.StripsOnce` | packages/web/src/core/hooks/useAutoConnect.ts:49 | For every host and pair of schemes, the scheme is removed once, so a url with a doubled scheme keeps its second copy |
| `TransportUrl.TlsFromBareHostName` | packages/web/src/core/hooks/useAutoConnect.ts:50 | TLS tests only the prefix `https`, so every url that starts with `https` but with neither scheme is a bare host name that selects TLS and keeps its name |
| `UseAutoConnect.BeginAttempt` | packages/web/src/core/hooks/useAutoConnect.ts:36-37 | Starting an attempt sets `connecting` and clears any earlier error; it changes nothing else |
| `UseAutoConnect.SettleAttemptLog` | packages/web/src/core/hooks/useAutoConnect.ts:47-60 | Each attempt requests a transport for the config's url and fetches nothing. On failure the set of registered ids and the selection are unchanged. On success the device, node DB and message store are registered under the attempt's id, the registered ids grow by exactly that id, and it becomes the selected device |
| `UseAutoConnect.SettleAttemptRegistersOnlyOwnId` | packages/web/src/core/hooks/useAutoConnect.ts:47-60 | Every registration or selection effect an attempt appends belongs to a successful attempt and carries the attempt's own id: a failed attempt writes no store at all, even one that already holds an id |
| `UseAutoConnect.Connect` | packages/web/src/core/hooks/useAutoConnect.ts:35-70 | Every attempt ends not connecting. The error is cleared exactly on success. A thrown `Error`'s message becomes the error, and any other thrown value gives `"Connection failed. Please retry."`. Config, loading and kiosk state are untouched and nothing is fetched. Every registration or selection it appends is made on success and under the attempt's id |
| `UseAutoConnect.LoadConfig` | packages/web/src/core/hooks/useAutoConnect.ts:78-102 | Loading ends after every load outcome. A null result leaves everything else as it was. A rejection sets the error to the `Error`'s message or `"Invalid configuration file format"` and stores no config. A config is stored, kiosk mode turns on with the same config, and one attempt with its url is made; a failed first attempt leaves the `Error`'s message, or `"Connection failed. Please retry."` for any other thrown value |
| `UseAutoConnect.Startup` | packages/web/src/core/hooks/useAutoConnect.ts:30-102 | From mount to the end of the load effect, exactly one fetch is made, of `/autoconnect.json`. Absent gives all fields empty, no kiosk mode and no transport request. Invalid gives the validation message, no config and no transport request. Valid gives the config, kiosk mode with it, and one transport request for its url. The error is cleared on success; on failure it is the `Error`'s message or `"Connection failed. Please retry."`. The device is registered and selected only if the attempt succeeds |
| `UseAutoConnect.InitialAttemptOverlapsLoading` | packages/web/src/core/hooks/useAutoConnect.ts:83-98 | While the first attempt is in flight the hook is loading and connecting at once, with no error, and the config and kiosk mode are already set |
| `UseAutoConnect.LoadConfigRunsConnect` | packages/web/src/core/hooks/useAutoConnect.ts:83-88 | On a config, the load effect is exactly `connect` on the adopted config followed by the `finally`, so every fact about an attempt holds for the first one too |
| `UseAutoConnect.Retry` | packages/web/src/core/hooks/useAutoConnect.ts:72-76 | Without a stored config, retry changes nothing. With one, it runs one more attempt for the stored url: the error is cleared exactly on success, a failure shows the thrown `Error`'s message or else the fallback text, and only a successful attempt registers and selects, under its own id. It never fetches, and never changes the config, kiosk state or loading flag |
| `UseAutoConnect.SessionInvariant` | packages/web/src/core/hooks/useAutoConnect.ts:72-102 | After any number of retries: the hook is neither loading nor connecting, and kiosk mode is on exactly when a config is stored, with that config. Exactly one fetch has been made, and the config and kiosk state are the ones the load set |
| `UseAutoConnect.SessionWithoutConfigIsStartup` | packages/web/src/core/hooks/useAutoConnect.ts:72-76 | When the load gave no valid config, any number of retries leave the world exactly as the load left it |
| `UseAutoConnect.SessionTransportRequests` | packages/web/src/core/hooks/useAutoConnect.ts:47-51 | With a valid config, a session makes exactly one transport request per attempt, each with the stored url's host and TLS flag: retry never reloads or changes the config |
| `UseAutoConnect.LastAttemptDecidesError` | packages/web/src/core/hooks/useAutoConnect.ts:62-68 | After retries, the error is cleared exactly when the last retry succeeded; a failure with an `Error` shows its message, and any other failure shows the fallback text |
| `UseAutoConnect.RetryRecovers` | packages/web/src/core/hooks/useAutoConnect.ts:35-76 | A first attempt that failed in either way (an `Error` or any other thrown value), followed by a successful retry: the state is all clear with the loaded config. The same host and TLS flag were requested twice, and only the retry's id is registered and selected |
| `AppView.LoadingGate` | packages/web/src/App.tsx:36-42 | The loading screen is produced exactly while loading, whatever the other fields and the kiosk flag are |
| `AppView.ToastShownIff` | packages/web/src/App.tsx:45-52 | The config-error toast appears exactly when, after loading, the error is a non-empty string, no config is stored and kiosk mode is off; it shows that error |
| `AppView.KioskPageShownIff` | packages/web/src/App.tsx:48-56 | The kiosk error page appears exactly when, after loading, the error is non-empty, a config is stored and kiosk mode is on. It gets the config's url, the retry handler, and `connecting` as `retrying` |
| `AppView.ToastAndKioskPageExclusive` | packages/web/src/App.tsx:45-48 | The toast and the kiosk error page never appear together |
| `AppView.NormalUiShownIff` | packages/web/src/App.tsx:58-67 | The normal UI appears exactly when, after loading, there is no kiosk error page; it includes the connect dialog exactly outside kiosk mode |
| `AppView.EmptyErrorIsNoError` | packages/web/src/App.tsx:45-48 | An empty error string gives the same view as no error |
| `AppView.LoadingScreenUntilFirstAttemptEnds` | packages/web/src/core/hooks/useAutoConnect.ts:30-37 | A mounted hook shows the loading screen. So does the state during the first attempt, even though it is connecting |
| `AppView.AttemptHidesKioskPage` | packages/web/src/core/hooks/useAutoConnect.ts:36-37 | While an attempt is in flight the error is cleared, so neither the toast nor the kiosk error page (and its retry button) is shown |
| `AppView.StartupViews` | packages/web/src/App.tsx:36-67 | After the load effect: absent shows the normal UI with the connect dialog. Invalid, with a non-empty message, adds the toast. A successful first attempt shows the kiosk UI without the dialog. A failed one whose shown text is non-empty (an `Error` with a non-empty message, or any other throw with its fallback text) shows only the kiosk error page for the config's url, not retrying. An `Error` with an empty message is falsy, so it leaves a kiosk user on the kiosk UI without the error page or a retry |
| `AppView.SelectView` | packages/web/src/App.tsx:36-67 | The loading screen is produced exactly while loading. After loading, the toast and the kiosk page never appear together, the normal UI appears exactly without the kiosk page, and a shown toast has a non-empty message. The exact conditions are in `AppView.ToastShownIff`, `AppView.KioskPageShownIff` and `AppView.NormalUiShownIff` |
| `AutoConnect.TryBlock` | packages/web/src/core/services/autoconnect.ts:24-35 | The try block returns null exactly on a non-ok response, and returns a config exactly on a conforming document. It raises something with `issues` exactly on a parsed document that does not conform; every other failure raises something without them |
| `UseAutoConnect.Mount` | packages/web/src/core/hooks/useAutoConnect.ts:30-33 | The mounted state: loading, not connecting, no error, no config, kiosk mode off (assumed, the app store is not modelled), nothing logged. Its consequences are in `AppView.LoadingScreenUntilFirstAttemptEnds` and `UseAutoConnect.Startup` |
| `UseAutoConnect.ErrorMessage` | packages/web/src/core/hooks/useAutoConnect.ts:65-67 | The `err instanceof Error ? err.message : fallback` choice, used with both fallback texts. What it yields is stated in the contracts of `UseAutoConnect.Connect`, `UseAutoConnect.LoadConfig` and `UseAutoConnect.Startup` |
| `TransportUrl.TransportArgs` | packages/web/src/core/hooks/useAutoConnect.ts:48-51 | The host and TLS flag handed to the transport factory. Its host is pinned by `TransportUrl.StripScheme`, and its inverse by `TransportUrl.TransportArgsRoundTrip` and `TransportUrl.SchemedUrlRecovered` |
| `TransportUrl.UseTls` | packages/web/src/core/hooks/useAutoConnect.ts:50 | TLS is on exactly when the url starts with `https`. The round-trip lemmas and `TransportUrl.TlsFromBareHostName` state what that gives |
| `UseAutoConnect.AfterLoaderSettles` | packages/web/src/core/hooks/useAutoConnect.ts:81-92 | The state once the loader has settled, before `finally`. Its log is the loader's fetches and nothing else (`UseAutoConnect.AfterLoaderSettlesLog`). On a config it is mid-attempt (`UseAutoConnect.InitialAttemptOverlapsLoading`) |
| `UseAutoConnect.SettleAttempt` | packages/web/src/core/hooks/useAutoConnect.ts:47-69 | The end of an attempt: the transport request, then either the registrations and selection or the error text. It is stated by `UseAutoConnect.SettleAttemptLog`, `UseAutoConnect.SettleAttemptRegistersOnlyOwnId` and `UseAutoConnect.Connect` |
| `UseAutoConnect.Session` | packages/web/src/core/hooks/useAutoConnect.ts:72-102 | A mount followed by any number of retries. It is stated by `UseAutoConnect.SessionInvariant`, `UseAutoConnect.SessionWithoutConfigIsStartup` and `UseAutoConnect.SessionTransportRequests` |
| `AppView.SessionViewSources` | packages/web/src/App.tsx:45-56 | Throughout a session: the toast appears only for an invalid config, and never when the config was valid. The kiosk error page appears only with a valid config, for its url, and never as retrying |
| `AutoConnect.ParseTransport` | packages/web/src/core/services/autoconnect.ts:9 | `transport` passes exactly when it is the string `"http"`; a missing or different value gives one invalid-literal issue at its path |
| `AutoConnect.ParseUrl` | packages/web/src/core/services/autoconnect.ts:10 | `url` passes exactly when it is a string of at least one character, and yields that string; otherwise one issue at its path |
| `AutoConnect.ConformsToSchema` | packages/web/src/core/services/autoconnect.ts:7-12 | The schema as a predicate: a top-level object whose `autoConnect` member satisfies `IsConnectionObject`. `AutoConnect.ParseDocument`, `AutoConnect.Classify` and `AutoConnect.EncodeParseRoundTrip` state the validator and loader against it |
| `AutoConnect.IsConnectionObject` | packages/web/src/core/services/autoconnect.ts:8-11 | The inner object: `transport` is `"http"` and `url` is a non-empty string, other members allowed. `AutoConnect.ParseConnection` is an if-and-only-if against it |
| `AutoConnect.HasIssues` | packages/web/src/core/services/autoconnect.ts:38 | The catch block's `"issues" in error` test: only a validation error carries issues. `AutoConnect.TryBlock` and `AutoConnect.Classify` state that such a raise happens exactly on a parsed, non-conforming document and is the only one rethrown |
| `UseAutoConnect.AdoptConfig` | packages/web/src/core/hooks/useAutoConnect.ts:84-86 | `setConfig(cfg)` then `setKioskMode(true, cfg)`. `UseAutoConnect.InitialAttemptOverlapsLoading`, `UseAutoConnect.LoadConfig` and `UseAutoConnect.LoadConfigRunsConnect` state that the first attempt runs with the config stored and kiosk mode on for it |
| `UseAutoConnect.StopLoading` | packages/web/src/core/hooks/useAutoConnect.ts:96-98 | The `finally` clears only the loading flag, whatever the load's outcome. `UseAutoConnect.LoadConfig` and `UseAutoConnect.LoadConfigRunsConnect` state it |
| `UseAutoConnect.Registration` | packages/web/src/core/hooks/useAutoConnect.ts:52-58 | Device, node DB and message store under one id, then that id selected. `UseAutoConnect.SettleAttemptLog` and `UseAutoConnect.SettleAttemptRegistersOnlyOwnId` state that this happens exactly on a created transport and only under the attempt's own id |
| `AppView.HasConfigError` | packages/web/src/App.tsx:45 | `error && !config && !kioskMode` under JavaScript truthiness. `AppView.ToastShownIff` states that the toast is shown exactly when it holds |
| `AppView.HasConnectionError` | packages/web/src/App.tsx:48 | `error && config && kioskMode` under JavaScript truthiness. `AppView.KioskPageShownIff` states that the kiosk error page is shown exactly when it holds |

## Left out

- `fetch` and `response.json()` are not modelled. The response is an input value carrying only the ok flag and what the body parses to. Status codes other than ok/not-ok are not distinguished.
- JSON documents keep one value per key, because duplicate keys and member order play no part in the schema. Numbers are reals.
- The schema library's internals are left out. The validator reports issues at the level of member path and kind. Exact messages, and the order of issues beyond "transport before url", are not modelled. The message text is the parameter `render`.
- `TransportHTTP.create` is an input (`CreateResult`). `MeshDevice` construction, `device.addConnection` and `subscribeAll` are not in the effect log. They, `randId()`, and the store calls `addDevice`, `addNodeDB`, `addMessageStore` and `setSelectedDevice` are foreign calls assumed not to throw. In the source, a throw after `addDevice` (useAutoConnect.ts:52-58) would leave some registrations behind with the error set; the model does not cover that partial state.
- The un-awaited `connection.configure()` is not modelled. Its rejection escapes the try block, which is asynchronous behaviour outside a sequential model.
- `randId()` is an input id. Whether it is fresh is not modelled.
- React scheduling, state batching and effect re-runs are not modelled. Updates are immediate, and the load effect runs once per mount.
- Overlapping retries are not modelled. Each retry runs to completion before the next event, so a retry never starts while connecting. The hook has no guard of its own. Starting an attempt clears the error, which unmounts the kiosk error page and its retry button for the whole attempt (`AppView.AttemptHidesKioskPage`); whether another caller of `retry` could still overlap an attempt is outside a sequential model.
- `console.error` logging is not modelled.
- Rendering is not modelled: the toast and kiosk page markup, translations, theming, the error boundary, and what the normal UI shows inside (device pages or the dashboard).
- The app store's initial kiosk flag (off) is an assumption, because the store is not part of this model.
