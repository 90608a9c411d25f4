/** The view `App` renders from the hook's state and the kiosk flag. */
module AppView {
  import opened Wrappers
  import opened AutoConnect
  import opened UseAutoConnect

  /** The handler the kiosk error page's button is wired to. */
  datatype Handler = RetryHandler

  /** The kiosk error page and its props. */
  datatype KioskErrorPage = KioskErrorPage(url: string, onRetry: Handler, retrying: bool)

  /** The normal application shell; the connect dialog is part of it only
      outside kiosk mode. */
  datatype NormalUi = NormalUi(connectDialog: bool)

  /** What sits inside the error boundary once loading is over. */
  datatype Screen = Screen(configErrorToast: Option<string>, kioskErrorPage: Option<KioskErrorPage>, normalUi: Option<NormalUi>)

  /** The loading screen, or the full screen. */
  datatype View = LoadingScreen | Ready(screen: Screen)

  /** JavaScript truthiness of `error: string | null`: null and "" are
      falsy. */
  predicate Truthy(error: Option<string>)
  {
    error.Some? && error.value != ""
  }

  /** `error && !config && !kioskMode`. */
  predicate HasConfigError(h: HookState, kioskMode: bool)
  {
    Truthy(h.error) && h.config.None? && !kioskMode
  }

  /** `error && config && kioskMode`. */
  predicate HasConnectionError(h: HookState, kioskMode: bool)
  {
    Truthy(h.error) && h.config.Some? && kioskMode
  }

  /** The decision `App` makes. */
  function SelectView(h: HookState, kioskMode: bool): (v: View)
    ensures v.LoadingScreen? <==> h.loading
    ensures v.Ready? ==> v.screen.configErrorToast.None? || v.screen.kioskErrorPage.None?
    ensures v.Ready? ==> (v.screen.normalUi.Some? <==> v.screen.kioskErrorPage.None?)
    ensures v.Ready? && v.screen.configErrorToast.Some? ==> v.screen.configErrorToast.value != ""
  {
    if h.loading then LoadingScreen
    else
      var toast := if HasConfigError(h, kioskMode) then Some(h.error.value) else None;
      var page := if HasConnectionError(h, kioskMode)
                  then Some(KioskErrorPage(h.config.value.url, RetryHandler, h.connecting))
                  else None;
      var normal := if HasConnectionError(h, kioskMode) then None else Some(NormalUi(!kioskMode));
      Ready(Screen(toast, page, normal))
  }

  /** The view of a world: the hook's state with the app store's kiosk
      flag. */
  function WorldView(w: World): View
  {
    SelectView(w.hook, w.kiosk.on)
  }

  // ---------------------------------------------------------------------
  // Properties of the decision
  // ---------------------------------------------------------------------

  /** While loading, only the loading screen is produced, whatever else the
      state holds. */
  lemma LoadingGate(h: HookState, kioskMode: bool)
    ensures h.loading <==> SelectView(h, kioskMode) == LoadingScreen
    ensures h.loading ==> forall h2: HookState, k2: bool ::
              h2.loading ==> SelectView(h2, k2) == SelectView(h, kioskMode)
  {
  }

  /** The toast appears exactly when, after loading, there is a non-empty
      error, no config and no kiosk mode; it carries the error. */
  lemma ToastShownIff(h: HookState, kioskMode: bool)
    ensures var v := SelectView(h, kioskMode);
            (v.Ready? && v.screen.configErrorToast.Some?)
            <==> !h.loading && h.error.Some? && h.error.value != "" && h.config.None? && !kioskMode
    ensures var v := SelectView(h, kioskMode);
            v.Ready? && v.screen.configErrorToast.Some? ==> v.screen.configErrorToast == h.error
  {
  }

  /** The kiosk error page appears exactly when, after loading, there is a
      non-empty error, a config and kiosk mode; it gets the config's url,
      the retry handler, and `connecting` as `retrying`. */
  lemma KioskPageShownIff(h: HookState, kioskMode: bool)
    ensures var v := SelectView(h, kioskMode);
            (v.Ready? && v.screen.kioskErrorPage.Some?)
            <==> !h.loading && h.error.Some? && h.error.value != "" && h.config.Some? && kioskMode
    ensures var v := SelectView(h, kioskMode);
            v.Ready? && v.screen.kioskErrorPage.Some? ==>
              v.screen.kioskErrorPage.value == KioskErrorPage(h.config.value.url, RetryHandler, h.connecting)
  {
  }

  /** The toast and the kiosk error page never appear together. */
  lemma ToastAndKioskPageExclusive(h: HookState, kioskMode: bool)
    ensures var v := SelectView(h, kioskMode);
            v.Ready? ==> v.screen.configErrorToast.None? || v.screen.kioskErrorPage.None?
  {
  }

  /** The normal UI appears exactly when, after loading, there is no kiosk
      connection error; its connect dialog exactly outside kiosk mode. */
  lemma NormalUiShownIff(h: HookState, kioskMode: bool)
    ensures var v := SelectView(h, kioskMode);
            (v.Ready? && v.screen.normalUi.Some?) <==> !h.loading && v.screen.kioskErrorPage.None?
    ensures var v := SelectView(h, kioskMode);
            v.Ready? && v.screen.normalUi.Some? ==> (v.screen.normalUi.value.connectDialog <==> !kioskMode)
  {
  }

  /** An empty error string is treated as no error at all. */
  lemma EmptyErrorIsNoError(h: HookState, kioskMode: bool)
    requires h.error == Some("")
    ensures SelectView(h, kioskMode) == SelectView(h.(error := None), kioskMode)
  {
  }

  // ---------------------------------------------------------------------
  // The decision composed with the lifecycle
  // ---------------------------------------------------------------------

  /** A freshly mounted hook shows the loading screen, and so does the
      state during the first attempt, although it is connecting. */
  lemma LoadingScreenUntilFirstAttemptEnds(call: LoaderCall)
    ensures WorldView(Mount()) == LoadingScreen
    ensures call.settled.Resolved? && call.settled.config.Some? ==>
              AfterLoaderSettles(Mount(), call).hook.connecting
              && WorldView(AfterLoaderSettles(Mount(), call)) == LoadingScreen
  {
  }

  /** Starting an attempt clears the error, so while it is in flight the
      kiosk error page, and with it the retry button, is not shown at all:
      `retrying` is never true on a page that is on screen. */
  lemma AttemptHidesKioskPage(w: World)
    ensures var v := WorldView(BeginAttempt(w));
            v.Ready? ==> v.screen.kioskErrorPage.None? && v.screen.configErrorToast.None?
  {
  }

  /** What the user sees once the load effect is over, by outcome: the
      normal UI with the connect dialog when there is no config; the toast
      over it when the config is invalid; the kiosk UI after a successful
      first attempt; the kiosk error page, not retrying, after a failed one.
      A failure whose `Error` has an empty message is falsy, so it leaves a
      kiosk user on the kiosk UI with no error page and no retry. */
  lemma StartupViews(response: FetchResult, render: seq<Issue> -> string, a: Attempt)
    ensures var v := WorldView(Startup(response, render, a));
            Classify(response).Absent? ==> v == Ready(Screen(None, None, Some(NormalUi(true))))
    ensures var v := WorldView(Startup(response, render, a));
            Classify(response).Invalid? && render(Classify(response).issues) != "" ==>
              v == Ready(Screen(Some(render(Classify(response).issues)), None, Some(NormalUi(true))))
    ensures var v := WorldView(Startup(response, render, a));
            Classify(response).Valid? && a.create.Created? ==> v == Ready(Screen(None, None, Some(NormalUi(false))))
    ensures var v := WorldView(Startup(response, render, a));
            Classify(response).Valid? && a.create.CreateFailed? && ErrorMessage(a.create.thrown, ConnectFallback) != "" ==>
              v == Ready(Screen(None, Some(KioskErrorPage(Classify(response).config.url, RetryHandler, false)), None))
    ensures var v := WorldView(Startup(response, render, a));
            Classify(response).Valid? && a.create == CreateFailed(ErrorWithMessage("")) ==>
              v == Ready(Screen(None, None, Some(NormalUi(false))))
  {
  }

  /** Throughout a session the toast only ever reports an invalid config and
      the kiosk error page only ever a failed attempt with a valid one; a
      connection failure never shows as a toast. */
  lemma {:induction false} SessionViewSources(response: FetchResult, render: seq<Issue> -> string,
                                              first: Attempt, retries: seq<Attempt>)
    ensures var v := WorldView(Session(response, render, first, retries));
            v.Ready?
            && (v.screen.configErrorToast.Some? ==> Classify(response).Invalid?)
            && (v.screen.kioskErrorPage.Some? ==>
                  Classify(response).Valid?
                  && v.screen.kioskErrorPage.value.url == Classify(response).config.url
                  && !v.screen.kioskErrorPage.value.retrying)
            && (Classify(response).Valid? ==> v.screen.configErrorToast.None?)
  {
    SessionInvariant(response, render, first, retries);
    if !Classify(response).Valid? {
      SessionWithoutConfigIsStartup(response, render, first, retries);
    }
  }
}
