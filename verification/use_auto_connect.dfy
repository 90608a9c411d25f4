/** The `useAutoConnect` hook: a one-shot configuration load that feeds a
    connection attempt, and a retry that reuses the stored configuration.
    React state updates are applied immediately and in order, and every
    asynchronous function runs to completion before the next event. */
module UseAutoConnect {
  import opened Wrappers
  import opened AutoConnect
  import opened TransportUrl

  /** The error text for a failed attempt that threw something other than an
      `Error`. */
  const ConnectFallback: string := "Connection failed. Please retry."

  /** The error text for a failed load that threw something other than an
      `Error`. */
  const ConfigFallback: string := "Invalid configuration file format"

  /** The four pieces of React state the hook exposes. */
  datatype HookState = HookState(loading: bool, connecting: bool, error: Option<string>, config: Option<Config>)

  /** The app store's kiosk flag and the config it was set with. */
  datatype KioskState = KioskState(on: bool, config: Option<Config>)

  /** A side effect on the world outside the hook, in the order made. */
  datatype Effect =
    | FetchConfig(path: string)
    | CreateTransport(request: TransportRequest)
    | AddDevice(id: nat)
    | AddNodeDB(id: nat)
    | AddMessageStore(id: nat)
    | SelectDevice(id: nat)

  /** The hook's state, the kiosk flag, and every side effect made so far. */
  datatype World = World(hook: HookState, kiosk: KioskState, log: seq<Effect>)

  /** How the transport factory answers: a transport, or a thrown value. */
  datatype CreateResult = Created | CreateFailed(thrown: Thrown)

  /** One connection attempt's inputs from outside: the id `randId()` draws
      and the factory's answer. */
  datatype Attempt = Attempt(id: nat, create: CreateResult)

  /** `err instanceof Error ? err.message : fallback`. */
  function ErrorMessage(t: Thrown, fallback: string): string
  {
    match t
    case ErrorWithMessage(m) => m
    case NonError => fallback
  }

  // ---------------------------------------------------------------------
  // Views of the effect log
  // ---------------------------------------------------------------------

  /** How many times the configuration was fetched. */
  function FetchCount(log: seq<Effect>): nat
  {
    if log == [] then 0
    else FetchCount(log[..|log| - 1]) + (if log[|log| - 1].FetchConfig? then 1 else 0)
  }

  /** The transport requests made, in order. */
  function TransportRequests(log: seq<Effect>): seq<TransportRequest>
  {
    if log == [] then []
    else
      var last := log[|log| - 1];
      TransportRequests(log[..|log| - 1]) + (if last.CreateTransport? then [last.request] else [])
  }

  /** Whether an effect writes an id into one of the stores. */
  predicate IsRegistration(e: Effect)
  {
    e.AddDevice? || e.AddNodeDB? || e.AddMessageStore? || e.SelectDevice?
  }

  /** Every id written into the device, node DB or message stores or
      selected. */
  function RegisteredIds(log: seq<Effect>): set<nat>
  {
    if log == [] then {}
    else
      var last := log[|log| - 1];
      RegisteredIds(log[..|log| - 1]) + (if IsRegistration(last) then {last.id} else {})
  }

  /** The device currently selected: the latest selection, if any. */
  function SelectedDevice(log: seq<Effect>): Option<nat>
  {
    if log == [] then None
    else if log[|log| - 1].SelectDevice? then Some(log[|log| - 1].id)
    else SelectedDevice(log[..|log| - 1])
  }

  /** Each view of the log distributes over appending. */
  lemma {:induction false} LogAppend(a: seq<Effect>, b: seq<Effect>)
    ensures FetchCount(a + b) == FetchCount(a) + FetchCount(b)
    ensures TransportRequests(a + b) == TransportRequests(a) + TransportRequests(b)
    ensures RegisteredIds(a + b) == RegisteredIds(a) + RegisteredIds(b)
    ensures SelectedDevice(a + b) == if SelectedDevice(b).Some? then SelectedDevice(b) else SelectedDevice(a)
    decreases |b|
  {
    if b == [] {
      assert a + b == a;
    } else {
      var b' := b[..|b| - 1];
      assert (a + b)[..|a + b| - 1] == a + b';
      assert (a + b)[|a + b| - 1] == b[|b| - 1];
      LogAppend(a, b');
    }
  }

  // ---------------------------------------------------------------------
  // Transitions
  // ---------------------------------------------------------------------

  /** The world when the hook mounts: loading, nothing else set, no kiosk
      mode, no effect yet. */
  function Mount(): World
  {
    World(HookState(true, false, None, None), KioskState(false, None), [])
  }

  /** The start of `connect`: connecting, and any earlier error cleared. */
  function BeginAttempt(w: World): (r: World)
    ensures r.hook.connecting && r.hook.error.None?
    ensures r.hook.loading == w.hook.loading && r.hook.config == w.hook.config
    ensures r.kiosk == w.kiosk && r.log == w.log
  {
    w.(hook := w.hook.(connecting := true, error := None))
  }

  /** The stores an attempt writes once its transport exists: device, node
      DB and message store under one id, then that id selected. */
  function Registration(id: nat): seq<Effect>
  {
    [AddDevice(id), AddNodeDB(id), AddMessageStore(id), SelectDevice(id)]
  }

  /** The rest of `connect`: ask for a transport; on success register and
      select the new id, on failure record the message. Either way the
      attempt is over. */
  function SettleAttempt(w: World, cfg: Config, a: Attempt): World
  {
    var asked := w.log + [CreateTransport(TransportArgs(cfg.url))];
    match a.create
    case Created =>
      w.(hook := w.hook.(connecting := false), log := asked + Registration(a.id))
    case CreateFailed(t) =>
      w.(hook := w.hook.(connecting := false, error := Some(ErrorMessage(t, ConnectFallback))), log := asked)
  }

  /** One whole connection attempt with `cfg`. */
  function Connect(w: World, cfg: Config, a: Attempt): (r: World)
    ensures !r.hook.connecting
    ensures r.hook.loading == w.hook.loading && r.hook.config == w.hook.config && r.kiosk == w.kiosk
    ensures r.hook.error.None? <==> a.create.Created?
    ensures a.create.CreateFailed? && a.create.thrown.ErrorWithMessage?
            ==> r.hook.error == Some(a.create.thrown.message)
    ensures a.create == CreateFailed(NonError) ==> r.hook.error == Some(ConnectFallback)
    ensures |w.log| < |r.log| && r.log[..|w.log|] == w.log
    ensures FetchCount(r.log) == FetchCount(w.log)
    ensures TransportRequests(r.log) == TransportRequests(w.log) + [TransportArgs(cfg.url)]
    ensures a.create.CreateFailed? ==>
              RegisteredIds(r.log) == RegisteredIds(w.log) && SelectedDevice(r.log) == SelectedDevice(w.log)
    ensures a.create.Created? ==>
              RegisteredIds(r.log) == RegisteredIds(w.log) + {a.id} && SelectedDevice(r.log) == Some(a.id)
    ensures a.create.Created? ==>
              var made := r.log[|w.log|..];
              AddDevice(a.id) in made && AddNodeDB(a.id) in made && AddMessageStore(a.id) in made
    ensures forall e | e in r.log[|w.log|..] && IsRegistration(e) :: a.create.Created? && e.id == a.id
  {
    SettleAttemptLog(BeginAttempt(w), cfg, a);
    SettleAttemptRegistersOnlyOwnId(BeginAttempt(w), cfg, a);
    SettleAttempt(BeginAttempt(w), cfg, a)
  }

  /** The views of a one-effect log. */
  lemma SingleEffectViews(e: Effect)
    ensures FetchCount([e]) == (if e.FetchConfig? then 1 else 0)
    ensures TransportRequests([e]) == (if e.CreateTransport? then [e.request] else [])
    ensures RegisteredIds([e]) == (if IsRegistration(e) then {e.id} else {})
    ensures SelectedDevice([e]) == (if e.SelectDevice? then Some(e.id) else None)
  {
    assert [e][..0] == [];
  }

  /** The views of a registration: the one id, and it ends up selected. */
  lemma RegistrationViews(id: nat)
    ensures var reg := Registration(id);
            FetchCount(reg) == 0 && TransportRequests(reg) == []
            && RegisteredIds(reg) == {id} && SelectedDevice(reg) == Some(id)
  {
    var d, n, m, sel := [AddDevice(id)], [AddNodeDB(id)], [AddMessageStore(id)], [SelectDevice(id)];
    SingleEffectViews(AddDevice(id));
    SingleEffectViews(AddNodeDB(id));
    SingleEffectViews(AddMessageStore(id));
    SingleEffectViews(SelectDevice(id));
    LogAppend(d, n);
    LogAppend(d + n, m);
    LogAppend(d + n + m, sel);
    assert Registration(id) == d + n + m + sel;
  }

  /** What settling an attempt adds to the log, seen through each view. */
  lemma SettleAttemptLog(w: World, cfg: Config, a: Attempt)
    ensures var r := SettleAttempt(w, cfg, a);
            && |w.log| < |r.log| && r.log[..|w.log|] == w.log
            && FetchCount(r.log) == FetchCount(w.log)
            && TransportRequests(r.log) == TransportRequests(w.log) + [TransportArgs(cfg.url)]
            && (a.create.CreateFailed? ==>
                  RegisteredIds(r.log) == RegisteredIds(w.log) && SelectedDevice(r.log) == SelectedDevice(w.log))
            && (a.create.Created? ==>
                  && RegisteredIds(r.log) == RegisteredIds(w.log) + {a.id} && SelectedDevice(r.log) == Some(a.id)
                  && var made := r.log[|w.log|..];
                     AddDevice(a.id) in made && AddNodeDB(a.id) in made && AddMessageStore(a.id) in made)
  {
    var r := SettleAttempt(w, cfg, a);
    var asked := [CreateTransport(TransportArgs(cfg.url))];
    SingleEffectViews(CreateTransport(TransportArgs(cfg.url)));
    LogAppend(w.log, asked);
    if a.create.Created? {
      var reg := Registration(a.id);
      RegistrationViews(a.id);
      LogAppend(w.log + asked, reg);
      assert r.log == w.log + asked + reg;
      assert r.log[|w.log|..] == asked + reg;
    }
  }

  /** Every registration an attempt makes is the success path's, under the
      attempt's own id: a failed attempt writes no store, and a successful
      one writes no other id. */
  lemma SettleAttemptRegistersOnlyOwnId(w: World, cfg: Config, a: Attempt)
    ensures var r := SettleAttempt(w, cfg, a);
            |w.log| <= |r.log|
            && forall e | e in r.log[|w.log|..] && IsRegistration(e) :: a.create.Created? && e.id == a.id
  {
    var r := SettleAttempt(w, cfg, a);
    var asked := [CreateTransport(TransportArgs(cfg.url))];
    if a.create.Created? {
      assert r.log[|w.log|..] == asked + Registration(a.id);
    } else {
      assert r.log[|w.log|..] == asked;
    }
  }

  /** `setConfig(cfg)` and `setKioskMode(true, cfg)`. */
  function AdoptConfig(w: World, cfg: Config): World
  {
    w.(hook := w.hook.(config := Some(cfg)), kiosk := KioskState(true, Some(cfg)))
  }

  /** One fetch effect per path the loader requested. */
  function Fetches(paths: seq<string>): (r: seq<Effect>)
    ensures FetchCount(r) == |paths|
    ensures TransportRequests(r) == [] && RegisteredIds(r) == {} && SelectedDevice(r) == None
  {
    if paths == [] then []
    else
      var r := Fetches(paths[..|paths| - 1]) + [FetchConfig(paths[|paths| - 1])];
      LogAppend(Fetches(paths[..|paths| - 1]), [FetchConfig(paths[|paths| - 1])]);
      assert [FetchConfig(paths[|paths| - 1])][..0] == [];
      r
  }

  /** The world once the loader has settled and before `finally` runs: on
      a valid config the first attempt has started and is in flight. */
  function AfterLoaderSettles(w: World, call: LoaderCall): World
  {
    var fetched := w.(log := w.log + Fetches(call.requests));
    match call.settled
    case Resolved(None) => fetched
    case Resolved(Some(cfg)) => BeginAttempt(AdoptConfig(fetched, cfg))
    case Rejected(t) => fetched.(hook := fetched.hook.(error := Some(ErrorMessage(t, ConfigFallback))))
  }

  /** The loader's effect on the log: its fetches and nothing else. */
  lemma AfterLoaderSettlesLog(w: World, call: LoaderCall)
    ensures var mid := AfterLoaderSettles(w, call);
            && |w.log| <= |mid.log| && mid.log[..|w.log|] == w.log
            && FetchCount(mid.log) == FetchCount(w.log) + |call.requests|
            && TransportRequests(mid.log) == TransportRequests(w.log)
            && RegisteredIds(mid.log) == RegisteredIds(w.log)
            && SelectedDevice(mid.log) == SelectedDevice(w.log)
  {
    LogAppend(w.log, Fetches(call.requests));
    assert AfterLoaderSettles(w, call).log == w.log + Fetches(call.requests);
  }

  /** The mount effect `loadConfig`: call the loader, on a config adopt it
      and run the first attempt, on a rejection record the message, and
      finally stop loading. */
  function LoadConfig(w: World, call: LoaderCall, a: Attempt): (r: World)
    ensures !r.hook.loading
    ensures FetchCount(r.log) == FetchCount(w.log) + |call.requests|
    ensures call.settled == Resolved(None) ==>
              r.hook == w.hook.(loading := false) && r.kiosk == w.kiosk
              && TransportRequests(r.log) == TransportRequests(w.log)
              && RegisteredIds(r.log) == RegisteredIds(w.log) && SelectedDevice(r.log) == SelectedDevice(w.log)
    ensures call.settled.Rejected? && call.settled.thrown.ErrorWithMessage? ==>
              r.hook == w.hook.(loading := false, error := Some(call.settled.thrown.message))
    ensures call.settled == Rejected(NonError) ==>
              r.hook == w.hook.(loading := false, error := Some(ConfigFallback))
    ensures call.settled.Rejected? ==>
              r.kiosk == w.kiosk && TransportRequests(r.log) == TransportRequests(w.log)
              && RegisteredIds(r.log) == RegisteredIds(w.log) && SelectedDevice(r.log) == SelectedDevice(w.log)
    ensures call.settled.Resolved? && call.settled.config.Some? ==>
              var cfg := call.settled.config.value;
              && r.hook.config == Some(cfg) && r.kiosk == KioskState(true, Some(cfg))
              && !r.hook.connecting
              && (r.hook.error.None? <==> a.create.Created?)
              && TransportRequests(r.log) == TransportRequests(w.log) + [TransportArgs(cfg.url)]
    ensures call.settled.Resolved? && call.settled.config.Some? && a.create.CreateFailed? ==>
              && (a.create.thrown.ErrorWithMessage? ==> r.hook.error == Some(a.create.thrown.message))
              && (a.create.thrown.NonError? ==> r.hook.error == Some(ConnectFallback))
  {
    AfterLoaderSettlesLog(w, call);
    var mid := AfterLoaderSettles(w, call);
    match call.settled
    case Resolved(Some(cfg)) => (SettleAttemptLog(mid, cfg, a); StopLoading(SettleAttempt(mid, cfg, a)))
    case _ => StopLoading(mid)
  }

  /** The `finally` of the load effect. */
  function StopLoading(w: World): World
  {
    w.(hook := w.hook.(loading := false))
  }

  /** On a config, the load effect is exactly one `connect` on the adopted
      config followed by the `finally`: the first attempt is an ordinary
      attempt. */
  lemma LoadConfigRunsConnect(w: World, call: LoaderCall, a: Attempt)
    requires call.settled.Resolved? && call.settled.config.Some?
    ensures var cfg := call.settled.config.value;
            LoadConfig(w, call, a)
            == StopLoading(Connect(AdoptConfig(w.(log := w.log + Fetches(call.requests)), cfg), cfg, a))
  {
  }

  /** The hook from mount to the end of its load effect, given the response
      to the loader's one request. */
  function Startup(response: FetchResult, render: seq<Issue> -> string, a: Attempt): (r: World)
    ensures !r.hook.loading && !r.hook.connecting
    ensures FetchCount(r.log) == 1 && r.log[0] == FetchConfig(ConfigPath)
    ensures Classify(response).Absent? ==>
              r.hook == HookState(false, false, None, None) && r.kiosk == KioskState(false, None)
              && TransportRequests(r.log) == [] && RegisteredIds(r.log) == {}
    ensures Classify(response).Invalid? ==>
              r.hook == HookState(false, false, Some(render(Classify(response).issues)), None)
              && r.kiosk == KioskState(false, None)
              && TransportRequests(r.log) == [] && RegisteredIds(r.log) == {}
    ensures Classify(response).Valid? ==>
              var cfg := Classify(response).config;
              && r.hook.config == Some(cfg) && r.kiosk == KioskState(true, Some(cfg))
              && (r.hook.error.None? <==> a.create.Created?)
              && (a.create.CreateFailed? && a.create.thrown.ErrorWithMessage? ==>
                    r.hook.error == Some(a.create.thrown.message))
              && (a.create == CreateFailed(NonError) ==> r.hook.error == Some(ConnectFallback))
              && TransportRequests(r.log) == [TransportArgs(cfg.url)]
              && (a.create.Created? ==> RegisteredIds(r.log) == {a.id} && SelectedDevice(r.log) == Some(a.id))
              && (a.create.CreateFailed? ==> RegisteredIds(r.log) == {} && SelectedDevice(r.log) == None)
  {
    StartupLog(response, render, a);
    LoadConfig(Mount(), LoadAutoConnectConfig(response, render), a)
  }

  /** The log of a startup, taken apart by outcome. */
  lemma StartupLog(response: FetchResult, render: seq<Issue> -> string, a: Attempt)
    ensures var r := LoadConfig(Mount(), LoadAutoConnectConfig(response, render), a);
            && r.log[0] == FetchConfig(ConfigPath)
            && (Classify(response).Valid? && a.create.Created? ==>
                  RegisteredIds(r.log) == {a.id} && SelectedDevice(r.log) == Some(a.id))
            && (Classify(response).Valid? && a.create.CreateFailed? ==>
                  RegisteredIds(r.log) == {} && SelectedDevice(r.log) == None)
  {
    var call := LoadAutoConnectConfig(response, render);
    var r := LoadConfig(Mount(), call, a);
    var fetchedLog := Fetches(call.requests);
    assert fetchedLog == [FetchConfig(ConfigPath)] by {
      assert call.requests[..0] == [];
    }
    if Classify(response).Valid? {
      var cfg := Classify(response).config;
      var mid := AfterLoaderSettles(Mount(), call);
      SettleAttemptLog(mid, cfg, a);
      assert r.log == SettleAttempt(mid, cfg, a).log;
    }
  }

  /** `retry`: a no-op without a stored config, otherwise one more attempt
      with it. The loader is not called again. */
  function Retry(w: World, a: Attempt): (r: World)
    ensures w.hook.config.None? ==> r == w
    ensures r.hook.config == w.hook.config && r.kiosk == w.kiosk && r.hook.loading == w.hook.loading
    ensures FetchCount(r.log) == FetchCount(w.log)
    ensures w.hook.config.Some? ==>
              && !r.hook.connecting
              && (r.hook.error.None? <==> a.create.Created?)
              && TransportRequests(r.log) == TransportRequests(w.log) + [TransportArgs(w.hook.config.value.url)]
    ensures w.hook.config.Some? && a.create.CreateFailed? && a.create.thrown.ErrorWithMessage?
            ==> r.hook.error == Some(a.create.thrown.message)
    ensures w.hook.config.Some? && a.create == CreateFailed(NonError) ==> r.hook.error == Some(ConnectFallback)
    ensures w.hook.config.Some? ==>
              |w.log| < |r.log|
              && forall e | e in r.log[|w.log|..] && IsRegistration(e) :: a.create.Created? && e.id == a.id
  {
    match w.hook.config
    case None => w
    case Some(cfg) => Connect(w, cfg, a)
  }

  /** A mounted hook: its load, then a retry for each attempt in order. */
  function Session(response: FetchResult, render: seq<Issue> -> string, first: Attempt, retries: seq<Attempt>): World
    decreases |retries|
  {
    if retries == [] then Startup(response, render, first)
    else Retry(Session(response, render, first, retries[..|retries| - 1]), retries[|retries| - 1])
  }

  /** Between events: not loading, not connecting, the kiosk flag set exactly
      when a config is stored and with that config, one fetch made. */
  predicate Quiescent(w: World)
  {
    && !w.hook.loading && !w.hook.connecting
    && w.kiosk.on == w.hook.config.Some? && w.kiosk.config == w.hook.config
    && FetchCount(w.log) == 1
  }

  // ---------------------------------------------------------------------
  // Properties of the lifecycle
  // ---------------------------------------------------------------------

  /** The first attempt runs inside the load effect: while it is in flight
      the hook is loading and connecting at once, with no error. */
  lemma InitialAttemptOverlapsLoading(call: LoaderCall)
    requires call.settled.Resolved? && call.settled.config.Some?
    ensures var mid := AfterLoaderSettles(Mount(), call);
            mid.hook.loading && mid.hook.connecting && mid.hook.error.None?
            && mid.hook.config == call.settled.config && mid.kiosk.on
  {
  }

  /** Every session is quiescent between events and keeps the config and
      kiosk state the load set; the configuration is never fetched again. */
  lemma {:induction false} SessionInvariant(response: FetchResult, render: seq<Issue> -> string,
                                            first: Attempt, retries: seq<Attempt>)
    ensures var s := Session(response, render, first, retries);
            var start := Startup(response, render, first);
            Quiescent(s) && s.hook.config == start.hook.config && s.kiosk == start.kiosk
    decreases |retries|
  {
    if retries == [] {
      assert Classify(response).Absent? || Classify(response).Invalid? || Classify(response).Valid?;
    } else {
      SessionInvariant(response, render, first, retries[..|retries| - 1]);
    }
  }

  /** Without a stored config, retries change nothing at all. */
  lemma {:induction false} SessionWithoutConfigIsStartup(response: FetchResult, render: seq<Issue> -> string,
                                                         first: Attempt, retries: seq<Attempt>)
    requires !Classify(response).Valid?
    ensures Session(response, render, first, retries) == Startup(response, render, first)
    decreases |retries|
  {
    if retries != [] {
      SessionWithoutConfigIsStartup(response, render, first, retries[..|retries| - 1]);
    }
  }

  /** With a valid config, a session asks for one transport per attempt,
      always with the stored url's host and TLS flag. */
  lemma {:induction false} SessionTransportRequests(response: FetchResult, render: seq<Issue> -> string,
                                                    first: Attempt, retries: seq<Attempt>)
    requires Classify(response).Valid?
    ensures var reqs := TransportRequests(Session(response, render, first, retries).log);
            && |reqs| == |retries| + 1
            && forall i :: 0 <= i < |reqs| ==> reqs[i] == TransportArgs(Classify(response).config.url)
    decreases |retries|
  {
    if retries != [] {
      SessionInvariant(response, render, first, retries[..|retries| - 1]);
      SessionTransportRequests(response, render, first, retries[..|retries| - 1]);
    }
  }

  /** The error a session shows after a retry is that retry's: cleared when
      it succeeded, its message when it failed. */
  lemma LastAttemptDecidesError(response: FetchResult, render: seq<Issue> -> string,
                                first: Attempt, retries: seq<Attempt>)
    requires Classify(response).Valid? && |retries| >= 1
    ensures var s := Session(response, render, first, retries);
            var last := retries[|retries| - 1];
            && (s.hook.error.None? <==> last.create.Created?)
            && (last.create.CreateFailed? && last.create.thrown.ErrorWithMessage?
                ==> s.hook.error == Some(last.create.thrown.message))
            && (last.create == CreateFailed(NonError) ==> s.hook.error == Some(ConnectFallback))
  {
    SessionInvariant(response, render, first, retries[..|retries| - 1]);
  }

  /** A failed first attempt followed by a successful retry: the error is
      cleared, the config is the loaded one, the same url was asked for
      twice, and the retry's id is the selected device. */
  lemma RetryRecovers(response: FetchResult, render: seq<Issue> -> string, first: Attempt, id2: nat)
    requires Classify(response).Valid? && first.create.CreateFailed?
    ensures var cfg := Classify(response).config;
            var s := Session(response, render, first, [Attempt(id2, Created)]);
            && s.hook == HookState(false, false, None, Some(cfg))
            && TransportRequests(s.log) == [TransportArgs(cfg.url), TransportArgs(cfg.url)]
            && SelectedDevice(s.log) == Some(id2) && RegisteredIds(s.log) == {id2}
  {
    var start := Startup(response, render, first);
    assert Session(response, render, first, [Attempt(id2, Created)]) == Retry(start, Attempt(id2, Created));
  }

}
