/**
 The bot object (`Ion`): its state record, module loading with per-module
 failure isolation, and the start/stop lifecycle. The chat client and the
 session file are not modelled; what they contribute enters as inputs:
 - the loaded configuration is a `Config` value,
 - whether the client starts and resolves its own user is an `AuthOutcome`,
 - whether registering a module's subscription succeeds is the predicate
   `accepts` (this covers a trigger the pattern engine rejects as well as
   the client refusing the handler).
 */
module Ion {
  import opened Wrappers
  import opened Pattern
  import opened Modules

  /** The value of `Number(config.apiId)`: NaN, a finite number or an infinity. */
  datatype JsNumber = NaN | Finite(value: real) | Infinite(positive: bool)

  /** A `StringSession` built from the saved session string; an object, so always truthy. */
  datatype StringSession = StringSession(saved: string)

  /** What the session file yields. */
  datatype Config = Config(apiId: JsNumber, apiHash: string, session: string)

  /** The account the client resolves with `getMe`. */
  datatype User = User(id: int, firstName: string)

  /** Whether `client.start` and `client.getMe` both succeed. */
  datatype AuthOutcome = Authenticated(user: User) | AuthFailed

  /** A chat client: the credentials it was built with, its retry budget and
      the event subscriptions registered on it so far, in order. */
  datatype Client = Client(
    session: StringSession,
    apiId: JsNumber,
    apiHash: string,
    connectionRetries: nat,
    handlers: seq<Subscription>)

  /** `botStatus`: the bot stores 0 for stopped and 1 for running. */
  datatype BotStatus = Stopped | Running

  /** The bot's mutable fields, as one immutable record per moment.
      `replaced` lists, oldest first, the clients a later `start` replaced in
      the `client` field: nothing disconnects them, so they stay connected
      with the subscriptions they had. */
  datatype Ion = Ion(
    prefixes: Prefixes,
    apiId: JsNumber,
    apiHash: string,
    session: Option<StringSession>,
    client: Option<Client>,
    user: Option<User>,
    botStatus: BotStatus,
    loadedModules: seq<Meta>,
    replaced: seq<Client>)

  /** Connection attempts the client is configured with. */
  const ConnectionRetries: nat := 15

  /** The numeric value stored in `botStatus`. */
  function StatusCode(s: BotStatus): int
  {
    match s
    case Stopped => 0
    case Running => 1
  }

  /** JavaScript truthiness of a number: false for 0 and NaN only. */
  predicate Truthy(n: JsNumber)
    ensures Truthy(n) <==> n != NaN && n != Finite(0.0)
  {
    match n
    case NaN => false
    case Finite(v) => v != 0.0
    case Infinite(_) => true
  }

  /** The guard of `start`: session (always truthy), a non-empty api hash and
      a truthy api id. */
  predicate CanConnect(c: Config)
    ensures CanConnect(c) <==> |c.apiHash| > 0 && c.apiId != NaN && c.apiId != Finite(0.0)
  {
    c.apiHash != "" && Truthy(c.apiId)
  }

  /** A running bot has a client and knows its own user. */
  predicate Valid(s: Ion)
  {
    s.botStatus == Running ==> s.client.Some? && s.user.Some?
  }

  /** Whether registering module `m` succeeds. When there is no client,
      `this.client?.addEventHandler(...)` short-circuits without building the
      subscription, nothing throws and the module counts as loaded. */
  predicate Admits(prefixes: Prefixes, hasClient: bool, m: Module, accepts: Subscription -> bool)
    ensures !hasClient ==> Admits(prefixes, hasClient, m, accepts)
    ensures hasClient ==> (Admits(prefixes, hasClient, m, accepts) <==> accepts(SubscriptionFor(prefixes, m)))
  {
    !hasClient || accepts(SubscriptionFor(prefixes, m))
  }

  /** Reference definition of the metadata a load records: the metas of the
      admitted modules, in module order (defined from the last module back). */
  function Registered(prefixes: Prefixes, hasClient: bool, ms: seq<Module>, accepts: Subscription -> bool): (r: seq<Meta>)
    ensures |r| <= |ms|
  {
    if ms == [] then []
    else
      var last := ms[|ms| - 1];
      Registered(prefixes, hasClient, ms[..|ms| - 1], accepts)
        + (if Admits(prefixes, hasClient, last, accepts) then [last.meta] else [])
  }

  /** Reference definition of the subscriptions a load adds to the client:
      those of the accepted modules, in module order. */
  function Subscribed(prefixes: Prefixes, ms: seq<Module>, accepts: Subscription -> bool): (r: seq<Subscription>)
    ensures |r| <= |ms|
    ensures forall i :: 0 <= i < |r| ==> accepts(r[i])
  {
    if ms == [] then []
    else
      var sub := SubscriptionFor(prefixes, ms[|ms| - 1]);
      Subscribed(prefixes, ms[..|ms| - 1], accepts) + (if accepts(sub) then [sub] else [])
  }

  /** One iteration of `loadModules`: derive the flags, try to register, and
      on success push a copy of the metadata. */
  function LoadModule(s: Ion, m: Module, accepts: Subscription -> bool): (r: Ion)
    ensures r.loadedModules == s.loadedModules
      + (if Admits(s.prefixes, s.client.Some?, m, accepts) then [m.meta] else [])
    ensures r.client.Some? <==> s.client.Some?
    ensures s.client.Some? ==>
      r.client.value.handlers == s.client.value.handlers
        + (if accepts(SubscriptionFor(s.prefixes, m)) then [SubscriptionFor(s.prefixes, m)] else [])
    ensures s.client.Some? ==> r.client.value.(handlers := s.client.value.handlers) == s.client.value
    ensures r.prefixes == s.prefixes && r.botStatus == s.botStatus && r.user == s.user
    ensures r.apiId == s.apiId && r.apiHash == s.apiHash && r.session == s.session
    ensures r.replaced == s.replaced
  {
    match s.client
    case None => s.(loadedModules := s.loadedModules + [m.meta])
    case Some(c) =>
      var sub := SubscriptionFor(s.prefixes, m);
      if accepts(sub) then
        s.(client := Some(c.(handlers := c.handlers + [sub])),
           loadedModules := s.loadedModules + [m.meta])
      else s
  }

  /** `loadModules()`: every module in order, each failure caught and the
      loop continued. Only the loaded list and the client's subscriptions
      change; both are only appended to. */
  function LoadModules(s: Ion, ms: seq<Module>, accepts: Subscription -> bool): (r: Ion)
    ensures r.loadedModules == s.loadedModules + Registered(s.prefixes, s.client.Some?, ms, accepts)
    ensures r.client.Some? <==> s.client.Some?
    ensures s.client.Some? ==>
      r.client.value.handlers == s.client.value.handlers + Subscribed(s.prefixes, ms, accepts)
    ensures s.client.Some? ==>
      r.client.value.(handlers := s.client.value.handlers) == s.client.value
    ensures r.prefixes == s.prefixes && r.botStatus == s.botStatus && r.user == s.user
    ensures r.apiId == s.apiId && r.apiHash == s.apiHash && r.session == s.session
    ensures r.replaced == s.replaced
    decreases |ms|
  {
    if ms == [] then s
    else
      var next := LoadModule(s, ms[0], accepts);
      assert next.prefixes == s.prefixes && next.client.Some? == s.client.Some?;
      RegisteredUnfold(s.prefixes, s.client.Some?, ms, accepts);
      SubscribedUnfold(s.prefixes, ms, accepts);
      LoadModules(next, ms[1..], accepts)
  }

  /** The first module's outcome followed by the outcome of the rest. */
  lemma RegisteredUnfold(prefixes: Prefixes, hasClient: bool, ms: seq<Module>, accepts: Subscription -> bool)
    requires ms != []
    ensures Registered(prefixes, hasClient, ms, accepts)
            == (if Admits(prefixes, hasClient, ms[0], accepts) then [ms[0].meta] else [])
               + Registered(prefixes, hasClient, ms[1..], accepts)
  {
    var first := [ms[0]];
    assert first[..0] == [];
    assert Registered(prefixes, hasClient, first, accepts)
           == (if Admits(prefixes, hasClient, ms[0], accepts) then [ms[0].meta] else []);
    assert first + ms[1..] == ms;
    RegisteredAppend(prefixes, hasClient, first, ms[1..], accepts);
  }

  /** The first module's subscription (if accepted) followed by those of the rest. */
  lemma SubscribedUnfold(prefixes: Prefixes, ms: seq<Module>, accepts: Subscription -> bool)
    requires ms != []
    ensures Subscribed(prefixes, ms, accepts)
            == (if accepts(SubscriptionFor(prefixes, ms[0]))
                then [SubscriptionFor(prefixes, ms[0])] else [])
               + Subscribed(prefixes, ms[1..], accepts)
  {
    var first := [ms[0]];
    assert first[..0] == [];
    var sub := SubscriptionFor(prefixes, ms[0]);
    assert Subscribed(prefixes, first, accepts) == (if accepts(sub) then [sub] else []);
    assert first + ms[1..] == ms;
    SubscribedAppend(prefixes, first, ms[1..], accepts);
  }

  /** Failure isolation: the outcome for a block of modules does not depend
      on the modules before or after it. */
  lemma {:induction false} RegisteredAppend(prefixes: Prefixes, hasClient: bool, a: seq<Module>, b: seq<Module>, accepts: Subscription -> bool)
    ensures Registered(prefixes, hasClient, a + b, accepts)
            == Registered(prefixes, hasClient, a, accepts) + Registered(prefixes, hasClient, b, accepts)
    decreases |b|
  {
    if b == [] {
      assert a + b == a;
    } else {
      var ab := a + b;
      var init := b[..|b| - 1];
      var last := b[|b| - 1];
      var extra := if Admits(prefixes, hasClient, last, accepts) then [last.meta] else [];
      assert ab[..|ab| - 1] == a + init;
      assert ab[|ab| - 1] == last;
      assert Registered(prefixes, hasClient, ab, accepts) == Registered(prefixes, hasClient, a + init, accepts) + extra;
      assert Registered(prefixes, hasClient, b, accepts) == Registered(prefixes, hasClient, init, accepts) + extra;
      RegisteredAppend(prefixes, hasClient, a, init, accepts);
    }
  }

  /** The subscriptions for a block of modules do not depend on its neighbours. */
  lemma {:induction false} SubscribedAppend(prefixes: Prefixes, a: seq<Module>, b: seq<Module>, accepts: Subscription -> bool)
    ensures Subscribed(prefixes, a + b, accepts)
            == Subscribed(prefixes, a, accepts) + Subscribed(prefixes, b, accepts)
    decreases |b|
  {
    if b == [] {
      assert a + b == a;
    } else {
      var ab := a + b;
      var init := b[..|b| - 1];
      var sub := SubscriptionFor(prefixes, b[|b| - 1]);
      var extra := if accepts(sub) then [sub] else [];
      assert ab[..|ab| - 1] == a + init;
      assert ab[|ab| - 1] == b[|b| - 1];
      assert Subscribed(prefixes, ab, accepts) == Subscribed(prefixes, a + init, accepts) + extra;
      assert Subscribed(prefixes, b, accepts) == Subscribed(prefixes, init, accepts) + extra;
      SubscribedAppend(prefixes, a, init, accepts);
    }
  }

  /** A meta is recorded iff some admitted module carries it. */
  lemma {:induction false} RegisteredMembers(prefixes: Prefixes, hasClient: bool, ms: seq<Module>, accepts: Subscription -> bool, x: Meta)
    ensures x in Registered(prefixes, hasClient, ms, accepts)
            <==> exists m :: m in ms && m.meta == x && Admits(prefixes, hasClient, m, accepts)
  {
    if ms != [] {
      var init := ms[..|ms| - 1];
      var last := ms[|ms| - 1];
      RegisteredMembers(prefixes, hasClient, init, accepts, x);
      assert ms == init + [last];
      assert forall m :: m in ms <==> m in init || m == last;
    }
  }

  /** Without a client every module is recorded, in order. */
  lemma {:induction false} RegisteredWithoutClient(prefixes: Prefixes, ms: seq<Module>, accepts: Subscription -> bool)
    ensures |Registered(prefixes, false, ms, accepts)| == |ms|
    ensures forall i :: 0 <= i < |ms| ==> Registered(prefixes, false, ms, accepts)[i] == ms[i].meta
  {
    if ms != [] {
      RegisteredWithoutClient(prefixes, ms[..|ms| - 1], accepts);
    }
  }

  /** Three modules of which the middle one fails to register: the first and
      the third are still loaded, in order, and the second is not. */
  lemma MiddleFailureIsIsolated(s: Ion, a: Module, b: Module, c: Module, accepts: Subscription -> bool)
    requires s.client.Some?
    requires accepts(SubscriptionFor(s.prefixes, a))
    requires !accepts(SubscriptionFor(s.prefixes, b))
    requires accepts(SubscriptionFor(s.prefixes, c))
    ensures LoadModules(s, [a, b, c], accepts).loadedModules == s.loadedModules + [a.meta, c.meta]
  {
    var p := s.prefixes;
    assert [a, b, c][..2] == [a, b] && [a, b][..1] == [a] && [a][..0] == [];
    assert Registered(p, true, [a], accepts) == [a.meta];
    assert Registered(p, true, [a, b], accepts) == [a.meta];
    assert Registered(p, true, [a, b, c], accepts) == [a.meta, c.meta];
  }

  /** Loading is not idempotent: loading the same modules again appends
      their metadata a second time and registers their handlers twice. */
  lemma LoadModulesTwice(s: Ion, ms: seq<Module>, accepts: Subscription -> bool)
    ensures var once := LoadModules(s, ms, accepts);
            var twice := LoadModules(once, ms, accepts);
            var loaded := Registered(s.prefixes, s.client.Some?, ms, accepts);
            twice.loadedModules == s.loadedModules + loaded + loaded
            && (s.client.Some? ==>
                  twice.client.value.handlers
                  == s.client.value.handlers + Subscribed(s.prefixes, ms, accepts)
                     + Subscribed(s.prefixes, ms, accepts))
  {
  }

  /** The bot as the constructor sets it up before calling `start`. */
  function Initial(): (r: Ion)
    ensures Valid(r) && StatusCode(r.botStatus) == 0
    ensures r.prefixes == DefaultPrefixes && AsList(r.prefixes) == ["."]
    ensures r.apiId == Finite(0.0) && !Truthy(r.apiId) && r.apiHash == ""
    ensures r.session.None? && r.client.None? && r.user.None?
    ensures r.loadedModules == [] && r.replaced == []
  {
    Ion(DefaultPrefixes, Finite(0.0), "", None, None, None, Stopped, [], [])
  }

  /** `start()`: read the configuration into the bot's fields; when the guard
      fails, stop there. Otherwise build a client (kept even if
      authentication then fails; a client already present is replaced, not
      disconnected), and on success record the user, set the status to
      running and load the modules. Nothing guards against a second call. */
  function Start(s: Ion, config: Config, auth: AuthOutcome, modules: seq<Module>, accepts: Subscription -> bool): (r: Ion)
    ensures r.apiId == config.apiId && r.apiHash == config.apiHash
    ensures r.session == Some(StringSession(config.session))
    ensures r.prefixes == s.prefixes
    ensures !CanConnect(config) ==> r.client == s.client && r.replaced == s.replaced
    ensures CanConnect(config) ==>
      r.replaced == s.replaced + (if s.client.Some? then [s.client.value] else [])
    ensures CanConnect(config) ==>
      r.client.Some? && r.client.value.connectionRetries == ConnectionRetries
      && r.client.value.apiId == config.apiId && r.client.value.apiHash == config.apiHash
      && r.client.value.session == StringSession(config.session)
    ensures r.botStatus == Running <==>
      s.botStatus == Running || (CanConnect(config) && auth.Authenticated?)
    ensures CanConnect(config) && auth.Authenticated? ==>
      r.user == Some(auth.user)
      && r.loadedModules == s.loadedModules + Registered(s.prefixes, true, modules, accepts)
      && r.client.value.handlers == Subscribed(s.prefixes, modules, accepts)
    ensures !(CanConnect(config) && auth.Authenticated?) ==>
      r.user == s.user && r.loadedModules == s.loadedModules
      && (CanConnect(config) ==> r.client.value.handlers == [])
  {
    var read := s.(apiId := config.apiId, apiHash := config.apiHash,
                   session := Some(StringSession(config.session)));
    if !CanConnect(config) then read
    else
      var client := Client(StringSession(config.session), config.apiId, config.apiHash, ConnectionRetries, []);
      var replaced := s.replaced + (if s.client.Some? then [s.client.value] else []);
      var connected := read.(client := Some(client), replaced := replaced);
      match auth
      case AuthFailed => connected
      case Authenticated(user) =>
        LoadModules(connected.(user := Some(user), botStatus := Running), modules, accepts)
  }

  /** `stop()`: status 0 whatever it was; nothing is torn down. */
  function Stop(s: Ion): (r: Ion)
    ensures r.botStatus == Stopped && StatusCode(r.botStatus) == 0
    ensures r.client == s.client && r.user == s.user && r.loadedModules == s.loadedModules
    ensures r.prefixes == s.prefixes && r.apiId == s.apiId && r.apiHash == s.apiHash
    ensures r.session == s.session && r.replaced == s.replaced
  {
    s.(botStatus := Stopped)
  }

  /** `new Ion()`: the initial fields, then `start`. The bot ends up running
      iff the configuration passes the guard and authentication succeeds;
      with an incomplete configuration no client exists and nothing is loaded. */
  function Construct(config: Config, auth: AuthOutcome, modules: seq<Module>, accepts: Subscription -> bool): (r: Ion)
    ensures Valid(r)
    ensures r.prefixes == DefaultPrefixes
    ensures r.botStatus == Running <==> CanConnect(config) && auth.Authenticated?
    ensures !CanConnect(config) ==> r.client.None? && r.user.None? && r.loadedModules == []
    ensures r.replaced == []
    ensures CanConnect(config) && auth.Authenticated? ==>
      r.loadedModules == Registered(DefaultPrefixes, true, modules, accepts)
  {
    Start(Initial(), config, auth, modules, accepts)
  }

  /** `start` keeps a running bot valid and makes a stopped one valid when it
      reaches running. */
  lemma StartPreservesValid(s: Ion, config: Config, auth: AuthOutcome, modules: seq<Module>, accepts: Subscription -> bool)
    requires Valid(s)
    ensures Valid(Start(s, config, auth, modules, accepts))
  {
  }

  /** `stop` always leaves a valid bot. */
  lemma StopPreservesValid(s: Ion)
    ensures Valid(Stop(s))
  {
  }

  /** `stop` is idempotent, and it undoes only the status of a start. */
  lemma StopIdempotent(s: Ion)
    ensures Stop(Stop(s)) == Stop(s)
  {
  }

  /** `start` never stops a running bot, even when the new configuration is
      incomplete or authentication fails. */
  lemma StartNeverStops(s: Ion, config: Config, auth: AuthOutcome, modules: seq<Module>, accepts: Subscription -> bool)
    requires s.botStatus == Running
    ensures Start(s, config, auth, modules, accepts).botStatus == Running
  {
  }

  /** Starting twice successfully records every loaded module twice: there
      is no guard against a second `start`. The first client is replaced but
      keeps every subscription the first load gave it, so each accepted
      subscription is then live on two clients. */
  lemma RestartDuplicatesLoadedModules(s: Ion, config: Config, user: User, modules: seq<Module>, accepts: Subscription -> bool)
    requires CanConnect(config)
    ensures var auth := Authenticated(user);
            var once := Start(s, config, auth, modules, accepts);
            var twice := Start(once, config, auth, modules, accepts);
            var loaded := Registered(s.prefixes, true, modules, accepts);
            && twice.loadedModules == s.loadedModules + loaded + loaded
            && twice.replaced == once.replaced + [once.client.value]
            && twice.replaced[|twice.replaced| - 1].handlers == Subscribed(s.prefixes, modules, accepts)
            && twice.client.value.handlers == Subscribed(s.prefixes, modules, accepts)
  {
  }

  /** A failed re-authentication of a running bot leaves it running, with a
      fresh client that has no subscriptions; the client that had them is
      kept among the replaced ones. */
  lemma FailedRestartKeepsRunning(s: Ion, config: Config, modules: seq<Module>, accepts: Subscription -> bool)
    requires s.botStatus == Running && s.client.Some?
    requires CanConnect(config)
    ensures var r := Start(s, config, AuthFailed, modules, accepts);
            && r.botStatus == Running
            && r.client.Some? && r.client.value.handlers == []
            && r.replaced == s.replaced + [s.client.value]
            && r.user == s.user
  {
  }
}
