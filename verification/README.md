# Ion bot core — a Dafny model

This project models the command-dispatch core of the Ion chat bot
(`packages/bot/src/ion/core.ts`). The bot object, `Ion`, does three things:

- **Trigger compilation** (`createPattern`). A module declares either literal
  trigger text or a pre-built pattern. Literal text becomes the pattern
  source `"^" + <non-empty prefixes joined by "|"> + <text>`. A pre-built
  pattern is passed through unchanged.
- **Module loading** (`loadModules`). Each command module gets a
  direction-flag record derived from its declared mode and an event
  subscription made of those flags and its compiled trigger. The module is
  registered with the chat client. On success, a copy of its metadata is
  appended to `loadedModules`. A module whose registration throws is
  skipped, and loading goes on with the next one.
- **Lifecycle** (constructor, `start`, `stop`). `botStatus` is 0 (stopped)
  or 1 (running). `start` reads the configuration. If the api hash is
  non-empty and the api id is truthy, it builds a client with 15 connection
  retries and authenticates. On success it records the user, sets the status
  to running and loads the modules. `stop` sets the status to 0 and changes
  nothing else.

Files:

- `wrappers.dfy`: `Option`.
- `js_array.dfy`: JavaScript `join`, and `split` as its inverse. These give
  the round trip that shows which prefixes end up in a pattern, and in what
  order.
- `pattern.dfy`: prefixes, pattern values, the prefix filter and
  `CreatePattern`.
- `modules.dfy`: module metadata, the mode-flag record and subscriptions.
- `ion.dfy`: the bot's state record, the loading fold, `Start`, `Stop` and
  the constructor.

The chat client and the session file are represented by inputs:

- The loaded configuration is a `Config` value. Its api id is the number
  `Number(config.apiId)` produced.
- Client start plus `getMe` is an `AuthOutcome`: success with a user, or
  failure.
- Whether registering a subscription succeeds is a predicate
  `accepts: Subscription -> bool`. This covers both a trigger the pattern
  engine rejects and a client that refuses the handler.

`Registered` and `Subscribed` are reference definitions of what a load
records. They are built from the last module backwards. `LoadModules` is the
left-to-right fold the bot performs, and its contract ties the two together.

## Behaviour worth knowing

- Prefixes are not escaped. `filter(escapeStringRegExp)` uses the escape
  function only as a test, so it drops the empty prefixes and keeps the
  others exactly as configured. With the default prefix `.` and trigger
  `ping` the source is `^.ping`, where the dot matches any character
  (`Pattern.DefaultPrefixExample`). A `|` inside a prefix cannot be told
  apart from the bar between prefixes (`Pattern.BarInPrefixSplitsIt`).
- The alternation is not grouped. Two prefixes give `^p1|p2text`, not
  `^(p1|p2)text` (`Pattern.UngroupedAlternationExample`).
- Nothing stops a second `start`. A second successful `start` appends every
  loaded module to `loadedModules` again. It also replaces the client
  without disconnecting the old one, so every accepted subscription is then
  live on two clients (`Ion.RestartDuplicatesLoadedModules`). The model
  keeps replaced clients in the `replaced` field.
- `start` never resets the status (`Ion.StartNeverStops`). A failed
  re-authentication of a running bot leaves the status at 1 with a fresh
  client that has no subscriptions (`Ion.FailedRestartKeepsRunning`).
- `start` stores the new api id, api hash and session before its check, so
  those fields change even when no client is built.
- The flag for incoming traffic is spelled `icoming` (`Modules.Mode`).
- `this.client?.addEventHandler(...)` uses optional chaining. With no client,
  the subscription is never built, nothing throws, and the module's metadata
  is still recorded (`Ion.RegisteredWithoutClient`).

## Model

| member | source | states |
|---|---|---|
| `JsArray.JoinShape` | packages/bot/src/ion/core.ts:88 | `join` (the model's `Join`) with the bar separator: no parts give the empty string; otherwise the result is as long as the parts together plus one separator between neighbours, starts with the first part and ends with the last |
| `JsArray.JoinPair` | packages/bot/src/ion/core.ts:88 | two parts join with exactly one separator between them |
| `JsArray.SplitJoin` | packages/bot/src/ion/core.ts:84-88 | joining at least one prefix that has no alternation bar loses nothing: splitting at the bars gives back the same list, in the same order |
| `Pattern.AsList` | packages/bot/src/ion/core.ts:84-86 | a single prefix string becomes a one-element array holding it; an array is used as it is, order included |
| `Pattern.KeepEscapable` | packages/bot/src/ion/core.ts:87 | the escape filter keeps a prefix iff it is non-empty, keeps it unchanged, and never lengthens the list |
| `Pattern.KeepEscapableAppend` | packages/bot/src/ion/core.ts:87 | the filter works one element at a time: filtering a concatenation concatenates the filtered parts, so order is kept |
| `Pattern.KeepEscapableKeepsNonEmpty` | packages/bot/src/ion/core.ts:87 | a prefix list with no empty entry passes the filter unchanged |
| `Pattern.KeepEscapableDropsEmpty` | packages/bot/src/ion/core.ts:87 | a list of empty prefixes is filtered away entirely |
| `Pattern.CreatePattern` | packages/bot/src/ion/core.ts:82-93 | a pre-built pattern comes back unchanged; literal text gives a flagless pattern whose source starts with the anchor "^" and ends with the text verbatim |
| `Pattern.CreatePatternLayout` | packages/bot/src/ion/core.ts:84-90 | for any prefixes, the source between the anchor and the text is the kept (non-empty) prefixes, unescaped and in configured order, joined by alternation bars |
| `Pattern.CreatePatternKeepsPrefixes` | packages/bot/src/ion/core.ts:84-90 | when at least one prefix is non-empty and no prefix contains a bar, splitting that middle part at the bars gives back exactly the non-empty prefixes, in order |
| `Pattern.BarInPrefixSplitsIt` | packages/bot/src/ion/core.ts:84-90 | because prefixes are not escaped, the prefix lists ["a" bar "b", "!"] and ["a", "b", "!"] compile to the same source |
| `Pattern.CreatePatternWithoutPrefixes` | packages/bot/src/ion/core.ts:84-90 | when every prefix is empty (or there are none) the source degenerates to "^" followed by the text |
| `Pattern.CreatePatternSinglePrefix` | packages/bot/src/ion/core.ts:84-90 | a single prefix acts as a one-element array; a non-empty one sits verbatim between "^" and the text, an empty one vanishes |
| `Pattern.DefaultPrefixExample` | packages/bot/src/ion/core.ts:82-93 | the default prefix "." with "ping" gives "^.ping", with the dot unescaped |
| `Pattern.UngroupedAlternationExample` | packages/bot/src/ion/core.ts:82-93 | prefixes ".", "", "!" with "ping" give "^", ".", a bar, "!", "ping": the empty prefix is dropped and there is no grouping |
| `Modules.DeriveMode` | packages/bot/src/ion/core.ts:98-101 | the derived flags never select both directions at once |
| `Modules.DeriveModeFollowsDirection` | packages/bot/src/ion/core.ts:98-101 | `outgoing` is set iff the mode is "outgoing", `icoming` iff it is "incoming"; any other mode sets neither, so the flags are those of the declared direction |
| `Modules.DeriveModeDistinguishesDirections` | packages/bot/src/ion/core.ts:98-101 | two modes give the same flags iff they declare the same direction |
| `Modules.SubscriptionFor` | packages/bot/src/ion/core.ts:98-106 | a module's subscription carries the flags of its declared mode and exactly the pattern `CreatePattern` compiles from its match under the bot's prefixes: a pre-built one unchanged, a literal one anchored |
| `Ion.Admits` | packages/bot/src/ion/core.ts:103-111 | with no client a module always counts as loaded (the optional call is skipped and nothing throws); with a client it counts iff its subscription is accepted |
| `Ion.Registered` | packages/bot/src/ion/core.ts:96-114 | a load records at most one meta per module |
| `Ion.Subscribed` | packages/bot/src/ion/core.ts:104-106 | every subscription a load adds was accepted by the client, at most one per module |
| `Ion.LoadModule` | packages/bot/src/ion/core.ts:97-113 | one module: on success its meta and subscription are appended; on failure nothing changes; no other field is touched |
| `Ion.LoadModules` | packages/bot/src/ion/core.ts:95-115 | the loaded list becomes the old list followed by the metas of exactly the admitted modules, in order; the client gains exactly their subscriptions; nothing is removed and no other field changes |
| `Ion.RegisteredUnfold` | packages/bot/src/ion/core.ts:96-114 | the recorded metas are the first module's outcome followed by the outcome of the rest |
| `Ion.SubscribedUnfold` | packages/bot/src/ion/core.ts:104-106 | the added subscriptions are the first module's, if accepted, followed by those of the rest |
| `Ion.RegisteredAppend` | packages/bot/src/ion/core.ts:103-113 | failure isolation: the metas recorded for a block of modules do not depend on the modules around it |
| `Ion.SubscribedAppend` | packages/bot/src/ion/core.ts:103-113 | the subscriptions registered for a block of modules do not depend on the modules around it |
| `Ion.RegisteredMembers` | packages/bot/src/ion/core.ts:96-114 | a meta is recorded iff some module in the list carries it and is admitted |
| `Ion.RegisteredWithoutClient` | packages/bot/src/ion/core.ts:104-110 | with no client, every module's meta is recorded, one per module, in order |
| `Ion.MiddleFailureIsIsolated` | packages/bot/src/ion/core.ts:103-113 | of three modules where the middle one fails, the first and third are loaded in order and the second is not |
| `Ion.LoadModulesTwice` | packages/bot/src/ion/core.ts:95-115 | loading the same modules again appends their metas and subscriptions a second time |
| `Ion.Truthy` | packages/bot/src/ion/core.ts:62-66 | the api id passes the truthiness test iff it is neither NaN nor zero |
| `Ion.CanConnect` | packages/bot/src/ion/core.ts:61-66 | `start` builds a client iff the api hash is non-empty and the api id is neither NaN nor zero; the session object is always truthy |
| `Ion.Initial` | packages/bot/src/ion/core.ts:31-48 | before `start` the bot is stopped (status 0) with prefix ".", api id 0, empty api hash, no session, client or user, and nothing loaded |
| `Ion.Start` | packages/bot/src/ion/core.ts:59-80 | credentials are always stored. With a failing guard no client is built and status, user and loaded list stay. With a passing guard a 15-retry client is built and any earlier client moves to the replaced list, still holding its subscriptions. Status is running afterwards iff it was before or authentication succeeded, and then the user is recorded and the modules are loaded |
| `Ion.Stop` | packages/bot/src/ion/core.ts:121-124 | status becomes 0 whatever it was; client, replaced clients, user, loaded list, prefixes and credentials are left as they were |
| `Ion.Construct` | packages/bot/src/ion/core.ts:43-55 | a new bot is valid, uses the "." prefix, runs iff the configuration passes and authentication succeeds, and without a usable configuration has no client, no user and no loaded modules |
| `Ion.StartPreservesValid` | packages/bot/src/ion/core.ts:59-80 | after `start`, a running bot always has a client and a user |
| `Ion.StopPreservesValid` | packages/bot/src/ion/core.ts:121-124 | after `stop` the bot satisfies the state invariant |
| `Ion.StopIdempotent` | packages/bot/src/ion/core.ts:121-124 | stopping twice is the same as stopping once |
| `Ion.StartNeverStops` | packages/bot/src/ion/core.ts:59-80 | `start` never takes a running bot back to stopped |
| `Ion.RestartDuplicatesLoadedModules` | packages/bot/src/ion/core.ts:59-80 | two successful starts record every loaded module twice; the first client is replaced, not disconnected, and keeps its subscriptions, so each accepted subscription is live on both clients |
| `Ion.FailedRestartKeepsRunning` | packages/bot/src/ion/core.ts:59-80 | a failed re-authentication of a running bot leaves status 1 and the old user, with a fresh client that has no subscriptions |

## Left out

- The Telegram client (`TelegramClient`, `client.start`, `getMe`, `addEventHandler`, `NewMessage`): a network library. Authentication is an `AuthOutcome` input and registration is the `accepts` predicate.
- Ion.LoadModules: whether registration succeeds depends only on the subscription. A client that accepts the same subscription at one moment and refuses it at another is not represented.
- Regular-expression matching and the `RegExp` constructor: only the pattern source is modelled. A source the constructor rejects throws inside the `try`, which the `accepts` predicate covers.
- The internals of `escapeStringRegExp`: only its truthiness matters here (empty for the empty string, non-empty otherwise), and that is built into `Pattern.KeepEscapable`.
- The `Number(...)` string-to-number conversion: the configuration carries its result.
- `session.load()` file I/O: the configuration is an input record. Errors raised while building a `StringSession` are not modelled; the object is always truthy.
- Module metadata beyond the match spec and the mode: the other fields are copied by `{ ...meta }` and play no part in the logic.
- Ion.LoadModules: only the registration inside the `try` is isolated, and module metadata is assumed present. Two cases are not modelled. A module with no `meta` throws a TypeError at `const { meta } = mod` or `meta.mode`, outside the `try`. That ends the whole loop, so later modules are skipped, and `start` then rejects after `botStatus` is already 1. A `meta.match` that is missing is not a string, so `createPattern` returns `undefined` unchanged and the module is subscribed with no pattern. The `Module` and `MatchSpec` types cannot express either case.
- A missing `meta.mode`: it behaves like any string other than "incoming" and "outgoing", so it is modelled by such a string.
- The socket.io connection binding, `socketHandler` and `log`: I/O and empty stubs.
- The winston logger setup, the log messages and `startTime`: logging and clock reads.
- The asynchronous ordering of `start`: the constructor does not await it, and a rejected `client.start` or `getMe` becomes an unhandled rejection. The model runs `start` to completion, and an authentication failure leaves the state at the point the exception would have been raised.
- Module handlers (`mod.handler`): opaque callbacks.
