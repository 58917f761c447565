/**
 Command modules as the loader sees them: their metadata, the direction
 flags derived from the declared mode, and the subscription handed to the
 chat client when a module is registered.
 */
module Modules {
  import opened Pattern

  /** A module's metadata: what it matches and the direction it declares
      ("incoming", "outgoing", or anything else, which sets neither flag). */
  datatype Meta = Meta(matchSpec: MatchSpec, mode: string)

  /** A command module `{ meta, handler }`; the handler is an opaque callback
      and is not part of the model. */
  datatype Module = Module(meta: Meta)

  /** The flag record built from `meta.mode`. The incoming flag carries the
      field name the bot actually uses, `icoming`. */
  datatype Mode = Mode(outgoing: bool, icoming: bool)

  /** The three ways a declared mode sets the flags: the outgoing flag
      only, the incoming flag only, or neither flag. */
  datatype Direction = OnlyOutgoing | OnlyIncoming | NeitherFlag

  /** The event filter registered for a module: its flags and its compiled trigger. */
  datatype Subscription = Subscription(mode: Mode, pattern: Regex)

  /** Classifies a declared mode string. */
  function DirectionOf(mode: string): Direction
  {
    if mode == "outgoing" then OnlyOutgoing
    else if mode == "incoming" then OnlyIncoming
    else NeitherFlag
  }

  /** The flags that express a direction. */
  function FlagsOf(d: Direction): Mode
  {
    match d
    case OnlyOutgoing => Mode(true, false)
    case OnlyIncoming => Mode(false, true)
    case NeitherFlag => Mode(false, false)
  }

  /** `{ outgoing: meta.mode === "outgoing", icoming: meta.mode === "incoming" }`. */
  function DeriveMode(mode: string): (r: Mode)
    ensures !(r.outgoing && r.icoming)
  {
    Mode(mode == "outgoing", mode == "incoming")
  }

  /** The derived flags are exactly the flags of the declared direction: each
      flag is set iff the mode names it, and any other mode sets neither. */
  lemma DeriveModeFollowsDirection(mode: string)
    ensures DeriveMode(mode) == FlagsOf(DirectionOf(mode))
    ensures DeriveMode(mode).outgoing <==> DirectionOf(mode) == OnlyOutgoing
    ensures DeriveMode(mode).icoming <==> DirectionOf(mode) == OnlyIncoming
  {
  }

  /** Two modes give the same flags iff they declare the same direction. */
  lemma DeriveModeDistinguishesDirections(a: string, b: string)
    ensures DeriveMode(a) == DeriveMode(b) <==> DirectionOf(a) == DirectionOf(b)
  {
  }

  /** The subscription the loader registers for a module under the given prefixes. */
  function SubscriptionFor(prefixes: Prefixes, m: Module): (r: Subscription)
    ensures r.mode == FlagsOf(DirectionOf(m.meta.mode))
    ensures m.meta.matchSpec.Prebuilt? ==> r.pattern == m.meta.matchSpec.pattern
    ensures m.meta.matchSpec.Text? ==> |r.pattern.source| >= 1 && r.pattern.source[0] == Anchor
    ensures r.pattern == CreatePattern(prefixes, m.meta.matchSpec)
  {
    Subscription(DeriveMode(m.meta.mode), CreatePattern(prefixes, m.meta.matchSpec))
  }
}
