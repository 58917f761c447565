/**
 The trigger-pattern compiler of the bot (`createPattern`). A module's
 declared match is either literal text or an already built pattern; literal
 text is turned into the source of an anchored pattern
   "^" + <kept prefixes joined by "|"> + <text>.
 Only the pattern SOURCE is modelled, not what a regular-expression engine
 would make of it.
 */
module Pattern {
  import opened JsArray

  /** The configured command prefixes: one string or an array (`string | string[]`). */
  datatype Prefixes = Single(prefix: string) | Many(list: seq<string>)

  /** A compiled pattern (a `RegExp` object), known by its source text and flags. */
  datatype Regex = Regex(source: string, flags: string)

  /** What a module declares to match: literal trigger text or a pre-built pattern. */
  datatype MatchSpec = Text(text: string) | Prebuilt(pattern: Regex)

  /** The bot's prefix setting when it is created: the single prefix ".". */
  const DefaultPrefixes: Prefixes := Single(".")

  /** Start-of-input anchor placed in front of every compiled trigger. */
  const Anchor: char := '^'

  /** Alternation operator placed between prefixes. */
  const Alternation: char := '|'

  /** The prefixes as an array: a single string becomes a one-element array. */
  function AsList(p: Prefixes): (r: seq<string>)
    ensures p.Single? ==> |r| == 1 && r[0] == p.prefix
    ensures p.Many? ==> r == p.list
  {
    match p
    case Single(prefix) => [prefix]
    case Many(list) => list
  }

  /** `prefixes.filter(escapeStringRegExp)`: the escape function is used as
      a filter PREDICATE, so each prefix is kept or dropped according to the
      truthiness of its escaped form and is kept UNESCAPED. Escaping maps the
      empty string to the empty (falsy) string and every other string to a
      non-empty (truthy) one, so exactly the empty prefixes are dropped. */
  function KeepEscapable(ps: seq<string>): (r: seq<string>)
    ensures |r| <= |ps|
    ensures forall q :: q in r <==> q in ps && q != ""
  {
    if ps == [] then []
    else (if ps[0] != "" then [ps[0]] else []) + KeepEscapable(ps[1..])
  }

  /** `createPattern(text)` for the prefixes configured on the bot. */
  function CreatePattern(prefixes: Prefixes, spec: MatchSpec): (r: Regex)
    ensures spec.Prebuilt? ==> r == spec.pattern
    ensures spec.Text? ==> r.flags == ""
    ensures spec.Text? ==> |r.source| >= 1 + |spec.text| && r.source[0] == Anchor
    ensures spec.Text? ==> r.source[|r.source| - |spec.text|..] == spec.text
  {
    match spec
    case Prebuilt(pattern) => pattern
    case Text(text) => Regex([Anchor] + Join(KeepEscapable(AsList(prefixes)), Alternation) + text, "")
  }

  /** The text between the anchor and the trigger text of a compiled literal:
      the part of the source that the prefixes produced. */
  function PrefixPart(r: Regex, text: string): string
    requires 1 + |text| <= |r.source|
  {
    r.source[1..|r.source| - |text|]
  }

  /** The filter works element by element: filtering a concatenation is
      concatenating the filtered parts, so the kept prefixes stay in order. */
  lemma {:induction false} KeepEscapableAppend(a: seq<string>, b: seq<string>)
    ensures KeepEscapable(a + b) == KeepEscapable(a) + KeepEscapable(b)
  {
    if a == [] {
      assert a + b == b;
    } else {
      assert (a + b)[1..] == a[1..] + b;
      KeepEscapableAppend(a[1..], b);
    }
  }

  /** A list without empty prefixes passes the filter unchanged. */
  lemma {:induction false} KeepEscapableKeepsNonEmpty(ps: seq<string>)
    requires forall i :: 0 <= i < |ps| ==> ps[i] != ""
    ensures KeepEscapable(ps) == ps
  {
    if ps != [] {
      KeepEscapableKeepsNonEmpty(ps[1..]);
    }
  }

  /** For literal text, whatever the prefixes contain, the source is the
      anchor, then the kept prefixes in their configured order and exact
      spelling joined by the alternation operator, then the text. */
  lemma CreatePatternLayout(p: Prefixes, text: string)
    ensures PrefixPart(CreatePattern(p, Text(text)), text)
            == Join(KeepEscapable(AsList(p)), Alternation)
  {
    var src := CreatePattern(p, Text(text)).source;
    assert src[1..|src| - |text|] == Join(KeepEscapable(AsList(p)), Alternation);
  }

  /** When at least one prefix is non-empty and none contains "|", the
      layout can be read back: splitting the prefix part on "|" gives exactly
      the non-empty configured prefixes, in order. */
  lemma CreatePatternKeepsPrefixes(p: Prefixes, text: string)
    requires KeepEscapable(AsList(p)) != []
    requires forall q :: q in AsList(p) ==> Alternation !in q
    ensures Split(PrefixPart(CreatePattern(p, Text(text)), text), Alternation)
            == KeepEscapable(AsList(p))
  {
    var kept := KeepEscapable(AsList(p));
    CreatePatternLayout(p, text);
    forall i | 0 <= i < |kept|
      ensures Alternation !in kept[i]
    {
      assert kept[i] in kept;
    }
    SplitJoin(kept, Alternation);
  }

  /** Because prefixes are not escaped, a "|" inside a prefix is
      indistinguishable from the operator between prefixes: the prefix lists
      ["a|b", "!"] and ["a", "b", "!"] compile to the same source. */
  lemma BarInPrefixSplitsIt(text: string)
    ensures CreatePattern(Many(["a|b", "!"]), Text(text))
            == CreatePattern(Many(["a", "b", "!"]), Text(text))
  {
    KeepEscapableKeepsNonEmpty(["a|b", "!"]);
    KeepEscapableKeepsNonEmpty(["a", "b", "!"]);
    JoinPair("a|b", "!", Alternation);
    JoinPair("b", "!", Alternation);
    assert ["a", "b", "!"][1..] == ["b", "!"];
    assert Join(["a", "b", "!"], Alternation) == "a" + [Alternation] + Join(["b", "!"], Alternation);
    assert "a" + [Alternation] + ("b" + [Alternation] + "!") == "a|b" + [Alternation] + "!";
  }

  /** With no non-empty prefix the alternation is empty and the trigger
      degenerates to the anchored text itself. */
  lemma CreatePatternWithoutPrefixes(p: Prefixes, text: string)
    requires forall i :: 0 <= i < |AsList(p)| ==> AsList(p)[i] == ""
    ensures CreatePattern(p, Text(text)).source == [Anchor] + text
  {
    KeepEscapableDropsEmpty(AsList(p));
  }

  /** A list of empty prefixes is filtered away entirely. */
  lemma {:induction false} KeepEscapableDropsEmpty(ps: seq<string>)
    requires forall i :: 0 <= i < |ps| ==> ps[i] == ""
    ensures KeepEscapable(ps) == []
  {
    if ps != [] {
      KeepEscapableDropsEmpty(ps[1..]);
    }
  }

  /** A single prefix behaves as the one-element array holding it, and a
      non-empty one is placed verbatim, without escaping, between the anchor
      and the text. */
  lemma CreatePatternSinglePrefix(q: string, text: string)
    ensures CreatePattern(Single(q), Text(text)) == CreatePattern(Many([q]), Text(text))
    ensures q != "" ==> CreatePattern(Single(q), Text(text)).source == [Anchor] + q + text
    ensures q == "" ==> CreatePattern(Single(q), Text(text)).source == [Anchor] + text
  {
  }

  /** With the default prefix "." the trigger "ping" compiles to "^.ping":
      the dot is not escaped, so it stands for any character. */
  lemma DefaultPrefixExample()
    ensures CreatePattern(DefaultPrefixes, Text("ping")).source == "^.ping"
  {
    CreatePatternSinglePrefix(".", "ping");
    assert [Anchor] + "." + "ping" == "^.ping";
  }

  /** With the prefixes ".", "" and "!", the empty one is dropped and the
      alternation is not grouped, giving "^.|!ping". */
  lemma UngroupedAlternationExample()
    ensures CreatePattern(Many([".", "", "!"]), Text("ping")).source == "^.|!ping"
  {
    var ps := [".", "", "!"];
    assert ps[1..] == ["", "!"] && ps[1..][1..] == ["!"] && ps[1..][1..][1..] == [];
    assert KeepEscapable(["!"]) == ["!"];
    assert KeepEscapable(["", "!"]) == ["!"];
    assert KeepEscapable(ps) == [".", "!"];
    JoinPair(".", "!", Alternation);
    var src := CreatePattern(Many(ps), Text("ping")).source;
    assert src == [Anchor] + ("." + [Alternation] + "!") + "ping";
  }
}
