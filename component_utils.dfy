/**
 * The helpers of lib/components/utils.js that the LED relies on: the easing
 * name resolver, `clone` (shallow copy) and `merge` (taken here as a flat,
 * right-biased override).
 */
module ComponentUtils {
  import opened Wrappers

  /** A value stored in a plain JavaScript options object. */
  datatype Param = Num(n: int) | Text(s: string) | Flag(b: bool)

  /** JavaScript truthiness of an option value. */
  predicate Truthy(p: Param)
  {
    match p
    case Num(n) => n != 0
    case Text(s) => s != ""
    case Flag(b) => b
  }

  /** An options object; key order plays no part in the model. */
  type Options = map<string, Param>

  /** Whether the option `key` is present and truthy. */
  predicate OptionSet(opts: Options, key: string)
  {
    key in opts && Truthy(opts[key])
  }

  // ---------------------------------------------------------------- clone

  /**
   * The `reduce` in `clone`: copies `source[key]` into `target` for each key of
   * `keys`, in order.
   */
  function CopyKeys(source: Options, keys: seq<string>, target: Options): (r: Options)
    requires forall i :: 0 <= i < |keys| ==> keys[i] in source
    ensures r.Keys == target.Keys + (set i | 0 <= i < |keys| :: keys[i])
    ensures forall i :: 0 <= i < |keys| ==> r[keys[i]] == source[keys[i]]
    ensures forall k :: k in target && k !in keys ==> r[k] == target[k]
    decreases |keys|
  {
    if keys == [] then target
    else
      var r := CopyKeys(source, keys[1..], target[keys[0] := source[keys[0]]]);
      assert forall i :: 1 <= i < |keys| ==> keys[i] == keys[1..][i - 1];
      assert (set i | 0 <= i < |keys| :: keys[i]) == {keys[0]} + (set i | 0 <= i < |keys[1..]| :: keys[1..][i]);
      r
  }

  /** `clone(source)` without `sanitise`, where `keys` is `Object.keys(source)`. */
  function Clone(source: Options, keys: seq<string>): (r: Options)
    requires forall i :: 0 <= i < |keys| ==> keys[i] in source
    ensures r.Keys == set i | 0 <= i < |keys| :: keys[i]
    ensures forall i :: 0 <= i < |keys| ==> r[keys[i]] == source[keys[i]]
  {
    CopyKeys(source, keys, map[])
  }

  /** A clone over all of the source's keys has exactly the same keys and values. */
  lemma CloneIsCopy(source: Options, keys: seq<string>)
    requires forall k :: k in source <==> k in keys
    ensures Clone(source, keys) == source
  {
    var r := Clone(source, keys);
    assert r.Keys == source.Keys by {
      forall k | k in source ensures k in r.Keys {
        var i :| 0 <= i < |keys| && keys[i] == k;
      }
    }
    forall k | k in source ensures r[k] == source[k] {
      var i :| 0 <= i < |keys| && keys[i] == k;
    }
  }

  // ---------------------------------------------------------------- merge

  /** `merge(defaults, params)`: every key of `params` overrides, the rest is kept. */
  function Merge(defaults: Options, params: Options): (r: Options)
    ensures r.Keys == defaults.Keys + params.Keys
    ensures forall k :: k in params ==> r[k] == params[k]
    ensures forall k :: k in defaults && k !in params ==> r[k] == defaults[k]
  {
    defaults + params
  }

  // ---------------------------------------------------------------- easing names

  /** An easing function of the easing library, e.g. `Quadratic.InOut`. */
  datatype EaseFn = EaseFn(family: string, direction: string)

  /** One family of the easing library (e.g. Quadratic) and the directions it offers. */
  datatype Family = Family(key: string, entries: map<string, EaseFn>)

  predicate StartsWith(s: string, prefix: string)
  {
    |prefix| <= |s| && s[..|prefix|] == prefix
  }

  /** `key.match(type)` for a type without regular-expression metacharacters. */
  predicate Contains(s: string, t: string)
    decreases |s|
  {
    StartsWith(s, t) || (|s| > 0 && Contains(s[1..], t))
  }

  /** Characters that `.` in a JavaScript regular expression does not match. */
  predicate IsLineTerminator(c: char)
  {
    c == '\n' || c == '\r' || c == '\U{2028}' || c == '\U{2029}'
  }

  /** What `.*` matches: everything up to the first line terminator. */
  function UpToLineTerminator(s: string): (r: string)
    ensures |r| <= |s| && r == s[..|r|]
    ensures forall i :: 0 <= i < |r| ==> !IsLineTerminator(r[i])
    ensures |r| < |s| ==> IsLineTerminator(s[|r|])
  {
    if s == [] || IsLineTerminator(s[0]) then [] else [s[0]] + UpToLineTerminator(s[1..])
  }

  /** Whether `/ease(InOut|In|Out)(Sin|.*)/` can match starting at index i. */
  predicate MatchStartsAt(name: string, i: int)
  {
    0 <= i <= |name| && (StartsWith(name[i..], "easeIn") || StartsWith(name[i..], "easeOut"))
  }

  /** The first group: the alternatives are tried in the order InOut, In, Out. */
  function DirectionAt(name: string, i: int): string
    requires MatchStartsAt(name, i)
  {
    if StartsWith(name[i..], "easeInOut") then "InOut"
    else if StartsWith(name[i..], "easeIn") then "In"
    else "Out"
  }

  /** The second group: "Sin" if the rest starts with it, otherwise `.*`. */
  function TypeAt(name: string, i: int): string
    requires MatchStartsAt(name, i)
  {
    var rest := name[i + 4 + |DirectionAt(name, i)|..];
    if StartsWith(rest, "Sin") then "Sin" else UpToLineTerminator(rest)
  }

  datatype ExecMatch = ExecMatch(index: nat, direction: string, type_: string)

  /** `exec` from index i on: the leftmost match, if any. */
  function ExecFrom(name: string, i: nat): (r: Option<ExecMatch>)
    requires i <= |name|
    ensures r.Some? ==>
      && i <= r.value.index <= |name|
      && MatchStartsAt(name, r.value.index)
      && (forall k :: i <= k < r.value.index ==> !MatchStartsAt(name, k))
      && r.value.direction == DirectionAt(name, r.value.index)
      && r.value.type_ == TypeAt(name, r.value.index)
    ensures r.None? ==> forall k :: i <= k <= |name| ==> !MatchStartsAt(name, k)
    decreases |name| - i
  {
    if MatchStartsAt(name, i) then Some(ExecMatch(i, DirectionAt(name, i), TypeAt(name, i)))
    else if i == |name| then None
    else ExecFrom(name, i + 1)
  }

  /** The (direction, type) that a name asks for, when both are non-empty. */
  function Request(name: string): (r: Option<(string, string)>)
    // 'linear' overrides whatever the expression matched.
    ensures name == "linear" ==> r == Some(("None", "Linear"))
    // Otherwise the groups of the leftmost match are used when the type group is
    // non-empty (the direction group never is).
    ensures name != "linear" ==>
      (r.Some? <==> ExecFrom(name, 0).Some? && ExecFrom(name, 0).value.type_ != "")
    ensures name != "linear" && r.Some? ==>
      r.value == (ExecFrom(name, 0).value.direction, ExecFrom(name, 0).value.type_)
    ensures r.Some? ==> r.value.0 in {"InOut", "In", "Out", "None"} && r.value.1 != ""
  {
    if name == "linear" then Some(("None", "Linear"))
    else match ExecFrom(name, 0)
      case None => None
      case Some(m) => if m.direction != "" && m.type_ != "" then Some((m.direction, m.type_)) else None
  }

  /** `_.find(fns, (value, key) => key.match(type))`: the first family whose key contains the type. */
  function FindFamily(fns: seq<Family>, t: string, from: nat): (r: Option<nat>)
    requires from <= |fns|
    ensures r.Some? ==>
      from <= r.value < |fns| && Contains(fns[r.value].key, t) &&
      forall j :: from <= j < r.value ==> !Contains(fns[j].key, t)
    ensures r.None? ==> forall j :: from <= j < |fns| ==> !Contains(fns[j].key, t)
    decreases |fns| - from
  {
    if from == |fns| then None
    else if Contains(fns[from].key, t) then Some(from)
    else FindFamily(fns, t, from + 1)
  }

  /** Family i is the first of `fns` whose key contains `t`. */
  predicate FirstMatch(fns: seq<Family>, t: string, i: int)
  {
    0 <= i < |fns| && Contains(fns[i].key, t) && forall j :: 0 <= j < i ==> !Contains(fns[j].key, t)
  }

  /** easeFunctionNameResolver(name, fns) */
  function EaseFunctionNameResolver(name: string, fns: seq<Family>): (r: Option<EaseFn>)
    // A function is found exactly when the name asks for a direction and a type, and
    // the first family whose key contains the type offers that direction: a later
    // family with the direction is never consulted.
    ensures r.Some? <==>
      Request(name).Some? && exists i :: FirstMatch(fns, Request(name).value.1, i) && Request(name).value.0 in fns[i].entries
    // What is found is that family's entry for the direction.
    ensures r.Some? ==> forall i :: FirstMatch(fns, Request(name).value.1, i) ==>
      r.value == fns[i].entries[Request(name).value.0]
  {
    match Request(name)
    case None => None
    case Some((direction, t)) =>
      match FindFamily(fns, t, 0)
      case None => None
      case Some(i) =>
        assert forall k :: FirstMatch(fns, t, k) ==> k == i;
        if direction in fns[i].entries then Some(fns[i].entries[direction]) else None
  }
}

/** The resolver against the easing table of the tween library, as the tests use it. */
module EasingExamples {
  import opened Wrappers
  import opened ComponentUtils

  function Directions(family: string): map<string, EaseFn>
  {
    map["In" := EaseFn(family, "In"), "Out" := EaseFn(family, "Out"), "InOut" := EaseFn(family, "InOut")]
  }

  /** The families of the tween library's `Easing` object, in declaration order. */
  function TweenEasing(): seq<Family>
  {
    [ Family("Linear", map["None" := EaseFn("Linear", "None")]),
      Family("Quadratic", Directions("Quadratic")),
      Family("Cubic", Directions("Cubic")),
      Family("Quartic", Directions("Quartic")),
      Family("Quintic", Directions("Quintic")),
      Family("Sinusoidal", Directions("Sinusoidal")),
      Family("Exponential", Directions("Exponential")),
      Family("Circular", Directions("Circular")),
      Family("Elastic", Directions("Elastic")),
      Family("Back", Directions("Back")),
      Family("Bounce", Directions("Bounce")) ]
  }

  /** A string without line terminators is captured whole by `.*`. */
  lemma {:induction false} NoTerminatorCapturedWhole(s: string)
    requires forall i :: 0 <= i < |s| ==> !IsLineTerminator(s[i])
    ensures UpToLineTerminator(s) == s
  {
    if s != [] {
      NoTerminatorCapturedWhole(s[1..]);
    }
  }

  /** A key lacking the type's first character does not contain the type. */
  lemma {:induction false} MissingFirstCharNotContained(s: string, t: string)
    requires t != [] && t[0] !in s
    ensures !Contains(s, t)
    decreases |s|
  {
    if s != [] {
      MissingFirstCharNotContained(s[1..], t);
    }
  }

  /** "easeInOut" followed by a type other than "Sin..." on one line asks for that type, InOut. */
  lemma RequestInOut(t: string)
    requires t != [] && t[0] != 'S'
    requires forall i :: 0 <= i < |t| ==> !IsLineTerminator(t[i])
    ensures Request("easeInOut" + t) == Some(("InOut", t))
  {
    var name := "easeInOut" + t;
    assert name[0..] == name;
    assert name[..9] == "easeInOut";
    assert name[..6] == "easeIn";
    assert DirectionAt(name, 0) == "InOut";
    assert name[9..] == t;
    NoTerminatorCapturedWhole(t);
    assert |name| != |"linear"|;
  }

  /** The resolver's answer once the request and the family are known. */
  lemma ResolvesThrough(name: string, fns: seq<Family>, direction: string, t: string, i: nat)
    requires Request(name) == Some((direction, t)) && FindFamily(fns, t, 0) == Some(i)
    requires direction in fns[i].entries
    ensures EaseFunctionNameResolver(name, fns) == Some(fns[i].entries[direction])
  {
  }

  lemma ResolvesLinear()
    ensures EaseFunctionNameResolver("linear", TweenEasing()) == Some(EaseFn("Linear", "None"))
  {
    assert StartsWith("Linear", "Linear");
  }

  lemma RequestInOutQuad()
    ensures Request("easeInOutQuad") == Some(("InOut", "Quad"))
  {
    RequestInOut("Quad");
    assert "easeInOut" + "Quad" == "easeInOutQuad";
  }

  lemma FindQuad()
    ensures FindFamily(TweenEasing(), "Quad", 0) == Some(1)
  {
    MissingFirstCharNotContained("Linear", "Quad");
    assert StartsWith("Quadratic", "Quad");
  }

  lemma ResolvesInOutQuad()
    ensures EaseFunctionNameResolver("easeInOutQuad", TweenEasing()) == Some(EaseFn("Quadratic", "InOut"))
  {
    RequestInOutQuad();
    FindQuad();
    TweenEasingKeys();
    TweenEasingEntries(1);
    ResolvesThrough("easeInOutQuad", TweenEasing(), "InOut", "Quad", 1);
  }

  lemma RequestInOutSine()
    ensures Request("easeInOutSine") == Some(("InOut", "Sin"))
  {
    var name := "easeInOutSine";
    assert StartsWith(name[0..], "easeInOut");
    assert name[9..] == "Sine";
    assert TypeAt(name, 0) == "Sin";
  }

  lemma TweenEasingKeys()
    ensures |TweenEasing()| == 11
    ensures TweenEasing()[0].key == "Linear" && TweenEasing()[1].key == "Quadratic"
    ensures TweenEasing()[2].key == "Cubic" && TweenEasing()[3].key == "Quartic"
    ensures TweenEasing()[4].key == "Quintic" && TweenEasing()[5].key == "Sinusoidal"
    ensures TweenEasing()[6].key == "Exponential" && TweenEasing()[7].key == "Circular"
    ensures TweenEasing()[8].key == "Elastic" && TweenEasing()[9].key == "Back"
    ensures TweenEasing()[10].key == "Bounce"
  {
  }

  lemma TweenEasingEntries(i: int)
    requires 1 <= i < 11
    ensures TweenEasing()[i].entries == Directions(TweenEasing()[i].key)
  {
  }

  lemma FindSin()
    ensures FindFamily(TweenEasing(), "Sin", 0) == Some(5)
  {
    TweenEasingKeys();
    var fns := TweenEasing();
    assert StartsWith(fns[5].key, "Sin");
    forall j | 0 <= j < 5 ensures !Contains(fns[j].key, "Sin") {
      MissingFirstCharNotContained(fns[j].key, "Sin");
    }
  }

  /** A 'Sine' suffix is captured as 'Sin', which picks the Sinusoidal family. */
  lemma ResolvesInOutSine()
    ensures EaseFunctionNameResolver("easeInOutSine", TweenEasing()) == Some(EaseFn("Sinusoidal", "InOut"))
  {
    RequestInOutSine();
    FindSin();
    TweenEasingKeys();
    TweenEasingEntries(5);
  }

  lemma RequestInOutWobble()
    ensures Request("easeInOutWobble") == Some(("InOut", "Wobble"))
  {
    RequestInOut("Wobble");
    assert "easeInOut" + "Wobble" == "easeInOutWobble";
  }

  /** When no key from `from` on contains the type, the search finds nothing. */
  lemma {:induction false} FindFamilyNone(fns: seq<Family>, t: string, from: nat)
    requires from <= |fns|
    requires forall j :: from <= j < |fns| ==> !Contains(fns[j].key, t)
    ensures FindFamily(fns, t, from) == None
    decreases |fns| - from
  {
    if from < |fns| {
      FindFamilyNone(fns, t, from + 1);
    }
  }

  lemma FindNoWobble()
    ensures FindFamily(TweenEasing(), "Wobble", 0) == None
  {
    var fns := TweenEasing();
    TweenEasingKeys();
    forall j | 0 <= j < |fns| ensures !Contains(fns[j].key, "Wobble") {
      MissingFirstCharNotContained(fns[j].key, "Wobble");
    }
    FindFamilyNone(fns, "Wobble", 0);
  }

  /** A type that no family's key contains resolves to null. */
  lemma NoFamilyResolvesNull()
    ensures EaseFunctionNameResolver("easeInOutWobble", TweenEasing()) == None
  {
    RequestInOutWobble();
    FindNoWobble();
  }
}
