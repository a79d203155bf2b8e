/**
 * `createComponentStyle`, the class-variance resolver of the design system,
 * and the small class-string helpers beside it: `cn`, `responsive`,
 * `printOnly` and `spacing`.
 */
module Utils {
  import opened Options
  import opened Strings
  import opened ComponentStyles

  // ---------------------------------------------------------------------------
  // createComponentStyle

  /** A variant argument object: its entries in insertion order. A `None` value
      is an entry whose value is `undefined`. */
  type VariantArgs = seq<(string, Option<string>)>

  /** JavaScript truthiness of a variant value: `undefined` and `""` are falsy. */
  predicate Truthy(v: Option<string>) {
    v.Some? && v.value != ""
  }

  /** `variants[key]`: the value of the entry with that key (the last one, as a
      later duplicate key overwrites an earlier one), `undefined` if there is none. */
  function Get<V>(entries: seq<(string, Option<V>)>, key: string): Option<V> {
    if entries == [] then None
    else if entries[|entries| - 1].0 == key then entries[|entries| - 1].1
    else Get(entries[..|entries| - 1], key)
  }

  /** The default value of axis `key`, if the defaults name it. */
  function DefaultOf(defaults: seq<(string, string)>, key: string): Option<string> {
    if defaults == [] then None
    else if defaults[|defaults| - 1].0 == key then Some(defaults[|defaults| - 1].1)
    else DefaultOf(defaults[..|defaults| - 1], key)
  }

  /** A class list appended to the result, with the axis that selected it. */
  datatype Piece = Piece(axis: string, cls: string)

  /** What the first loop appends for one entry: the class list of a truthy value
      on an existing axis, provided the value is a key of that axis and its class
      list is not empty. */
  function SuppliedPiece(c: Component, key: string, value: Option<string>): seq<Piece> {
    if Truthy(value) && key in c.variants && value.value in c.variants[key]
       && c.variants[key][value.value] != ""
    then [Piece(key, c.variants[key][value.value])]
    else []
  }

  /** The first loop: the pieces of the supplied entries, in entry order. */
  function Supplied(c: Component, args: VariantArgs): seq<Piece> {
    if args == [] then []
    else Supplied(c, args[..|args| - 1]) + SuppliedPiece(c, args[|args| - 1].0, args[|args| - 1].1)
  }

  /** The default of `key` is consulted: there is no argument object, or its
      value for `key` is falsy. */
  predicate Omitted(variants: Option<VariantArgs>, key: string) {
    variants.None? || !Truthy(Get(variants.value, key))
  }

  /** What the second loop appends for the default `key: value`. */
  function DefaultPiece(c: Component, variants: Option<VariantArgs>, key: string, value: string): seq<Piece> {
    if Omitted(variants, key) && key in c.variants && value in c.variants[key]
       && c.variants[key][value] != ""
    then [Piece(key, c.variants[key][value])]
    else []
  }

  /** The second loop: the pieces of the defaults that apply, in default order. */
  function Defaults(c: Component, variants: Option<VariantArgs>, defaults: seq<(string, string)>): seq<Piece> {
    if defaults == [] then []
    else
      Defaults(c, variants, defaults[..|defaults| - 1])
      + DefaultPiece(c, variants, defaults[|defaults| - 1].0, defaults[|defaults| - 1].1)
  }

  /** Everything appended to the base, in order. */
  function Pieces(c: Component, variants: Option<VariantArgs>): seq<Piece> {
    (if variants.Some? then Supplied(c, variants.value) else [])
    + Defaults(c, variants, c.defaultVariants)
  }

  function Classes(ps: seq<Piece>): seq<string> {
    seq(|ps|, i requires 0 <= i < |ps| => ps[i].cls)
  }

  /** The string `createComponentStyle` returns: the base and the appended class
      lists, each after one space, trimmed. */
  function StyleOf(c: Component, variants: Option<VariantArgs>): string {
    Trim(Join([c.base] + Classes(Pieces(c, variants)), " "))
  }

  /** `StyleOf` in terms of the list of class lists it joins. */
  lemma StyleOfParts(c: Component, variants: Option<VariantArgs>, parts: seq<string>)
    requires [c.base] + Classes(Pieces(c, variants)) == parts
    ensures StyleOf(c, variants) == Trim(Join(parts, " "))
  {
  }

  /** `createComponentStyle(componentName, variants)`. */
  method CreateComponentStyle(name: ComponentName, variants: Option<VariantArgs>) returns (classes: string)
    ensures classes == StyleOf(Styles(name), variants)
    ensures Trimmed(classes)
  {
    classes := ApplyVariants(Styles(name), variants);
  }

  /** The body of `createComponentStyle` once the component's entry is looked up. */
  method ApplyVariants(component: Component, variants: Option<VariantArgs>) returns (classes: string)
    ensures classes == StyleOf(component, variants)
    ensures Trimmed(classes)
  {
    classes := component.base;
    if variants.Some? {
      classes := AppendSupplied(component, variants.value);
    }
    classes := AppendDefaults(component, variants, classes,
                              if variants.Some? then Supplied(component, variants.value) else []);
    classes := Trim(classes);
  }

  /** The first loop: one space and the class list of every supplied entry that selects one. */
  method AppendSupplied(component: Component, entries: VariantArgs) returns (classes: string)
    ensures classes == Join([component.base] + Classes(Supplied(component, entries)), " ")
  {
    classes := component.base;
    assert Supplied(component, entries[..0]) == [];
    var i := 0;
    while i < |entries|
      invariant 0 <= i <= |entries|
      invariant classes == Join([component.base] + Classes(Supplied(component, entries[..i])), " ")
    {
      var key, value := entries[i].0, entries[i].1;
      SuppliedStep(component, entries, i);
      if Truthy(value) && key in component.variants {
        var axis := component.variants[key];
        if value.value in axis {
          var variantClass := axis[value.value];
          if variantClass != "" {
            classes := classes + " " + variantClass;
          }
        }
      }
      i := i + 1;
    }
    assert entries[..i] == entries;
  }

  /** One more entry: the joined list grows by the class list it selects, if any. */
  lemma SuppliedStep(c: Component, entries: VariantArgs, i: nat)
    requires i < |entries|
    ensures (var key, value := entries[i].0, entries[i].1;
             Join([c.base] + Classes(Supplied(c, entries[..i + 1])), " ")
             == if Truthy(value) && key in c.variants && value.value in c.variants[key] && c.variants[key][value.value] != ""
                then Join([c.base] + Classes(Supplied(c, entries[..i])), " ") + " " + c.variants[key][value.value]
                else Join([c.base] + Classes(Supplied(c, entries[..i])), " "))
  {
    var step := SuppliedPiece(c, entries[i].0, entries[i].1);
    assert entries[..i + 1][..i] == entries[..i];
    assert Supplied(c, entries[..i + 1]) == Supplied(c, entries[..i]) + step;
    AppendPieces(c.base, Supplied(c, entries[..i]), step);
  }

  /** The second loop: one space and the class list of every default whose axis
      the arguments leave falsy, after the pieces `prior` already appended. */
  method AppendDefaults(component: Component, variants: Option<VariantArgs>, start: string,
                        ghost prior: seq<Piece>) returns (classes: string)
    requires start == Join([component.base] + Classes(prior), " ")
    ensures classes == Join([component.base] + Classes(prior + Defaults(component, variants, component.defaultVariants)), " ")
  {
    classes := start;
    var defaults := component.defaultVariants;
    assert prior + Defaults(component, variants, defaults[..0]) == prior;
    var j := 0;
    while j < |defaults|
      invariant 0 <= j <= |defaults|
      invariant classes == Join([component.base] + Classes(prior + Defaults(component, variants, defaults[..j])), " ")
    {
      var key, defaultValue := defaults[j].0, defaults[j].1;
      DefaultsStep(component, variants, defaults, j, prior);
      if variants.None? || !Truthy(Get(variants.value, key)) {
        if key in component.variants && defaultValue in component.variants[key] {
          var variantClass := component.variants[key][defaultValue];
          if variantClass != "" {
            classes := classes + " " + variantClass;
          }
        }
      }
      j := j + 1;
    }
    assert defaults[..j] == defaults;
  }

  /** One more default: the joined list grows by the class list of its piece, if any. */
  lemma DefaultsStep(c: Component, variants: Option<VariantArgs>, defaults: seq<(string, string)>,
                     j: nat, prior: seq<Piece>)
    requires j < |defaults|
    ensures (var key, value := defaults[j].0, defaults[j].1;
             Join([c.base] + Classes(prior + Defaults(c, variants, defaults[..j + 1])), " ")
             == if Omitted(variants, key) && key in c.variants && value in c.variants[key] && c.variants[key][value] != ""
                then Join([c.base] + Classes(prior + Defaults(c, variants, defaults[..j])), " ") + " " + c.variants[key][value]
                else Join([c.base] + Classes(prior + Defaults(c, variants, defaults[..j])), " "))
  {
    var applied := Defaults(c, variants, defaults[..j]);
    var step := DefaultPiece(c, variants, defaults[j].0, defaults[j].1);
    assert defaults[..j + 1][..j] == defaults[..j];
    assert Defaults(c, variants, defaults[..j + 1]) == applied + step;
    ConcatAssoc(prior, applied, step);
    AppendPieces(c.base, prior + applied, step);
  }

  /** Appending no piece changes nothing; appending one appends a space and its class list. */
  lemma AppendPieces(base: string, ps: seq<Piece>, step: seq<Piece>)
    requires |step| <= 1
    ensures Join([base] + Classes(ps + step), " ")
         == if step == [] then Join([base] + Classes(ps), " ")
            else Join([base] + Classes(ps), " ") + " " + step[0].cls
  {
    if step == [] {
      assert ps + step == ps;
    } else {
      assert [base] + Classes(ps + step) == ([base] + Classes(ps)) + [step[0].cls];
      JoinSnoc([base] + Classes(ps), step[0].cls, " ");
    }
  }

  // ---------------------------------------------------------------------------
  // What createComponentStyle settles on, axis by axis

  /** `Classes` distributes over concatenation. */
  lemma ClassesAppend(a: seq<Piece>, b: seq<Piece>)
    ensures Classes(a + b) == Classes(a) + Classes(b)
  {
  }

  /** The pieces that axis `key` selected, in order. */
  function AxisPieces(ps: seq<Piece>, key: string): seq<Piece> {
    if ps == [] then []
    else AxisPieces(ps[..|ps| - 1], key) + (if ps[|ps| - 1].axis == key then [ps[|ps| - 1]] else [])
  }

  lemma {:induction false} AxisPiecesAppend(a: seq<Piece>, b: seq<Piece>, key: string)
    ensures AxisPieces(a + b, key) == AxisPieces(a, key) + AxisPieces(b, key)
    decreases |b|
  {
    if b == [] {
      assert a + b == a;
    } else {
      var init, last := b[..|b| - 1], b[|b| - 1];
      assert (a + b)[..|a + b| - 1] == a + init;
      AxisPiecesAppend(a, init, key);
      var tail := if last.axis == key then [last] else [];
      ConcatAssoc(AxisPieces(a, key), AxisPieces(init, key), tail);
    }
  }

  /** A single piece belongs to its own axis only. */
  lemma AxisPiecesOfStep(step: seq<Piece>, key: string)
    requires |step| <= 1
    ensures AxisPieces(step, key) == if step != [] && step[0].axis == key then step else []
  {
    if step != [] {
      assert step[..0] == [];
    }
  }

  /** No entry has key `key`. */
  predicate KeyAbsent<V>(entries: seq<(string, V)>, key: string) {
    forall i | 0 <= i < |entries| :: entries[i].0 != key
  }

  /** A key that no entry has is `undefined`. */
  lemma {:induction false} GetAbsent<V>(entries: seq<(string, Option<V>)>, key: string)
    requires KeyAbsent(entries, key)
    ensures Get(entries, key) == None
  {
    if entries != [] {
      GetAbsent(entries[..|entries| - 1], key);
    }
  }

  /** A key that no default has has no default. */
  lemma {:induction false} DefaultOfAbsent(defaults: seq<(string, string)>, key: string)
    requires KeyAbsent(defaults, key)
    ensures DefaultOf(defaults, key) == None
  {
    if defaults != [] {
      DefaultOfAbsent(defaults[..|defaults| - 1], key);
    }
  }

  /** The entries before the last keep their keys distinct, and none of them
      has the last entry's key. */
  lemma InitKeys<V>(entries: seq<(string, V)>)
    requires entries != [] && DistinctKeys(entries)
    ensures DistinctKeys(entries[..|entries| - 1])
    ensures KeyAbsent(entries[..|entries| - 1], entries[|entries| - 1].0)
  {
    var init := entries[..|entries| - 1];
    forall i, j | 0 <= i < j < |init| ensures init[i].0 != init[j].0 {
      assert init[i] == entries[i] && init[j] == entries[j];
    }
  }

  /** The first loop, seen from one axis: the piece of that axis's argument. */
  lemma {:induction false} SuppliedByAxis(c: Component, args: VariantArgs, key: string)
    requires DistinctKeys(args)
    ensures AxisPieces(Supplied(c, args), key) == SuppliedPiece(c, key, Get(args, key))
  {
    if args != [] {
      InitKeys(args);
      SuppliedByAxis(c, args[..|args| - 1], key);
      SuppliedByAxisStep(c, args, key);
    }
  }

  /** One more entry: its piece is the axis's piece when it has the axis's key;
      otherwise the axis's piece stays what it was. */
  lemma SuppliedByAxisStep(c: Component, args: VariantArgs, key: string)
    requires args != [] && DistinctKeys(args)
    requires AxisPieces(Supplied(c, args[..|args| - 1]), key)
          == SuppliedPiece(c, key, Get(args[..|args| - 1], key))
    ensures AxisPieces(Supplied(c, args), key) == SuppliedPiece(c, key, Get(args, key))
  {
    var init, last := args[..|args| - 1], args[|args| - 1];
    var step := SuppliedPiece(c, last.0, last.1);
    assert Supplied(c, args) == Supplied(c, init) + step;
    AxisPiecesAppend(Supplied(c, init), step, key);
    AxisPiecesOfStep(step, key);
    if last.0 == key {
      InitKeys(args);
      GetAbsent(init, key);
      assert AxisPieces(Supplied(c, init), key) == [];
    } else {
      assert Get(args, key) == Get(init, key);
      assert AxisPieces(step, key) == [];
    }
  }

  /** The second loop, seen from one axis: the piece of that axis's default. */
  lemma {:induction false} DefaultsByAxis(c: Component, variants: Option<VariantArgs>,
                                          defaults: seq<(string, string)>, key: string)
    requires DistinctKeys(defaults)
    ensures AxisPieces(Defaults(c, variants, defaults), key)
         == match DefaultOf(defaults, key)
            case None => []
            case Some(d) => DefaultPiece(c, variants, key, d)
  {
    if defaults != [] {
      var init, last := defaults[..|defaults| - 1], defaults[|defaults| - 1];
      InitKeys(defaults);
      DefaultsByAxis(c, variants, init, key);
      AxisPiecesAppend(Defaults(c, variants, init), DefaultPiece(c, variants, last.0, last.1), key);
      AxisPiecesOfStep(DefaultPiece(c, variants, last.0, last.1), key);
      if last.0 == key {
        DefaultOfAbsent(init, key);
      }
    }
  }

  /** The value `createComponentStyle` settles on for axis `key`: the argument
      when it is truthy, otherwise the default, if any. */
  function Chosen(c: Component, variants: Option<VariantArgs>, key: string): Option<string> {
    if !Omitted(variants, key) then Get(variants.value, key) else DefaultOf(c.defaultVariants, key)
  }

  /** What axis `key` contributes: the class list of the chosen value, when that
      value is one of the axis's values and its class list is not empty. */
  function AxisOutcome(c: Component, variants: Option<VariantArgs>, key: string): seq<Piece> {
    var v := Chosen(c, variants, key);
    if v.Some? && key in c.variants && v.value in c.variants[key] && c.variants[key][v.value] != ""
    then [Piece(key, c.variants[key][v.value])]
    else []
  }

  /** Axis by axis, the two loops together select the class list of the chosen
      value: a truthy argument shadows the default, whether or not it is one of
      the axis's values, and every axis contributes at most one class list. */
  lemma PiecesByAxis(c: Component, variants: Option<VariantArgs>, key: string)
    requires variants.Some? ==> DistinctKeys(variants.value)
    requires DistinctKeys(c.defaultVariants)
    ensures AxisPieces(Pieces(c, variants), key) == AxisOutcome(c, variants, key)
    ensures |AxisPieces(Pieces(c, variants), key)| <= 1
  {
    var supplied := if variants.Some? then Supplied(c, variants.value) else [];
    var defaults := Defaults(c, variants, c.defaultVariants);
    assert Pieces(c, variants) == supplied + defaults;
    AxisPiecesAppend(supplied, defaults, key);
    if variants.Some? {
      SuppliedByAxis(c, variants.value, key);
    }
    DefaultsByAxis(c, variants, c.defaultVariants, key);
    OutcomeOfParts(c, variants, key);
  }

  /** The outcome of an axis is the piece of its argument followed by the piece
      of its default, at most one of which is not empty. */
  lemma OutcomeOfParts(c: Component, variants: Option<VariantArgs>, key: string)
    ensures AxisOutcome(c, variants, key)
         == (if variants.Some? then SuppliedPiece(c, key, Get(variants.value, key)) else [])
            + match DefaultOf(c.defaultVariants, key)
              case None => []
              case Some(d) => DefaultPiece(c, variants, key, d)
  {
    if !Omitted(variants, key) {
      match DefaultOf(c.defaultVariants, key)
      case None =>
      case Some(d) => assert DefaultPiece(c, variants, key, d) == [];
    } else if variants.Some? {
      assert SuppliedPiece(c, key, Get(variants.value, key)) == [];
    }
  }

  /** A truthy argument that is not one of the axis's values selects nothing,
      and it also keeps the axis's default out. */
  lemma UnknownValueDropsAxis(c: Component, args: VariantArgs, key: string)
    requires DistinctKeys(args) && DistinctKeys(c.defaultVariants)
    requires Truthy(Get(args, key)) && key in c.variants && Get(args, key).value !in c.variants[key]
    ensures AxisPieces(Pieces(c, Some(args)), key) == []
  {
    PiecesByAxis(c, Some(args), key);
  }

  /** The second loop depends on the arguments only through which defaults they
      leave omitted. */
  lemma {:induction false} DefaultsCongruent(c: Component, v1: Option<VariantArgs>, v2: Option<VariantArgs>,
                                             defaults: seq<(string, string)>)
    requires forall i | 0 <= i < |defaults| :: Omitted(v1, defaults[i].0) == Omitted(v2, defaults[i].0)
    ensures Defaults(c, v1, defaults) == Defaults(c, v2, defaults)
  {
    if defaults != [] {
      var init := defaults[..|defaults| - 1];
      assert forall i | 0 <= i < |init| :: init[i] == defaults[i];
      DefaultsCongruent(c, v1, v2, init);
    }
  }

  /** An empty argument object gives the same classes as no argument object. */
  lemma StyleOfEmptyArgs(c: Component)
    ensures StyleOf(c, Some([])) == StyleOf(c, None)
  {
    DefaultsCongruent(c, Some([]), None, c.defaultVariants);
  }

  /** Appending an entry does not change the value of any other key. */
  lemma GetOther<V>(entries: seq<(string, Option<V>)>, k: string, v: Option<V>, key: string)
    requires key != k
    ensures Get(entries + [(k, v)], key) == Get(entries, key)
  {
    assert (entries + [(k, v)])[..|entries|] == entries;
  }

  /** An entry for an axis the component does not have is ignored, wherever it
      sits among the arguments. */
  lemma UnknownAxisIgnored(c: Component, before: VariantArgs, k: string, v: Option<string>, after: VariantArgs)
    requires DefaultsWellFormed(c)
    requires k !in c.variants
    ensures StyleOf(c, Some(before + [(k, v)] + after)) == StyleOf(c, Some(before + after))
  {
    var longer := before + [(k, v)] + after;
    SuppliedSkip(c, before, k, v, after);
    DefaultsSkip(c, before, k, v, after);
    assert Pieces(c, Some(longer)) == Pieces(c, Some(before + after));
  }

  /** The first loop appends nothing for an entry on an unknown axis. */
  lemma SuppliedSkip(c: Component, before: VariantArgs, k: string, v: Option<string>, after: VariantArgs)
    requires k !in c.variants
    ensures Supplied(c, before + [(k, v)] + after) == Supplied(c, before + after)
  {
    var withEntry := before + [(k, v)];
    assert withEntry[..|withEntry| - 1] == before;
    assert SuppliedPiece(c, k, v) == [];
    assert Supplied(c, withEntry) == Supplied(c, before) + [];
    SuppliedAppend(c, withEntry, after);
    SuppliedAppend(c, before, after);
  }

  /** The defaults loop does not see an entry on an axis no default names. */
  lemma DefaultsSkip(c: Component, before: VariantArgs, k: string, v: Option<string>, after: VariantArgs)
    requires DefaultsWellFormed(c)
    requires k !in c.variants
    ensures Defaults(c, Some(before + [(k, v)] + after), c.defaultVariants)
         == Defaults(c, Some(before + after), c.defaultVariants)
  {
    var longer := before + [(k, v)] + after;
    forall i | 0 <= i < |c.defaultVariants|
      ensures Omitted(Some(longer), c.defaultVariants[i].0) == Omitted(Some(before + after), c.defaultVariants[i].0)
    {
      GetSkip(before, k, v, after, c.defaultVariants[i].0);
    }
    DefaultsCongruent(c, Some(longer), Some(before + after), c.defaultVariants);
  }

  /** The first loop over two runs of entries appends the pieces of the first
      run, then those of the second. */
  lemma {:induction false} SuppliedAppend(c: Component, front: VariantArgs, back: VariantArgs)
    ensures Supplied(c, front + back) == Supplied(c, front) + Supplied(c, back)
    decreases |back|
  {
    if back == [] {
      assert front + back == front;
    } else {
      var init, last := back[..|back| - 1], back[|back| - 1];
      var whole := front + back;
      assert whole[..|whole| - 1] == front + init && whole[|whole| - 1] == last;
      SuppliedAppend(c, front, init);
      ConcatAssoc(Supplied(c, front), Supplied(c, init), SuppliedPiece(c, last.0, last.1));
    }
  }

  /** An entry with key `k` does not change the value of any other key,
      wherever it sits. */
  lemma {:induction false} GetSkip<V>(before: seq<(string, Option<V>)>, k: string, v: Option<V>,
                                      after: seq<(string, Option<V>)>, key: string)
    requires key != k
    ensures Get(before + [(k, v)] + after, key) == Get(before + after, key)
    decreases |after|
  {
    if after == [] {
      assert before + [(k, v)] + after == before + [(k, v)];
      assert before + after == before;
      GetOther(before, k, v, key);
    } else {
      var init, last := after[..|after| - 1], after[|after| - 1];
      var longer, shorter := before + [(k, v)] + after, before + after;
      assert longer[..|longer| - 1] == before + [(k, v)] + init && longer[|longer| - 1] == last;
      assert shorter[..|shorter| - 1] == before + init && shorter[|shorter| - 1] == last;
      if last.0 != key {
        GetSkip(before, k, v, init, key);
      }
    }
  }

  /** The class attribute reads as the base's tokens, then the tokens of every
      appended class list, in order. */
  lemma StyleWords(c: Component, variants: Option<VariantArgs>)
    ensures Words(StyleOf(c, variants)) == Words(c.base) + Tokens(Classes(Pieces(c, variants)))
  {
    var parts := [c.base] + Classes(Pieces(c, variants));
    WordsOfTrim(Join(parts, " "));
    WordsOfJoin(parts);
    assert parts[0] == c.base && parts[1..] == Classes(Pieces(c, variants));
  }

  // ---------------------------------------------------------------------------
  // cn

  /** An argument of `cn`: a string, a boolean, `null` or `undefined`. */
  datatype ClassValue = Str(text: string) | Bool(flag: bool) | Null | Undefined

  /** `Boolean(x)`: the empty string, `false`, `null` and `undefined` are falsy. */
  predicate IsTruthy(x: ClassValue) {
    match x
    case Str(s) => s != ""
    case Bool(b) => b
    case _ => false
  }

  /** How `join` writes a kept argument: a string as itself, `true` as `"true"`. */
  function Written(x: ClassValue): (s: string)
    requires IsTruthy(x)
    ensures s != []
    ensures x.Str? ==> s == x.text
    ensures x.Bool? ==> s == "true"
  {
    if x.Str? then x.text else "true"
  }

  /** `filter(Boolean)`: the truthy arguments, in order, as `join` writes them. */
  function Kept(xs: seq<ClassValue>): (r: seq<string>)
    ensures |r| <= |xs|
    ensures forall i | 0 <= i < |r| :: r[i] != []
  {
    if xs == [] then []
    else (if IsTruthy(xs[0]) then [Written(xs[0])] else []) + Kept(xs[1..])
  }

  /** `cn(...classes)`: the kept arguments joined by spaces, every whitespace run
      collapsed to one space, trimmed. The result is in normal form and reads as
      the class tokens of the kept arguments, in order. */
  function Cn(xs: seq<ClassValue>): (r: string)
    ensures Canonical(r)
    ensures Words(r) == Tokens(Kept(xs))
  {
    var joined := Join(Kept(xs), " ");
    CollapseSingleSpaced(joined);
    TrimCanonical(CollapseSpaces(joined));
    WordsOfTrim(CollapseSpaces(joined));
    WordsOfCollapse(joined);
    WordsOfJoin(Kept(xs));
    Trim(CollapseSpaces(joined))
  }

  /** Two normal-form class lists with the same tokens are the same string. */
  lemma CanonicalByWords(s: string, t: string)
    requires Canonical(s) && Canonical(t)
    requires Words(s) == Words(t)
    ensures s == t
  {
    JoinWords(s);
    JoinWords(t);
  }

  /** `cn` is the single-space join of the tokens of its kept arguments. */
  lemma CnIsJoinOfTokens(xs: seq<ClassValue>)
    ensures Cn(xs) == Join(Tokens(Kept(xs)), " ")
  {
    JoinWords(Cn(xs));
  }

  lemma {:induction false} KeptAppend(xs: seq<ClassValue>, ys: seq<ClassValue>)
    ensures Kept(xs + ys) == Kept(xs) + Kept(ys)
    decreases |xs|
  {
    if xs == [] {
      assert xs + ys == ys;
    } else {
      assert (xs + ys)[1..] == xs[1..] + ys;
      KeptAppend(xs[1..], ys);
    }
  }

  lemma {:induction false} TokensAppend(a: seq<string>, b: seq<string>)
    ensures Tokens(a + b) == Tokens(a) + Tokens(b)
    decreases |a|
  {
    if a == [] {
      assert a + b == b;
    } else {
      assert (a + b)[1..] == a[1..] + b;
      TokensAppend(a[1..], b);
    }
  }

  /** The tokens of the single-argument call `cn(s)`. */
  lemma CnOfOne(s: string)
    ensures Words(Cn([Str(s)])) == Words(s)
  {
    assert Kept([Str(s)]) == (if s != "" then [s] else []) + Kept([]);
    if s == "" {
      assert Words(s) == [];
    } else {
      assert Tokens([s]) == Words(s) + Tokens([]);
    }
  }

  /** Every truthy argument is blank: nothing is left once whitespace is dropped. */
  predicate AllBlank(xs: seq<ClassValue>) {
    forall i | 0 <= i < |xs| :: IsTruthy(xs[i]) ==> IsBlank(Written(xs[i]))
  }

  lemma {:induction false} TokensOfKeptEmpty(xs: seq<ClassValue>)
    ensures Tokens(Kept(xs)) == [] <==> AllBlank(xs)
    decreases |xs|
  {
    if xs != [] {
      var head := if IsTruthy(xs[0]) then [Written(xs[0])] else [];
      assert Kept(xs) == head + Kept(xs[1..]);
      TokensAppend(head, Kept(xs[1..]));
      TokensOfKeptEmpty(xs[1..]);
      if IsTruthy(xs[0]) {
        assert Tokens(head) == Words(head[0]) + Tokens([]);
        WordsEmpty(head[0]);
      }
      assert AllBlank(xs) <==> (IsTruthy(xs[0]) ==> IsBlank(Written(xs[0]))) && AllBlank(xs[1..]) by {
        assert forall i | 1 <= i < |xs| :: xs[i] == xs[1..][i - 1];
      }
    }
  }

  /** `cn` returns the empty string exactly when every argument is falsy or blank. */
  lemma CnEmpty(xs: seq<ClassValue>)
    ensures Cn(xs) == "" <==> AllBlank(xs)
  {
    TokensOfKeptEmpty(xs);
    var r := Cn(xs);
    if r != "" {
      WordsCons(r);
    }
  }

  /** Applying `cn` to its own result changes nothing. */
  lemma CnIdempotent(xs: seq<ClassValue>)
    ensures Cn([Str(Cn(xs))]) == Cn(xs)
  {
    CnOfOne(Cn(xs));
    CanonicalByWords(Cn([Str(Cn(xs))]), Cn(xs));
  }

  /** `cn` composes: combining two calls' results is one call on all the arguments. */
  lemma CnAppend(xs: seq<ClassValue>, ys: seq<ClassValue>)
    ensures Cn([Str(Cn(xs)), Str(Cn(ys))]) == Cn(xs + ys)
  {
    var a, b := Cn(xs), Cn(ys);
    assert [Str(a), Str(b)] == [Str(a)] + [Str(b)];
    KeptAppend([Str(a)], [Str(b)]);
    assert Kept([Str(b)]) == (if b != "" then [b] else []) + Kept([]);
    assert Kept([Str(a)]) == (if a != "" then [a] else []) + Kept([]);
    TokensAppend(Kept([Str(a)]), Kept([Str(b)]));
    CnOfOne(a);
    CnOfOne(b);
    KeptAppend(xs, ys);
    TokensAppend(Kept(xs), Kept(ys));
    CanonicalByWords(Cn([Str(a), Str(b)]), Cn(xs + ys));
  }

  /** Falsy arguments are dropped, wherever they stand. */
  lemma CnDropsFalsy(xs: seq<ClassValue>, x: ClassValue, ys: seq<ClassValue>)
    requires !IsTruthy(x)
    ensures Cn(xs + [x] + ys) == Cn(xs + ys)
  {
    KeptAppend(xs + [x], ys);
    KeptAppend(xs, [x]);
    KeptAppend(xs, ys);
    assert [x][1..] == [];
    assert Kept([x]) == [];
    assert Kept(xs + [x] + ys) == Kept(xs + ys);
  }

  /** The boolean `true` is kept, and written as the class `true`. */
  lemma CnTrue()
    ensures Cn([Bool(true)]) == "true"
  {
    assert Kept([Bool(true)]) == ["true"] + Kept([]);
    assert Words("true") == ["true"] by {
      NoSpaceByIndex("true");
      WordsOfToken("true");
    }
    assert Tokens(["true"]) == Words("true") + Tokens([]);
    assert Join(["true"], " ") == "true";
    CnIsJoinOfTokens([Bool(true)]);
  }

  // ---------------------------------------------------------------------------
  // Variant prefixes: `printOnly`, `responsive` and the interaction helpers

  /** `${prefix}:${classes}`: a Tailwind variant prefix on a class list. */
  function Qualify(prefix: string, classes: string): (r: string)
    ensures |r| == |prefix| + 1 + |classes|
    ensures r[..|prefix|] == prefix && r[|prefix|] == ':' && r[|prefix| + 1..] == classes
  {
    prefix + ":" + classes
  }

  /** Splits a string at its first colon into the prefix before it and the rest. */
  function Unqualify(s: string): (r: Option<(string, string)>)
    ensures r.None? <==> ':' !in s
    ensures r.Some? ==> ':' !in r.value.0 && Qualify(r.value.0, r.value.1) == s
  {
    if s == [] then None
    else if s[0] == ':' then
      assert s == [] + ":" + s[1..];
      Some(([], s[1..]))
    else
      match Unqualify(s[1..])
      case None => None
      case Some(split) =>
        var front := [s[0]] + split.0;
        assert front[1..] == split.0 && s == [s[0]] + s[1..];
        QualifyCons(front, split.1);
        Some((front, split.1))
  }

  /** A prefix without a colon comes back off intact. */
  lemma {:induction false} QualifyRoundTrip(prefix: string, classes: string)
    requires ':' !in prefix
    ensures Unqualify(Qualify(prefix, classes)) == Some((prefix, classes))
    decreases |prefix|
  {
    if prefix == [] {
      var q := Qualify(prefix, classes);
      assert q[0] == ':' && q[1..] == classes;
    } else {
      QualifyRoundTrip(prefix[1..], classes);
      UnqualifyStep(prefix, classes);
    }
  }

  lemma UnqualifyStep(prefix: string, classes: string)
    requires prefix != [] && prefix[0] != ':'
    requires Unqualify(Qualify(prefix[1..], classes)) == Some((prefix[1..], classes))
    ensures Unqualify(Qualify(prefix, classes)) == Some((prefix, classes))
  {
    var rest := Qualify(prefix[1..], classes);
    QualifyCons(prefix, classes);
    UnqualifyCons(prefix[0], rest);
    assert [prefix[0]] + prefix[1..] == prefix;
  }

  /** The first character of the prefix comes first. */
  lemma QualifyCons(prefix: string, classes: string)
    requires prefix != []
    ensures Qualify(prefix, classes) == [prefix[0]] + Qualify(prefix[1..], classes)
  {
    assert prefix == [prefix[0]] + prefix[1..];
    assert prefix + ":" + classes == [prefix[0]] + (prefix[1..] + ":" + classes);
  }

  /** A character other than a colon in front stays with the prefix. */
  lemma UnqualifyCons(ch: char, s: string)
    requires ch != ':'
    ensures Unqualify([ch] + s)
         == if Unqualify(s).None? then None else Some(([ch] + Unqualify(s).value.0, Unqualify(s).value.1))
  {
    assert ([ch] + s)[1..] == s;
  }

  /** The prefix attaches to the first class only: `hover:a b` reads as the
      tokens `hover:a` and `b`. */
  lemma QualifyTokens(prefix: string, classes: string)
    requires NoSpace(prefix)
    requires classes != [] && !IsSpace(classes[0])
    ensures Words(classes) != []
    ensures Words(Qualify(prefix, classes)) == [Qualify(prefix, Words(classes)[0])] + Words(classes)[1..]
  {
    var a := prefix + ":";
    assert NoSpace(a) by {
      NoSpaceByIndex(prefix);
      NoSpaceByIndex(a);
    }
    WordsPrefixToken(a, classes);
  }

  /** `printOnly(className)`. */
  function PrintOnly(className: string): (r: string)
    ensures Unqualify(r) == Some(("print", className))
  {
    QualifyRoundTrip("print", className);
    Qualify("print", className)
  }

  /** The breakpoint overrides, each as `breakpoint:classes`. */
  function Overrides(entries: seq<(string, string)>): (r: seq<string>)
    ensures |r| == |entries|
    ensures forall i | 0 <= i < |r| :: r[i] == Qualify(entries[i].0, entries[i].1)
  {
    seq(|entries|, i requires 0 <= i < |entries| => Qualify(entries[i].0, entries[i].1))
  }

  /** What `responsive` returns: the base, then one space and one override per
      entry. Nothing is trimmed. */
  function ResponsiveOf(base: string, overrides: Option<seq<(string, string)>>): string {
    if overrides.None? then base else Join([base] + Overrides(overrides.value), " ")
  }

  /** `responsive(base, responsive?)`, one entry of the override object at a time. */
  method Responsive(base: string, overrides: Option<seq<(string, string)>>) returns (classes: string)
    ensures classes == ResponsiveOf(base, overrides)
  {
    classes := base;
    if overrides.Some? {
      var entries := overrides.value;
      var i := 0;
      while i < |entries|
        invariant 0 <= i <= |entries|
        invariant classes == Join([base] + Overrides(entries[..i]), " ")
      {
        var breakpoint, className := entries[i].0, entries[i].1;
        assert [base] + Overrides(entries[..i + 1]) == ([base] + Overrides(entries[..i])) + [Qualify(breakpoint, className)];
        JoinSnoc([base] + Overrides(entries[..i]), Qualify(breakpoint, className), " ");
        classes := classes + " " + (breakpoint + ":" + className);
        i := i + 1;
      }
      assert entries[..i] == entries;
    }
  }

  /** The result reads as the base's tokens followed by those of every override. */
  lemma ResponsiveTokens(base: string, overrides: Option<seq<(string, string)>>)
    ensures Words(ResponsiveOf(base, overrides))
         == Words(base) + (if overrides.None? then [] else Tokens(Overrides(overrides.value)))
  {
    if overrides.Some? {
      var parts := [base] + Overrides(overrides.value);
      WordsOfJoin(parts);
      assert parts[1..] == Overrides(overrides.value);
    } else {
      assert Words(base) + [] == Words(base);
    }
  }

  /** With an empty base and at least one override the result starts with a
      space: unlike `cn` and `createComponentStyle`, `responsive` does not trim. */
  lemma ResponsiveUntrimmed(overrides: seq<(string, string)>)
    requires overrides != []
    ensures ResponsiveOf("", Some(overrides)) == " " + Join(Overrides(overrides), " ")
    ensures !Trimmed(ResponsiveOf("", Some(overrides)))
  {
    JoinCons("", Overrides(overrides), " ");
    assert "" + (" " + Join(Overrides(overrides), " ")) == " " + Join(Overrides(overrides), " ");
  }

  // ---------------------------------------------------------------------------
  // spacing

  /** The spacing scale: size name to Tailwind step. */
  const SpacingScale := map["xs" := "2", "sm" := "4", "md" := "6", "lg" := "8", "xl" := "12"]

  /** `spacing(size, type)`: `m-` for `"margin"`, `p-` for any other type, then
      the step of the size. The class reads back as the size it was made from
      and its property, any type other than `"margin"` counting as padding. */
  function Spacing(size: string, kind: string := "margin"): (r: string)
    requires size in SpacingScale
    ensures ParseSpacing(r) == Some((if kind == "margin" then "margin" else "padding", size))
  {
    var r := (if kind == "margin" then "m" else "p") + "-" + SpacingScale[size];
    assert r[2..] == SpacingScale[size];
    r
  }

  /** The scale read backwards: step to size name. */
  const SpacingSteps := map["2" := "xs", "4" := "sm", "6" := "md", "8" := "lg", "12" := "xl"]

  /** Reads a spacing class back: the property and the size name. */
  function ParseSpacing(s: string): (r: Option<(string, string)>)
    ensures r.Some? ==> r.value.1 in SpacingScale && r.value.0 in {"margin", "padding"}
  {
    if |s| >= 2 && (s[0] == 'm' || s[0] == 'p') && s[1] == '-' && s[2..] in SpacingSteps
    then Some((if s[0] == 'm' then "margin" else "padding", SpacingSteps[s[2..]]))
    else None
  }

  /** Different sizes or properties give different classes. */
  lemma SpacingInjective(size1: string, kind1: string, size2: string, kind2: string)
    requires size1 in SpacingScale && size2 in SpacingScale
    requires kind1 in {"margin", "padding"} && kind2 in {"margin", "padding"}
    requires Spacing(size1, kind1) == Spacing(size2, kind2)
    ensures size1 == size2 && kind1 == kind2
  {
    assert ParseSpacing(Spacing(size1, kind1)) == ParseSpacing(Spacing(size2, kind2));
  }
}
