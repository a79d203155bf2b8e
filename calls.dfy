/**
 * `createComponentStyle` called with a fixed argument object, as the layout,
 * typography and component helpers call it: one, two or three keys, each an
 * axis of the component, whose values are either `undefined` or one of the
 * axis's values. The class lists such a call appends are then the class list of
 * every argument passed, in argument order, followed by the class list of the
 * default of every axis whose argument was left `undefined`, in default order.
 */
module VariantCalls {
  import opened Options
  import opened ComponentStyles
  import opened Utils

  /** An argument is `undefined` or one of the axis's values. */
  predicate Fits(axis: map<string, string>, v: Option<string>) {
    v.Some? ==> v.value in axis
  }

  /** The class list an optional argument selects, if it was passed. */
  function IfGiven(axis: map<string, string>, v: Option<string>): (r: seq<string>)
    requires Fits(axis, v)
    ensures |r| <= 1 && (r != [] <==> v.Some?)
  {
    if v.Some? then [axis[v.value]] else []
  }

  /** The class list of the default, if the argument was left `undefined`. */
  function IfOmitted(v: Option<string>, default: string): (r: seq<string>)
    ensures |r| <= 1 && (r != [] <==> v.None?)
  {
    if v.None? then [default] else []
  }

  // ---------------------------------------------------------------------------
  // The two loops, one entry at a time

  lemma SuppliedSnoc(c: Component, args: VariantArgs, key: string, value: Option<string>)
    ensures Supplied(c, args + [(key, value)]) == Supplied(c, args) + SuppliedPiece(c, key, value)
  {
    assert (args + [(key, value)])[..|args|] == args;
  }

  lemma DefaultsSnoc(c: Component, variants: Option<VariantArgs>, defaults: seq<(string, string)>,
                     key: string, value: string)
    ensures Defaults(c, variants, defaults + [(key, value)])
         == Defaults(c, variants, defaults) + DefaultPiece(c, variants, key, value)
  {
    assert (defaults + [(key, value)])[..|defaults|] == defaults;
  }

  lemma GetSnoc(entries: VariantArgs, key: string, value: Option<string>, k: string)
    ensures Get(entries + [(key, value)], k) == if key == k then value else Get(entries, k)
  {
    assert (entries + [(key, value)])[..|entries|] == entries;
  }

  /** The piece of a supplied argument on a selectable axis. */
  lemma SuppliedPieceOf(c: Component, key: string, axis: map<string, string>, v: Option<string>)
    requires HasAxis(c, key, axis) && Selectable(axis) && Fits(axis, v)
    ensures Classes(SuppliedPiece(c, key, v)) == IfGiven(axis, v)
  {
  }

  /** The piece of a default on a selectable axis. */
  lemma DefaultPieceOf(c: Component, args: VariantArgs, key: string, axis: map<string, string>, d: string)
    requires HasAxis(c, key, axis) && Selectable(axis) && d in axis && Fits(axis, Get(args, key))
    ensures Classes(DefaultPiece(c, Some(args), key, d)) == IfOmitted(Get(args, key), axis[d])
  {
  }

  // ---------------------------------------------------------------------------
  // Argument objects of one, two and three keys

  lemma Supplied1(c: Component, k1: string, v1: Option<string>)
    ensures Supplied(c, [(k1, v1)]) == SuppliedPiece(c, k1, v1)
  {
    assert [(k1, v1)][..0] == [];
  }

  lemma Supplied2(c: Component, k1: string, v1: Option<string>, k2: string, v2: Option<string>)
    ensures Supplied(c, [(k1, v1), (k2, v2)]) == SuppliedPiece(c, k1, v1) + SuppliedPiece(c, k2, v2)
  {
    Supplied1(c, k1, v1);
    SuppliedSnoc(c, [(k1, v1)], k2, v2);
    assert [(k1, v1)] + [(k2, v2)] == [(k1, v1), (k2, v2)];
  }

  lemma Supplied3(c: Component, k1: string, v1: Option<string>, k2: string, v2: Option<string>,
                  k3: string, v3: Option<string>)
    ensures Supplied(c, [(k1, v1), (k2, v2), (k3, v3)])
         == SuppliedPiece(c, k1, v1) + SuppliedPiece(c, k2, v2) + SuppliedPiece(c, k3, v3)
  {
    Supplied2(c, k1, v1, k2, v2);
    SuppliedSnoc(c, [(k1, v1), (k2, v2)], k3, v3);
    assert [(k1, v1), (k2, v2)] + [(k3, v3)] == [(k1, v1), (k2, v2), (k3, v3)];
  }

  lemma Get2(k1: string, v1: Option<string>, k2: string, v2: Option<string>, k: string)
    ensures Get([(k1, v1), (k2, v2)], k) == if k == k2 then v2 else if k == k1 then v1 else None
  {
    assert [(k1, v1)][..0] == [];
    GetSnoc([(k1, v1)], k2, v2, k);
    assert [(k1, v1)] + [(k2, v2)] == [(k1, v1), (k2, v2)];
  }

  lemma Get3(k1: string, v1: Option<string>, k2: string, v2: Option<string>,
             k3: string, v3: Option<string>, k: string)
    ensures Get([(k1, v1), (k2, v2), (k3, v3)], k)
         == if k == k3 then v3 else if k == k2 then v2 else if k == k1 then v1 else None
  {
    Get2(k1, v1, k2, v2, k);
    GetSnoc([(k1, v1), (k2, v2)], k3, v3, k);
    assert [(k1, v1), (k2, v2)] + [(k3, v3)] == [(k1, v1), (k2, v2), (k3, v3)];
  }

  lemma Defaults1(c: Component, variants: Option<VariantArgs>, d1: (string, string))
    ensures Defaults(c, variants, [d1]) == DefaultPiece(c, variants, d1.0, d1.1)
  {
    assert [d1][..0] == [];
  }

  lemma Defaults2(c: Component, variants: Option<VariantArgs>, d1: (string, string), d2: (string, string))
    ensures Defaults(c, variants, [d1, d2])
         == DefaultPiece(c, variants, d1.0, d1.1) + DefaultPiece(c, variants, d2.0, d2.1)
  {
    Defaults1(c, variants, d1);
    DefaultsSnoc(c, variants, [d1], d2.0, d2.1);
    assert [d1] + [(d2.0, d2.1)] == [d1, d2];
  }

  lemma Defaults3(c: Component, variants: Option<VariantArgs>, d1: (string, string), d2: (string, string),
                  d3: (string, string))
    ensures Defaults(c, variants, [d1, d2, d3])
         == DefaultPiece(c, variants, d1.0, d1.1) + DefaultPiece(c, variants, d2.0, d2.1)
            + DefaultPiece(c, variants, d3.0, d3.1)
  {
    Defaults2(c, variants, d1, d2);
    DefaultsSnoc(c, variants, [d1, d2], d3.0, d3.1);
    assert [d1, d2] + [(d3.0, d3.1)] == [d1, d2, d3];
  }

  lemma Defaults4(c: Component, variants: Option<VariantArgs>, d1: (string, string), d2: (string, string),
                  d3: (string, string), d4: (string, string))
    ensures Defaults(c, variants, [d1, d2, d3, d4])
         == DefaultPiece(c, variants, d1.0, d1.1) + DefaultPiece(c, variants, d2.0, d2.1)
            + DefaultPiece(c, variants, d3.0, d3.1) + DefaultPiece(c, variants, d4.0, d4.1)
  {
    Defaults3(c, variants, d1, d2, d3);
    DefaultsSnoc(c, variants, [d1, d2, d3], d4.0, d4.1);
    assert [d1, d2, d3] + [(d4.0, d4.1)] == [d1, d2, d3, d4];
  }

  // ---------------------------------------------------------------------------
  // Whole calls

  /** An axis a helper passes an argument for: its key, its values with their
      class lists, and its default. */
  datatype Slot = Slot(key: string, axis: map<string, string>, default: string)

  /** The axis is one of the component's, every value selects a class list, and
      the default is one of its values. */
  predicate SlotOf(c: Component, s: Slot) {
    HasAxis(c, s.key, s.axis) && Selectable(s.axis) && s.default in s.axis
  }

  /** The class list of the slot's default. */
  function DefaultClass(s: Slot): string
    requires s.default in s.axis
  {
    s.axis[s.default]
  }

  lemma Given2(c: Component, s1: Slot, v1: Option<string>, s2: Slot, v2: Option<string>)
    requires SlotOf(c, s1) && SlotOf(c, s2) && Fits(s1.axis, v1) && Fits(s2.axis, v2)
    ensures Classes(Supplied(c, [(s1.key, v1), (s2.key, v2)])) == IfGiven(s1.axis, v1) + IfGiven(s2.axis, v2)
  {
    Supplied2(c, s1.key, v1, s2.key, v2);
    SuppliedPieceOf(c, s1.key, s1.axis, v1);
    SuppliedPieceOf(c, s2.key, s2.axis, v2);
    ClassesAppend(SuppliedPiece(c, s1.key, v1), SuppliedPiece(c, s2.key, v2));
  }

  lemma Given3(c: Component, s1: Slot, v1: Option<string>, s2: Slot, v2: Option<string>,
               s3: Slot, v3: Option<string>)
    requires SlotOf(c, s1) && SlotOf(c, s2) && SlotOf(c, s3)
    requires Fits(s1.axis, v1) && Fits(s2.axis, v2) && Fits(s3.axis, v3)
    ensures Classes(Supplied(c, [(s1.key, v1), (s2.key, v2), (s3.key, v3)]))
         == IfGiven(s1.axis, v1) + IfGiven(s2.axis, v2) + IfGiven(s3.axis, v3)
  {
    Supplied3(c, s1.key, v1, s2.key, v2, s3.key, v3);
    SuppliedPieceOf(c, s1.key, s1.axis, v1);
    SuppliedPieceOf(c, s2.key, s2.axis, v2);
    SuppliedPieceOf(c, s3.key, s3.axis, v3);
    var p1, p2, p3 := SuppliedPiece(c, s1.key, v1), SuppliedPiece(c, s2.key, v2), SuppliedPiece(c, s3.key, v3);
    ClassesAppend(p1, p2);
    ClassesAppend(p1 + p2, p3);
  }

  lemma Fallback2(c: Component, s1: Slot, v1: Option<string>, s2: Slot, v2: Option<string>)
    requires SlotOf(c, s1) && SlotOf(c, s2) && Fits(s1.axis, v1) && Fits(s2.axis, v2)
    requires s1.key != s2.key
    ensures Classes(Defaults(c, Some([(s1.key, v1), (s2.key, v2)]), [(s1.key, s1.default), (s2.key, s2.default)]))
         == IfOmitted(v1, DefaultClass(s1)) + IfOmitted(v2, DefaultClass(s2))
  {
    var args := [(s1.key, v1), (s2.key, v2)];
    Defaults2(c, Some(args), (s1.key, s1.default), (s2.key, s2.default));
    Get2(s1.key, v1, s2.key, v2, s1.key);
    Get2(s1.key, v1, s2.key, v2, s2.key);
    DefaultPieceOf(c, args, s1.key, s1.axis, s1.default);
    DefaultPieceOf(c, args, s2.key, s2.axis, s2.default);
    ClassesAppend(DefaultPiece(c, Some(args), s1.key, s1.default), DefaultPiece(c, Some(args), s2.key, s2.default));
  }

  lemma Fallback3(c: Component, s1: Slot, v1: Option<string>, s2: Slot, v2: Option<string>,
                  s3: Slot, v3: Option<string>)
    requires SlotOf(c, s1) && SlotOf(c, s2) && SlotOf(c, s3)
    requires Fits(s1.axis, v1) && Fits(s2.axis, v2) && Fits(s3.axis, v3)
    requires s1.key != s2.key && s1.key != s3.key && s2.key != s3.key
    ensures Classes(Defaults(c, Some([(s1.key, v1), (s2.key, v2), (s3.key, v3)]),
                             [(s1.key, s1.default), (s2.key, s2.default), (s3.key, s3.default)]))
         == IfOmitted(v1, DefaultClass(s1)) + IfOmitted(v2, DefaultClass(s2)) + IfOmitted(v3, DefaultClass(s3))
  {
    var args := [(s1.key, v1), (s2.key, v2), (s3.key, v3)];
    var v := Some(args);
    Defaults3(c, v, (s1.key, s1.default), (s2.key, s2.default), (s3.key, s3.default));
    Get3(s1.key, v1, s2.key, v2, s3.key, v3, s1.key);
    Get3(s1.key, v1, s2.key, v2, s3.key, v3, s2.key);
    Get3(s1.key, v1, s2.key, v2, s3.key, v3, s3.key);
    DefaultPieceOf(c, args, s1.key, s1.axis, s1.default);
    DefaultPieceOf(c, args, s2.key, s2.axis, s2.default);
    DefaultPieceOf(c, args, s3.key, s3.axis, s3.default);
    var p1, p2, p3 := DefaultPiece(c, v, s1.key, s1.default), DefaultPiece(c, v, s2.key, s2.default),
                      DefaultPiece(c, v, s3.key, s3.default);
    ClassesAppend(p1, p2);
    ClassesAppend(p1 + p2, p3);
  }

  /** A default whose axis the call never passes always applies. */
  lemma FixedDefault3(c: Component, v1: Option<string>, k1: string, v2: Option<string>, k2: string,
                      v3: Option<string>, k3: string, s: Slot)
    requires SlotOf(c, s) && s.key != k1 && s.key != k2 && s.key != k3
    ensures Classes(DefaultPiece(c, Some([(k1, v1), (k2, v2), (k3, v3)]), s.key, s.default)) == [DefaultClass(s)]
  {
    Get3(k1, v1, k2, v2, k3, v3, s.key);
  }

  /** A call with one key, the component's only axis: the argument's class list
      if it was passed, otherwise the default's. */
  lemma Call1(c: Component, s: Slot, v: Option<string>)
    requires SlotOf(c, s) && Fits(s.axis, v)
    requires c.defaultVariants == [(s.key, s.default)]
    ensures Classes(Pieces(c, Some([(s.key, v)]))) == IfGiven(s.axis, v) + IfOmitted(v, DefaultClass(s))
  {
    var args := [(s.key, v)];
    Supplied1(c, s.key, v);
    SuppliedPieceOf(c, s.key, s.axis, v);
    Defaults1(c, Some(args), (s.key, s.default));
    assert Get(args, s.key) == v by {
      assert args[..0] == [];
    }
    DefaultPieceOf(c, args, s.key, s.axis, s.default);
    ClassesAppend(SuppliedPiece(c, s.key, v), DefaultPiece(c, Some(args), s.key, s.default));
  }

  /** A call with two keys, the component's two axes. */
  lemma Call2(c: Component, s1: Slot, v1: Option<string>, s2: Slot, v2: Option<string>)
    requires SlotOf(c, s1) && SlotOf(c, s2) && Fits(s1.axis, v1) && Fits(s2.axis, v2)
    requires s1.key != s2.key
    requires c.defaultVariants == [(s1.key, s1.default), (s2.key, s2.default)]
    ensures Classes(Pieces(c, Some([(s1.key, v1), (s2.key, v2)])))
         == (IfGiven(s1.axis, v1) + IfGiven(s2.axis, v2))
            + (IfOmitted(v1, DefaultClass(s1)) + IfOmitted(v2, DefaultClass(s2)))
  {
    var args := [(s1.key, v1), (s2.key, v2)];
    Given2(c, s1, v1, s2, v2);
    Fallback2(c, s1, v1, s2, v2);
    ClassesAppend(Supplied(c, args), Defaults(c, Some(args), c.defaultVariants));
  }

  /** A call with three keys, the component's three axes. */
  lemma Call3(c: Component, s1: Slot, v1: Option<string>, s2: Slot, v2: Option<string>,
              s3: Slot, v3: Option<string>)
    requires SlotOf(c, s1) && SlotOf(c, s2) && SlotOf(c, s3)
    requires Fits(s1.axis, v1) && Fits(s2.axis, v2) && Fits(s3.axis, v3)
    requires s1.key != s2.key && s1.key != s3.key && s2.key != s3.key
    requires c.defaultVariants == [(s1.key, s1.default), (s2.key, s2.default), (s3.key, s3.default)]
    ensures Classes(Pieces(c, Some([(s1.key, v1), (s2.key, v2), (s3.key, v3)])))
         == (IfGiven(s1.axis, v1) + IfGiven(s2.axis, v2) + IfGiven(s3.axis, v3))
            + (IfOmitted(v1, DefaultClass(s1)) + IfOmitted(v2, DefaultClass(s2)) + IfOmitted(v3, DefaultClass(s3)))
  {
    var args := [(s1.key, v1), (s2.key, v2), (s3.key, v3)];
    Given3(c, s1, v1, s2, v2, s3, v3);
    Fallback3(c, s1, v1, s2, v2, s3, v3);
    ClassesAppend(Supplied(c, args), Defaults(c, Some(args), c.defaultVariants));
  }

  /** The defaults of a component with a fourth axis, declared last, that the
      call never passes: its default always comes last. */
  lemma Fallback3Of4(c: Component, s1: Slot, v1: Option<string>, s2: Slot, v2: Option<string>,
                     s3: Slot, v3: Option<string>, s4: Slot)
    requires SlotOf(c, s1) && SlotOf(c, s2) && SlotOf(c, s3) && SlotOf(c, s4)
    requires Fits(s1.axis, v1) && Fits(s2.axis, v2) && Fits(s3.axis, v3)
    requires s1.key != s2.key && s1.key != s3.key && s2.key != s3.key
    requires s4.key != s1.key && s4.key != s2.key && s4.key != s3.key
    ensures Classes(Defaults(c, Some([(s1.key, v1), (s2.key, v2), (s3.key, v3)]),
                             [(s1.key, s1.default), (s2.key, s2.default), (s3.key, s3.default), (s4.key, s4.default)]))
         == IfOmitted(v1, DefaultClass(s1)) + IfOmitted(v2, DefaultClass(s2)) + IfOmitted(v3, DefaultClass(s3))
            + [DefaultClass(s4)]
  {
    var v := Some([(s1.key, v1), (s2.key, v2), (s3.key, v3)]);
    var d1, d2, d3, d4 := (s1.key, s1.default), (s2.key, s2.default), (s3.key, s3.default), (s4.key, s4.default);
    Fallback3(c, s1, v1, s2, v2, s3, v3);
    Defaults3(c, v, d1, d2, d3);
    Defaults4(c, v, d1, d2, d3, d4);
    FixedDefault3(c, v1, s1.key, v2, s2.key, v3, s3.key, s4);
    ClassesAppend(Defaults(c, v, [d1, d2, d3]), DefaultPiece(c, v, s4.key, s4.default));
  }

  /** A call with three keys of a component with a fourth axis, declared last,
      that the call never passes. */
  lemma Call3Of4(c: Component, s1: Slot, v1: Option<string>, s2: Slot, v2: Option<string>,
                 s3: Slot, v3: Option<string>, s4: Slot)
    requires SlotOf(c, s1) && SlotOf(c, s2) && SlotOf(c, s3) && SlotOf(c, s4)
    requires Fits(s1.axis, v1) && Fits(s2.axis, v2) && Fits(s3.axis, v3)
    requires s1.key != s2.key && s1.key != s3.key && s2.key != s3.key
    requires s4.key != s1.key && s4.key != s2.key && s4.key != s3.key
    requires c.defaultVariants
          == [(s1.key, s1.default), (s2.key, s2.default), (s3.key, s3.default), (s4.key, s4.default)]
    ensures Classes(Pieces(c, Some([(s1.key, v1), (s2.key, v2), (s3.key, v3)])))
         == (IfGiven(s1.axis, v1) + IfGiven(s2.axis, v2) + IfGiven(s3.axis, v3))
            + (IfOmitted(v1, DefaultClass(s1)) + IfOmitted(v2, DefaultClass(s2)) + IfOmitted(v3, DefaultClass(s3))
               + [DefaultClass(s4)])
  {
    var args := [(s1.key, v1), (s2.key, v2), (s3.key, v3)];
    Given3(c, s1, v1, s2, v2, s3, v3);
    Fallback3Of4(c, s1, v1, s2, v2, s3, v3, s4);
    ClassesAppend(Supplied(c, args), Defaults(c, Some(args), c.defaultVariants));
  }
}
