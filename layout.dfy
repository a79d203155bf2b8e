/**
 * `layout`: the container, section, grid and flex helpers, each a fixed call
 * of `createComponentStyle`. Every contract names the class lists the call
 * produces, in order: the base, the class list of every argument passed, and
 * the class list of the default of every axis left `undefined`.
 */
module Layout {
  import opened Options
  import opened Strings
  import opened ComponentStyles
  import opened Utils
  import opened VariantCalls

  const ContainerSize := Slot("size", ContainerSizes, "md")

  lemma ContainerSlots()
    ensures SlotOf(ContainerStyle, ContainerSize)
    ensures ContainerStyle.defaultVariants == [(ContainerSize.key, ContainerSize.default)]
  {
  }

  /** The class lists of `layout.container(size)`: the base, then the size's
      width; the default never applies, since the size is always passed. */
  lemma ContainerClasses(size: string)
    requires size in ContainerSizes
    ensures [ContainerStyle.base] + Classes(Pieces(ContainerStyle, Some([("size", Some(size))])))
         == ["mx-auto px-8", ContainerSizes[size]]
  {
    ContainerSlots();
    Call1(ContainerStyle, ContainerSize, Some(size));
  }

  /** `layout.container(size = 'md')`. */
  method Container(size: string := "md") returns (r: string)
    requires size in ContainerSizes
    ensures r == Trim(Join(["mx-auto px-8", ContainerSizes[size]], " "))
  {
    var args := [("size", Some(size))];
    assert Styles(ComponentName.Container) == ContainerStyle;
    r := CreateComponentStyle(ComponentName.Container, Some(args));
    ContainerClasses(size);
    StyleOfParts(ContainerStyle, Some(args), ["mx-auto px-8", ContainerSizes[size]]);
  }

  const SectionSpacing := Slot("spacing", SectionSpacings, "md")

  lemma SectionSlots()
    ensures SlotOf(SectionStyle, SectionSpacing)
    ensures HasAxis(SectionStyle, "breakBefore", SectionBreaks)
    ensures SectionStyle.base == ""
    ensures SectionStyle.defaultVariants == [("spacing", "md"), ("breakBefore", "false")]
  {
  }

  /** The argument object of `layout.section`: the boolean becomes the string
      `'true'` or `'false'`, so both axes are always passed. */
  function SectionArgs(spacing: string, breakBefore: bool): VariantArgs {
    [("spacing", Some(spacing)), ("breakBefore", Some(if breakBefore then "true" else "false"))]
  }

  /** The class lists of `layout.section(spacing, breakBefore)`: the empty base,
      the spacing's margin, then the page break when it was asked for. Neither
      default applies: `'false'` is a truthy string whose class list is empty. */
  lemma SectionClasses(spacing: string, breakBefore: bool)
    requires spacing in SectionSpacings
    ensures [SectionStyle.base] + Classes(Pieces(SectionStyle, Some(SectionArgs(spacing, breakBefore))))
         == ["", SectionSpacings[spacing]] + (if breakBefore then [SectionBreaks["true"]] else [])
  {
    var c, flag := SectionStyle, if breakBefore then "true" else "false";
    var v := Some(SectionArgs(spacing, breakBefore));
    SectionSlots();
    Supplied2(c, "spacing", Some(spacing), "breakBefore", Some(flag));
    SuppliedPieceOf(c, "spacing", SectionSpacings, Some(spacing));
    ClassesAppend(SuppliedPiece(c, "spacing", Some(spacing)), SuppliedPiece(c, "breakBefore", Some(flag)));
    Defaults2(c, v, ("spacing", "md"), ("breakBefore", "false"));
    Get2("spacing", Some(spacing), "breakBefore", Some(flag), "spacing");
    Get2("spacing", Some(spacing), "breakBefore", Some(flag), "breakBefore");
    assert Defaults(c, v, c.defaultVariants) == [];
  }

  /** `layout.section(spacing = 'md', breakBefore?)`; an omitted `breakBefore`
      behaves as `false`. The empty base leaves no trace: the result starts with
      the spacing's margin. */
  method Section(spacing: string := "md", breakBefore: bool := false) returns (r: string)
    requires spacing in SectionSpacings
    ensures r == Trim(Join(["", SectionSpacings[spacing]] + (if breakBefore then [SectionBreaks["true"]] else []), " "))
    ensures r == if breakBefore then SectionSpacings[spacing] + " " + SectionBreaks["true"] else SectionSpacings[spacing]
  {
    assert Styles(ComponentName.Section) == SectionStyle;
    r := CreateComponentStyle(ComponentName.Section, Some(SectionArgs(spacing, breakBefore)));
    SectionClasses(spacing, breakBefore);
    StyleOfParts(SectionStyle, Some(SectionArgs(spacing, breakBefore)),
                 ["", SectionSpacings[spacing]] + (if breakBefore then [SectionBreaks["true"]] else []));
    SectionTrimmed(spacing, breakBefore);
  }

  /** Trimming the section's class lists removes exactly the space after the
      empty base. */
  lemma SectionTrimmed(spacing: string, breakBefore: bool)
    requires spacing in SectionSpacings
    ensures Trim(Join(["", SectionSpacings[spacing]] + (if breakBefore then [SectionBreaks["true"]] else []), " "))
         == if breakBefore then SectionSpacings[spacing] + " " + SectionBreaks["true"] else SectionSpacings[spacing]
  {
    var m := SectionSpacings[spacing];
    var tail := [m] + (if breakBefore then [SectionBreaks["true"]] else []);
    var rest := if breakBefore then m + " " + SectionBreaks["true"] else m;
    assert ["", m] + (if breakBefore then [SectionBreaks["true"]] else []) == [""] + tail;
    JoinCons("", tail, " ");
    assert Join(tail, " ") == rest by {
      if breakBefore {
        assert tail[1..] == [SectionBreaks["true"]];
      }
    }
    assert "" + (" " + rest) == " " + rest;
    assert Trimmed(rest) by {
      SectionEnds(spacing);
    }
    TrimLeadingSpace(rest);
  }

  /** Every section class list starts and ends with a class character. */
  lemma SectionEnds(spacing: string)
    requires spacing in SectionSpacings
    ensures SectionSpacings[spacing] != [] && !IsSpace(SectionSpacings[spacing][0])
    ensures !IsSpace(SectionSpacings[spacing][|SectionSpacings[spacing]| - 1])
    ensures SectionBreaks["true"] != [] && !IsSpace(SectionBreaks["true"][|SectionBreaks["true"]| - 1])
  {
  }

  const GridColumns := Slot("cols", GridCols, "2")
  const GridGap := Slot("gap", GridGaps, "md")

  lemma GridSlots()
    ensures SlotOf(GridStyle, GridColumns) && SlotOf(GridStyle, GridGap)
    ensures GridStyle.defaultVariants == [(GridColumns.key, GridColumns.default), (GridGap.key, GridGap.default)]
  {
  }

  /** The class lists of `layout.grid(cols, gap)`: the base, the columns of the
      number of columns, then the gap. Both arguments are always passed, so
      neither default applies. */
  lemma GridClasses(cols: nat, gap: string)
    requires 1 <= cols <= 4 && gap in GridGaps
    ensures NumberKey(cols) in GridCols
    ensures [GridStyle.base] + Classes(Pieces(GridStyle, Some([("cols", Some(NumberKey(cols))), ("gap", Some(gap))])))
         == ["grid gap-6", GridCols[NumberKey(cols)], GridGaps[gap]]
  {
    GridSlots();
    Call2(GridStyle, GridColumns, Some(NumberKey(cols)), GridGap, Some(gap));
  }

  /** `layout.grid(cols = 2, gap = 'md')`; the number of columns becomes a
      property key. */
  method Grid(cols: nat := 2, gap: string := "md") returns (r: string)
    requires 1 <= cols <= 4 && gap in GridGaps
    ensures NumberKey(cols) in GridCols
    ensures r == Trim(Join(["grid gap-6", GridCols[NumberKey(cols)], GridGaps[gap]], " "))
  {
    var args := [("cols", Some(NumberKey(cols))), ("gap", Some(gap))];
    assert Styles(ComponentName.Grid) == GridStyle;
    r := CreateComponentStyle(ComponentName.Grid, Some(args));
    GridClasses(cols, gap);
    StyleOfParts(GridStyle, Some(args), ["grid gap-6", GridCols[NumberKey(cols)], GridGaps[gap]]);
  }

  const FlexDirection := Slot("direction", FlexDirections, "row")
  const FlexAlign := Slot("align", FlexAligns, "center")
  const FlexJustify := Slot("justify", FlexJustifies, "start")
  const FlexGap := Slot("gap", FlexGaps, "md")

  lemma FlexSlots()
    ensures SlotOf(FlexStyle, FlexDirection) && SlotOf(FlexStyle, FlexAlign)
    ensures SlotOf(FlexStyle, FlexJustify) && SlotOf(FlexStyle, FlexGap)
    ensures FlexStyle.defaultVariants
         == [(FlexDirection.key, FlexDirection.default), (FlexAlign.key, FlexAlign.default),
             (FlexJustify.key, FlexJustify.default), (FlexGap.key, FlexGap.default)]
  {
    FlexAxesSelectable();
  }

  /** Every value of every flex axis selects a class list. */
  lemma FlexAxesSelectable()
    ensures Selectable(FlexDirections) && Selectable(FlexAligns)
    ensures Selectable(FlexJustifies) && Selectable(FlexGaps)
  {
  }

  /** The class lists of `layout.flex(direction, align, justify)`: the base, the
      arguments passed, the defaults of those left `undefined`, and always the
      default gap last, since the helper never passes one. */
  lemma FlexClasses(direction: Option<string>, align: Option<string>, justify: Option<string>)
    requires Fits(FlexDirections, direction) && Fits(FlexAligns, align) && Fits(FlexJustifies, justify)
    ensures [FlexStyle.base]
            + Classes(Pieces(FlexStyle, Some([("direction", direction), ("align", align), ("justify", justify)])))
         == ["flex"]
            + ((IfGiven(FlexDirections, direction) + IfGiven(FlexAligns, align) + IfGiven(FlexJustifies, justify))
               + (IfOmitted(direction, "flex-row") + IfOmitted(align, "items-center")
                  + IfOmitted(justify, "justify-start") + ["gap-4"]))
  {
    FlexSlots();
    Call3Of4(FlexStyle, FlexDirection, direction, FlexAlign, align, FlexJustify, justify, FlexGap);
  }

  /** `layout.flex(direction?, align?, justify?)`. */
  method Flex(direction: Option<string> := None, align: Option<string> := None, justify: Option<string> := None)
    returns (r: string)
    requires Fits(FlexDirections, direction) && Fits(FlexAligns, align) && Fits(FlexJustifies, justify)
    ensures r == Trim(Join(["flex"]
                           + ((IfGiven(FlexDirections, direction) + IfGiven(FlexAligns, align)
                               + IfGiven(FlexJustifies, justify))
                              + (IfOmitted(direction, "flex-row") + IfOmitted(align, "items-center")
                                 + IfOmitted(justify, "justify-start") + ["gap-4"])), " "))
  {
    var args := [("direction", direction), ("align", align), ("justify", justify)];
    assert Styles(ComponentName.Flex) == FlexStyle;
    r := CreateComponentStyle(ComponentName.Flex, Some(args));
    FlexClasses(direction, align, justify);
    StyleOfParts(FlexStyle, Some(args),
                 ["flex"]
                 + ((IfGiven(FlexDirections, direction) + IfGiven(FlexAligns, align) + IfGiven(FlexJustifies, justify))
                    + (IfOmitted(direction, "flex-row") + IfOmitted(align, "items-center")
                       + IfOmitted(justify, "justify-start") + ["gap-4"])));
  }
}
