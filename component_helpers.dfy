/**
 * `components`: the card, skill item, list, badge and divider helpers, each a
 * fixed call of `createComponentStyle`.
 */
module ComponentHelpers {
  import opened Options
  import opened Strings
  import opened ComponentStyles
  import opened Utils
  import opened VariantCalls

  const CardPadding := Slot("padding", CardPaddings, "md")
  const CardShadow := Slot("shadow", CardShadows, "sm")

  lemma CardSlots()
    ensures SlotOf(CardStyle, CardPadding) && SlotOf(CardStyle, CardShadow)
    ensures CardStyle.defaultVariants == [(CardPadding.key, CardPadding.default), (CardShadow.key, CardShadow.default)]
  {
  }

  /** The class lists of `components.card(padding, shadow)`: the base, the
      arguments passed, then the defaults of those left `undefined`. */
  lemma CardClasses(padding: Option<string>, shadow: Option<string>)
    requires Fits(CardPaddings, padding) && Fits(CardShadows, shadow)
    ensures [CardStyle.base] + Classes(Pieces(CardStyle, Some([("padding", padding), ("shadow", shadow)])))
         == ["bg-white rounded-xl shadow-sm"]
            + ((IfGiven(CardPaddings, padding) + IfGiven(CardShadows, shadow))
               + (IfOmitted(padding, "p-6") + IfOmitted(shadow, "shadow-sm")))
  {
    CardSlots();
    Call2(CardStyle, CardPadding, padding, CardShadow, shadow);
  }

  /** `components.card(padding?, shadow?)`. */
  method Card(padding: Option<string> := None, shadow: Option<string> := None) returns (r: string)
    requires Fits(CardPaddings, padding) && Fits(CardShadows, shadow)
    ensures r == Trim(Join(["bg-white rounded-xl shadow-sm"]
                           + ((IfGiven(CardPaddings, padding) + IfGiven(CardShadows, shadow))
                              + (IfOmitted(padding, "p-6") + IfOmitted(shadow, "shadow-sm"))), " "))
  {
    var args := [("padding", padding), ("shadow", shadow)];
    assert Styles(ComponentName.Card) == CardStyle;
    r := CreateComponentStyle(ComponentName.Card, Some(args));
    CardClasses(padding, shadow);
    StyleOfParts(CardStyle, Some(args),
                 ["bg-white rounded-xl shadow-sm"]
                 + ((IfGiven(CardPaddings, padding) + IfGiven(CardShadows, shadow))
                    + (IfOmitted(padding, "p-6") + IfOmitted(shadow, "shadow-sm"))));
  }

  lemma SkillItemSlots()
    ensures HasAxis(SkillItemStyle, "interactive", SkillItemInteractive)
    ensures SkillItemStyle.defaultVariants == [("interactive", "false")]
  {
  }

  /** The argument object of `components.skillItem`: the boolean becomes the
      string `'true'` or `'false'`. */
  function SkillItemArgs(interactive: bool): VariantArgs {
    [("interactive", Some(if interactive then "true" else "false"))]
  }

  /** The class lists of `components.skillItem(interactive)`: the base, then the
      pointer and hover shadow only when interactive. The default never applies:
      `'false'` is a truthy string whose class list is empty. */
  lemma SkillItemClasses(interactive: bool)
    ensures [SkillItemStyle.base] + Classes(Pieces(SkillItemStyle, Some(SkillItemArgs(interactive))))
         == [SkillItemStyle.base] + (if interactive then ["cursor-pointer hover:shadow-sm"] else [])
  {
    var c, flag := SkillItemStyle, if interactive then "true" else "false";
    var v := Some(SkillItemArgs(interactive));
    SkillItemSlots();
    Supplied1(c, "interactive", Some(flag));
    Defaults1(c, v, ("interactive", "false"));
    assert Get(SkillItemArgs(interactive), "interactive") == Some(flag) by {
      assert SkillItemArgs(interactive)[..0] == [];
    }
    assert Defaults(c, v, c.defaultVariants) == [];
  }

  /** `components.skillItem(interactive = false)`. */
  method SkillItem(interactive: bool := false) returns (r: string)
    ensures r == Trim(Join([SkillItemStyle.base] + (if interactive then ["cursor-pointer hover:shadow-sm"] else []), " "))
  {
    assert Styles(ComponentName.SkillItem) == SkillItemStyle;
    r := CreateComponentStyle(ComponentName.SkillItem, Some(SkillItemArgs(interactive)));
    SkillItemClasses(interactive);
    StyleOfParts(SkillItemStyle, Some(SkillItemArgs(interactive)),
                 [SkillItemStyle.base] + (if interactive then ["cursor-pointer hover:shadow-sm"] else []));
  }

  const ListVariant := Slot("variant", ListVariants, "disc")
  const ListSpacing := Slot("spacing", ListSpacings, "normal")

  lemma ListSlots()
    ensures SlotOf(ListStyle, ListVariant) && SlotOf(ListStyle, ListSpacing)
    ensures ListStyle.defaultVariants == [(ListVariant.key, ListVariant.default), (ListSpacing.key, ListSpacing.default)]
  {
  }

  /** The class lists of `components.list(variant, spacing)`. */
  lemma ListClasses(variant: Option<string>, spacing: Option<string>)
    requires Fits(ListVariants, variant) && Fits(ListSpacings, spacing)
    ensures [ListStyle.base] + Classes(Pieces(ListStyle, Some([("variant", variant), ("spacing", spacing)])))
         == ["space-y-1"]
            + ((IfGiven(ListVariants, variant) + IfGiven(ListSpacings, spacing))
               + (IfOmitted(variant, "list-disc ml-4") + IfOmitted(spacing, "space-y-1")))
  {
    ListSlots();
    Call2(ListStyle, ListVariant, variant, ListSpacing, spacing);
  }

  /** `components.list(variant?, spacing?)`. */
  method List(variant: Option<string> := None, spacing: Option<string> := None) returns (r: string)
    requires Fits(ListVariants, variant) && Fits(ListSpacings, spacing)
    ensures r == Trim(Join(["space-y-1"]
                           + ((IfGiven(ListVariants, variant) + IfGiven(ListSpacings, spacing))
                              + (IfOmitted(variant, "list-disc ml-4") + IfOmitted(spacing, "space-y-1"))), " "))
  {
    var args := [("variant", variant), ("spacing", spacing)];
    assert Styles(ComponentName.List) == ListStyle;
    r := CreateComponentStyle(ComponentName.List, Some(args));
    ListClasses(variant, spacing);
    StyleOfParts(ListStyle, Some(args),
                 ["space-y-1"]
                 + ((IfGiven(ListVariants, variant) + IfGiven(ListSpacings, spacing))
                    + (IfOmitted(variant, "list-disc ml-4") + IfOmitted(spacing, "space-y-1"))));
  }

  const BadgeVariant := Slot("variant", BadgeVariants, "default")

  lemma BadgeSlots()
    ensures SlotOf(BadgeStyle, BadgeVariant)
    ensures BadgeStyle.defaultVariants == [(BadgeVariant.key, BadgeVariant.default)]
  {
  }

  /** The class lists of `components.badge(variant)`: the base, then the
      variant's colours, or the default's when it is left `undefined`. */
  lemma BadgeClasses(variant: Option<string>)
    requires Fits(BadgeVariants, variant)
    ensures [BadgeStyle.base] + Classes(Pieces(BadgeStyle, Some([("variant", variant)])))
         == [BadgeStyle.base] + (IfGiven(BadgeVariants, variant) + IfOmitted(variant, "bg-gray-100 text-gray-800"))
  {
    BadgeSlots();
    Call1(BadgeStyle, BadgeVariant, variant);
  }

  /** `components.badge(variant?)`. */
  method Badge(variant: Option<string> := None) returns (r: string)
    requires Fits(BadgeVariants, variant)
    ensures r == Trim(Join([BadgeStyle.base]
                           + (IfGiven(BadgeVariants, variant) + IfOmitted(variant, "bg-gray-100 text-gray-800")), " "))
  {
    var args := [("variant", variant)];
    assert Styles(ComponentName.Badge) == BadgeStyle;
    r := CreateComponentStyle(ComponentName.Badge, Some(args));
    BadgeClasses(variant);
    StyleOfParts(BadgeStyle, Some(args),
                 [BadgeStyle.base] + (IfGiven(BadgeVariants, variant) + IfOmitted(variant, "bg-gray-100 text-gray-800")));
  }

  const DividerColor := Slot("color", DividerColors, "light")
  const DividerSpacing := Slot("spacing", DividerSpacings, "md")

  lemma DividerSlots()
    ensures SlotOf(DividerStyle, DividerColor) && SlotOf(DividerStyle, DividerSpacing)
    ensures DividerStyle.defaultVariants
         == [(DividerColor.key, DividerColor.default), (DividerSpacing.key, DividerSpacing.default)]
  {
  }

  /** The class lists of `components.divider(color, spacing)`. */
  lemma DividerClasses(color: Option<string>, spacing: Option<string>)
    requires Fits(DividerColors, color) && Fits(DividerSpacings, spacing)
    ensures [DividerStyle.base] + Classes(Pieces(DividerStyle, Some([("color", color), ("spacing", spacing)])))
         == ["border-b-2 pb-2"]
            + ((IfGiven(DividerColors, color) + IfGiven(DividerSpacings, spacing))
               + (IfOmitted(color, "border-gray-200") + IfOmitted(spacing, "mb-6")))
  {
    DividerSlots();
    Call2(DividerStyle, DividerColor, color, DividerSpacing, spacing);
  }

  /** `components.divider(color?, spacing?)`. */
  method Divider(color: Option<string> := None, spacing: Option<string> := None) returns (r: string)
    requires Fits(DividerColors, color) && Fits(DividerSpacings, spacing)
    ensures r == Trim(Join(["border-b-2 pb-2"]
                           + ((IfGiven(DividerColors, color) + IfGiven(DividerSpacings, spacing))
                              + (IfOmitted(color, "border-gray-200") + IfOmitted(spacing, "mb-6"))), " "))
  {
    var args := [("color", color), ("spacing", spacing)];
    assert Styles(ComponentName.Divider) == DividerStyle;
    r := CreateComponentStyle(ComponentName.Divider, Some(args));
    DividerClasses(color, spacing);
    StyleOfParts(DividerStyle, Some(args),
                 ["border-b-2 pb-2"]
                 + ((IfGiven(DividerColors, color) + IfGiven(DividerSpacings, spacing))
                    + (IfOmitted(color, "border-gray-200") + IfOmitted(spacing, "mb-6"))));
  }
}
