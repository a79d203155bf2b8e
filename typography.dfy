/**
 * `typography`: the heading and text helpers, each a fixed call of
 * `createComponentStyle`.
 */
module Typography {
  import opened Options
  import opened Strings
  import opened ComponentStyles
  import opened Utils
  import opened VariantCalls

  const HeadingLevel := Slot("level", HeadingLevels, "2")
  const HeadingAlign := Slot("align", HeadingAligns, "left")
  const HeadingColor := Slot("color", HeadingColors, "primary")

  lemma HeadingSlots()
    ensures SlotOf(HeadingStyle, HeadingLevel) && SlotOf(HeadingStyle, HeadingAlign)
    ensures SlotOf(HeadingStyle, HeadingColor)
    ensures HeadingStyle.defaultVariants
         == [(HeadingLevel.key, HeadingLevel.default), (HeadingAlign.key, HeadingAlign.default),
             (HeadingColor.key, HeadingColor.default)]
  {
  }

  /** The class lists of `typography.heading(level, align, color)`: the base, the
      size of the level, the alignment and colour passed, then the defaults of
      those left `undefined` — so a colour passed without an alignment comes
      before the default alignment. The level is always passed, so its default
      never applies. */
  lemma HeadingClasses(level: nat, align: Option<string>, color: Option<string>)
    requires 1 <= level <= 6 && Fits(HeadingAligns, align) && Fits(HeadingColors, color)
    ensures NumberKey(level) in HeadingLevels
    ensures [HeadingStyle.base]
            + Classes(Pieces(HeadingStyle, Some([("level", Some(NumberKey(level))), ("align", align), ("color", color)])))
         == ["font-bold text-gray-800"]
            + (([HeadingLevels[NumberKey(level)]] + IfGiven(HeadingAligns, align) + IfGiven(HeadingColors, color))
               + (IfOmitted(align, "text-left") + IfOmitted(color, "text-gray-800")))
  {
    var key := NumberKey(level);
    HeadingSlots();
    Call3(HeadingStyle, HeadingLevel, Some(key), HeadingAlign, align, HeadingColor, color);
    assert IfOmitted(Some(key), DefaultClass(HeadingLevel)) == [];
    assert [] + IfOmitted(align, "text-left") + IfOmitted(color, "text-gray-800")
        == IfOmitted(align, "text-left") + IfOmitted(color, "text-gray-800");
  }

  /** `typography.heading(level = 2, align?, color?)`; the level becomes a
      property key. */
  method Heading(level: nat := 2, align: Option<string> := None, color: Option<string> := None) returns (r: string)
    requires 1 <= level <= 6 && Fits(HeadingAligns, align) && Fits(HeadingColors, color)
    ensures NumberKey(level) in HeadingLevels
    ensures r == Trim(Join(["font-bold text-gray-800"]
                           + (([HeadingLevels[NumberKey(level)]] + IfGiven(HeadingAligns, align)
                               + IfGiven(HeadingColors, color))
                              + (IfOmitted(align, "text-left") + IfOmitted(color, "text-gray-800"))), " "))
  {
    var args := [("level", Some(NumberKey(level))), ("align", align), ("color", color)];
    assert Styles(ComponentName.Heading) == HeadingStyle;
    r := CreateComponentStyle(ComponentName.Heading, Some(args));
    HeadingClasses(level, align, color);
    StyleOfParts(HeadingStyle, Some(args),
                 ["font-bold text-gray-800"]
                 + (([HeadingLevels[NumberKey(level)]] + IfGiven(HeadingAligns, align) + IfGiven(HeadingColors, color))
                    + (IfOmitted(align, "text-left") + IfOmitted(color, "text-gray-800"))));
  }

  const TextSize := Slot("size", TextSizes, "base")
  const TextWeight := Slot("weight", TextWeights, "normal")
  const TextColor := Slot("color", TextColors, "primary")
  const TextLeading := Slot("leading", TextLeadings, "normal")

  lemma TextSlots()
    ensures SlotOf(TextStyle, TextSize) && SlotOf(TextStyle, TextWeight)
    ensures SlotOf(TextStyle, TextColor) && SlotOf(TextStyle, TextLeading)
    ensures TextStyle.defaultVariants
         == [(TextSize.key, TextSize.default), (TextWeight.key, TextWeight.default),
             (TextColor.key, TextColor.default), (TextLeading.key, TextLeading.default)]
  {
    TextAxesSelectable();
  }

  /** Every value of every text axis selects a class list. */
  lemma TextAxesSelectable()
    ensures Selectable(TextSizes) && Selectable(TextWeights)
    ensures Selectable(TextColors) && Selectable(TextLeadings)
  {
  }

  /** The class lists of `typography.text(size, weight, color)`: the base, the
      arguments passed, the defaults of those left `undefined`, and always the
      default line height last, since the helper never passes one. */
  lemma TextClasses(size: Option<string>, weight: Option<string>, color: Option<string>)
    requires Fits(TextSizes, size) && Fits(TextWeights, weight) && Fits(TextColors, color)
    ensures [TextStyle.base] + Classes(Pieces(TextStyle, Some([("size", size), ("weight", weight), ("color", color)])))
         == ["text-gray-800"]
            + ((IfGiven(TextSizes, size) + IfGiven(TextWeights, weight) + IfGiven(TextColors, color))
               + (IfOmitted(size, "text-base") + IfOmitted(weight, "font-normal")
                  + IfOmitted(color, "text-gray-800") + ["leading-normal"]))
  {
    TextSlots();
    Call3Of4(TextStyle, TextSize, size, TextWeight, weight, TextColor, color, TextLeading);
  }

  /** `typography.text(size?, weight?, color?)`. */
  method Text(size: Option<string> := None, weight: Option<string> := None, color: Option<string> := None)
    returns (r: string)
    requires Fits(TextSizes, size) && Fits(TextWeights, weight) && Fits(TextColors, color)
    ensures r == Trim(Join(["text-gray-800"]
                           + ((IfGiven(TextSizes, size) + IfGiven(TextWeights, weight) + IfGiven(TextColors, color))
                              + (IfOmitted(size, "text-base") + IfOmitted(weight, "font-normal")
                                 + IfOmitted(color, "text-gray-800") + ["leading-normal"])), " "))
  {
    var args := [("size", size), ("weight", weight), ("color", color)];
    assert Styles(ComponentName.Text) == TextStyle;
    r := CreateComponentStyle(ComponentName.Text, Some(args));
    TextClasses(size, weight, color);
    StyleOfParts(TextStyle, Some(args),
                 ["text-gray-800"]
                 + ((IfGiven(TextSizes, size) + IfGiven(TextWeights, weight) + IfGiven(TextColors, color))
                    + (IfOmitted(size, "text-base") + IfOmitted(weight, "font-normal")
                       + IfOmitted(color, "text-gray-800") + ["leading-normal"])));
  }
}
