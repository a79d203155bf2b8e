/**
 * The design system's style table: for every component, a base class list,
 * the variant axes with the class list of each value, and the default value of
 * each axis, in the order the table declares them.
 */
module ComponentStyles {
  import opened Strings

  /** The components the table defines. */
  datatype ComponentName =
    | Container | Card | Section | Heading | Text | Grid
    | SkillItem | List | Badge | Divider | Flex

  /** One table entry. The axes are looked up by name only, so they are a map;
      the defaults are applied in declaration order, so they are a sequence.
      Numeric variant keys (heading levels, grid columns) appear as the
      strings JavaScript turns them into when they index an object. */
  datatype Component = Component(
    base: string,
    variants: map<string, map<string, string>>,
    defaultVariants: seq<(string, string)>)

  /** The table, one constant per component and one per axis. The few class
      lists longer than forty characters are written as two concatenated
      literals; the value is the same. */
  function Styles(name: ComponentName): Component {
    match name
    case Container => ContainerStyle
    case Card => CardStyle
    case Section => SectionStyle
    case Heading => HeadingStyle
    case Text => TextStyle
    case Grid => GridStyle
    case SkillItem => SkillItemStyle
    case List => ListStyle
    case Badge => BadgeStyle
    case Divider => DividerStyle
    case Flex => FlexStyle
  }

  const ContainerStyle := Component("mx-auto px-8", map["size" := ContainerSizes], [("size", "md")])
  const ContainerSizes := map["sm" := "max-w-2xl", "md" := "max-w-4xl", "lg" := "max-w-6xl",
                              "xl" := "max-w-7xl", "full" := "max-w-full"]

  const CardStyle := Component(
    "bg-white rounded-xl shadow-sm",
    map["padding" := CardPaddings, "shadow" := CardShadows],
    [("padding", "md"), ("shadow", "sm")])
  const CardPaddings := map["sm" := "p-4", "md" := "p-6", "lg" := "p-8"]
  const CardShadows := map["none" := "shadow-none", "sm" := "shadow-sm", "md" := "shadow-md",
                           "lg" := "shadow-lg"]

  const SectionStyle := Component(
    "",
    map["spacing" := SectionSpacings, "breakBefore" := SectionBreaks],
    [("spacing", "md"), ("breakBefore", "false")])
  const SectionSpacings := map["sm" := "mb-6", "md" := "mb-8", "lg" := "mb-12"]
  const SectionBreaks := map["true" := "page-break-before " + "print:break-before-page", "false" := ""]

  const HeadingStyle := Component(
    "font-bold text-gray-800",
    map["level" := HeadingLevels, "align" := HeadingAligns, "color" := HeadingColors],
    [("level", "2"), ("align", "left"), ("color", "primary")])
  const HeadingLevels := map["1" := "text-4xl", "2" := "text-2xl", "3" := "text-xl",
                             "4" := "text-lg", "5" := "text-base", "6" := "text-sm"]
  const HeadingAligns := map["left" := "text-left", "center" := "text-center", "right" := "text-right"]
  const HeadingColors := map["primary" := "text-gray-800", "secondary" := "text-gray-600",
                             "accent" := "text-gray-700"]

  const TextStyle := Component(
    "text-gray-800",
    map["size" := TextSizes, "weight" := TextWeights, "color" := TextColors, "leading" := TextLeadings],
    [("size", "base"), ("weight", "normal"), ("color", "primary"), ("leading", "normal")])
  const TextSizes := map["xs" := "text-xs", "sm" := "text-sm", "base" := "text-base",
                         "lg" := "text-lg", "xl" := "text-xl"]
  const TextWeights := map["normal" := "font-normal", "medium" := "font-medium",
                           "semibold" := "font-semibold", "bold" := "font-bold"]
  const TextColors := map["primary" := "text-gray-800", "secondary" := "text-gray-600",
                          "tertiary" := "text-gray-500", "accent" := "text-gray-700"]
  const TextLeadings := map["tight" := "leading-tight", "normal" := "leading-normal",
                            "relaxed" := "leading-relaxed"]

  const GridStyle := Component(
    "grid gap-6",
    map["cols" := GridCols, "gap" := GridGaps],
    [("cols", "2"), ("gap", "md")])
  const GridCols := map["1" := "grid-cols-1", "2" := "grid-cols-1 md:grid-cols-2",
                        "3" := "grid-cols-1 md:grid-cols-2 " + "lg:grid-cols-3",
                        "4" := "grid-cols-1 md:grid-cols-2 " + "lg:grid-cols-4"]
  const GridGaps := map["sm" := "gap-4", "md" := "gap-6", "lg" := "gap-8"]

  const SkillItemStyle := Component(
    "p-4 bg-gray-50/50 rounded-lg hover:bg-gray-50 "
    + "transition-colors space-y-4",
    map["interactive" := SkillItemInteractive],
    [("interactive", "false")])
  const SkillItemInteractive := map["true" := "cursor-pointer hover:shadow-sm", "false" := ""]

  const ListStyle := Component(
    "space-y-1",
    map["variant" := ListVariants, "spacing" := ListSpacings],
    [("variant", "disc"), ("spacing", "normal")])
  const ListVariants := map["disc" := "list-disc ml-4", "none" := "list-none",
                            "decimal" := "list-decimal ml-4"]
  const ListSpacings := map["tight" := "space-y-0.5", "normal" := "space-y-1", "relaxed" := "space-y-2"]

  const BadgeStyle := Component(
    "inline-flex items-center px-2.5 py-0.5 "
    + "rounded-full text-xs font-medium",
    map["variant" := BadgeVariants],
    [("variant", "default")])
  const BadgeVariants := map["default" := "bg-gray-100 text-gray-800",
                             "primary" := "bg-blue-100 text-blue-800",
                             "success" := "bg-green-100 text-green-800",
                             "warning" := "bg-yellow-100 text-yellow-800",
                             "error" := "bg-red-100 text-red-800"]

  const DividerStyle := Component(
    "border-b-2 pb-2",
    map["color" := DividerColors, "spacing" := DividerSpacings],
    [("color", "light"), ("spacing", "md")])
  const DividerColors := map["light" := "border-gray-200", "medium" := "border-gray-300",
                             "dark" := "border-gray-400"]
  const DividerSpacings := map["sm" := "mb-4", "md" := "mb-6", "lg" := "mb-8"]

  const FlexStyle := Component(
    "flex",
    map["direction" := FlexDirections, "align" := FlexAligns, "justify" := FlexJustifies,
        "gap" := FlexGaps],
    [("direction", "row"), ("align", "center"), ("justify", "start"), ("gap", "md")])
  const FlexDirections := map["row" := "flex-row", "col" := "flex-col",
                              "responsive" := "flex-col md:flex-row"]
  const FlexAligns := map["start" := "items-start", "center" := "items-center",
                          "end" := "items-end", "baseline" := "items-baseline"]
  const FlexJustifies := map["start" := "justify-start", "center" := "justify-center",
                             "end" := "justify-end", "between" := "justify-between",
                             "around" := "justify-around"]
  const FlexGaps := map["sm" := "gap-2", "md" := "gap-4", "lg" := "gap-6"]

  /** The property key JavaScript makes of a one-digit number: its decimal digit. */
  function NumberKey(n: nat): (k: string)
    requires n <= 9
    ensures |k| == 1 && '0' <= k[0] <= '9'
    ensures k[0] as int - '0' as int == n
  {
    [('0' as int + n) as char]
  }

  /** Component `c` has an axis `key` whose values and class lists are `axis`. */
  predicate HasAxis(c: Component, key: string, axis: map<string, string>) {
    key in c.variants && c.variants[key] == axis
  }

  /** Every value of the axis is a non-empty key with a non-empty class list, so
      selecting it always appends something. */
  predicate Selectable(axis: map<string, string>) {
    forall v | v in axis :: v != "" && axis[v] != ""
  }

  /** No key appears twice, as in a JavaScript object. */
  predicate DistinctKeys<V>(entries: seq<(string, V)>) {
    forall i, j | 0 <= i < j < |entries| :: entries[i].0 != entries[j].0
  }

  /** The defaults name axes of the component, each once, each with one of that
      axis's values. */
  predicate DefaultsWellFormed(c: Component) {
    && DistinctKeys(c.defaultVariants)
    && (forall i | 0 <= i < |c.defaultVariants| ::
          c.defaultVariants[i].0 in c.variants &&
          c.defaultVariants[i].1 in c.variants[c.defaultVariants[i].0])
  }

  /** Every default names an existing axis and one of that axis's values, and no
      axis has two defaults. */
  lemma TableWellFormed(name: ComponentName)
    ensures DefaultsWellFormed(Styles(name))
  {
    match name
    case Container => ContainerWellFormed();
    case Card => CardWellFormed();
    case Section => SectionWellFormed();
    case Heading => HeadingWellFormed();
    case Text => TextWellFormed();
    case Grid => GridWellFormed();
    case SkillItem => SkillItemWellFormed();
    case List => ListWellFormed();
    case Badge => BadgeWellFormed();
    case Divider => DividerWellFormed();
    case Flex => FlexWellFormed();
  }

  lemma ContainerWellFormed()
    ensures DefaultsWellFormed(ContainerStyle)
  {
  }

  lemma CardWellFormed()
    ensures DefaultsWellFormed(CardStyle)
  {
  }

  lemma SectionWellFormed()
    ensures DefaultsWellFormed(SectionStyle)
  {
  }

  lemma HeadingWellFormed()
    ensures DefaultsWellFormed(HeadingStyle)
  {
  }

  lemma TextWellFormed()
    ensures DefaultsWellFormed(TextStyle)
  {
    var d, v := TextStyle.defaultVariants, TextStyle.variants;
    assert |d| == 4 && d[0].0 == "size" && d[1].0 == "weight" && d[2].0 == "color" && d[3].0 == "leading";
    forall i | 0 <= i < |d| ensures d[i].0 in v && d[i].1 in v[d[i].0] {
      if i == 0 { assert d[i] == ("size", "base") && v["size"] == TextSizes; }
      else if i == 1 { assert d[i] == ("weight", "normal") && v["weight"] == TextWeights; }
      else if i == 2 { assert d[i] == ("color", "primary") && v["color"] == TextColors; }
      else { assert d[i] == ("leading", "normal") && v["leading"] == TextLeadings; }
    }
  }

  lemma GridWellFormed()
    ensures DefaultsWellFormed(GridStyle)
  {
  }

  lemma SkillItemWellFormed()
    ensures DefaultsWellFormed(SkillItemStyle)
  {
  }

  lemma ListWellFormed()
    ensures DefaultsWellFormed(ListStyle)
  {
  }

  lemma BadgeWellFormed()
    ensures DefaultsWellFormed(BadgeStyle)
  {
  }

  lemma DividerWellFormed()
    ensures DefaultsWellFormed(DividerStyle)
  {
  }

  lemma FlexWellFormed()
    ensures DefaultsWellFormed(FlexStyle)
  {
    var d, v := FlexStyle.defaultVariants, FlexStyle.variants;
    assert |d| == 4 && d[0].0 == "direction" && d[1].0 == "align" && d[2].0 == "justify" && d[3].0 == "gap";
    forall i | 0 <= i < |d| ensures d[i].0 in v && d[i].1 in v[d[i].0] {
      if i == 0 { assert d[i] == ("direction", "row") && v["direction"] == FlexDirections; }
      else if i == 1 { assert d[i] == ("align", "center") && v["align"] == FlexAligns; }
      else if i == 2 { assert d[i] == ("justify", "start") && v["justify"] == FlexJustifies; }
      else { assert d[i] == ("gap", "md") && v["gap"] == FlexGaps; }
    }
  }
}
