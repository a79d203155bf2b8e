# Design-system class builders of myresume, in Dafny

The résumé site styles its pages with Tailwind class strings built by a small
design system. This project models that system's core and proves what it
computes:

- the style table `componentStyles` (`src/design-system/components.ts`): for
  each of eleven components a base class list, named variant axes mapping each
  value to a class list, and the default value of each axis;
- `createComponentStyle`, the resolver that appends the class list of every
  truthy argument and then the default of every axis the arguments leave falsy,
  and trims the result;
- the helpers next to it in `src/design-system/utils.ts`: `cn`, `responsive`,
  `printOnly`, `spacing`, and the objects `layout`, `typography`, `components`,
  `interactions` and `a11y`.

Modules:

- `Options` holds `Option`, where `None` is JavaScript's `undefined`.
- `Strings` models `trim`, `replace(/\s+/g, ' ')` and `join`, plus `Words`. `Words` is the list of tokens separated by the whitespace modelled here, which is how a `class` attribute is split into classes.
- `ComponentStyles` is the table.
- `Utils` holds `createComponentStyle`, `cn`, `responsive`, `printOnly` and `spacing`.
- `VariantCalls` covers `createComponentStyle` called with a fixed argument object.
- `Layout`, `Typography` and `ComponentHelpers` are the `layout`, `typography` and `components` objects.
- `Interactions` and `A11y` are the `interactions` and `a11y` objects.

How the code is modelled:

- `createComponentStyle` and `responsive` build their string step by step in
  loops. Here they are methods with `while` loops, proved against the
  specification functions `StyleOf` and `ResponsiveOf`.
- `cn`, `printOnly`, `spacing` and the interaction helpers are functions.
- The layout, typography and component helpers are methods only because they
  call the method `CreateComponentStyle`. Each one's ensures gives its result
  as an expression of its arguments.
- Variant arguments are a sequence of `(key, value)` entries in `Object.entries` order. A missing value is `None`, and `""` is falsy, as in JavaScript.
- The numeric keys `level` and `cols` become the one-digit strings JavaScript turns them into (`NumberKey`).
- The TypeScript parameter types (`ComponentVariants<T>`, the literal unions) become `requires` clauses on the callers: `Fits`, `in SpacingScale`, `IsTransitionProperty`.

Two behaviours of `createComponentStyle` worth knowing:

- A truthy value that is not one of an axis's values appends nothing, and it
  also keeps that axis's default out (`Utils.UnknownValueDropsAxis`,
  `src/design-system/utils.ts` lines 21-24 and 33).
- An argument for an axis name the component does not have is ignored,
  wherever it sits among the arguments (`Utils.UnknownAxisIgnored`).

## Model

| member | source | states |
|---|---|---|
| ComponentStyles.TableWellFormed | src/design-system/components.ts:9-265 | every component's defaults name distinct axes of that component, each with one of the axis's values |
| ComponentStyles.NumberKey | src/design-system/utils.ts:104-105 | a number from 0 to 9 used as an object key is the one-character string of its decimal digit |
| Utils.CreateComponentStyle | src/design-system/utils.ts:12-43 | the result is `StyleOf` of the component's table entry and the arguments, and has no surrounding whitespace |
| Utils.ApplyVariants | src/design-system/utils.ts:16-42 | base, then the first loop, then the defaults loop, then trim, gives `StyleOf(component, variants)` |
| Utils.AppendSupplied | src/design-system/utils.ts:19-28 | after the first loop the string is the base followed by one space and the class list of every truthy entry on an existing axis with a known value and a non-empty class list, in entry order |
| Utils.AppendDefaults | src/design-system/utils.ts:30-40 | the defaults loop appends, in default order, one space and the class list of every default whose axis the arguments leave falsy |
| Utils.AppendPieces | src/design-system/utils.ts:23-25 | appending a class list adds exactly one space and that class list |
| Utils.SuppliedByAxis | src/design-system/utils.ts:19-28 | seen from one axis, the first loop appends only the class list of that axis's argument, or nothing |
| Utils.DefaultsByAxis | src/design-system/utils.ts:30-40 | seen from one axis, the defaults loop appends only that axis's default class list, and only when the argument is falsy |
| Utils.PiecesByAxis | src/design-system/utils.ts:19-40 | each axis contributes at most one class list, that of the chosen value: the truthy argument if there is one, otherwise the default |
| Utils.UnknownValueDropsAxis | src/design-system/utils.ts:21-33 | a truthy value that is not one of the axis's values selects nothing and also keeps the default out |
| Utils.UnknownAxisIgnored | src/design-system/utils.ts:19-40 | an argument for an axis the component lacks leaves the result unchanged, wherever the entry sits among the arguments |
| Utils.SuppliedAppend | src/design-system/utils.ts:20-27 | the first loop over two runs of entries appends the pieces of the first run, then those of the second |
| Utils.GetSkip | src/design-system/utils.ts:33 | an entry with another key, anywhere in the object, does not change `variants[variantKey]` |
| Utils.DefaultsCongruent | src/design-system/utils.ts:31-32 | the defaults loop depends on the arguments only through which axes they leave falsy |
| Utils.StyleOfEmptyArgs | src/design-system/utils.ts:19-33 | an empty argument object gives the same string as none |
| Utils.StyleWords | src/design-system/utils.ts:17-42 | the result reads as the base's tokens followed by the tokens of each appended class list, in order |
| Utils.Kept | src/design-system/utils.ts:50 | `filter(Boolean)` keeps at most as many arguments as given, none of them empty |
| Utils.Cn | src/design-system/utils.ts:48-54 | the result is trimmed and single-spaced, and its tokens are the tokens of the truthy arguments in order |
| Utils.CnIsJoinOfTokens | src/design-system/utils.ts:48-54 | the result is exactly those tokens joined by single spaces |
| Utils.CnOfOne | src/design-system/utils.ts:48-54 | a single string argument keeps its tokens |
| Utils.CnEmpty | src/design-system/utils.ts:48-54 | `cn` returns the empty string exactly when every truthy argument is blank |
| Utils.CnIdempotent | src/design-system/utils.ts:48-54 | applying `cn` to its own result changes nothing |
| Utils.CnAppend | src/design-system/utils.ts:48-54 | `cn(cn(xs), cn(ys))` equals `cn` of all the arguments together |
| Utils.CnDropsFalsy | src/design-system/utils.ts:50 | a falsy argument anywhere leaves the result unchanged |
| Utils.CnTrue | src/design-system/utils.ts:50-51 | the boolean `true` is kept and written as the class `true` |
| Utils.Unqualify | src/design-system/utils.ts:64 | splitting at the first colon gives a colon-free prefix that re-qualifies to the input, and fails exactly when there is no colon |
| Utils.QualifyRoundTrip | src/design-system/utils.ts:64 | a colon-free prefix and the classes come back intact from a qualified string |
| Utils.QualifyTokens | src/design-system/utils.ts:146-148 | the prefix attaches to the first class token only, and the other tokens are unchanged |
| Utils.PrintOnly | src/design-system/utils.ts:74-76 | the result splits back into `print` and the class name |
| Utils.Responsive | src/design-system/utils.ts:59-69 | the loop's result is the base followed by one space and each override, or the base alone without an override object |
| Utils.ResponsiveTokens | src/design-system/utils.ts:59-69 | the result reads as the base's tokens followed by the overrides' tokens |
| Utils.ResponsiveUntrimmed | src/design-system/utils.ts:60-68 | with an empty base the result starts with a space: `responsive` does not trim |
| Utils.Spacing | src/design-system/utils.ts:81-92 | the class parses back to its size and to margin for `margin`, padding for any other type |
| Utils.ParseSpacing | src/design-system/utils.ts:82-91 | whatever parses is a size of the scale and one of the two properties |
| Utils.SpacingInjective | src/design-system/utils.ts:81-92 | different sizes or properties give different classes |
| VariantCalls.IfGiven | src/design-system/utils.ts:21-25 | a passed argument contributes exactly one class list, an `undefined` one none |
| VariantCalls.IfOmitted | src/design-system/utils.ts:32-36 | a default contributes exactly when its argument is `undefined` |
| VariantCalls.SuppliedPieceOf | src/design-system/utils.ts:21-25 | on an axis whose values all have non-empty class lists, a passed value appends its class list |
| VariantCalls.DefaultPieceOf | src/design-system/utils.ts:32-36 | on such an axis the default appends its class list exactly when the argument is `undefined` |
| VariantCalls.Call1 | src/design-system/utils.ts:19-40 | a one-axis call appends the argument's class list, or else the default's |
| VariantCalls.Call2 | src/design-system/utils.ts:19-40 | a two-axis call appends the passed arguments' class lists in order, then the defaults of the omitted axes in order |
| VariantCalls.Call3 | src/design-system/utils.ts:19-40 | the same for three axes |
| VariantCalls.Call3Of4 | src/design-system/utils.ts:19-40 | the same for three passed axes of a four-axis component, whose fourth default always comes last |
| Layout.ContainerSlots | src/design-system/components.ts:11-25 | the container's size axis and its default `md` |
| Layout.ContainerClasses | src/design-system/utils.ts:98-99 | `layout.container(size)` appends exactly the size's width |
| Layout.Container | src/design-system/utils.ts:98-99 | the result is `mx-auto px-8` and the size's width |
| Layout.SectionSlots | src/design-system/components.ts:50-67 | the section's axes, empty base and defaults |
| Layout.SectionClasses | src/design-system/utils.ts:101-102 | the spacing's margin, then the page-break classes only when `breakBefore` is true |
| Layout.Section | src/design-system/utils.ts:101-102 | the result is the trimmed single-space join of those class lists, which is the spacing's margin, followed by one space and the page-break classes when `breakBefore` is true |
| Layout.SectionTrimmed | src/design-system/utils.ts:42 | trimming the section's joined class lists removes exactly the space left by the empty base (components.ts line 51) |
| Layout.GridSlots | src/design-system/components.ts:136-155 | the grid's axes and defaults |
| Layout.GridClasses | src/design-system/utils.ts:104-105 | the base, the column count's classes under its digit key, then the gap |
| Layout.Grid | src/design-system/utils.ts:104-105 | the result is those class lists joined |
| Layout.FlexSlots | src/design-system/components.ts:231-264 | the flex axes and their four defaults |
| Layout.FlexClasses | src/design-system/utils.ts:107-108 | the passed direction, align and justify classes, then the defaults of the omitted ones, then `gap-4` because `gap` is never passed |
| Layout.Flex | src/design-system/utils.ts:107-108 | the result is those class lists joined |
| Typography.HeadingSlots | src/design-system/components.ts:70-97 | the heading's axes and defaults |
| Typography.HeadingClasses | src/design-system/utils.ts:115-116 | the level's size, the passed align and color classes, then the defaults of the omitted ones |
| Typography.Heading | src/design-system/utils.ts:115-116 | the result is those class lists joined |
| Typography.TextSlots | src/design-system/components.ts:99-133 | the text axes and their four defaults |
| Typography.TextClasses | src/design-system/utils.ts:118-119 | the passed size, weight and color classes, then the omitted defaults, then `leading-normal` |
| Typography.Text | src/design-system/utils.ts:118-119 | the result is those class lists joined |
| ComponentHelpers.CardSlots | src/design-system/components.ts:28-47 | the card's axes and defaults |
| ComponentHelpers.CardClasses | src/design-system/utils.ts:126-127 | the passed padding and shadow classes, then the omitted defaults |
| ComponentHelpers.Card | src/design-system/utils.ts:126-127 | the result is those class lists joined |
| ComponentHelpers.SkillItemSlots | src/design-system/components.ts:158-169 | the skill item's axis and default |
| ComponentHelpers.SkillItemClasses | src/design-system/utils.ts:129-130 | the base, plus the pointer and hover-shadow classes only when interactive |
| ComponentHelpers.SkillItem | src/design-system/utils.ts:129-130 | the result is those class lists joined |
| ComponentHelpers.ListSlots | src/design-system/components.ts:172-190 | the list's axes and defaults |
| ComponentHelpers.ListClasses | src/design-system/utils.ts:132-133 | the passed variant and spacing classes, then the omitted defaults |
| ComponentHelpers.List | src/design-system/utils.ts:132-133 | the result is those class lists joined |
| ComponentHelpers.BadgeSlots | src/design-system/components.ts:193-207 | the badge's axis and default |
| ComponentHelpers.BadgeClasses | src/design-system/utils.ts:135-136 | the passed variant's colours, or else the default grey |
| ComponentHelpers.Badge | src/design-system/utils.ts:135-136 | the result is those class lists joined |
| ComponentHelpers.DividerSlots | src/design-system/components.ts:210-228 | the divider's axes and defaults |
| ComponentHelpers.DividerClasses | src/design-system/utils.ts:138-139 | the passed color and spacing classes, then the omitted defaults |
| ComponentHelpers.Divider | src/design-system/utils.ts:138-139 | the result is those class lists joined |
| Interactions.Hover | src/design-system/utils.ts:146 | the result splits back into `hover` and the class name |
| Interactions.Focus | src/design-system/utils.ts:147 | the result splits back into `focus` and the class name |
| Interactions.Active | src/design-system/utils.ts:148 | the result splits back into `active` and the class name |
| Interactions.Transition | src/design-system/utils.ts:149-150 | the result is the property's transition, `duration-200` and `ease-in-out` joined by single spaces, and reads as exactly those three tokens |
| A11y.A11yTokens | src/design-system/utils.ts:156-160 | each accessibility class list reads as its listed tokens |

## Left out

- Whitespace is the six ASCII whitespace characters. The Unicode spaces that JavaScript's `trim` and `\s` also match are not modelled. `Words` splits on the same six characters, vertical tab included. HTML's split of a `class` attribute does not treat the vertical tab as a separator.
- The component table is always present, and so are each entry's `variants` and `defaultVariants`. The branches for their absence (`component.variants`, `?.`) are not modelled.
- Keys inherited from `Object.prototype` (`"constructor"`, say) are not modelled. Axis and value lookups see only the table's own keys.
- Argument objects are entry sequences. A JavaScript object cannot repeat a key and lists integer-like keys first, so the lemmas that reason per axis assume distinct keys (`DistinctKeys`). The helpers' argument objects have no integer-like keys.
- `NumberKey`: only the one-digit numbers the helpers pass are converted to keys. General number-to-string conversion is not modelled.
- The constants `A11y.FocusVisible` and `A11y.SkipToContent` are written as their tokens joined by single spaces. Five table class lists longer than forty characters are written as two concatenated literals. The values are the same strings.
- `Utils.ResponsiveOf`, `Utils.StyleOf`, `Utils.Pieces` and the other specification functions carry no contract of their own. The methods and lemmas listed above state their properties.
- `Utils.Written`, `Utils.Qualify` and `Utils.Overrides` have no row of their own. Their ensures only spell out their bodies, for the proofs that use them. What they promise is stated by `Utils.Cn` and `Utils.CnTrue`, by `Utils.Unqualify`, `Utils.QualifyRoundTrip` and `Utils.PrintOnly`, and by `Utils.Responsive` and `Utils.ResponsiveTokens`.
- `ComponentStyles.TableWellFormed` does not state that every axis has a default. In the table every axis does, but no lemma states it.
- The `index.ts` re-exports, the design tokens in `tokens.ts` and the React components that call these helpers are not part of this model.
