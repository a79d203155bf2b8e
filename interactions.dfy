/**
 * The interaction helpers: state prefixes for hover, focus and active styles,
 * and the transition class list.
 */
module Interactions {
  import opened Options
  import opened Strings
  import opened Utils

  /** `interactions.hover(className)`. */
  function Hover(className: string): (r: string)
    ensures Unqualify(r) == Some(("hover", className))
  {
    QualifyRoundTrip("hover", className);
    Qualify("hover", className)
  }

  /** `interactions.focus(className)`. */
  function Focus(className: string): (r: string)
    ensures Unqualify(r) == Some(("focus", className))
  {
    QualifyRoundTrip("focus", className);
    Qualify("focus", className)
  }

  /** `interactions.active(className)`. */
  function Active(className: string): (r: string)
    ensures Unqualify(r) == Some(("active", className))
  {
    QualifyRoundTrip("active", className);
    Qualify("active", className)
  }

  /** The properties a transition may name. */
  predicate IsTransitionProperty(property: string) {
    property == "all" || property == "colors" || property == "opacity" || property == "transform"
  }

  /** `interactions.transition(property)`: the transition of the property, a
      200 ms duration and the ease-in-out timing function. */
  function Transition(property: string := "all"): (r: string)
    requires IsTransitionProperty(property)
    ensures r == Join(["transition-" + property, "duration-200", "ease-in-out"], " ")
    ensures Words(r) == ["transition-" + property, "duration-200", "ease-in-out"]
  {
    var parts := ["transition-" + property, "duration-200", "ease-in-out"];
    TransitionTokens(property, parts);
    "transition-" + property + " duration-200 ease-in-out"
  }

  lemma TransitionTokens(property: string, parts: seq<string>)
    requires IsTransitionProperty(property)
    requires parts == ["transition-" + property, "duration-200", "ease-in-out"]
    ensures Join(parts, " ") == "transition-" + property + " duration-200 ease-in-out"
    ensures Words("transition-" + property + " duration-200 ease-in-out") == parts
  {
    TransitionParts(property);
    assert Join(parts, " ") == "transition-" + property + " duration-200 ease-in-out" by {
      JoinCons(parts[0], parts[1..], " ");
      JoinCons(parts[1], parts[2..], " ");
      assert parts[1..][1..] == parts[2..] == ["ease-in-out"];
      TransitionTail();
    }
    WordsOfJoinedChars(parts);
  }

  lemma TransitionParts(property: string)
    requires IsTransitionProperty(property)
    ensures NoSpaceAt("transition-" + property) && NoSpaceAt("duration-200") && NoSpaceAt("ease-in-out")
  {
  }

  lemma TransitionTail()
    ensures " duration-200 ease-in-out" == " " + ("duration-200" + (" " + "ease-in-out"))
  {
  }
}

/** The accessibility class lists. */
module A11y {
  import opened Strings

  /** `a11y.srOnly`: visually hidden, still read by screen readers. */
  const SrOnly := "sr-only"

  /** `a11y.focusVisible`: a blue focus ring instead of the outline, for keyboard
      focus only. Written as its tokens joined by single spaces; the value is the
      same string. */
  const FocusVisible := Join(FocusVisibleTokens, " ")
  const FocusVisibleTokens := ["focus-visible:outline-none", "focus-visible:ring-2", "focus-visible:ring-blue-500"]

  /** `a11y.skipToContent`: a skip link that is hidden until it takes focus,
      then shown in the top-left corner above the page. */
  const SkipToContent := Join(SkipToContentTokens, " ")
  const SkipToContentTokens := ["sr-only", "focus:not-sr-only", "focus:absolute", "focus:top-4",
                                "focus:left-4", "focus:z-50"]

  /** Each accessibility class list reads as its tokens. */
  lemma A11yTokens()
    ensures Words(SrOnly) == ["sr-only"]
    ensures Words(FocusVisible) == FocusVisibleTokens
    ensures Words(SkipToContent) == SkipToContentTokens
  {
    A11yChars();
    WordsOfJoinedChars([SrOnly]);
    assert Join([SrOnly], " ") == SrOnly;
    WordsOfJoinedChars(FocusVisibleTokens);
    WordsOfJoinedChars(SkipToContentTokens);
  }

  lemma A11yChars()
    ensures SrOnly != [] && NoSpaceAt(SrOnly)
    ensures forall k | 0 <= k < |FocusVisibleTokens| :: FocusVisibleTokens[k] != [] && NoSpaceAt(FocusVisibleTokens[k])
    ensures forall k | 0 <= k < |SkipToContentTokens| :: SkipToContentTokens[k] != [] && NoSpaceAt(SkipToContentTokens[k])
  {
    FocusVisibleChars();
    SkipToContentChars();
  }

  lemma FocusVisibleChars()
    ensures forall k | 0 <= k < |FocusVisibleTokens| :: FocusVisibleTokens[k] != [] && NoSpaceAt(FocusVisibleTokens[k])
  {
  }

  lemma SkipToContentChars()
    ensures forall k | 0 <= k < |SkipToContentTokens| :: SkipToContentTokens[k] != [] && NoSpaceAt(SkipToContentTokens[k])
  {
  }
}
