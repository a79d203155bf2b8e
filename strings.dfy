/**
 * The JavaScript string operations the design-system utilities rely on:
 * `trim`, `replace(/\s+/g, ' ')` and `Array.prototype.join`, together with the
 * tokens of a string separated by the whitespace modelled here (`Words`),
 * which is how a `class` attribute is split into classes.
 */
module Strings {

  /** Whitespace as `trim` and the regular-expression class `\s` see it,
      restricted to the ASCII whitespace characters. */
  predicate IsSpace(ch: char) {
    ch == ' ' || ch == '\t' || ch == '\n' || ch == '\r' || ch == '\U{000B}' || ch == '\U{000C}'
  }

  /** Nothing but whitespace. */
  predicate IsBlank(s: string) {
    s == [] || (IsSpace(s[0]) && IsBlank(s[1..]))
  }

  /** A single class token: no whitespace at all. */
  predicate NoSpace(s: string) {
    s == [] || (!IsSpace(s[0]) && NoSpace(s[1..]))
  }

  /** No whitespace at either end. */
  predicate Trimmed(s: string) {
    s == [] || (!IsSpace(s[0]) && !IsSpace(s[|s| - 1]))
  }

  /** Every whitespace character is a plain space and is not followed by more whitespace. */
  predicate SingleSpaced(s: string) {
    s == [] ||
    ((IsSpace(s[0]) ==> s[0] == ' ' && (|s| > 1 ==> !IsSpace(s[1]))) && SingleSpaced(s[1..]))
  }

  /** The normal form of a class list: trimmed and single-spaced. */
  predicate Canonical(s: string) {
    Trimmed(s) && SingleSpaced(s)
  }

  /** `String.prototype.trimStart`: drops the leading whitespace. */
  function TrimStart(s: string): (r: string)
    ensures |r| <= |s|
    ensures r == [] || !IsSpace(r[0])
  {
    if s != [] && IsSpace(s[0]) then TrimStart(s[1..]) else s
  }

  /** `String.prototype.trimEnd`: drops the trailing whitespace. */
  function TrimEnd(s: string): (r: string)
    ensures |r| <= |s|
    ensures r == [] || !IsSpace(r[|r| - 1])
  {
    if s != [] && IsSpace(s[|s| - 1]) then TrimEnd(s[..|s| - 1]) else s
  }

  /** `String.prototype.trim`: the part of `s` between a blank prefix and a blank suffix. */
  function Trim(s: string): (r: string)
    ensures Trimmed(r)
    ensures exists lo, hi :: 0 <= lo <= hi <= |s| && r == s[lo..hi] && IsBlank(s[..lo]) && IsBlank(s[hi..])
    ensures Trimmed(s) ==> r == s
    ensures r == [] <==> IsBlank(s)
  {
    TrimBounds(s);
    TrimEnd(TrimStart(s))
  }

  /** `s.replace(/\s+/g, ' ')`: every maximal run of whitespace becomes one space. */
  function CollapseSpaces(s: string): string
    decreases |s|
  {
    if s == [] then []
    else if IsSpace(s[0]) then [' '] + CollapseSpaces(TrimStart(s[1..]))
    else [s[0]] + CollapseSpaces(s[1..])
  }

  /** `Array.prototype.join` over strings. */
  function Join(parts: seq<string>, sep: string): string {
    if parts == [] then ""
    else if |parts| == 1 then parts[0]
    else parts[0] + sep + Join(parts[1..], sep)
  }

  /** Length of the longest whitespace-free prefix of `s`. */
  function WordLength(s: string): (n: nat)
    ensures n <= |s|
    ensures n < |s| ==> IsSpace(s[n])
  {
    if s == [] || IsSpace(s[0]) then 0 else 1 + WordLength(s[1..])
  }

  /** The class tokens of `s`: its maximal whitespace-free pieces, in order. */
  function Words(s: string): seq<string>
    decreases |s|
  {
    var t := TrimStart(s);
    if t == [] then []
    else
      var n := WordLength(t);
      [t[..n]] + Words(t[n..])
  }

  /** The tokens of every part, in order. */
  function Tokens(parts: seq<string>): seq<string> {
    if parts == [] then [] else Words(parts[0]) + Tokens(parts[1..])
  }

  // ---------------------------------------------------------------------------
  // Blank strings and trimming

  lemma {:induction false} BlankConcat(a: string, b: string)
    requires IsBlank(a) && IsBlank(b)
    ensures IsBlank(a + b)
    decreases |a|
  {
    if a == [] {
      assert a + b == b;
    } else {
      assert (a + b)[1..] == a[1..] + b;
      BlankConcat(a[1..], b);
    }
  }

  /** What `trimStart` keeps is a suffix. */
  lemma {:induction false} TrimStartSuffix(s: string)
    ensures TrimStart(s) == s[|s| - |TrimStart(s)|..]
    decreases |s|
  {
    if s != [] && IsSpace(s[0]) {
      TrimStartSuffix(s[1..]);
    }
  }

  /** What `trimEnd` keeps is a prefix. */
  lemma {:induction false} TrimEndPrefix(s: string)
    ensures TrimEnd(s) == s[..|TrimEnd(s)|]
    decreases |s|
  {
    if s != [] && IsSpace(s[|s| - 1]) {
      TrimEndPrefix(s[..|s| - 1]);
    }
  }

  /** What `trimStart` removes is blank. */
  lemma {:induction false} TrimStartRemovesBlank(s: string)
    ensures IsBlank(s[..|s| - |TrimStart(s)|])
    decreases |s|
  {
    if s != [] && IsSpace(s[0]) {
      TrimStartRemovesBlank(s[1..]);
      var k := |s| - |TrimStart(s)|;
      assert s[..k][1..] == s[1..][..k - 1];
    } else {
      assert s[..0] == [];
    }
  }

  /** What `trimEnd` removes is blank. */
  lemma {:induction false} TrimEndRemovesBlank(s: string)
    ensures IsBlank(s[|TrimEnd(s)|..])
    decreases |s|
  {
    if s != [] && IsSpace(s[|s| - 1]) {
      var init := s[..|s| - 1];
      TrimEndRemovesBlank(init);
      var k := |TrimEnd(s)|;
      assert s[k..] == init[k..] + [s[|s| - 1]];
      assert IsBlank([s[|s| - 1]]);
      BlankConcat(init[k..], [s[|s| - 1]]);
    } else {
      assert s[|s|..] == [];
    }
  }

  lemma {:induction false} TrimStartOfBlank(s: string)
    requires IsBlank(s)
    ensures TrimStart(s) == []
    decreases |s|
  {
    if s != [] {
      TrimStartOfBlank(s[1..]);
    }
  }

  /** `trimStart` leaves nothing exactly when the string is blank. */
  lemma {:induction false} TrimStartEmpty(s: string)
    ensures TrimStart(s) == [] <==> IsBlank(s)
    decreases |s|
  {
    if s != [] && IsSpace(s[0]) {
      TrimStartEmpty(s[1..]);
    }
  }

  /** A leading space in front of a trimmed string is what `trim` removes. */
  lemma TrimLeadingSpace(s: string)
    requires Trimmed(s)
    ensures Trim(" " + s) == s
  {
    assert (" " + s)[1..] == s;
    assert TrimStart(s) == s;
    assert TrimEnd(s) == s;
  }

  lemma TakeDrop<T>(s: seq<T>, k: nat)
    requires k <= |s|
    ensures s == s[..k] + s[k..]
  {
  }

  lemma SliceShift<T>(s: seq<T>, lo: nat, k: nat)
    requires lo + k <= |s|
    ensures s[lo..][..k] == s[lo..lo + k] && s[lo..][k..] == s[lo + k..]
  {
  }

  /** `trim` keeps the middle of `s` and removes a blank prefix and a blank suffix. */
  lemma TrimBounds(s: string)
    ensures var t := TrimStart(s); var lo := |s| - |t|; var r := TrimEnd(t);
      s[lo..lo + |r|] == r && IsBlank(s[..lo]) && IsBlank(s[lo + |r|..])
    ensures TrimEnd(TrimStart(s)) == [] <==> IsBlank(s)
    ensures Trimmed(s) ==> TrimEnd(TrimStart(s)) == s
    ensures Trimmed(TrimEnd(TrimStart(s)))
  {
    var t := TrimStart(s);
    var r := TrimEnd(t);
    var lo := |s| - |t|;
    TrimSlices(s, t, r, lo);
    assert r != [] ==> r[0] == t[0] by {
      TrimEndPrefix(t);
    }
    assert IsBlank(s) ==> r == [] by {
      if IsBlank(s) {
        TrimStartOfBlank(s);
      }
    }
    assert r == [] ==> IsBlank(s) by {
      if r == [] {
        assert t[|r|..] == s[lo..];
        BlankHalves(s, lo);
      }
    }
  }

  lemma BlankHalves(s: string, k: nat)
    requires k <= |s| && IsBlank(s[..k]) && IsBlank(s[k..])
    ensures IsBlank(s)
  {
    TakeDrop(s, k);
    BlankConcat(s[..k], s[k..]);
  }

  lemma TrimSlices(s: string, t: string, r: string, lo: nat)
    requires t == TrimStart(s) && r == TrimEnd(t) && lo == |s| - |t|
    ensures IsBlank(s[..lo]) && IsBlank(t[|r|..])
    ensures s[lo..lo + |r|] == r && s[lo + |r|..] == t[|r|..]
  {
    TrimStartSuffix(s);
    TrimEndPrefix(t);
    TrimStartRemovesBlank(s);
    TrimEndRemovesBlank(t);
    SliceShift(s, lo, |r|);
  }

  // ---------------------------------------------------------------------------
  // Single spacing

  lemma {:induction false} SingleSpacedConcat(a: string, b: string)
    requires SingleSpaced(a) && SingleSpaced(b)
    requires a == [] || b == [] || !IsSpace(a[|a| - 1]) || !IsSpace(b[0])
    ensures SingleSpaced(a + b)
    decreases |a|
  {
    if a == [] {
      assert a + b == b;
    } else {
      assert (a + b)[1..] == a[1..] + b;
      if |a| == 1 && b != [] {
        assert (a + b)[1] == b[0];
      } else if |a| > 1 {
        assert (a + b)[1] == a[1];
        assert a[1..][|a| - 2] == a[|a| - 1];
      }
      SingleSpacedConcat(a[1..], b);
    }
  }

  lemma {:induction false} SingleSpacedDrop(s: string, k: nat)
    requires SingleSpaced(s) && k <= |s|
    ensures SingleSpaced(s[k..])
    decreases k
  {
    if k > 0 {
      SingleSpacedDrop(s[1..], k - 1);
      assert s[1..][k - 1..] == s[k..];
    }
  }

  lemma {:induction false} SingleSpacedTake(s: string, k: nat)
    requires SingleSpaced(s) && k <= |s|
    ensures SingleSpaced(s[..k])
    decreases k
  {
    if k > 0 {
      SingleSpacedTake(s[1..], k - 1);
      assert s[..k][1..] == s[1..][..k - 1];
    }
  }

  lemma SingleSpacedSlice(s: string, lo: nat, hi: nat)
    requires SingleSpaced(s) && lo <= hi <= |s|
    ensures SingleSpaced(s[lo..hi])
  {
    SingleSpacedTake(s, hi);
    SingleSpacedDrop(s[..hi], lo);
    assert s[..hi][lo..] == s[lo..hi];
  }

  /** Trimming a single-spaced string gives a canonical one. */
  lemma TrimCanonical(s: string)
    requires SingleSpaced(s)
    ensures Canonical(Trim(s))
  {
    var lo, hi :| 0 <= lo <= hi <= |s| && Trim(s) == s[lo..hi];
    SingleSpacedSlice(s, lo, hi);
  }

  /** Joining one more part adds the separator and the part at the end. */
  lemma {:induction false} JoinSnoc(parts: seq<string>, x: string, sep: string)
    requires parts != []
    ensures Join(parts + [x], sep) == Join(parts, sep) + sep + x
    decreases |parts|
  {
    if |parts| == 1 {
      assert parts + [x] == [parts[0], x];
    } else {
      assert (parts + [x])[1..] == parts[1..] + [x];
      JoinSnoc(parts[1..], x, sep);
    }
  }

  // ---------------------------------------------------------------------------
  // Collapsing whitespace runs

  /** A run at the start becomes a single space; anything else starts the same. */
  lemma CollapseStart(s: string)
    ensures CollapseSpaces(s) == [] <==> s == []
    ensures s != [] ==> CollapseSpaces(s)[0] == if IsSpace(s[0]) then ' ' else s[0]
  {
  }

  /** `replace(/\s+/g, ' ')` leaves only plain spaces, never two in a row. */
  lemma {:induction false} CollapseSingleSpaced(s: string)
    ensures SingleSpaced(CollapseSpaces(s))
    decreases |s|
  {
    if s != [] {
      if IsSpace(s[0]) {
        var t := TrimStart(s[1..]);
        CollapseStart(t);
        CollapseSingleSpaced(t);
        assert ([' '] + CollapseSpaces(t))[1..] == CollapseSpaces(t);
      } else {
        CollapseSingleSpaced(s[1..]);
        assert ([s[0]] + CollapseSpaces(s[1..]))[1..] == CollapseSpaces(s[1..]);
      }
    }
  }

  /** A string that is already single-spaced is left as it is. */
  lemma {:induction false} CollapseFixpoint(s: string)
    requires SingleSpaced(s)
    ensures CollapseSpaces(s) == s
    decreases |s|
  {
    if s != [] {
      if IsSpace(s[0]) {
        assert TrimStart(s[1..]) == s[1..];
      }
      CollapseFixpoint(s[1..]);
    }
  }

  lemma {:induction false} CollapseWord(s: string)
    ensures CollapseSpaces(s) == s[..WordLength(s)] + CollapseSpaces(s[WordLength(s)..])
    decreases |s|
  {
    if s != [] && !IsSpace(s[0]) {
      CollapseWord(s[1..]);
      var k := WordLength(s[1..]);
      assert s[1..][..k] == s[1..k + 1];
      assert s[1..][k..] == s[k + 1..];
      assert s[..k + 1] == [s[0]] + s[1..k + 1];
    } else {
      assert s[..0] == [] && s[0..] == s;
    }
  }

  // ---------------------------------------------------------------------------
  // Class tokens

  /** The first word is free of whitespace. */
  lemma {:induction false} WordLengthNoSpace(s: string)
    ensures NoSpace(s[..WordLength(s)])
    decreases |s|
  {
    if s != [] && !IsSpace(s[0]) {
      WordLengthNoSpace(s[1..]);
      var n := WordLength(s);
      assert s[..n][1..] == s[1..][..n - 1];
    } else {
      assert s[..0] == [];
    }
  }

  lemma {:induction false} WordLengthOfToken(w: string)
    requires NoSpace(w)
    ensures WordLength(w) == |w|
    decreases |w|
  {
    if w != [] {
      WordLengthOfToken(w[1..]);
    }
  }

  lemma {:induction false} WordLengthAppend(t: string, b: string)
    requires WordLength(t) < |t| || b == [] || IsSpace(b[0])
    ensures WordLength(t + b) == WordLength(t)
    decreases |t|
  {
    if t == [] {
      assert t + b == b;
    } else if !IsSpace(t[0]) {
      assert (t + b)[1..] == t[1..] + b;
      WordLengthAppend(t[1..], b);
    }
  }

  lemma ConcatAssoc<T>(x: seq<T>, y: seq<T>, z: seq<T>)
    ensures x + (y + z) == (x + y) + z
  {
  }

  lemma SliceConcat(t: string, b: string, n: nat)
    requires n <= |t|
    ensures (t + b)[..n] == t[..n] && (t + b)[n..] == t[n..] + b
  {
  }

  /** A word that reaches the end of the string ends in a non-space character. */
  lemma {:induction false} WordLengthLast(s: string)
    ensures s != [] && !IsSpace(s[0]) ==> WordLength(s) > 0
    ensures WordLength(s) > 0 ==> !IsSpace(s[WordLength(s) - 1])
    decreases |s|
  {
    if s != [] && !IsSpace(s[0]) {
      WordLengthLast(s[1..]);
    }
  }

  /** The tokens of a string that starts with a token. */
  lemma WordsCons(t: string)
    requires t != [] && !IsSpace(t[0])
    ensures Words(t) == [t[..WordLength(t)]] + Words(t[WordLength(t)..])
  {
    assert TrimStart(t) == t;
  }

  /** Every token is non-empty and free of whitespace. */
  lemma {:induction false} WordsAreTokens(s: string)
    ensures forall i | 0 <= i < |Words(s)| :: Words(s)[i] != [] && NoSpace(Words(s)[i])
    decreases |s|
  {
    var t := TrimStart(s);
    if t != [] {
      var n := WordLength(t);
      var ws, tail := Words(s), Words(t[n..]);
      assert ws == [t[..n]] + tail;
      WordLengthNoSpace(t);
      WordLengthLast(t);
      WordsAreTokens(t[n..]);
      forall i | 0 <= i < |ws|
        ensures ws[i] != [] && NoSpace(ws[i])
      {
        if i > 0 {
          assert ws[i] == tail[i - 1];
        }
      }
    }
  }

  lemma {:induction false} TrimStartBlankPrefix(a: string, b: string)
    requires IsBlank(a)
    ensures TrimStart(a + b) == TrimStart(b)
    decreases |a|
  {
    if a == [] {
      assert a + b == b;
    } else {
      assert (a + b)[1..] == a[1..] + b;
      TrimStartBlankPrefix(a[1..], b);
    }
  }

  lemma WordsBlankPrefix(a: string, b: string)
    requires IsBlank(a)
    ensures Words(a + b) == Words(b)
  {
    TrimStartBlankPrefix(a, b);
  }

  lemma WordsOfBlank(s: string)
    requires IsBlank(s)
    ensures Words(s) == []
  {
    TrimStartOfBlank(s);
  }

  /** A single token reads as itself. */
  lemma WordsOfToken(w: string)
    requires w != [] && NoSpace(w)
    ensures Words(w) == [w]
  {
    WordLengthOfToken(w);
    assert w[..|w|] == w;
  }

  /** Splitting at whitespace splits the token list. */
  lemma WordsSplit(a: string, b: string)
    requires a == [] || b == [] || IsSpace(a[|a| - 1]) || IsSpace(b[0])
    ensures Words(a + b) == Words(a) + Words(b)
    decreases |a|, 1
  {
    var t := TrimStart(a);
    var lead := a[..|a| - |t|];
    assert a == lead + t && IsBlank(lead) by {
      TrimStartSuffix(a);
      TakeDrop(a, |a| - |t|);
      TrimStartRemovesBlank(a);
    }
    assert Words(a + b) == Words(t + b) by {
      ConcatAssoc(lead, t, b);
      WordsBlankPrefix(lead, t + b);
    }
    if t == [] {
      assert t + b == b;
    } else {
      WordsSplitWord(a, t, b);
    }
  }

  /** The step of `WordsSplit` once the leading whitespace is gone. */
  lemma WordsSplitWord(a: string, t: string, b: string)
    requires t == TrimStart(a) && t != []
    requires b == [] || IsSpace(a[|a| - 1]) || IsSpace(b[0])
    ensures Words(t + b) == Words(a) + Words(b)
    decreases |a|, 0
  {
    var n := WordLength(t);
    var w, rest := t[..n], t[n..];
    assert t[|t| - 1] == a[|a| - 1] by {
      TrimStartSuffix(a);
    }
    assert Words(t + b) == [w] + Words(rest + b) by {
      WordLengthLast(t);
      WordLengthAppend(t, b);
      WordsCons(t + b);
      SliceConcat(t, b, n);
    }
    assert Words(rest + b) == Words(rest) + Words(b) by {
      assert rest != [] ==> rest[|rest| - 1] == t[|t| - 1];
      WordsSplit(rest, b);
    }
    assert Words(a) == [w] + Words(rest) by {
      WordsCons(t);
    }
    ConcatAssoc([w], Words(rest), Words(b));
  }

  /** A blank prefix carries no tokens. */
  lemma WordsBlankTake(s: string, k: nat)
    requires k <= |s| && IsBlank(s[..k])
    ensures Words(s) == Words(s[k..])
  {
    TakeDrop(s, k);
    WordsBlankPrefix(s[..k], s[k..]);
  }

  /** A blank suffix carries no tokens. */
  lemma WordsBlankDrop(s: string, k: nat)
    requires k <= |s| && IsBlank(s[k..])
    ensures Words(s) == Words(s[..k])
  {
    var tail := s[k..];
    assert tail == [] || IsSpace(tail[0]);
    TakeDrop(s, k);
    WordsSplit(s[..k], tail);
    WordsOfBlank(tail);
  }

  /** Trimming keeps the tokens. */
  lemma WordsOfTrim(s: string)
    ensures Words(Trim(s)) == Words(s)
  {
    var t := TrimStart(s);
    var r := TrimEnd(t);
    assert Words(s) == Words(t) by {
      TrimStartSuffix(s);
      TrimStartRemovesBlank(s);
      WordsBlankTake(s, |s| - |t|);
    }
    assert Words(t) == Words(r) by {
      TrimEndPrefix(t);
      TrimEndRemovesBlank(t);
      WordsBlankDrop(t, |r|);
    }
  }

  /** Collapsing whitespace runs keeps the tokens. */
  lemma {:induction false} WordsOfCollapse(s: string)
    ensures Words(CollapseSpaces(s)) == Words(s)
    decreases |s|
  {
    if s == [] {
    } else if IsSpace(s[0]) {
      var t := TrimStart(s[1..]);
      assert Words(CollapseSpaces(s)) == Words(CollapseSpaces(t)) by {
        assert IsBlank([' ']);
        WordsBlankPrefix([' '], CollapseSpaces(t));
      }
      WordsOfCollapse(t);
      assert Words(t) == Words(s) by {
        assert TrimStart(s) == t;
        assert TrimStart(t) == t;
      }
    } else {
      var n := WordLength(s);
      var w, rest := s[..n], s[n..];
      assert w != [] && NoSpace(w) by {
        WordLengthLast(s);
        WordLengthNoSpace(s);
      }
      assert Words(CollapseSpaces(s)) == [w] + Words(CollapseSpaces(rest)) by {
        CollapseWord(s);
        CollapseStart(rest);
        WordsSplit(w, CollapseSpaces(rest));
        WordsOfToken(w);
      }
      WordsOfCollapse(rest);
      WordsCons(s);
    }
  }

  /** Joining a part in front of a non-empty list. */
  lemma JoinCons(x: string, parts: seq<string>, sep: string)
    requires parts != []
    ensures Join([x] + parts, sep) == x + (sep + Join(parts, sep))
  {
    assert ([x] + parts)[1..] == parts;
    ConcatAssoc(x, sep, Join(parts, sep));
  }

  lemma ConsSplit<T>(s: seq<T>)
    requires s != []
    ensures s == [s[0]] + s[1..]
  {
  }

  /** The tokens of a space-joined list are the tokens of its parts. */
  lemma {:induction false} WordsOfJoin(parts: seq<string>)
    ensures Words(Join(parts, " ")) == Tokens(parts)
    decreases |parts|
  {
    if |parts| == 1 {
      assert Tokens(parts) == Words(parts[0]) + Tokens([]);
    } else if |parts| > 1 {
      var rest := Join(parts[1..], " ");
      calc {
        Words(Join(parts, " "));
        { ConsSplit(parts); JoinCons(parts[0], parts[1..], " "); }
        Words(parts[0] + (" " + rest));
        { WordsSplit(parts[0], " " + rest); }
        Words(parts[0]) + Words(" " + rest);
        { assert IsBlank(" "); WordsBlankPrefix(" ", rest); }
        Words(parts[0]) + Words(rest);
        { WordsOfJoin(parts[1..]); }
        Words(parts[0]) + Tokens(parts[1..]);
      }
    }
  }

  /** A canonical string is its tokens joined by single spaces. */
  lemma {:induction false} JoinWords(s: string)
    requires Canonical(s)
    ensures Join(Words(s), " ") == s
    decreases |s|
  {
    if s != [] {
      var n := WordLength(s);
      var w, rest := s[..n], s[n..];
      assert Words(s) == [w] + Words(rest) by {
        WordsCons(s);
      }
      if rest == [] {
        assert w == s;
      } else {
        var tail := rest[1..];
        assert rest == " " + tail && Canonical(tail) by {
          SingleSpacedDrop(s, n);
          assert rest[|rest| - 1] == s[|s| - 1];
          ConsSplit(rest);
        }
        assert Words(rest) == Words(tail) by {
          assert IsBlank(" ");
          WordsBlankPrefix(" ", tail);
        }
        assert Join(Words(tail), " ") == tail && Words(tail) != [] by {
          JoinWords(tail);
          WordsCons(tail);
        }
        JoinCons(w, Words(tail), " ");
        TakeDrop(s, n);
      }
    }
  }

  /** Tokens read as themselves. */
  lemma {:induction false} TokensOfTokens(ws: seq<string>)
    requires forall i | 0 <= i < |ws| :: ws[i] != [] && NoSpace(ws[i])
    ensures Tokens(ws) == ws
    decreases |ws|
  {
    if ws != [] {
      WordsOfToken(ws[0]);
      TokensOfTokens(ws[1..]);
      ConsSplit(ws);
    }
  }

  /** Reading back a single-space join of tokens gives the tokens. */
  lemma WordsOfJoinedTokens(ws: seq<string>)
    requires forall i | 0 <= i < |ws| :: ws[i] != [] && NoSpace(ws[i])
    ensures Words(Join(ws, " ")) == ws
  {
    TokensOfTokens(ws);
    WordsOfJoin(ws);
  }

  /** `NoSpace`, character by character. */
  lemma {:induction false} NoSpaceByIndex(s: string)
    ensures NoSpace(s) <==> forall i | 0 <= i < |s| :: !IsSpace(s[i])
    decreases |s|
  {
    if s != [] {
      NoSpaceByIndex(s[1..]);
      assert forall i | 1 <= i < |s| :: s[i] == s[1..][i - 1];
    }
  }

  /** A whitespace-free prefix lengthens the first word. */
  lemma {:induction false} WordLengthPrefix(a: string, c: string)
    requires NoSpace(a)
    ensures WordLength(a + c) == |a| + WordLength(c)
    decreases |a|
  {
    if a == [] {
      assert a + c == c;
    } else {
      assert (a + c)[1..] == a[1..] + c;
      WordLengthPrefix(a[1..], c);
    }
  }

  /** A whitespace-free prefix glued to a string that starts with a token becomes
      part of that first token; the other tokens stay as they are. */
  lemma WordsPrefixToken(a: string, c: string)
    requires a != [] && NoSpace(a)
    requires c != [] && !IsSpace(c[0])
    ensures Words(c) != []
    ensures Words(a + c) == [a + Words(c)[0]] + Words(c)[1..]
  {
    var m := WordLength(c);
    WordLengthPrefix(a, c);
    WordsCons(c);
    WordsCons(a + c);
    assert (a + c)[..|a| + m] == a + c[..m];
    assert (a + c)[|a| + m..] == c[m..];
  }

  /** `NoSpace`, stated character by character (`NoSpaceByIndex` relates the
      two). On a string literal this form is checked one index at a time,
      without unfolding the recursion of `NoSpace` once per character, so the
      lemmas about literal class lists use it. */
  predicate NoSpaceAt(w: string) {
    forall i | 0 <= i < |w| :: !IsSpace(w[i])
  }

  /** Reading back a single-space join of parts checked character by character. */
  lemma WordsOfJoinedChars(ws: seq<string>)
    requires forall k | 0 <= k < |ws| :: ws[k] != [] && NoSpaceAt(ws[k])
    ensures Words(Join(ws, " ")) == ws
  {
    forall k | 0 <= k < |ws|
      ensures NoSpace(ws[k])
    {
      NoSpaceByIndex(ws[k]);
    }
    WordsOfJoinedTokens(ws);
  }

  /** A string has no tokens exactly when it is blank. */
  lemma WordsEmpty(s: string)
    ensures Words(s) == [] <==> IsBlank(s)
  {
    TrimStartEmpty(s);
  }
}
