/**
 * Collector numbers of a print and the comparator that orders them
 * (ScryfallPrint.OrdinaryCollectorNumber and COLLECTOR_NUMBER_COMPARATOR).
 *
 * Four dialects are recognised, tried in this order:
 *   ordinary      [0-9]?[A-Za-z*]+ (optional) digits, then [A-Za-z*★†‡]+ (optional)
 *   year-coded    an optional "p", four digits, "-", one or two digits
 *   arena         three digits, "-", upper-case letters
 *   list          three or four letters/digits, "-", an ordinary number
 * Each regular expression is modelled by a matcher function that returns the
 * captured groups, together with a lemma saying exactly which strings it
 * accepts and what it captures.
 */
module CollectorNumber {
  import opened Base

  /** The character classes used by the four patterns. */
  datatype CharClass = Digit | PrefixChar | SuffixChar | AlphaNum | UpperLetter

  predicate InClass(c: char, k: CharClass)
  {
    match k
    case Digit => IsDigit(c)
    case PrefixChar => IsLetter(c) || c == '*'
    case SuffixChar => IsLetter(c) || c == '*' || c == '\U{2605}' || c == '\U{2020}' || c == '\U{2021}'
    case AlphaNum => IsLetter(c) || IsDigit(c)
    case UpperLetter => IsUpper(c)
  }

  predicate AllIn(s: string, k: CharClass)
  {
    forall i :: 0 <= i < |s| ==> InClass(s[i], k)
  }

  /** Every character of s[lo..hi] is of class k (stated on s itself, without slicing). */
  predicate RangeIn(s: string, lo: nat, hi: nat, k: CharClass)
    requires lo <= hi <= |s|
  {
    forall i :: lo <= i < hi ==> InClass(s[i], k)
  }

  lemma RangeInSlice(s: string, lo: nat, hi: nat, k: CharClass)
    requires lo <= hi <= |s|
    ensures RangeIn(s, lo, hi, k) <==> AllIn(s[lo..hi], k)
  {
    assert forall i :: 0 <= i < hi - lo ==> s[lo..hi][i] == s[lo + i];
  }

  /** The end of the longest run of class-k characters that starts at index i. */
  function SpanFrom(s: string, i: nat, k: CharClass): (e: nat)
    requires i <= |s|
    ensures i <= e <= |s|
    ensures RangeIn(s, i, e, k)
    ensures e < |s| ==> !InClass(s[e], k)
    decreases |s| - i
  {
    if i == |s| || !InClass(s[i], k) then i else SpanFrom(s, i + 1, k)
  }

  /** A run is maximal exactly when the character after it is of another class. */
  lemma {:induction false} SpanFromEnds(s: string, i: nat, e: nat, k: CharClass)
    requires i <= e <= |s|
    requires RangeIn(s, i, e, k)
    requires e < |s| ==> !InClass(s[e], k)
    ensures SpanFrom(s, i, k) == e
    decreases e - i
  {
    if i < e {
      SpanFromEnds(s, i + 1, e, k);
    }
  }

  // ---------------------------------------------------------------------
  // The ordinary pattern (ScryfallPrint.java:14)

  /** The `prefix` group: an optional digit followed by one or more of [A-Za-z*]. */
  predicate PrefixGroup(p: string)
  {
    (|p| >= 1 && AllIn(p, PrefixChar)) || (|p| >= 2 && IsDigit(p[0]) && AllIn(p[1..], PrefixChar))
  }

  /** The `suffix` group: one or more of [A-Za-z*★†‡]. */
  predicate SuffixGroup(x: string)
  {
    |x| >= 1 && AllIn(x, SuffixChar)
  }

  /** The capture of a whole-string match; an absent optional group is captured as "". */
  datatype Groups = Groups(prefix: string, number: string, suffix: string)

  /** The regular language of the ordinary pattern, with its groups. */
  predicate OrdinaryShape(s: string, g: Groups)
  {
    && s == g.prefix + g.number + g.suffix
    && (g.prefix == [] || PrefixGroup(g.prefix))
    && |g.number| >= 1 && AllDigits(g.number)
    && (g.suffix == [] || SuffixGroup(g.suffix))
  }

  /** `[0-9]+` from index j, then an optional suffix group up to the end: the end of the digits. */
  function NumberEnd(s: string, j: nat): Option<nat>
    requires j <= |s|
  {
    var k := SpanFrom(s, j, Digit);
    if k > j && RangeIn(s, k, |s|, SuffixChar) then Some(k) else None
  }

  /** 1 when s starts with a digit that the prefix group may take, else 0. */
  function LeadDigit(s: string): nat
  {
    if |s| > 0 && IsDigit(s[0]) then 1 else 0
  }

  /** The match that uses the prefix group (tried first, since `?` is greedy). */
  function WithPrefix(s: string): Option<Groups>
  {
    var i := LeadDigit(s);
    var j := SpanFrom(s, i, PrefixChar);
    var k := NumberEnd(s, j);
    if j > i && k.Some? then Some(Groups(s[..j], s[j..k.value], s[k.value..])) else None
  }

  /** The match that leaves the prefix group out. */
  function WithoutPrefix(s: string): Option<Groups>
  {
    var k := NumberEnd(s, 0);
    if k.Some? then Some(Groups("", s[..k.value], s[k.value..])) else None
  }

  /** Pattern.matcher(s).matches() for the ordinary pattern, with its groups. */
  function MatchOrdinary(s: string): Option<Groups>
  {
    if WithPrefix(s).Some? then WithPrefix(s) else WithoutPrefix(s)
  }

  lemma NumberEndSound(s: string, j: nat)
    requires j <= |s| && NumberEnd(s, j).Some?
    ensures var k := NumberEnd(s, j).value;
      j < k <= |s| && AllDigits(s[j..k]) && (s[k..] == [] || SuffixGroup(s[k..]))
  {
    var k := NumberEnd(s, j).value;
    RangeInSlice(s, j, k, Digit);
    RangeInSlice(s, k, |s|, SuffixChar);
    assert s[k..] == s[k..|s|];
  }

  lemma WithPrefixSound(s: string)
    requires WithPrefix(s).Some?
    ensures OrdinaryShape(s, WithPrefix(s).value)
  {
    var i := LeadDigit(s);
    var j := SpanFrom(s, i, PrefixChar);
    var k := NumberEnd(s, j).value;
    NumberEndSound(s, j);
    RangeInSlice(s, i, j, PrefixChar);
    if i == 1 {
      assert s[..j][1..] == s[1..j];
    } else {
      assert s[..j] == s[0..j];
    }
    assert s == s[..j] + s[j..k] + s[k..];
  }

  lemma WithoutPrefixSound(s: string)
    requires WithoutPrefix(s).Some?
    ensures OrdinaryShape(s, WithoutPrefix(s).value)
  {
    var k := NumberEnd(s, 0).value;
    NumberEndSound(s, 0);
    assert s[..k] == s[0..k];
    assert s == s[..k] + s[k..];
  }

  lemma MatchOrdinarySound(s: string)
    requires MatchOrdinary(s).Some?
    ensures OrdinaryShape(s, MatchOrdinary(s).value)
  {
    if WithPrefix(s).Some? { WithPrefixSound(s); } else { WithoutPrefixSound(s); }
  }

  /** The digits and suffix of a shaped string, as facts about its indices. */
  lemma ShapeIndices(s: string, g: Groups)
    requires OrdinaryShape(s, g)
    ensures var a, b := |g.prefix|, |g.prefix| + |g.number|;
      && RangeIn(s, a, b, Digit)
      && RangeIn(s, b, |s|, SuffixChar)
      && s[..a] == g.prefix && s[a..b] == g.number && s[b..] == g.suffix
  {
    var a, b := |g.prefix|, |g.prefix| + |g.number|;
    assert forall i :: a <= i < b ==> s[i] == g.number[i - a];
    assert forall i :: b <= i < |s| ==> s[i] == g.suffix[i - b];
  }

  /** With no prefix group, the attempt that uses one fails. */
  lemma BareNumberHasNoPrefixMatch(s: string, g: Groups)
    requires OrdinaryShape(s, g) && g.prefix == []
    ensures WithPrefix(s).None?
  {
    ShapeIndices(s, g);
    var j := SpanFrom(s, 1, PrefixChar);
    if j > 1 {
      // s[1] is a prefix character, so the number is the single digit s[0] and
      // the prefix run, if any, lies in the suffix: no digit follows it
      assert InClass(s[1], PrefixChar);
      assert |g.number| == 1;
      assert j < |s| ==> InClass(s[j], SuffixChar);
      assert SpanFrom(s, j, Digit) == j;
    }
  }

  lemma PrefixedNumberMatch(s: string, g: Groups)
    requires OrdinaryShape(s, g) && g.prefix != []
    ensures WithPrefix(s) == Some(g)
  {
    ShapeIndices(s, g);
    var p := g.prefix;
    var a, b := |g.prefix|, |g.prefix| + |g.number|;
    var i := LeadDigit(s);
    assert s[0] == p[0];
    if IsDigit(p[0]) {
      assert forall t :: 1 <= t < a ==> s[t] == p[1..][t - 1];
    } else {
      assert forall t :: 0 <= t < a ==> s[t] == p[t];
    }
    SpanFromEnds(s, i, a, PrefixChar);
    SpanFromEnds(s, a, b, Digit);
  }

  lemma MatchOrdinaryComplete(s: string, g: Groups)
    requires OrdinaryShape(s, g)
    ensures MatchOrdinary(s) == Some(g)
  {
    if g.prefix == [] {
      BareNumberHasNoPrefixMatch(s, g);
      ShapeIndices(s, g);
      SpanFromEnds(s, 0, |g.number|, Digit);
    } else {
      PrefixedNumberMatch(s, g);
    }
  }

  /** The ordinary matcher accepts exactly the strings of its regular language, and captures uniquely. */
  lemma MatchOrdinaryExactly(s: string, g: Groups)
    ensures MatchOrdinary(s) == Some(g) <==> OrdinaryShape(s, g)
  {
    if MatchOrdinary(s) == Some(g) { MatchOrdinarySound(s); }
    if OrdinaryShape(s, g) { MatchOrdinaryComplete(s, g); }
  }

  // ---------------------------------------------------------------------
  // OrdinaryCollectorNumber (ScryfallPrint.java:13-50)

  datatype Ordinary = Ordinary(prefix: string, number: int, suffix: string)

  /** Integer.parseInt on a string of digits: it throws above Integer.MAX_VALUE. */
  function ParseInt(digits: string): Result<int>
    requires AllDigits(digits)
  {
    if DigitsValue(digits) > IntMax then Err(NumberFormat) else Ok(DigitsValue(digits))
  }

  /** The digits of a number that Integer.parseInt rejects. */
  predicate TooLarge(digits: string)
  {
    AllDigits(digits) && DigitsValue(digits) > IntMax
  }

  /** OrdinaryCollectorNumber.of: null (None) when the whole string does not match. */
  function Of(cn: string): Result<Option<Ordinary>>
  {
    var m := MatchOrdinary(cn);
    if m.None? then Ok(None)
    else
      MatchOrdinarySound(cn);
      var g := m.value;
      var n := ParseInt(g.number);
      if n.Err? then Err(n.error)
      else if g.prefix == "*" then Ok(Some(Ordinary("", n.value, g.suffix + "*")))
      else Ok(Some(Ordinary(g.prefix, n.value, g.suffix)))
  }

  /** What `of` promises: null exactly off the language; otherwise the groups, with a lone "*" prefix moved to the suffix. */
  lemma OfMeaning(cn: string)
    ensures Of(cn) == Ok(None) <==> MatchOrdinary(cn).None?
    ensures Of(cn).Err? <==> MatchOrdinary(cn).Some? && TooLarge(MatchOrdinary(cn).value.number)
    ensures Of(cn).Ok? && Of(cn).value.Some? ==>
      exists g :: OrdinaryShape(cn, g) && DigitsValue(g.number) == Of(cn).value.value.number
        && (if g.prefix == "*" then Of(cn).value.value == Ordinary("", DigitsValue(g.number), g.suffix + "*")
            else Of(cn).value.value == Ordinary(g.prefix, DigitsValue(g.number), g.suffix))
  {
    if MatchOrdinary(cn).Some? {
      MatchOrdinarySound(cn);
      var g := MatchOrdinary(cn).value;
      assert OrdinaryShape(cn, g);
    }
  }

  /** OrdinaryCollectorNumber.compareTo: prefix (string order), then number, then suffix. */
  function OrdinaryCompare(a: Ordinary, b: Ordinary): int
  {
    if a.prefix != b.prefix then StrCompare(a.prefix, b.prefix)
    else if a.number != b.number then IntCompare(a.number, b.number)
    else StrCompare(a.suffix, b.suffix)
  }

  lemma OrdinaryCompareAntisymmetric(a: Ordinary, b: Ordinary)
    ensures OrdinaryCompare(a, b) == -OrdinaryCompare(b, a)
    ensures OrdinaryCompare(a, b) == 0 <==> a == b
  {
    StrCompareAntisymmetric(a.prefix, b.prefix);
    StrCompareAntisymmetric(a.suffix, b.suffix);
    StrCompareZeroIffEqual(a.prefix, b.prefix);
    StrCompareZeroIffEqual(a.suffix, b.suffix);
  }

  // ---------------------------------------------------------------------
  // The year-coded, arena and list patterns (ScryfallPrint.java:52-54)

  datatype YearGroups = YearGroups(marked: bool, year: string, number: string)

  /** PT_CN_PATTERN: (p)?YYYY-N or NN. */
  function MatchYear(s: string): Option<YearGroups>
  {
    var o := if |s| > 0 && s[0] == 'p' then 1 else 0;
    if o + 6 <= |s| <= o + 7 && RangeIn(s, o, o + 4, Digit) && s[o + 4] == '-' && RangeIn(s, o + 5, |s|, Digit)
    then Some(YearGroups(o == 1, s[o..o + 4], s[o + 5..]))
    else None
  }

  lemma MatchYearExactly(s: string, g: YearGroups)
    ensures MatchYear(s) == Some(g) <==>
      && s == (if g.marked then "p" else "") + g.year + "-" + g.number
      && |g.year| == 4 && AllIn(g.year, Digit)
      && 1 <= |g.number| <= 2 && AllIn(g.number, Digit)
  {
    var o := if |s| > 0 && s[0] == 'p' then 1 else 0;
    if MatchYear(s) == Some(g) {
      RangeInSlice(s, o, o + 4, Digit);
      RangeInSlice(s, o + 5, |s|, Digit);
      assert s[o + 5..] == s[o + 5..|s|];
      assert s == s[..o] + s[o..o + 4] + "-" + s[o + 5..];
      assert o == 1 ==> s[..o] == "p";
    }
    var m := if g.marked then "p" else "";
    if s == m + g.year + "-" + g.number && |g.year| == 4 && AllIn(g.year, Digit) && 1 <= |g.number| <= 2 {
      assert s[0] == if g.marked then 'p' else g.year[0];
      assert o == |m|;
      assert s[o..o + 4] == g.year;
      assert s[o + 4] == '-';
      assert s[o + 5..] == g.number;
      assert s[o + 5..] == s[o + 5..|s|];
      RangeInSlice(s, o, o + 4, Digit);
      RangeInSlice(s, o + 5, |s|, Digit);
    }
  }

  datatype ArenaGroups = ArenaGroups(number: string, name: string)

  /** ARENA_CN_PATTERN: NNN-NAME. */
  function MatchArena(s: string): Option<ArenaGroups>
  {
    if |s| >= 5 && RangeIn(s, 0, 3, Digit) && s[3] == '-' && RangeIn(s, 4, |s|, UpperLetter)
    then Some(ArenaGroups(s[..3], s[4..]))
    else None
  }

  lemma MatchArenaExactly(s: string, g: ArenaGroups)
    ensures MatchArena(s) == Some(g) <==>
      s == g.number + "-" + g.name && |g.number| == 3 && AllIn(g.number, Digit) && |g.name| >= 1 && AllIn(g.name, UpperLetter)
  {
    if |s| >= 5 {
      RangeInSlice(s, 0, 3, Digit);
      RangeInSlice(s, 4, |s|, UpperLetter);
      assert s[..3] == s[0..3];
      assert s[4..] == s[4..|s|];
    }
    if MatchArena(s) == Some(g) {
      assert s == s[..3] + "-" + s[4..];
    }
    if s == g.number + "-" + g.name && |g.number| == 3 {
      assert s[..3] == g.number;
      assert s[4..] == g.name;
    }
  }

  datatype ListGroups = ListGroups(osc: string, ocn: string)

  /** The `ocn` group: an ordinary collector number. */
  predicate IsOrdinary(t: string)
  {
    MatchOrdinary(t).Some?
  }

  /** LIST_PATTERN: a three- or four-character set code, "-", an ordinary number. */
  function MatchList(s: string): Option<ListGroups>
  {
    if |s| > 4 && RangeIn(s, 0, 4, AlphaNum) && s[4] == '-' && IsOrdinary(s[5..])
    then Some(ListGroups(s[..4], s[5..]))
    else if |s| > 3 && RangeIn(s, 0, 3, AlphaNum) && s[3] == '-' && IsOrdinary(s[4..])
    then Some(ListGroups(s[..3], s[4..]))
    else None
  }

  lemma MatchListExactly(s: string, g: ListGroups)
    ensures MatchList(s) == Some(g) <==>
      s == g.osc + "-" + g.ocn && 3 <= |g.osc| <= 4 && AllIn(g.osc, AlphaNum) && IsOrdinary(g.ocn)
  {
    if |s| > 3 {
      RangeInSlice(s, 0, 3, AlphaNum);
      assert s[..3] == s[0..3];
    }
    if |s| > 4 {
      RangeInSlice(s, 0, 4, AlphaNum);
      assert s[..4] == s[0..4];
    }
    if MatchList(s) == Some(g) {
      assert s == g.osc + "-" + g.ocn;
    }
    if s == g.osc + "-" + g.ocn && 3 <= |g.osc| <= 4 {
      var k := |g.osc|;
      assert s[..k] == g.osc;
      assert s[k + 1..] == g.ocn;
      assert s[k] == '-';
      assert k == 3 ==> !InClass(s[3], AlphaNum);
    }
  }

  // ---------------------------------------------------------------------
  // COLLECTOR_NUMBER_COMPARATOR (ScryfallPrint.java:56-116)

  /** Lines 94-115: list numbers, then the plain string fallback. */
  function CompareLists(s1: string, s2: string): Result<int>
  {
    var l1, l2 := MatchList(s1), MatchList(s2);
    if l1.Some? && l2.Some? then
      if l1.value.osc != l2.value.osc then Ok(StrCompare(l1.value.osc, l2.value.osc))
      else
        var o1, o2 := Of(l1.value.ocn), Of(l2.value.ocn);
        if o1.Err? then Err(o1.error)
        else if o2.Err? then Err(o2.error)
        else if o1.value.Some? && o2.value.Some? then Ok(OrdinaryCompare(o1.value.value, o2.value.value))
        else if o1.value.Some? || o2.value.Some? then Ok(if o1.value.Some? then -1 else 1)
        else Ok(StrCompare(s1, s2))
    else if l1.Some? || l2.Some? then Ok(if l1.Some? then -1 else 1)
    else Ok(StrCompare(s1, s2))
  }

  /** Lines 81-92: arena numbers. */
  function CompareArena(s1: string, s2: string): Result<int>
  {
    var a1, a2 := MatchArena(s1), MatchArena(s2);
    if a1.Some? && a2.Some? then
      var n1, n2 := DigitsValue(a1.value.number), DigitsValue(a2.value.number);
      if n1 != n2 then Ok(n1 - n2) else Ok(StrCompare(a1.value.name, a2.value.name))
    else if a1.Some? || a2.Some? then Ok(if a1.Some? then -1 else 1)
    else CompareLists(s1, s2)
  }

  /** Lines 65-79: year-coded numbers. */
  function CompareYears(s1: string, s2: string): Result<int>
  {
    var y1, y2 := MatchYear(s1), MatchYear(s2);
    if y1.Some? && y2.Some? then
      if y1.value.year != y2.value.year then Ok(StrCompare(y1.value.year, y2.value.year))
      else
        var n1, n2 := DigitsValue(y1.value.number), DigitsValue(y2.value.number);
        if n1 != n2 then Ok(n1 - n2)
        else if y1.value.marked && !y2.value.marked then Ok(1)
        else if !y1.value.marked && y2.value.marked then Ok(-1)
        else Ok(0)
    else if y1.Some? || y2.Some? then Ok(if y1.Some? then -1 else 1)
    else CompareArena(s1, s2)
  }

  /** The comparator; Err when Integer.parseInt overflows on an ordinary number. */
  function Compare(s1: string, s2: string): Result<int>
  {
    var o1, o2 := Of(s1), Of(s2);
    if o1.Err? then Err(o1.error)
    else if o2.Err? then Err(o2.error)
    else if o1.value.Some? && o2.value.Some? then Ok(OrdinaryCompare(o1.value.value, o2.value.value))
    else if o1.value.Some? || o2.value.Some? then Ok(if o1.value.Some? then -1 else 1)
    else CompareYears(s1, s2)
  }

  /** The dialect a number is recognised as: 0 ordinary, 1 year-coded, 2 arena, 3 list, 4 none. */
  function Tier(s: string): nat
  {
    if MatchOrdinary(s).Some? then 0
    else if MatchYear(s).Some? then 1
    else if MatchArena(s).Some? then 2
    else if MatchList(s).Some? then 3
    else 4
  }

  /** Of throws only on an ordinary number whose digits exceed Integer.MAX_VALUE. */
  lemma OfFailsOnlyOnOrdinary(s: string)
    ensures Of(s).Err? ==> Tier(s) == 0 && Of(s) == Err(NumberFormat)
    ensures Of(s).Ok? ==> (Of(s).value.Some? <==> Tier(s) == 0)
  {
  }

  /** A number recognised at an earlier tier sorts first. */
  lemma EarlierTierFirst(a: string, b: string)
    requires Tier(a) < Tier(b)
    ensures Compare(a, b) == if Of(a).Err? then Err(NumberFormat) else Ok(-1)
    ensures Compare(b, a) == if Of(a).Err? then Err(NumberFormat) else Ok(1)
  {
    OfFailsOnlyOnOrdinary(a);
    OfFailsOnlyOnOrdinary(b);
  }

  /** Two unrecognised numbers compare as plain strings. */
  lemma UnrecognisedCompareAsStrings(a: string, b: string)
    requires Tier(a) == 4 && Tier(b) == 4
    ensures Compare(a, b) == Ok(StrCompare(a, b))
  {
    OfFailsOnlyOnOrdinary(a);
    OfFailsOnlyOnOrdinary(b);
  }

  lemma CompareListsAntisymmetric(a: string, b: string)
    ensures CompareLists(a, b).Err? <==> CompareLists(b, a).Err?
    ensures CompareLists(a, b).Ok? ==> CompareLists(a, b).value == -CompareLists(b, a).value
  {
    StrCompareAntisymmetric(a, b);
    var l1, l2 := MatchList(a), MatchList(b);
    if l1.Some? && l2.Some? {
      StrCompareAntisymmetric(l1.value.osc, l2.value.osc);
      var o1, o2 := Of(l1.value.ocn), Of(l2.value.ocn);
      if o1.Ok? && o2.Ok? && o1.value.Some? && o2.value.Some? {
        OrdinaryCompareAntisymmetric(o1.value.value, o2.value.value);
      }
    }
  }

  lemma CompareArenaAntisymmetric(a: string, b: string)
    ensures CompareArena(a, b).Err? <==> CompareArena(b, a).Err?
    ensures CompareArena(a, b).Ok? ==> CompareArena(a, b).value == -CompareArena(b, a).value
  {
    CompareListsAntisymmetric(a, b);
    var a1, a2 := MatchArena(a), MatchArena(b);
    if a1.Some? && a2.Some? {
      StrCompareAntisymmetric(a1.value.name, a2.value.name);
    }
  }

  lemma CompareYearsAntisymmetric(a: string, b: string)
    ensures CompareYears(a, b).Err? <==> CompareYears(b, a).Err?
    ensures CompareYears(a, b).Ok? ==> CompareYears(a, b).value == -CompareYears(b, a).value
  {
    CompareArenaAntisymmetric(a, b);
    var y1, y2 := MatchYear(a), MatchYear(b);
    if y1.Some? && y2.Some? {
      StrCompareAntisymmetric(y1.value.year, y2.value.year);
    }
  }

  /** The comparator is antisymmetric: swapping the arguments negates the result, and either both calls throw or neither does. */
  lemma CompareAntisymmetric(a: string, b: string)
    ensures Compare(a, b).Err? <==> Compare(b, a).Err?
    ensures Compare(a, b).Ok? ==> Compare(a, b).value == -Compare(b, a).value
  {
    CompareYearsAntisymmetric(a, b);
    var o1, o2 := Of(a), Of(b);
    if o1.Ok? && o2.Ok? && o1.value.Some? && o2.value.Some? {
      OrdinaryCompareAntisymmetric(o1.value.value, o2.value.value);
    }
  }

  /** A number compares equal to itself (unless it overflows). */
  lemma CompareReflexive(s: string)
    ensures Compare(s, s).Ok? ==> Compare(s, s).value == 0
  {
    CompareAntisymmetric(s, s);
  }

  /** A character an ordinary number may contain. */
  predicate OrdinaryChar(c: char)
  {
    InClass(c, Digit) || InClass(c, PrefixChar) || InClass(c, SuffixChar)
  }

  /** Every character of an ordinary number is a digit, a prefix character or a suffix character. */
  lemma OrdinaryChars(s: string)
    ensures MatchOrdinary(s).Some? ==> forall i :: 0 <= i < |s| ==> OrdinaryChar(s[i])
  {
    if WithPrefix(s).Some? {
      var i := LeadDigit(s);
      var j := SpanFrom(s, i, PrefixChar);
      var k := NumberEnd(s, j).value;
      assert forall t :: 0 <= t < i ==> IsDigit(s[t]);
      assert RangeIn(s, j, k, Digit) && RangeIn(s, k, |s|, SuffixChar);
    } else if WithoutPrefix(s).Some? {
      var k := NumberEnd(s, 0).value;
      assert RangeIn(s, 0, k, Digit) && RangeIn(s, k, |s|, SuffixChar);
    }
  }

  /** Year-coded, arena and list numbers all contain '-', so none of them is an ordinary number. */
  lemma DashedIsNotOrdinary(s: string)
    ensures MatchOrdinary(s).Some? ==> '-' !in s
    ensures '-' in s ==> Of(s) == Ok(None)
  {
    OrdinaryChars(s);
  }

  /** Two bare decimal numbers within int range compare by numeric value, so "2" < "10" and "07" ties "7". */
  lemma BareNumbersCompareNumerically(a: string, b: string)
    requires |a| >= 1 && AllDigits(a) && DigitsValue(a) <= IntMax
    requires |b| >= 1 && AllDigits(b) && DigitsValue(b) <= IntMax
    ensures Compare(a, b) == Ok(IntCompare(DigitsValue(a), DigitsValue(b)))
  {
    BareNumberOf(a);
    BareNumberOf(b);
  }

  lemma BareNumberOf(a: string)
    requires |a| >= 1 && AllDigits(a) && DigitsValue(a) <= IntMax
    ensures Of(a) == Ok(Some(Ordinary("", DigitsValue(a), "")))
  {
    assert a == "" + a + "";
    MatchOrdinaryComplete(a, Groups("", a, ""));
  }

  /** Two year-coded numbers compare by year, then by number, and the unmarked form precedes the "p" form. */
  lemma YearCodedOrder(a: string, b: string)
    requires MatchYear(a).Some? && MatchYear(b).Some?
    ensures var y1, y2 := MatchYear(a).value, MatchYear(b).value;
      && Compare(a, b).Ok?
      && (y1.year != y2.year ==> Sign(Compare(a, b).value) == Sign(StrCompare(y1.year, y2.year)))
      && (y1.year == y2.year && DigitsValue(y1.number) != DigitsValue(y2.number) ==>
            Compare(a, b).value == DigitsValue(y1.number) - DigitsValue(y2.number))
      && (y1.year == y2.year && DigitsValue(y1.number) == DigitsValue(y2.number) ==>
            Compare(a, b).value == (if y1.marked == y2.marked then 0 else if y1.marked then 1 else -1))
  {
    DashedIsNotOrdinary(a);
    DashedIsNotOrdinary(b);
    var o := if |a| > 0 && a[0] == 'p' then 1 else 0;
    assert a[o + 4] == '-';
    var o' := if |b| > 0 && b[0] == 'p' then 1 else 0;
    assert b[o' + 4] == '-';
  }

  /** Two arena numbers compare by their three-digit number, then by the name after the dash. */
  lemma ArenaOrder(a: string, b: string)
    requires MatchArena(a).Some? && MatchArena(b).Some?
    ensures var a1, a2 := MatchArena(a).value, MatchArena(b).value;
      && Compare(a, b).Ok?
      && (DigitsValue(a1.number) != DigitsValue(a2.number) ==>
            Compare(a, b).value == DigitsValue(a1.number) - DigitsValue(a2.number))
      && (DigitsValue(a1.number) == DigitsValue(a2.number) ==>
            Compare(a, b).value == StrCompare(a1.name, a2.name))
  {
    ArenaIsNotYearCoded(a);
    ArenaIsNotYearCoded(b);
  }

  /** An arena number is neither an ordinary nor a year-coded number. */
  lemma ArenaIsNotYearCoded(s: string)
    requires MatchArena(s).Some?
    ensures Of(s) == Ok(None) && MatchYear(s).None?
  {
    assert s[3] == '-';
    DashedIsNotOrdinary(s);
  }

  /**
   * Two numbers recognised as list numbers compare by their set codes when
   * those differ, and otherwise as the ordinary numbers after the dash.
   */
  lemma ListOrder(a: string, b: string)
    requires Tier(a) == 3 && Tier(b) == 3
    ensures var l1, l2 := MatchList(a).value, MatchList(b).value;
      && (l1.osc != l2.osc ==> Compare(a, b) == Ok(StrCompare(l1.osc, l2.osc)))
      && (l1.osc == l2.osc ==> Compare(a, b) == Compare(l1.ocn, l2.ocn))
  {
    OfFailsOnlyOnOrdinary(a);
    OfFailsOnlyOnOrdinary(b);
    var l1, l2 := MatchList(a).value, MatchList(b).value;
    OfFailsOnlyOnOrdinary(l1.ocn);
    OfFailsOnlyOnOrdinary(l2.ocn);
  }
}
