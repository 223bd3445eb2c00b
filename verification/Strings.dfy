/** The string operations the service relies on: `strip`, `lstrip("/")`, ASCII case mapping,
    substring search, `split` on one character and `replace(c, "")`. */
module Strings {

  datatype Option<+T> = None | Some(value: T) {
    function UnwrapOr(default: T): T { if Some? then value else default }
  }

  /** White space as the runtime's text type sees it. */
  predicate IsSpace(c: char) {
    || '\t' <= c <= '\r' || '\U{1C}' <= c <= ' ' || c == '\U{85}' || c == '\U{A0}' || c == '\U{1680}'
    || '\U{2000}' <= c <= '\U{200A}' || c == '\U{2028}' || c == '\U{2029}' || c == '\U{202F}'
    || c == '\U{205F}' || c == '\U{3000}'
  }

  function LowerChar(c: char): (r: char)
    ensures IsSpace(r) <==> IsSpace(c)
    ensures r == '/' <==> c == '/'
    ensures !('A' <= r <= 'Z')
  {
    if 'A' <= c <= 'Z' then c - 'A' + 'a' else c
  }

  function UpperChar(c: char): (r: char)
    ensures IsSpace(r) <==> IsSpace(c)
    ensures LowerChar(r) == LowerChar(c)
  {
    if 'a' <= c <= 'z' then c - 'a' + 'A' else c
  }

  function Lower(s: string): (r: string) {
    seq(|s|, i requires 0 <= i < |s| => LowerChar(s[i]))
  }

  function Upper(s: string): (r: string) {
    seq(|s|, i requires 0 <= i < |s| => UpperChar(s[i]))
  }

  function LStripSpace(s: string): (r: string)
    ensures r != [] ==> !IsSpace(r[0])
  {
    if s != [] && IsSpace(s[0]) then LStripSpace(s[1..]) else s
  }

  function RStripSpace(s: string): (r: string)
    ensures r != [] ==> !IsSpace(r[|r| - 1])
    ensures s != [] && !IsSpace(s[0]) ==> r != [] && r[0] == s[0]
  {
    if s != [] && IsSpace(s[|s| - 1]) then RStripSpace(s[..|s| - 1]) else s
  }

  function Strip(s: string): (r: string)
    ensures r != [] ==> !IsSpace(r[0]) && !IsSpace(r[|r| - 1])
  {
    RStripSpace(LStripSpace(s))
  }

  function LStripSlash(s: string): (r: string)
    ensures r != [] ==> r[0] != '/'
  {
    if s != [] && s[0] == '/' then LStripSlash(s[1..]) else s
  }

  predicate StartsWith(s: string, prefix: string) {
    prefix <= s
  }

  predicate OccursAt(s: string, needle: string, k: nat) {
    k + |needle| <= |s| && s[k..k + |needle|] == needle
  }

  predicate Contains(s: string, needle: string) {
    exists k | 0 <= k <= |s| :: OccursAt(s, needle, k)
  }

  /** A text contains nothing as long as itself but itself. */
  lemma ContainsItselfAlone(s: string, needle: string)
    requires |s| <= |needle|
    ensures Contains(s, needle) <==> s == needle
  {
    assert s[0..0 + |s|] == s;
    if s == needle { assert OccursAt(s, needle, 0); }
  }

  /** `s.split(c)`: always at least one part. */
  function Split(s: string, c: char): (parts: seq<string>)
    ensures |parts| >= 1
  {
    if s == [] then [""]
    else if s[0] == c then [""] + Split(s[1..], c)
    else var rest := Split(s[1..], c); [[s[0]] + rest[0]] + rest[1..]
  }

  function Join(parts: seq<string>, c: char): (s: string)
    requires |parts| >= 1
  {
    if |parts| == 1 then parts[0] else parts[0] + [c] + Join(parts[1..], c)
  }

  /** `s.replace(c, "")` */
  function Without(s: string, c: char): (r: string)
    ensures c !in r
  {
    if s == [] then [] else (if s[0] == c then [] else [s[0]]) + Without(s[1..], c)
  }

  predicate AllSpace(s: string) { forall i | 0 <= i < |s| :: IsSpace(s[i]) }

  predicate AllSlashes(s: string) { forall i | 0 <= i < |s| :: s[i] == '/' }

  /** No white space at either end, which is what `Strip` establishes. */
  predicate Trimmed(s: string) { s != [] ==> !IsSpace(s[0]) && !IsSpace(s[|s| - 1]) }

  lemma {:induction false} LStripSpaceDropsPrefix(w: string, s: string)
    requires AllSpace(w)
    ensures LStripSpace(w + s) == LStripSpace(s)
  {
    if w == [] {
      assert w + s == s;
    } else {
      assert (w + s)[1..] == w[1..] + s;
      LStripSpaceDropsPrefix(w[1..], s);
    }
  }

  lemma {:induction false} RStripSpaceDropsSuffix(s: string, w: string)
    requires AllSpace(w)
    ensures RStripSpace(s + w) == RStripSpace(s)
  {
    if w == [] {
      assert s + w == s;
    } else {
      assert (s + w)[..|s + w| - 1] == s + w[..|w| - 1];
      RStripSpaceDropsSuffix(s, w[..|w| - 1]);
    }
  }

  lemma {:induction false} AllSpaceStripsToNothing(s: string)
    requires AllSpace(s)
    ensures LStripSpace(s) == []
  {
    if s != [] { AllSpaceStripsToNothing(s[1..]); }
  }

  /** `Strip` removes any white space around an already trimmed core, and nothing else. */
  lemma StripCore(before: string, core: string, after: string)
    requires AllSpace(before) && AllSpace(after) && Trimmed(core)
    ensures Strip(before + core + after) == core
  {
    assert before + core + after == before + (core + after);
    LStripSpaceDropsPrefix(before, core + after);
    if core == [] {
      assert core + after == after;
      AllSpaceStripsToNothing(after);
    } else {
      assert LStripSpace(core + after) == core + after;
      RStripSpaceDropsSuffix(core, after);
    }
  }

  lemma TrimmedIsKept(s: string)
    requires Trimmed(s)
    ensures Strip(s) == s
  {
  }

  lemma {:induction false} LeftSpace(s: string) returns (before: string)
    ensures AllSpace(before) && s == before + LStripSpace(s)
  {
    if s != [] && IsSpace(s[0]) {
      var rest := LeftSpace(s[1..]);
      before := [s[0]] + rest;
    } else {
      before := [];
    }
  }

  lemma {:induction false} RightSpace(s: string) returns (after: string)
    ensures AllSpace(after) && s == RStripSpace(s) + after
  {
    if s != [] && IsSpace(s[|s| - 1]) {
      var rest := RightSpace(s[..|s| - 1]);
      after := rest + [s[|s| - 1]];
    } else {
      after := [];
    }
  }

  lemma AllSpaceAppend(a: string, b: string)
    requires AllSpace(a) && AllSpace(b)
    ensures AllSpace(a + b)
  {
  }

  /** Every string is white space around its stripped core. */
  lemma StripDecomposes(s: string) returns (before: string, after: string)
    ensures AllSpace(before) && AllSpace(after) && s == before + Strip(s) + after
  {
    before := LeftSpace(s);
    after := RightSpace(LStripSpace(s));
    assert before + (Strip(s) + after) == before + Strip(s) + after;
  }

  lemma {:induction false} LStripSlashDropsPrefix(w: string, s: string)
    requires AllSlashes(w)
    ensures LStripSlash(w + s) == LStripSlash(s)
  {
    if w == [] {
      assert w + s == s;
    } else {
      assert (w + s)[1..] == w[1..] + s;
      LStripSlashDropsPrefix(w[1..], s);
    }
  }

  lemma {:induction false} LStripSpaceLower(s: string)
    ensures LStripSpace(Lower(s)) == Lower(LStripSpace(s))
  {
    if s != [] && IsSpace(s[0]) {
      assert Lower(s)[1..] == Lower(s[1..]);
      LStripSpaceLower(s[1..]);
    }
  }

  lemma {:induction false} RStripSpaceLower(s: string)
    ensures RStripSpace(Lower(s)) == Lower(RStripSpace(s))
  {
    if s != [] && IsSpace(s[|s| - 1]) {
      assert Lower(s)[..|s| - 1] == Lower(s[..|s| - 1]);
      RStripSpaceLower(s[..|s| - 1]);
    }
  }

  lemma StripLower(s: string)
    ensures Strip(Lower(s)) == Lower(Strip(s))
  {
    LStripSpaceLower(s);
    RStripSpaceLower(LStripSpace(s));
  }

  lemma {:induction false} LStripSlashLower(s: string)
    ensures LStripSlash(Lower(s)) == Lower(LStripSlash(s))
  {
    if s != [] && s[0] == '/' {
      assert Lower(s)[1..] == Lower(s[1..]);
      LStripSlashLower(s[1..]);
    }
  }

  /** Splitting undoes joining, as long as no part holds the separator. */
  lemma {:induction false} SplitJoin(parts: seq<string>, c: char)
    requires |parts| >= 1
    requires forall i | 0 <= i < |parts| :: c !in parts[i]
    ensures Split(Join(parts, c), c) == parts
    decreases |parts|, |parts[0]|
  {
    var s := Join(parts, c);
    if parts[0] == [] {
      if |parts| > 1 {
        assert s == [c] + Join(parts[1..], c);
        assert s[1..] == Join(parts[1..], c);
        SplitJoin(parts[1..], c);
        assert parts == [parts[0]] + parts[1..];
      }
    } else {
      var head := parts[0];
      var shorter := [head[1..]] + parts[1..];
      assert s == [head[0]] + Join(shorter, c) by {
        assert head == [head[0]] + head[1..];
        if |parts| > 1 { assert shorter[1..] == parts[1..]; }
      }
      assert s[1..] == Join(shorter, c);
      SplitJoin(shorter, c);
      assert parts == [[head[0]] + head[1..]] + shorter[1..];
    }
  }

  /** Joining undoes splitting, and no part holds the separator. */
  lemma {:induction false} JoinSplit(s: string, c: char)
    ensures Join(Split(s, c), c) == s
    ensures forall i | 0 <= i < |Split(s, c)| :: c !in Split(s, c)[i]
  {
    if s != [] {
      JoinSplit(s[1..], c);
      var rest := Split(s[1..], c);
      if s[0] == c {
        assert Split(s, c)[1..] == rest;
      } else {
        var parts := Split(s, c);
        assert parts[1..] == rest[1..];
        assert s == [s[0]] + s[1..];
      }
    }
  }

  lemma {:induction false} WithoutNothing(s: string, c: char)
    requires c !in s
    ensures Without(s, c) == s
  {
    if s != [] {
      WithoutNothing(s[1..], c);
      assert s == [s[0]] + s[1..];
    }
  }

  /** Upper case sees a string only up to its lower case. */
  lemma UpperOfLower(s: string, s': string)
    requires Lower(s) == Lower(s')
    ensures Upper(s) == Upper(s')
  {
    assert |s| == |Lower(s)| == |s'|;
    forall i | 0 <= i < |s| ensures UpperChar(s[i]) == UpperChar(s'[i]) {
      assert LowerChar(s[i]) == Lower(s)[i] == LowerChar(s'[i]);
    }
  }

  /** Outer white space, added or already there, is stripped away. */
  lemma StripIgnoresOuterSpace(before: string, s: string, after: string)
    requires AllSpace(before) && AllSpace(after)
    ensures Strip(before + s + after) == Strip(s)
  {
    var b, a := StripDecomposes(s);
    var core := Strip(s);
    assert before + s + after == (before + b) + core + (a + after);
    AllSpaceAppend(before, b);
    AllSpaceAppend(a, after);
    StripCore(before + b, core, a + after);
  }

  lemma StripSameLower(s: string, s': string)
    requires Lower(s) == Lower(s')
    ensures Lower(Strip(s)) == Lower(Strip(s'))
  {
    StripLower(s);
    StripLower(s');
  }

  lemma LStripSlashSameLower(s: string, s': string)
    requires Lower(s) == Lower(s')
    ensures Lower(LStripSlash(s)) == Lower(LStripSlash(s'))
  {
    LStripSlashLower(s);
    LStripSlashLower(s');
  }

  lemma LowerAppend(s: string, t: string)
    ensures Lower(s + t) == Lower(s) + Lower(t)
  {
  }

  function OrElse(text: string, otherwise: string): string { if text != "" then text else otherwise }

  // ------------------------------------------------------------------ first matches

  /** The first item that `matches`. */
  function First<T>(items: seq<T>, matches: T -> bool): Option<T> {
    if items == [] then None
    else if matches(items[0]) then Some(items[0])
    else First(items[1..], matches)
  }

  predicate IsFirstAt<T>(items: seq<T>, matches: T -> bool, k: nat) {
    k < |items| && matches(items[k]) && forall j | 0 <= j < k :: !matches(items[j])
  }

  lemma {:induction false} FirstIsAt<T>(items: seq<T>, matches: T -> bool, k: nat)
    requires IsFirstAt(items, matches, k)
    ensures First(items, matches) == Some(items[k])
  {
    if k > 0 {
      forall j | 0 <= j < k - 1 ensures !matches(items[1..][j]) { assert items[1..][j] == items[j + 1]; }
      FirstIsAt(items[1..], matches, k - 1);
    }
  }

  lemma {:induction false} FirstFound<T>(items: seq<T>, matches: T -> bool) returns (k: nat)
    requires First(items, matches).Some?
    ensures IsFirstAt(items, matches, k)
  {
    if matches(items[0]) {
      k := 0;
    } else {
      k := FirstFound(items[1..], matches);
      forall j | 0 <= j < k + 1 ensures !matches(items[j]) { if j > 0 { assert items[1..][j - 1] == items[j]; } }
      k := k + 1;
    }
  }
}
