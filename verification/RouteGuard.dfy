/** The transport boundary's route guard and the identifier validators that feed it. */
module RouteGuard {
  import opened Strings

  datatype Family = Family(verb: string, prefix: string, segments: nat)

  /** Everything the guard is configured with. `SHIPPED` is the table in the source; the results
      hold of every table of the same shape. */
  datatype Policy = Policy(
    methods: set<string>,
    exact: set<(string, string)>,
    qaRoute: (string, string),
    families: seq<Family>,
    markers: seq<string>)
  {
    predicate Listed(verb: string, path: string, qa: bool) {
      (verb, path) in exact || (qa && (verb, path) == qaRoute)
    }

    predicate FamilyAdmits(i: nat, verb: string, path: string)
      requires i < |families|
    {
      && families[i].prefix <= path
      && verb == families[i].verb
      && SegmentsOk(path[|families[i].prefix|..], families[i].segments)
    }

    predicate FamilyRead(verb: string, path: string) {
      exists i | 0 <= i < |families| :: FamilyAdmits(i, verb, path)
    }

    predicate InFamily(path: string) { exists i | 0 <= i < |families| :: families[i].prefix <= path }

    predicate Marked(path: string) { exists i | 0 <= i < |markers| :: Contains(path, markers[i]) }

    /** The rule for a normalized pair, with no order of evaluation in it. */
    predicate PermittedNormal(verb: string, path: string, qa: bool) {
      verb in methods && (Listed(verb, path, qa) || FamilyRead(verb, path) || (!InFamily(path) && !Marked(path)))
    }

    predicate Permitted(verb: string, path: string, qa: bool) {
      PermittedNormal(NormalMethod(verb), NormalPath(path), qa)
    }

    /** Prefixes are plain lower-case paths, none is a prefix of another, no listed route is in a
        family, and the QA route is a forbidden one that only the flag can admit. */
    ghost predicate WellFormed() {
      && (forall i | 0 <= i < |families| :: families[i].verb in methods && PlainPrefix(families[i].prefix))
      && (forall i, j | 0 <= i < |families| && 0 <= j < |families| && i != j ::
            !(families[i].prefix <= families[j].prefix))
      && (forall i, route | 0 <= i < |families| && (route in exact || route == qaRoute) ::
            !(families[i].prefix <= route.1))
      && qaRoute !in exact && qaRoute.0 in methods && Marked(qaRoute.1)
    }
  }

  predicate PlainPrefix(prefix: string) {
    && |prefix| >= 2 && prefix[0] == '/' && prefix[1] != '/'
    && forall i | 0 <= i < |prefix| :: 'a' <= prefix[i] <= 'z' || prefix[i] == '/' || prefix[i] == '-'
  }

  const SHIPPED := Policy(
    {"GET", "POST"},
    {("POST", "/mcp/user/bundle/assign"), ("POST", "/mcp/user/bundle/card/checkout"),
     ("POST", "/mcp/wallet/top-up/checkout"), ("GET", "/mcp/wallet/top-up/options")},
    ("POST", "/user/bundle/assign-top-up"),
    [Family("GET", "/mcp/user/bundle/card/status/", 1), Family("GET", "/mcp/wallet/top-up/status/", 1),
     Family("GET", "/user/consumption/", 1), Family("GET", "/user/related-topup/", 2)],
    ["bundle/assign", "bundle/card", "verify_order_otp", "top-up", "topup", "wallet/top-up", "user_wallet_by_id",
     "voucher", "promotion", "promo", "callback", "payment", "stripe", "order/", "consumption", "translate_bundle",
     "translate_tag"])

  /** The unreserved characters of section 2.3 of RFC 3986. */
  predicate Unreserved(c: char) {
    'a' <= c <= 'z' || 'A' <= c <= 'Z' || '0' <= c <= '9' || c == '.' || c == '_' || c == '~' || c == '-'
  }

  predicate PlainSegment(s: string) {
    1 <= |s| <= 128 && forall i | 0 <= i < |s| :: Unreserved(s[i])
  }

  /** The segment pattern as a regular expression engine applies it: its final anchor also
      matches just before one trailing newline. */
  predicate MatchesSegment(s: string) {
    PlainSegment(s) || (s != [] && s[|s| - 1] == '\n' && PlainSegment(s[..|s| - 1]))
  }

  predicate SegmentsOk(remainder: string, expected: nat) {
    var parts := Split(remainder, '/');
    |parts| == expected && forall i | 0 <= i < |parts| :: MatchesSegment(parts[i])
  }

  function NormalMethod(verb: string): string { Upper(Strip(verb)) }

  function NormalPath(path: string): string { Lower("/" + LStripSlash(Strip(path))) }

  lemma ShippedFamiliesAreApart()
    ensures forall i, j | 0 <= i < |SHIPPED.families| && 0 <= j < |SHIPPED.families| && i != j ::
      !(SHIPPED.families[i].prefix <= SHIPPED.families[j].prefix)
  {
    forall i, j | 0 <= i < |SHIPPED.families| && 0 <= j < |SHIPPED.families| && i != j
      ensures !(SHIPPED.families[i].prefix <= SHIPPED.families[j].prefix)
    {
      var a, b := SHIPPED.families[i].prefix, SHIPPED.families[j].prefix;
      assert a[1] != b[1] || a[5] != b[5] || a[6] != b[6];
    }
  }

  lemma ShippedRoutesAreApart()
    ensures forall i, route | 0 <= i < |SHIPPED.families| && (route in SHIPPED.exact || route == SHIPPED.qaRoute) ::
      !(SHIPPED.families[i].prefix <= route.1)
  {
    forall i, route | 0 <= i < |SHIPPED.families| && (route in SHIPPED.exact || route == SHIPPED.qaRoute)
      ensures !(SHIPPED.families[i].prefix <= route.1)
    {
      var a, b := SHIPPED.families[i].prefix, route.1;
      if |a| <= |b| {
        assert a[1] != b[1] || a[5] != b[5] || a[6] != b[6]
          || (|a| > 19 && a[19] != b[19]) || (|a| > 22 && a[22] != b[22]);
      }
    }
  }

  lemma CardStatusIsPlain() ensures PlainPrefix("/mcp/user/bundle/card/status/") {}

  lemma WalletStatusIsPlain() ensures PlainPrefix("/mcp/wallet/top-up/status/") {}

  lemma ConsumptionIsPlain() ensures PlainPrefix("/user/consumption/") {}

  lemma RelatedTopupIsPlain() ensures PlainPrefix("/user/related-topup/") {}

  lemma ShippedPrefixesArePlain()
    ensures forall i | 0 <= i < |SHIPPED.families| ::
      SHIPPED.families[i].verb in SHIPPED.methods && PlainPrefix(SHIPPED.families[i].prefix)
  {
    CardStatusIsPlain();
    WalletStatusIsPlain();
    ConsumptionIsPlain();
    RelatedTopupIsPlain();
  }

  lemma ShippedQaRouteIsForbidden()
    ensures SHIPPED.qaRoute !in SHIPPED.exact && SHIPPED.qaRoute.0 in SHIPPED.methods
    ensures SHIPPED.Marked(SHIPPED.qaRoute.1)
  {
    var p, marker := SHIPPED.qaRoute.1, SHIPPED.markers[0];
    assert |marker| == 13 && forall k | 0 <= k < 13 :: p[6 + k] == marker[k];
    assert p[6..19] == marker;
    assert OccursAt(p, marker, 6);
    assert Contains(p, marker);
  }

  /** The shipped table has the shape every result below asks for. */
  lemma ShippedPolicyIsWellFormed()
    ensures SHIPPED.WellFormed()
  {
    var shipped := SHIPPED;
    ShippedFamiliesAreApart();
    ShippedRoutesAreApart();
    ShippedPrefixesArePlain();
    ShippedQaRouteIsForbidden();
  }

  lemma FamiliesAreDisjoint(policy: Policy, path: string, i: nat, j: nat)
    requires policy.WellFormed() && i < |policy.families| && j < |policy.families|
    requires policy.families[i].prefix <= path && policy.families[j].prefix <= path
    ensures i == j
  {
    var a, b := policy.families[i].prefix, policy.families[j].prefix;
    assert a <= b || b <= a;
  }

  /** The guard as it runs: the allowlists, then the families, then the marker scan, each with an
      early exit. It decides exactly the order-free rule. */
  method EnforceRoute(policy: Policy, verb: string, path: string, qa: bool) returns (permitted: bool)
    requires policy.WellFormed()
    ensures permitted == policy.Permitted(verb, path, qa)
  {
    permitted := EnforceNormal(policy, NormalMethod(verb), NormalPath(path), qa);
  }

  method EnforceNormal(policy: Policy, m: string, p: string, qa: bool) returns (permitted: bool)
    requires policy.WellFormed()
    ensures permitted == policy.PermittedNormal(m, p, qa)
  {
    if m !in policy.methods { return false; }
    if (m, p) in policy.exact { return true; }
    if qa && (m, p) == policy.qaRoute { return true; }
    for k := 0 to |policy.families|
      invariant forall i | 0 <= i < k :: !(policy.families[i].prefix <= p)
    {
      var f := policy.families[k];
      if StartsWith(p, f.prefix) {
        forall i: nat | i < |policy.families| && policy.families[i].prefix <= p ensures i == k {
          FamiliesAreDisjoint(policy, p, i, k);
        }
        permitted := m == f.verb && SegmentsOk(p[|f.prefix|..], f.segments);
        assert permitted == policy.FamilyAdmits(k, m, p);
        return;
      }
    }
    for k := 0 to |policy.markers|
      invariant forall i | 0 <= i < k :: !Contains(p, policy.markers[i])
    {
      if Contains(p, policy.markers[k]) { return false; }
    }
    return true;
  }

  /** The verdict depends on a path only up to case, leading slashes and outer white space, and
      on a method only up to case and outer white space. */
  lemma VerdictIsInvariant(
    policy: Policy, verb: string, verb': string, w0: string, w1: string, path: string, path': string, w2: string,
    slashes: string, w3: string, qa: bool)
    requires AllSpace(w0) && AllSpace(w1) && AllSpace(w2) && AllSpace(w3) && AllSlashes(slashes)
    requires Lower(verb) == Lower(verb') && Lower(path) == Lower(path')
    ensures policy.Permitted(w0 + verb + w1, w2 + (slashes + Strip(path)) + w3, qa)
      == policy.Permitted(verb', path', qa)
  {
    StripIgnoresOuterSpace(w0, verb, w1);
    StripSameLower(verb, verb');
    UpperOfLower(Strip(verb), Strip(verb'));
    StripCore(w2, slashes + Strip(path), w3);
    LStripSlashDropsPrefix(slashes, Strip(path));
    StripSameLower(path, path');
    LStripSlashSameLower(Strip(path), Strip(path'));
    LowerAppend("/", LStripSlash(Strip(path)));
    LowerAppend("/", LStripSlash(Strip(path')));
  }

  /** The QA flag adds exactly one (method, path) pair, and takes none away. */
  lemma QaFlagAddsOneRoute(policy: Policy, verb: string, path: string)
    requires policy.WellFormed()
    ensures policy.Permitted(verb, path, true) && !policy.Permitted(verb, path, false)
       <==> (NormalMethod(verb), NormalPath(path)) == policy.qaRoute
    ensures policy.Permitted(verb, path, false) ==> policy.Permitted(verb, path, true)
  {
    assert policy.FamilyRead(policy.qaRoute.0, policy.qaRoute.1) ==> policy.InFamily(policy.qaRoute.1);
  }

  /** A permitted path that spells a forbidden marker is an allowlisted pair, or a read in a
      reference family with exactly the family's number of segments. Each of those segments is a
      plain one exactly when the path holds no newline. */
  lemma MarkedPathsAreListedOrReferences(policy: Policy, m: string, p: string, qa: bool)
    requires policy.WellFormed() && policy.PermittedNormal(m, p, qa) && policy.Marked(p)
    ensures policy.Listed(m, p, qa) ||
      exists i | 0 <= i < |policy.families| :: policy.families[i].verb == m && ReferenceShape(p, policy.families[i])
  {
    if !policy.Listed(m, p, qa) {
      var i :| 0 <= i < |policy.families| && policy.FamilyAdmits(i, m, p);
      AdmittedShape(p, policy.families[i]);
    }
  }

  lemma AdmittedShape(p: string, f: Family)
    requires f.prefix <= p && SegmentsOk(p[|f.prefix|..], f.segments) && '\n' !in f.prefix
    ensures ReferenceShape(p, f)
  {
    PlainIffNoNewline(p[|f.prefix|..]);
    assert p == f.prefix + p[|f.prefix|..];
  }

  ghost predicate ReferenceShape(path: string, f: Family) {
    f.prefix <= path &&
    var parts := Split(path[|f.prefix|..], '/');
    |parts| == f.segments && ((forall i | 0 <= i < |parts| :: PlainSegment(parts[i])) <==> '\n' !in path)
  }

  lemma PlainIffNoNewline(rest: string)
    requires forall i | 0 <= i < |Split(rest, '/')| :: MatchesSegment(Split(rest, '/')[i])
    ensures (forall i | 0 <= i < |Split(rest, '/')| :: PlainSegment(Split(rest, '/')[i])) <==> '\n' !in rest
  {
    var parts := Split(rest, '/');
    JoinSplit(rest, '/');
    JoinHolds(parts, '/', '\n');
    forall i | 0 <= i < |parts| ensures PlainSegment(parts[i]) <==> '\n' !in parts[i] {
      var s := parts[i];
      if !PlainSegment(s) { assert s[|s| - 1] == '\n'; }
      assert !Unreserved('\n');
    }
  }

  lemma {:induction false} JoinHolds(parts: seq<string>, c: char, d: char)
    requires |parts| >= 1 && c != d
    ensures d in Join(parts, c) <==> exists i | 0 <= i < |parts| :: d in parts[i]
  {
    if |parts| > 1 {
      JoinHolds(parts[1..], c, d);
      if i :| 0 <= i < |parts| && d in parts[i] {
        if i > 0 { assert parts[1..][i - 1] == parts[i]; }
      }
      if i :| 0 <= i < |parts[1..]| && d in parts[1..][i] { assert parts[i + 1] == parts[1..][i]; }
    }
  }

  /** The pattern's tolerance is real: a newline may close any segment but the last. */
  lemma NewlineSegmentIsAdmitted(policy: Policy, f: Family, head: string, last: string, qa: bool)
    requires policy.WellFormed() && f in policy.families && f.segments == 2
    requires PlainSegment(head) && PlainSegment(last)
    ensures policy.PermittedNormal(f.verb, f.prefix + Join([head + "\n", last], '/'), qa)
    ensures !PlainSegment(head + "\n")
  {
    var parts := [head + "\n", last];
    PlainFacts(head);
    PlainFacts(last);
    assert parts[0][..|head|] == head;
    assert MatchesSegment(parts[0]) && MatchesSegment(parts[1]);
    FamilyVerdict(policy, f, parts, qa);
    assert (head + "\n")[|head|] == '\n' && !Unreserved('\n');
  }

  // ------------------------------------------------------------------ validators

  predicate AsciiDigit(c: char) { '0' <= c <= '9' }

  /** The decimal digits outside ASCII. */
  predicate OtherDigit(c: char) {
    var n := c as int;
    || 0x660 <= n <= 0x669 || 0x6F0 <= n <= 0x6F9 || 0x7C0 <= n <= 0x7C9 || 0x966 <= n <= 0x96F || 0x9E6 <= n <= 0x9EF
    || 0xA66 <= n <= 0xA6F || 0xAE6 <= n <= 0xAEF || 0xB66 <= n <= 0xB6F || 0xBE6 <= n <= 0xBEF || 0xC66 <= n <= 0xC6F
    || 0xCE6 <= n <= 0xCEF || 0xD66 <= n <= 0xD6F || 0xDE6 <= n <= 0xDEF || 0xE50 <= n <= 0xE59 || 0xED0 <= n <= 0xED9
    || 0xF20 <= n <= 0xF29 || 0x1040 <= n <= 0x1049 || 0x1090 <= n <= 0x1099 || 0x17E0 <= n <= 0x17E9
    || 0x1810 <= n <= 0x1819 || 0x1946 <= n <= 0x194F || 0x19D0 <= n <= 0x19D9 || 0x1A80 <= n <= 0x1A89
    || 0x1A90 <= n <= 0x1A99 || 0x1B50 <= n <= 0x1B59 || 0x1BB0 <= n <= 0x1BB9 || 0x1C40 <= n <= 0x1C49
    || 0x1C50 <= n <= 0x1C59 || 0xA620 <= n <= 0xA629 || 0xA8D0 <= n <= 0xA8D9 || 0xA900 <= n <= 0xA909
    || 0xA9D0 <= n <= 0xA9D9 || 0xA9F0 <= n <= 0xA9F9 || 0xAA50 <= n <= 0xAA59 || 0xABF0 <= n <= 0xABF9
    || 0xFF10 <= n <= 0xFF19 || 0x104A0 <= n <= 0x104A9 || 0x10D30 <= n <= 0x10D39 || 0x11066 <= n <= 0x1106F
    || 0x110F0 <= n <= 0x110F9 || 0x11136 <= n <= 0x1113F || 0x111D0 <= n <= 0x111D9 || 0x112F0 <= n <= 0x112F9
    || 0x11450 <= n <= 0x11459 || 0x114D0 <= n <= 0x114D9 || 0x11650 <= n <= 0x11659 || 0x116C0 <= n <= 0x116C9
    || 0x11730 <= n <= 0x11739 || 0x118E0 <= n <= 0x118E9 || 0x11950 <= n <= 0x11959 || 0x11C50 <= n <= 0x11C59
    || 0x11D50 <= n <= 0x11D59 || 0x11DA0 <= n <= 0x11DA9 || 0x16A60 <= n <= 0x16A69 || 0x16AC0 <= n <= 0x16AC9
    || 0x16B50 <= n <= 0x16B59 || 0x1D7CE <= n <= 0x1D7D7 || 0x1D7D8 <= n <= 0x1D7E1 || 0x1D7E2 <= n <= 0x1D7EB
    || 0x1D7EC <= n <= 0x1D7F5 || 0x1D7F6 <= n <= 0x1D7FF || 0x1E140 <= n <= 0x1E149 || 0x1E2F0 <= n <= 0x1E2F9
    || 0x1E950 <= n <= 0x1E959 || 0x1FBF0 <= n <= 0x1FBF9
  }

  /** `\d` in a text pattern: any decimal digit, not only ASCII's. */
  predicate Digit(c: char) { AsciiDigit(c) || OtherDigit(c) }

  predicate Digits(s: string) { forall i | 0 <= i < |s| :: Digit(s[i]) }

  predicate MatchesIccid(s: string) {
    (15 <= |s| <= 22 && Digits(s)) || (16 <= |s| <= 23 && s[|s| - 1] == '\n' && Digits(s[..|s| - 1]))
  }

  function RequireReference(value: string): (r: Option<string>)
    ensures r.Some? ==> PlainSegment(r.value) && r.value == Strip(value)
    ensures r.None? ==> !PlainSegment(Strip(value))
  {
    var candidate := Strip(value);
    if MatchesSegment(candidate) then Some(candidate) else None
  }

  function RequireIccid(value: string): (r: Option<string>)
    ensures r.Some? ==> 15 <= |r.value| <= 22 && Digits(r.value) && r.value == Strip(value)
  {
    var candidate := Strip(value);
    if MatchesIccid(candidate) then Some(candidate) else None
  }

  function FamilyPath(f: Family, segments: seq<string>): string
    requires |segments| >= 1
  {
    f.prefix + Join(segments, '/')
  }

  lemma LowerPlain(s: string)
    ensures PlainSegment(Lower(s)) <==> PlainSegment(s)
  {
    forall i | 0 <= i < |s| ensures Unreserved(Lower(s)[i]) <==> Unreserved(s[i]) {
      assert Lower(s)[i] == LowerChar(s[i]);
    }
  }

  lemma LowerSegment(s: string)
    ensures MatchesSegment(Lower(s)) <==> MatchesSegment(s)
  {
    LowerPlain(s);
    if s != [] {
      LowerPlain(s[..|s| - 1]);
      assert Lower(s)[..|s| - 1] == Lower(s[..|s| - 1]);
    }
  }

  lemma {:induction false} LowerJoin(parts: seq<string>)
    requires |parts| >= 1
    ensures Lower(Join(parts, '/')) == Join(LowerAll(parts), '/')
  {
    if |parts| > 1 {
      LowerJoin(parts[1..]);
      assert LowerAll(parts)[1..] == LowerAll(parts[1..]);
      assert Join(parts, '/') == parts[0] + "/" + Join(parts[1..], '/');
    }
  }

  function LowerAll(parts: seq<string>): (r: seq<string>)
    ensures |r| == |parts|
  {
    seq(|parts|, i requires 0 <= i < |parts| => Lower(parts[i]))
  }

  lemma FamilyPathNormal(f: Family, segments: seq<string>)
    requires PlainPrefix(f.prefix) && |segments| >= 1
    requires forall i | 0 <= i < |segments| :: segments[i] != []
    requires var last := segments[|segments| - 1]; !IsSpace(last[|last| - 1])
    ensures NormalPath(FamilyPath(f, segments)) == f.prefix + Join(LowerAll(segments), '/')
  {
    var joined := Join(segments, '/');
    var path := f.prefix + joined;
    JoinEnds(segments);
    assert path[|path| - 1] == joined[|joined| - 1];
    RootedPathNormal(path);
    LowerAppend(f.prefix, joined);
    PlainPrefixIsLower(f.prefix);
    LowerJoin(segments);
  }

  lemma PlainPrefixIsLower(prefix: string)
    requires PlainPrefix(prefix)
    ensures Lower(prefix) == prefix
  {
  }

  lemma RootedPathNormal(path: string)
    requires |path| >= 2 && path[0] == '/' && path[1] != '/' && !IsSpace(path[|path| - 1])
    ensures NormalPath(path) == Lower(path)
  {
    TrimmedIsKept(path);
    var rest := path[1..];
    assert rest[0] == path[1];
    assert LStripSlash(rest) == rest;
    assert "/" + rest == path;
  }

  /** A family's prefix followed by slash-free segments is permitted exactly when every segment
      matches and their number is the family's. */
  lemma FamilyVerdict(policy: Policy, f: Family, parts: seq<string>, qa: bool)
    requires policy.WellFormed() && f in policy.families && |parts| >= 1
    requires forall i | 0 <= i < |parts| :: '/' !in parts[i]
    ensures policy.PermittedNormal(f.verb, f.prefix + Join(parts, '/'), qa)
       <==> |parts| == f.segments && forall i | 0 <= i < |parts| :: MatchesSegment(parts[i])
  {
    var p := f.prefix + Join(parts, '/');
    assert p[|f.prefix|..] == Join(parts, '/');
    SplitJoin(parts, '/');
    var j :| 0 <= j < |policy.families| && policy.families[j] == f;
    OnlyFamilyDecides(policy, j, p, qa);
  }

  lemma OnlyFamilyDecides(policy: Policy, j: nat, p: string, qa: bool)
    requires policy.WellFormed() && j < |policy.families| && policy.families[j].prefix <= p
    ensures var f := policy.families[j];
      policy.PermittedNormal(f.verb, p, qa) <==> SegmentsOk(p[|f.prefix|..], f.segments)
  {
    var f := policy.families[j];
    forall i: nat | i < |policy.families| && policy.FamilyAdmits(i, f.verb, p) ensures i == j {
      FamiliesAreDisjoint(policy, p, i, j);
    }
    assert policy.FamilyRead(f.verb, p) <==> policy.FamilyAdmits(j, f.verb, p);
  }

  /** The same verdict for the path a client builds, before any normalization. */
  lemma BuiltPathVerdict(policy: Policy, f: Family, segments: seq<string>, qa: bool)
    requires policy.WellFormed() && f in policy.families && |segments| >= 1
    requires forall i | 0 <= i < |segments| :: segments[i] != [] && '/' !in segments[i]
    requires var last := segments[|segments| - 1]; !IsSpace(last[|last| - 1])
    ensures policy.PermittedNormal(f.verb, NormalPath(FamilyPath(f, segments)), qa)
       <==> |segments| == f.segments && forall i | 0 <= i < |segments| :: MatchesSegment(segments[i])
  {
    var lowered := LowerAll(segments);
    FamilyPathNormal(f, segments);
    forall i | 0 <= i < |lowered|
      ensures '/' !in lowered[i] && (MatchesSegment(lowered[i]) <==> MatchesSegment(segments[i]))
    {
      LowerSegment(segments[i]);
      LowerKeepsSlashes(segments[i]);
    }
    FamilyVerdict(policy, f, lowered, qa);
  }

  lemma LowerKeepsSlashes(s: string)
    ensures '/' in Lower(s) <==> '/' in s
  {
    forall k | 0 <= k < |s| ensures Lower(s)[k] == '/' <==> s[k] == '/' {}
  }

  lemma {:induction false} JoinEnds(parts: seq<string>)
    requires |parts| >= 1
    requires forall i | 0 <= i < |parts| :: parts[i] != []
    ensures var joined, last := Join(parts, '/'), parts[|parts| - 1];
      joined != [] && joined[|joined| - 1] == last[|last| - 1]
  {
    if |parts| > 1 { JoinEnds(parts[1..]); }
  }

  lemma PlainFacts(s: string)
    requires PlainSegment(s)
    ensures '/' !in s && '\n' !in s && !IsSpace(s[|s| - 1])
  {
  }

  /** Whatever the reference validator accepts, the guard lets through. */
  lemma AcceptedReferencesPass(policy: Policy, f: Family, value: string, qa: bool)
    requires policy.WellFormed() && f in policy.families && f.segments == 1
    requires RequireReference(value).Some?
    ensures policy.PermittedNormal(f.verb, NormalPath(FamilyPath(f, [RequireReference(value).value])), qa)
  {
    PlainFacts(RequireReference(value).value);
    BuiltPathVerdict(policy, f, [RequireReference(value).value], qa);
  }

  lemma DigitFacts(c: char)
    requires Digit(c)
    ensures c != '/' && !IsSpace(c) && (Unreserved(c) <==> AsciiDigit(c))
  {
  }

  lemma IccidMatches(iccid: string)
    requires 15 <= |iccid| <= 22 && Digits(iccid)
    ensures '/' !in iccid && !IsSpace(iccid[|iccid| - 1])
    ensures MatchesSegment(iccid) <==> AllAscii(iccid)
  {
    forall i | 0 <= i < |iccid|
      ensures iccid[i] != '/' && !IsSpace(iccid[i]) && (Unreserved(iccid[i]) <==> AsciiDigit(iccid[i]))
    {
      DigitFacts(iccid[i]);
    }
    assert IsSpace('\n');
  }

  lemma UsageRead(policy: Policy, usage: Family, iccid: string, qa: bool)
    requires policy.WellFormed() && usage in policy.families && usage.segments == 1
    requires iccid != [] && '/' !in iccid && !IsSpace(iccid[|iccid| - 1])
    ensures policy.PermittedNormal(usage.verb, NormalPath(FamilyPath(usage, [iccid])), qa) <==> MatchesSegment(iccid)
  {
    var parts := [iccid];
    BuiltPathVerdict(policy, usage, parts, qa);
    assert parts[0] == iccid;
  }

  lemma OptionsRead(policy: Policy, options: Family, iccid: string, plan: string, qa: bool)
    requires policy.WellFormed() && options in policy.families && options.segments == 2
    requires iccid != [] && '/' !in iccid && !IsSpace(iccid[|iccid| - 1])
    requires plan != [] && '/' !in plan && MatchesSegment(plan)
    ensures policy.PermittedNormal(options.verb, NormalPath(FamilyPath(options, [plan, iccid])), qa)
       <==> MatchesSegment(iccid)
  {
    var parts := [plan, iccid];
    assert parts[0] == plan && parts[1] == iccid;
    BuiltPathVerdict(policy, options, parts, qa);
  }

  /** The ICCID validator accepts every decimal digit and the guard only ASCII's, so the two
      agree exactly on all-ASCII identifiers: on a one-segment read such as live usage, and on the
      two-segment top-up options read. */
  lemma AcceptedIccidsPassIffAscii(
    policy: Policy, usage: Family, options: Family, value: string, code: string, qa: bool)
    requires policy.WellFormed() && usage in policy.families && options in policy.families
    requires usage.segments == 1 && options.segments == 2
    requires RequireIccid(value).Some? && RequireReference(code).Some?
    ensures var iccid, plan := RequireIccid(value).value, RequireReference(code).value;
      && (policy.PermittedNormal(usage.verb, NormalPath(FamilyPath(usage, [iccid])), qa) <==> AllAscii(iccid))
      && (policy.PermittedNormal(options.verb, NormalPath(FamilyPath(options, [plan, iccid])), qa) <==> AllAscii(iccid))
  {
    var iccid, plan := RequireIccid(value).value, RequireReference(code).value;
    IccidMatches(iccid);
    PlainFacts(plan);
    UsageRead(policy, usage, iccid, qa);
    OptionsRead(policy, options, iccid, plan, qa);
  }

  predicate AllAscii(s: string) { forall i | 0 <= i < |s| :: AsciiDigit(s[i]) }

  lemma ArabicIndicOnesAreAnIccid() returns (iccid: string)
    ensures RequireIccid(iccid) == Some(iccid) && !AllAscii(iccid)
  {
    iccid := seq(15, _ => '\U{661}');
    assert OtherDigit('\U{661}');
    assert Digits(iccid);
    StripCore("", iccid, "");
    assert "" + iccid + "" == iccid;
    assert !AsciiDigit(iccid[0]);
  }

  /** Fifteen Arabic-Indic digits are an acceptable ICCID, and one that no family admits. */
  lemma SomeAcceptedIccidIsRefused(policy: Policy, usage: Family, qa: bool) returns (iccid: string)
    requires policy.WellFormed() && usage in policy.families && usage.segments == 1
    ensures RequireIccid(iccid) == Some(iccid)
    ensures !policy.PermittedNormal(usage.verb, NormalPath(FamilyPath(usage, [iccid])), qa)
  {
    iccid := ArabicIndicOnesAreAnIccid();
    IccidMatches(iccid);
    UsageRead(policy, usage, iccid, qa);
  }
}
