/** Turning a user's wording for a destination into one catalogue record. */
module Resolution {
  import opened Strings

  /** Leading white space off, then the first run of other characters. */
  function Word(s: string): (n: nat)
    ensures n <= |s|
    ensures forall i | 0 <= i < n :: !IsSpace(s[i])
    ensures n < |s| ==> IsSpace(s[n])
  {
    if s == [] || IsSpace(s[0]) then 0 else 1 + Word(s[1..])
  }

  /** The runs of characters between white space. */
  function Words(s: string): seq<string>
    decreases |s|
  {
    if s == [] then []
    else if IsSpace(s[0]) then Words(s[1..])
    else [s[..Word(s)]] + Words(s[Word(s)..])
  }

  /** Case folded, white space collapsed; nothing else is done to a name. */
  function Normalize(s: string): string { if Words(s) == [] then "" else Lower(Join(Words(s), ' ')) }

  datatype Country = Country(iso2: string, iso3: string, name: string, alternative: string, guid: string)

  datatype Region = Region(code: string, name: string)

  /** A field is missing when empty; `name` is how a record is written out for the user. */
  datatype Catalogue<!T> = Catalogue(fields: seq<T -> string>, identity: T -> string, name: T -> string)

  const COUNTRIES: Catalogue<Country> :=
    Catalogue(
      [(c: Country) => c.iso2, (c: Country) => c.iso3, (c: Country) => c.name, (c: Country) => c.alternative],
      (c: Country) => OrElse(c.guid, c.name), (c: Country) => c.name)

  const REGIONS: Catalogue<Region> :=
    Catalogue(
      [(r: Region) => r.code, (r: Region) => r.name], (r: Region) => OrElse(r.code, r.name), (r: Region) => r.name)

  const MAX_CHOICES: nat := 5

  /** `choices` are the records whose names the user is given to choose from. */
  datatype Verdict<+T> = Found(item: T) | Ambiguous(choices: seq<T>) | Unknown | NoQuery

  function Matching<T>(items: seq<T>, field: T -> string, needle: string): seq<T> {
    if items == [] then []
    else
      var init, last := items[..|items| - 1], items[|items| - 1];
      Matching(init, field, needle) + if Normalize(field(last)) == needle then [last] else []
  }

  function Identities<T>(items: seq<T>, identity: T -> string): set<string> {
    set i | 0 <= i < |items| :: identity(items[i])
  }

  /** The first item of each identity, in order. */
  function UniqueBy<T>(items: seq<T>, identity: T -> string): seq<T> {
    if items == [] then []
    else
      var init, last := items[..|items| - 1], items[|items| - 1];
      UniqueBy(init, identity) + if identity(last) in Identities(init, identity) then [] else [last]
  }

  /** Field by field, in the catalogue's order, the records that carry the query there. */
  function Groups<T>(c: Catalogue<T>, items: seq<T>, needle: string): seq<seq<T>> {
    seq(|c.fields|, k requires 0 <= k < |c.fields| => Matching(items, c.fields[k], needle))
  }

  function Least(a: nat, b: nat): nat { if a <= b then a else b }

  /** The first few, in the order listed. */
  function Choices<T>(unique: seq<T>): seq<T> { unique[..Least(|unique|, MAX_CHOICES)] }

  /** The first group that is not empty decides. */
  function Decide<T>(identity: T -> string, groups: seq<seq<T>>): Verdict<T> {
    if groups == [] then Unknown
    else if groups[0] == [] then Decide(identity, groups[1..])
    else
      var unique := UniqueBy(groups[0], identity);
      if |unique| == 1 then Found(unique[0]) else Ambiguous(Choices(unique))
  }

  function Resolve<T>(c: Catalogue<T>, items: seq<T>, query: string): Verdict<T> {
    if Normalize(query) == "" then NoQuery else Decide(c.identity, Groups(c, items, Normalize(query)))
  }

  /** The loop that keeps the first of each identity. */
  method UniqueLoop<T>(items: seq<T>, identity: T -> string) returns (unique: seq<T>)
    ensures unique == UniqueBy(items, identity)
  {
    var seen: set<string> := {};
    unique := [];
    for k := 0 to |items|
      invariant seen == Identities(items[..k], identity)
      invariant unique == UniqueBy(items[..k], identity)
    {
      assert items[..k + 1][..k] == items[..k];
      IdentitiesOfOneMore(items[..k], items[k], identity);
      assert items[..k] + [items[k]] == items[..k + 1];
      var marker := identity(items[k]);
      if marker !in seen {
        seen := seen + {marker};
        unique := unique + [items[k]];
      }
    }
    assert items[..|items|] == items;
  }

  // ------------------------------------------------------------------ what a verdict depends on

  lemma IdentitiesOfOneMore<T>(items: seq<T>, item: T, identity: T -> string)
    ensures Identities(items + [item], identity) == Identities(items, identity) + {identity(item)}
  {
    var more := items + [item];
    forall id | id in Identities(items, identity) ensures id in Identities(more, identity) {
      var i :| 0 <= i < |items| && identity(items[i]) == id;
      assert more[i] == items[i];
    }
    assert more[|items|] == item;
  }

  /** Deduplication keeps every identity once. */
  lemma {:induction false} UniqueKeepsIdentities<T>(items: seq<T>, identity: T -> string)
    ensures Identities(UniqueBy(items, identity), identity) == Identities(items, identity)
    ensures |UniqueBy(items, identity)| == |Identities(items, identity)|
    ensures forall k | 0 <= k < |UniqueBy(items, identity)| :: UniqueBy(items, identity)[k] in items
  {
    if items != [] {
      var init, last := items[..|items| - 1], items[|items| - 1];
      UniqueKeepsIdentities(init, identity);
      OneMoreKeepsIdentities(init, UniqueBy(init, identity), last, identity);
      assert init + [last] == items;
    }
  }

  lemma OneMoreKeepsIdentities<T>(init: seq<T>, kept: seq<T>, last: T, identity: T -> string)
    requires Identities(kept, identity) == Identities(init, identity) && |kept| == |Identities(init, identity)|
    ensures var more := kept + if identity(last) in Identities(init, identity) then [] else [last];
      && Identities(more, identity) == Identities(init + [last], identity)
      && |more| == |Identities(init + [last], identity)|
  {
    IdentitiesOfOneMore(init, last, identity);
    IdentitiesOfOneMore(kept, last, identity);
    assert kept + [] == kept;
  }

  /** So no two that are kept have one identity, and the first stays first. */
  lemma {:induction false} UniqueIsDistinct<T>(items: seq<T>, identity: T -> string)
    ensures var u := UniqueBy(items, identity);
      && (forall i, j | 0 <= i < j < |u| :: identity(u[i]) != identity(u[j]))
      && (items != [] ==> u != [] && u[0] == items[0])
  {
    if items != [] {
      var init, last := items[..|items| - 1], items[|items| - 1];
      var kept := UniqueBy(init, identity);
      UniqueIsDistinct(init, identity);
      UniqueKeepsIdentities(init, identity);
      forall i | 0 <= i < |kept| ensures identity(kept[i]) in Identities(init, identity) {
        assert identity(kept[i]) in Identities(kept, identity);
      }
      if init == [] { assert Identities(init, identity) == {}; }
    }
  }

  lemma {:induction false} MatchingHolds<T>(items: seq<T>, field: T -> string, needle: string, x: T)
    ensures x in Matching(items, field, needle) <==> x in items && Normalize(field(x)) == needle
  {
    if items != [] { MatchingHolds(items[..|items| - 1], field, needle, x); }
  }

  /** The identities found on a field, with no reference to order or repetition. */
  ghost function Hits<T(!new)>(c: Catalogue<T>, items: seq<T>, field: T -> string, needle: string): set<string> {
    set x | x in items && Normalize(field(x)) == needle :: c.identity(x)
  }

  lemma IdentitiesAreHits<T(!new)>(c: Catalogue<T>, items: seq<T>, field: T -> string, needle: string)
    ensures Identities(Matching(items, field, needle), c.identity) == Hits(c, items, field, needle)
  {
    var matches := Matching(items, field, needle);
    forall id ensures id in Identities(matches, c.identity) <==> id in Hits(c, items, field, needle) {
      if i :| 0 <= i < |matches| && c.identity(matches[i]) == id { MatchingHolds(items, field, needle, matches[i]); }
      if x :| x in items && Normalize(field(x)) == needle && c.identity(x) == id {
        MatchingHolds(items, field, needle, x);
        var i :| 0 <= i < |matches| && matches[i] == x;
      }
    }
  }

  /** The destinations a verdict names. */
  function Answers<T>(identity: T -> string, verdict: Verdict<T>): set<string> {
    match verdict
    case Found(item) => {identity(item)}
    case Ambiguous(choices) => Identities(choices, identity)
    case _ => {}
  }

  /** `first` is the first group that is not empty. */
  predicate IsFirst<T>(groups: seq<seq<T>>, first: nat) {
    first < |groups| && groups[first] != [] && forall i | 0 <= i < first :: groups[i] == []
  }

  lemma {:induction false} FirstGroupDecides<T>(identity: T -> string, groups: seq<seq<T>>, first: nat)
    requires IsFirst(groups, first)
    ensures var unique := UniqueBy(groups[first], identity);
      Decide(identity, groups) == if |unique| == 1 then Found(unique[0]) else Ambiguous(Choices(unique))
  {
    if first > 0 {
      forall i | 0 <= i < first - 1 ensures groups[1..][i] == [] { assert groups[1..][i] == groups[i + 1]; }
      FirstGroupDecides(identity, groups[1..], first - 1);
    }
  }

  lemma {:induction false} NoGroupNoVerdict<T>(identity: T -> string, groups: seq<seq<T>>)
    requires forall i | 0 <= i < |groups| :: groups[i] == []
    ensures Decide(identity, groups) == Unknown
  {
    if groups != [] {
      forall i | 0 <= i < |groups| - 1 ensures groups[1..][i] == [] { assert groups[1..][i] == groups[i + 1]; }
      NoGroupNoVerdict(identity, groups[1..]);
    }
  }

  lemma {:induction false} FirstOrNone<T>(groups: seq<seq<T>>) returns (first: nat)
    ensures IsFirst(groups, first) || forall i | 0 <= i < |groups| :: groups[i] == []
  {
    if groups == [] || groups[0] != [] {
      first := 0;
    } else {
      var rest := FirstOrNone(groups[1..]);
      first := rest + 1;
      forall i | 0 < i < |groups| ensures groups[i] == groups[1..][i - 1] {}
    }
  }

  lemma ChoicesAreFew<T>(unique: seq<T>, identity: T -> string)
    requires |unique| == |Identities(unique, identity)|
    requires forall i, j | 0 <= i < j < |unique| :: identity(unique[i]) != identity(unique[j])
    ensures var named := Identities(Choices(unique), identity);
      && named <= Identities(unique, identity) && |named| == Least(|unique|, MAX_CHOICES)
  {
    var chosen := Choices(unique);
    DistinctIdentities(chosen, identity);
    forall id | id in Identities(chosen, identity) ensures id in Identities(unique, identity) {
      var i :| 0 <= i < |chosen| && identity(chosen[i]) == id;
      assert identity(unique[i]) == id;
    }
  }

  lemma {:induction false} DistinctIdentities<T>(items: seq<T>, identity: T -> string)
    requires forall i, j | 0 <= i < j < |items| :: identity(items[i]) != identity(items[j])
    ensures |Identities(items, identity)| == |items|
  {
    if items != [] {
      var init, last := items[..|items| - 1], items[|items| - 1];
      DistinctIdentities(init, identity);
      IdentitiesOfOneMore(init, last, identity);
      assert init + [last] == items;
    }
  }

  /** The first field anything matches on decides, and later ones are not looked at: if one destination
      is found there it is the answer; if several, five of them are named, or all if they are no more. */
  lemma FirstMatchingFieldDecides<T(!new)>(c: Catalogue<T>, items: seq<T>, query: string, first: nat)
    requires Normalize(query) != "" && IsFirst(Groups(c, items, Normalize(query)), first)
    ensures var v, hits := Resolve(c, items, query), Hits(c, items, c.fields[first], Normalize(query));
      && (v.Found? || v.Ambiguous?) && (v.Found? <==> |hits| == 1)
      && Answers(c.identity, v) <= hits && |Answers(c.identity, v)| == Least(|hits|, MAX_CHOICES)
      && (Answers(c.identity, v) == hits <==> |hits| <= MAX_CHOICES)
  {
    var groups := Groups(c, items, Normalize(query));
    var unique := UniqueBy(groups[first], c.identity);
    var v, hits := Resolve(c, items, query), Hits(c, items, c.fields[first], Normalize(query));
    FirstGroupDecides(c.identity, groups, first);
    IdentitiesAreHits(c, items, c.fields[first], Normalize(query));
    UniqueKeepsIdentities(groups[first], c.identity);
    UniqueIsDistinct(groups[first], c.identity);
    ChoicesAreFew(unique, c.identity);
    if |unique| == 1 { assert Choices(unique) == unique && Identities(unique, c.identity) == {c.identity(unique[0])}; }
    if |hits| <= MAX_CHOICES { SameSizeSubset(Answers(c.identity, v), hits); }
  }

  lemma SameSizeSubset(small: set<string>, large: set<string>)
    requires small <= large && |small| == |large|
    ensures small == large
  {
    assert large == small + (large - small);
  }

  // ------------------------------------------------------------------ what it does not depend on

  ghost predicate SameItems<T(!new)>(a: seq<T>, b: seq<T>) { forall x :: x in a <==> x in b }

  predicate SameKind<T>(a: Verdict<T>, b: Verdict<T>) {
    && (a.Found? <==> b.Found?) && (a.Ambiguous? <==> b.Ambiguous?)
    && (a.Unknown? <==> b.Unknown?) && (a.NoQuery? <==> b.NoQuery?)
  }

  /** Everything the query hits on the field that decides. */
  ghost function Deciding<T(!new)>(c: Catalogue<T>, items: seq<T>, needle: string, from: nat): set<string>
    requires from <= |c.fields|
    decreases |c.fields| - from
  {
    if from == |c.fields| then {}
    else if Hits(c, items, c.fields[from], needle) != {} then Hits(c, items, c.fields[from], needle)
    else Deciding(c, items, needle, from + 1)
  }

  lemma {:induction false} DecidingIsFirst<T(!new)>(
    c: Catalogue<T>, items: seq<T>, needle: string, from: nat, first: nat)
    requires from <= first && IsFirst(Groups(c, items, needle), first)
    ensures Deciding(c, items, needle, from) == Hits(c, items, c.fields[first], needle)
    decreases first - from
  {
    var group := Matching(items, c.fields[from], needle);
    IdentitiesAreHits(c, items, c.fields[from], needle);
    assert Groups(c, items, needle)[from] == group;
    if from < first {
      assert group == [];
      DecidingIsFirst(c, items, needle, from + 1, first);
    } else {
      assert c.identity(group[0]) in Identities(group, c.identity);
    }
  }

  lemma {:induction false} NothingDecides<T(!new)>(c: Catalogue<T>, items: seq<T>, needle: string, from: nat)
    requires from <= |c.fields| && forall i | 0 <= i < |c.fields| :: Groups(c, items, needle)[i] == []
    ensures Deciding(c, items, needle, from) == {}
    decreases |c.fields| - from
  {
    if from < |c.fields| {
      IdentitiesAreHits(c, items, c.fields[from], needle);
      assert Groups(c, items, needle)[from] == Matching(items, c.fields[from], needle) == [];
      NothingDecides(c, items, needle, from + 1);
    }
  }

  /** A verdict in terms of what decides alone: its kind, and which destinations it can name. */
  lemma VerdictIsDecided<T(!new)>(c: Catalogue<T>, items: seq<T>, query: string)
    requires Normalize(query) != ""
    ensures var v, hits := Resolve(c, items, query), Deciding(c, items, Normalize(query), 0);
      && !v.NoQuery? && (v.Unknown? <==> hits == {}) && (v.Found? <==> |hits| == 1)
      && Answers(c.identity, v) <= hits && (Answers(c.identity, v) == hits <==> |hits| <= MAX_CHOICES)
  {
    var needle := Normalize(query);
    var groups := Groups(c, items, needle);
    var first := FirstOrNone(groups);
    if IsFirst(groups, first) {
      DecidingIsFirst(c, items, needle, 0, first);
      FirstMatchingFieldDecides(c, items, query, first);
      FirstHit(c, items, needle, first);
    } else {
      NothingDecides(c, items, needle, 0);
      NoGroupNoVerdict(c.identity, groups);
    }
  }

  lemma FirstHit<T(!new)>(c: Catalogue<T>, items: seq<T>, needle: string, first: nat)
    requires IsFirst(Groups(c, items, needle), first)
    ensures Hits(c, items, c.fields[first], needle) != {}
  {
    var group := Matching(items, c.fields[first], needle);
    IdentitiesAreHits(c, items, c.fields[first], needle);
    assert c.identity(group[0]) in Identities(group, c.identity);
  }

  lemma {:induction false} SameDeciding<T(!new)>(c: Catalogue<T>, a: seq<T>, b: seq<T>, needle: string, from: nat)
    requires SameItems(a, b) && from <= |c.fields|
    ensures Deciding(c, a, needle, from) == Deciding(c, b, needle, from)
    decreases |c.fields| - from
  {
    if from < |c.fields| {
      assert Hits(c, a, c.fields[from], needle) == Hits(c, b, c.fields[from], needle);
      SameDeciding(c, a, b, needle, from + 1);
    }
  }

  /** The order in which the platform lists destinations, and how often it repeats one, make no
      difference to the kind of verdict or to the destination found; nor to those offered, if no more
      than five are to choose from. */
  lemma OrderDoesNotMatter<T(!new)>(c: Catalogue<T>, a: seq<T>, b: seq<T>, query: string)
    requires SameItems(a, b)
    ensures var va, vb := Resolve(c, a, query), Resolve(c, b, query);
      && SameKind(va, vb) && (va.Found? ==> c.identity(va.item) == c.identity(vb.item))
      && (|Deciding(c, a, Normalize(query), 0)| <= MAX_CHOICES ==> Answers(c.identity, va) == Answers(c.identity, vb))
  {
    if Normalize(query) != "" {
      VerdictIsDecided(c, a, query);
      VerdictIsDecided(c, b, query);
      SameDeciding(c, a, b, Normalize(query), 0);
      var va, vb := Resolve(c, a, query), Resolve(c, b, query);
      if va.Found? {
        assert c.identity(va.item) in Answers(c.identity, va) && Answers(c.identity, va) == Answers(c.identity, vb);
      }
    }
  }

  /** Listed in any other order, the catalogue names the same destinations. */
  ghost predicate NamesAreFixed<T(!new)>(c: Catalogue<T>, items: seq<T>, query: string) {
    forall other | multiset(other) == multiset(items) :: NamesAgree(c, items, other, query)
  }

  ghost predicate NamesAgree<T(!new)>(c: Catalogue<T>, a: seq<T>, b: seq<T>, query: string) {
    Answers(c.identity, Resolve(c, a, query)) == Answers(c.identity, Resolve(c, b, query))
  }

  /** Which destinations are named depends on the order exactly where more than five are to choose
      from. */
  lemma NamesAreFixedExactlyWhen<T(!new)>(c: Catalogue<T>, items: seq<T>, query: string)
    ensures NamesAreFixed(c, items, query) <==>
      Normalize(query) == "" || |Deciding(c, items, Normalize(query), 0)| <= MAX_CHOICES
  {
    if Normalize(query) == "" || |Deciding(c, items, Normalize(query), 0)| <= MAX_CHOICES {
      forall other | multiset(other) == multiset(items) ensures NamesAgree(c, items, other, query) {
        forall x ensures x in items <==> x in other { assert x in multiset(items) <==> x in multiset(other); }
        OrderDoesNotMatter(c, items, other, query);
      }
    } else {
      var other := Reordered(c, items, query);
      assert !NamesAgree(c, items, other, query);
    }
  }

  lemma MovedFirst<T>(items: seq<T>, k: nat) returns (other: seq<T>)
    requires k < |items|
    ensures multiset(other) == multiset(items) && other != [] && other[0] == items[k]
  {
    other := [items[k]] + (items[..k] + items[k + 1..]);
    assert items == items[..k] + [items[k]] + items[k + 1..];
  }

  /** The sixth destination, listed first, is named; where it was, it is not. */
  lemma Reordered<T(!new)>(c: Catalogue<T>, items: seq<T>, query: string) returns (other: seq<T>)
    requires Normalize(query) != "" && |Deciding(c, items, Normalize(query), 0)| > MAX_CHOICES
    ensures multiset(other) == multiset(items) && !NamesAgree(c, items, other, query)
  {
    var needle := Normalize(query);
    var groups := Groups(c, items, needle);
    var first := FirstOrNone(groups);
    if !IsFirst(groups, first) { NothingDecides(c, items, needle, 0); }
    DecidingIsFirst(c, items, needle, 0, first);
    var sixth := TheSixth(c, items, query, first);
    MatchingHolds(items, c.fields[first], needle, sixth);
    var k :| 0 <= k < |items| && items[k] == sixth;
    other := MovedFirst(items, k);
    SameAgain(c, items, other, needle, first);
    NamesTheFirst(c, other, query, first);
  }

  lemma TheSixth<T(!new)>(c: Catalogue<T>, items: seq<T>, query: string, first: nat) returns (sixth: T)
    requires Normalize(query) != "" && IsFirst(Groups(c, items, Normalize(query)), first)
    requires |Hits(c, items, c.fields[first], Normalize(query))| > MAX_CHOICES
    ensures sixth in Matching(items, c.fields[first], Normalize(query))
    ensures c.identity(sixth) !in Answers(c.identity, Resolve(c, items, query))
  {
    var group := Matching(items, c.fields[first], Normalize(query));
    var unique := UniqueBy(group, c.identity);
    FirstGroupDecides(c.identity, Groups(c, items, Normalize(query)), first);
    IdentitiesAreHits(c, items, c.fields[first], Normalize(query));
    UniqueKeepsIdentities(group, c.identity);
    UniqueIsDistinct(group, c.identity);
    sixth := unique[MAX_CHOICES];
  }

  lemma SameAgain<T(!new)>(c: Catalogue<T>, a: seq<T>, b: seq<T>, needle: string, first: nat)
    requires multiset(a) == multiset(b) && IsFirst(Groups(c, a, needle), first)
    ensures IsFirst(Groups(c, b, needle), first)
    ensures Hits(c, a, c.fields[first], needle) == Hits(c, b, c.fields[first], needle)
  {
    forall x ensures x in a <==> x in b { assert x in multiset(a) <==> x in multiset(b); }
    forall i | 0 <= i < |c.fields| ensures Groups(c, a, needle)[i] == [] <==> Groups(c, b, needle)[i] == [] {
      var ma, mb := Matching(a, c.fields[i], needle), Matching(b, c.fields[i], needle);
      if ma != [] { MatchingHolds(a, c.fields[i], needle, ma[0]); MatchingHolds(b, c.fields[i], needle, ma[0]); }
      if mb != [] { MatchingHolds(a, c.fields[i], needle, mb[0]); MatchingHolds(b, c.fields[i], needle, mb[0]); }
    }
  }

  lemma {:induction false} FirstMatches<T>(items: seq<T>, field: T -> string, needle: string)
    requires items != [] && Normalize(field(items[0])) == needle
    ensures var group := Matching(items, field, needle); group != [] && group[0] == items[0]
  {
    if |items| > 1 { FirstMatches(items[..|items| - 1], field, needle); } else { assert items[..0] == []; }
  }

  lemma NamesTheFirst<T(!new)>(c: Catalogue<T>, items: seq<T>, query: string, first: nat)
    requires Normalize(query) != "" && IsFirst(Groups(c, items, Normalize(query)), first)
    requires items != [] && Normalize(c.fields[first](items[0])) == Normalize(query)
    ensures c.identity(items[0]) in Answers(c.identity, Resolve(c, items, query))
  {
    var group := Groups(c, items, Normalize(query))[first];
    FirstGroupDecides(c.identity, Groups(c, items, Normalize(query)), first);
    UniqueIsDistinct(group, c.identity);
    FirstMatches(items, c.fields[first], Normalize(query));
    var unique := UniqueBy(group, c.identity);
    assert unique[0] == items[0] && Choices(unique)[0] == items[0];
  }

  /** Six regions under one name, each with a code of its own. */
  predicate Namesakes(regions: seq<Region>, query: string) {
    && |regions| == 6 && Normalize(query) != ""
    && (forall i | 0 <= i < 6 :: Normalize(regions[i].name) == Normalize(query) && HasOtherCode(regions[i], query))
    && (forall i, j | 0 <= i < j < 6 :: regions[i].code != regions[j].code)
  }

  predicate HasOtherCode(region: Region, query: string) {
    region.code != "" && Normalize(region.code) != Normalize(query)
  }

  /** They are such a catalogue: the last is not offered, unless it is listed first. */
  lemma SixNamesakesDependOnOrder(regions: seq<Region>, query: string)
    requires Namesakes(regions, query)
    ensures Resolve(REGIONS, regions, query) == Ambiguous(regions[..5])
    ensures Resolve(REGIONS, [regions[5]] + regions[..5], query) == Ambiguous([regions[5]] + regions[..4])
  {
    var other := [regions[5]] + regions[..5];
    SixAreOffered(regions, query);
    forall i | 0 <= i < 6 ensures other[i] == if i == 0 then regions[5] else regions[i - 1] {}
    SixAreOffered(other, query);
    assert other[..5] == [regions[5]] + regions[..4];
  }

  lemma SixAreOffered(regions: seq<Region>, query: string)
    requires Namesakes(regions, query)
    ensures Resolve(REGIONS, regions, query) == Ambiguous(regions[..5])
  {
    var needle := Normalize(query);
    NoneMatch(regions, REGIONS.fields[0], needle);
    AllMatch(regions, REGIONS.fields[1], needle);
    AllAreUnique(regions, REGIONS.identity);
    var groups := Groups(REGIONS, regions, needle);
    assert groups[0] == [] && groups[1] == regions;
    FirstGroupDecides(REGIONS.identity, groups, 1);
  }

  lemma {:induction false} NoneMatch<T>(items: seq<T>, field: T -> string, needle: string)
    requires forall i | 0 <= i < |items| :: Normalize(field(items[i])) != needle
    ensures Matching(items, field, needle) == []
  {
    if items != [] { NoneMatch(items[..|items| - 1], field, needle); }
  }

  lemma {:induction false} AllMatch<T>(items: seq<T>, field: T -> string, needle: string)
    requires forall i | 0 <= i < |items| :: Normalize(field(items[i])) == needle
    ensures Matching(items, field, needle) == items
  {
    if items != [] {
      var init, last := items[..|items| - 1], items[|items| - 1];
      AllMatch(init, field, needle);
      assert init + [last] == items;
    }
  }

  lemma {:induction false} AllAreUnique<T>(items: seq<T>, identity: T -> string)
    requires forall i, j | 0 <= i < j < |items| :: identity(items[i]) != identity(items[j])
    ensures UniqueBy(items, identity) == items
  {
    if items != [] {
      var init := items[..|items| - 1];
      AllAreUnique(init, identity);
      assert init + [items[|items| - 1]] == items;
    }
  }

  function Repeated(c: char, n: nat): string { seq(n, _ => c) }

  function Namesake(i: nat): Region { Region(Repeated('n', i + 1), Repeated('i', 1)) }

  lemma NamesakeIsOne(i: nat)
    ensures HasOtherCode(Namesake(i), Repeated('i', 1)) && Normalize(Namesake(i).name) == Normalize(Repeated('i', 1))
  {
    RepeatedIsKept('n', i + 1);
    RepeatedIsKept('i', 1);
    assert Repeated('n', i + 1)[0] == 'n' && Repeated('i', 1)[0] == 'i';
  }

  lemma NamesakesDiffer(i: nat, j: nat)
    requires i < j
    ensures Namesake(i).code != Namesake(j).code
  {
    assert |Namesake(i).code| < |Namesake(j).code|;
  }

  /** Such regions there are. */
  lemma SixNamesakes() returns (regions: seq<Region>, query: string)
    ensures Namesakes(regions, query)
  {
    query := Repeated('i', 1);
    regions := seq(6, i requires 0 <= i < 6 => Namesake(i));
    RepeatedIsKept('i', 1);
    forall i | 0 <= i < 6 ensures regions[i] == Namesake(i) {}
    forall i | 0 <= i < 6
      ensures Normalize(regions[i].name) == Normalize(query) && HasOtherCode(regions[i], query)
    {
      NamesakeIsOne(i);
    }
    forall i, j | 0 <= i < j < 6 ensures regions[i].code != regions[j].code { NamesakesDiffer(i, j); }
  }

  lemma RepeatedIsKept(c: char, n: nat)
    requires 'a' <= c <= 'z' && n > 0
    ensures Normalize(Repeated(c, n)) == Repeated(c, n)
  {
    NormalizeWord(Repeated(c, n));
    assert Lower(Repeated(c, n)) == Repeated(c, n);
  }

  lemma NormalizeWord(word: string)
    requires Plain(word)
    ensures Normalize(word) == Lower(word)
  {
    WordsOfJoin([word]);
    assert Join([word], ' ') == word;
  }

  /** Asked again by the name of a destination offered, the server finds it exactly if that name, on the
      first field anything carries it on, is this destination's alone. */
  lemma AskingAgainFindsItExactlyWhen<T(!new)>(c: Catalogue<T>, items: seq<T>, choice: T)
    requires Normalize(c.name(choice)) != ""
    ensures var again := Resolve(c, items, c.name(choice));
      again.Found? && c.identity(again.item) == c.identity(choice)
      <==> Deciding(c, items, Normalize(c.name(choice)), 0) == {c.identity(choice)}
  {
    var again, hits := Resolve(c, items, c.name(choice)), Deciding(c, items, Normalize(c.name(choice)), 0);
    VerdictIsDecided(c, items, c.name(choice));
    if again.Found? {
      assert Answers(c.identity, again) == {c.identity(again.item)} == hits;
    }
  }

  /** So where the query was a name already, asking again by an offered name offers the same again. */
  lemma NamesakesAreOfferedAgain<T(!new)>(c: Catalogue<T>, items: seq<T>, query: string, first: nat, k: nat)
    requires Normalize(query) != "" && IsFirst(Groups(c, items, Normalize(query)), first)
    requires forall x :: c.fields[first](x) == c.name(x)
    ensures var v := Resolve(c, items, query);
      v.Ambiguous? && k < |v.choices| ==> Resolve(c, items, c.name(v.choices[k])) == v
  {
    var groups := Groups(c, items, Normalize(query));
    FirstGroupDecides(c.identity, groups, first);
    UniqueKeepsIdentities(groups[first], c.identity);
    var v := Resolve(c, items, query);
    if v.Ambiguous? && k < |v.choices| {
      MatchingHolds(items, c.fields[first], Normalize(query), v.choices[k]);
      assert Normalize(c.name(v.choices[k])) == Normalize(query);
    }
  }

  /** That is so of countries that share a name, though not a code, and of such regions. */
  lemma SharedNamesAreOfferedAgain(countries: seq<Country>, regions: seq<Region>, query: string, k: nat)
    requires Normalize(query) != ""
    ensures var v := Resolve(COUNTRIES, countries, query);
      IsFirst(Groups(COUNTRIES, countries, Normalize(query)), 2) && v.Ambiguous? && k < |v.choices| ==>
        Resolve(COUNTRIES, countries, v.choices[k].name) == v
    ensures var v := Resolve(REGIONS, regions, query);
      IsFirst(Groups(REGIONS, regions, Normalize(query)), 1) && v.Ambiguous? && k < |v.choices| ==>
        Resolve(REGIONS, regions, v.choices[k].name) == v
  {
    if IsFirst(Groups(COUNTRIES, countries, Normalize(query)), 2) {
      NamesakesAreOfferedAgain(COUNTRIES, countries, query, 2, k);
    }
    if IsFirst(Groups(REGIONS, regions, Normalize(query)), 1) {
      NamesakesAreOfferedAgain(REGIONS, regions, query, 1, k);
    }
  }

  /** Nothing is guessed: what is found is in the catalogue and carries the query, word for word, in
      one of its fields. */
  lemma FoundCarriesTheQuery<T>(c: Catalogue<T>, items: seq<T>, query: string)
    ensures var v := Resolve(c, items, query);
      v.Found? ==>
        v.item in items && exists j | 0 <= j < |c.fields| :: Normalize(c.fields[j](v.item)) == Normalize(query)
  {
    var needle := Normalize(query);
    var groups := Groups(c, items, needle);
    var first := FirstOrNone(groups);
    if IsFirst(groups, first) {
      FirstGroupDecides(c.identity, groups, first);
      UniqueKeepsIdentities(groups[first], c.identity);
      var v := Decide(c.identity, groups);
      if v.Found? { MatchingHolds(items, c.fields[first], needle, v.item); }
    } else {
      NoGroupNoVerdict(c.identity, groups);
    }
  }

  // ------------------------------------------------------------------ normalisation

  lemma LowerSlices(s: string, t: string, n: nat)
    requires Lower(s) == Lower(t) && n <= |s|
    ensures |s| == |t| && Lower(s[..n]) == Lower(t[..n]) && Lower(s[n..]) == Lower(t[n..])
  {
    assert |s| == |Lower(s)| == |Lower(t)| == |t|;
    assert Lower(s[..n]) == Lower(s)[..n] && Lower(t[..n]) == Lower(t)[..n];
    assert Lower(s[n..]) == Lower(s)[n..] && Lower(t[n..]) == Lower(t)[n..];
  }

  lemma SameSpaceFirst(s: string, t: string)
    requires Lower(s) == Lower(t) && s != []
    ensures t != [] && (IsSpace(s[0]) <==> IsSpace(t[0]))
  {
    assert |s| == |Lower(s)| == |Lower(t)| == |t|;
    assert LowerChar(s[0]) == Lower(s)[0] == Lower(t)[0] == LowerChar(t[0]);
  }

  lemma {:induction false} WordSameLower(s: string, t: string)
    requires Lower(s) == Lower(t)
    ensures Word(s) == Word(t)
  {
    assert |Lower(s)| == |s| && |Lower(t)| == |t|;
    if s != [] {
      SameSpaceFirst(s, t);
      LowerSlices(s, t, 1);
      WordSameLower(s[1..], t[1..]);
    }
  }

  lemma {:induction false} WordsSameLower(s: string, t: string)
    requires Lower(s) == Lower(t)
    ensures |Words(s)| == |Words(t)|
    ensures forall i | 0 <= i < |Words(s)| :: Lower(Words(s)[i]) == Lower(Words(t)[i])
    decreases |s|
  {
    assert |Lower(s)| == |s| && |Lower(t)| == |t|;
    if s != [] {
      SameSpaceFirst(s, t);
      if IsSpace(s[0]) {
        LowerSlices(s, t, 1);
        WordsSameLower(s[1..], t[1..]);
      } else {
        var n := Word(s);
        WordSameLower(s, t);
        LowerSlices(s, t, n);
        WordsSameLower(s[n..], t[n..]);
        assert Words(s) == [s[..n]] + Words(s[n..]) && Words(t) == [t[..n]] + Words(t[n..]);
      }
    }
  }

  lemma {:induction false} JoinSameLower(a: seq<string>, b: seq<string>)
    requires |a| == |b| >= 1 && forall i | 0 <= i < |a| :: Lower(a[i]) == Lower(b[i])
    ensures Lower(Join(a, ' ')) == Lower(Join(b, ' '))
  {
    if |a| > 1 {
      JoinSameLower(a[1..], b[1..]);
      LowerAppend(a[0] + [' '], Join(a[1..], ' '));
      LowerAppend(b[0] + [' '], Join(b[1..], ' '));
      LowerAppend(a[0], [' ']);
      LowerAppend(b[0], [' ']);
    }
  }

  /** Names that differ in case only are one name. */
  lemma NormalizeIgnoresCase(s: string, t: string)
    requires Lower(s) == Lower(t)
    ensures Normalize(s) == Normalize(t)
  {
    WordsSameLower(s, t);
    if Words(s) != [] { JoinSameLower(Words(s), Words(t)); }
  }

  predicate Plain(word: string) { word != "" && forall i | 0 <= i < |word| :: !IsSpace(word[i]) }

  lemma {:induction false} WordsArePlain(s: string)
    ensures forall i | 0 <= i < |Words(s)| :: Plain(Words(s)[i])
    decreases |s|
  {
    if s != [] {
      if IsSpace(s[0]) { WordsArePlain(s[1..]); } else { WordsArePlain(s[Word(s)..]); }
    }
  }

  lemma {:induction false} WordOfPlain(word: string, rest: string)
    requires Plain(word) && (rest == "" || IsSpace(rest[0]))
    ensures Word(word + rest) == |word|
  {
    assert (word + rest)[1..] == word[1..] + rest;
    if |word| > 1 {
      WordOfPlain(word[1..], rest);
    } else {
      assert word[1..] + rest == rest;
    }
  }

  lemma {:induction false} WordsOfJoin(words: seq<string>)
    requires |words| >= 1 && forall i | 0 <= i < |words| :: Plain(words[i])
    ensures Words(Join(words, ' ')) == words
  {
    var first := words[0];
    if |words| == 1 {
      WordOfPlain(first, "");
      assert first + "" == first;
      assert first[|first|..] == "" && first[..|first|] == first;
    } else {
      var tail := Join(words[1..], ' ');
      var rest := [' '] + tail;
      assert Join(words, ' ') == first + rest;
      WordOfPlain(first, rest);
      assert (first + rest)[|first|..] == rest && (first + rest)[..|first|] == first;
      assert rest[1..] == tail;
      WordsOfJoin(words[1..]);
    }
  }

  /** Normalising twice is normalising once, so white space left by a first pass never decides. */
  lemma NormalizeTwice(s: string)
    ensures Normalize(Normalize(s)) == Normalize(s)
  {
    var words := Words(s);
    if words != [] {
      var joined := Join(words, ' ');
      WordsArePlain(s);
      WordsOfJoin(words);
      LowerTwice(joined);
      NormalizeIgnoresCase(Lower(joined), joined);
    }
  }

  lemma LowerTwice(s: string)
    ensures Lower(Lower(s)) == Lower(s)
  {
    forall i | 0 <= i < |s| ensures Lower(Lower(s))[i] == Lower(s)[i] {
      assert Lower(Lower(s))[i] == LowerChar(LowerChar(s[i]));
    }
  }
}
