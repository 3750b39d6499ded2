/** Name-to-account matching shared by both fetchers: case-insensitive exact
    comparison and the running "best fuzzy score" fold. The fuzzy scorer
    (`fuzz.ratio`, `fuzz.partial_ratio`) is a parameter, known only to
    return a score between 0 and 100. */
module Matching {
  import opened Wrappers
  import opened Text

  type Score = x: int | 0 <= x <= 100

  /** A similarity scorer such as `fuzz.ratio`. */
  type Scorer = (string, string) -> Score

  /** A fuzzy candidate is accepted only with a score above this. */
  const NAME_THRESHOLD: int := 30

  /** `a.lower() == b.lower()`. */
  predicate SameName(a: string, b: string) {
    Lower(a) == Lower(b)
  }

  /** `ratio(query.lower(), name.lower())`. */
  function NameScore(ratio: Scorer, query: string, name: string): Score {
    ratio(Lower(query), Lower(name))
  }

  /** The names of a list of candidates, in order. */
  function NamesOf<P>(items: seq<P>, name: P -> string): (r: seq<string>)
    ensures |r| == |items|
    ensures forall k :: 0 <= k < |items| ==> r[k] == name(items[k])
  {
    seq(|items|, k requires 0 <= k < |items| => name(items[k]))
  }

  /** Index of the first name equal to `query` ignoring case. */
  function ExactIndex(query: string, names: seq<string>): (r: Option<nat>)
    ensures r.Some? ==> r.value < |names| && SameName(names[r.value], query)
    ensures r.Some? ==> forall j :: 0 <= j < r.value ==> !SameName(names[j], query)
    ensures r.None? ==> forall j :: 0 <= j < |names| ==> !SameName(names[j], query)
  {
    var P := (j: nat) => j < |names| && SameName(names[j], query);
    assert forall j: nat :: j < |names| ==> (P(j) <==> SameName(names[j], query));
    FirstIndex(0, |names|, P)
  }

  /** A candidate: alias number and page number. */
  datatype Pair = Pair(alias: nat, page: nat)

  /** `best_score` and `best_match` of the source's fuzzy loops. */
  datatype Best = Best(score: int, at: Option<Pair>)

  const NoBest: Best := Best(0, None)

  /** The fuzzy loop over names[j..hi) for alias number `a`: a score
      replaces the best only when strictly greater. */
  function FuzzyPass(ratio: Scorer, a: nat, query: string, names: seq<string>, j: nat, hi: nat, b: Best): Best
    requires hi <= |names|
    decreases hi - j
  {
    if j >= hi then b
    else
      var s := NameScore(ratio, query, names[j]);
      FuzzyPass(ratio, a, query, names, j + 1, hi, if s > b.score then Best(s, Some(Pair(a, j))) else b)
  }

  /** The fuzzy loops of all aliases from number i on, with the best score
      carried from one alias to the next. */
  function FuzzyAliases(ratio: Scorer, aliases: seq<string>, names: seq<string>, i: nat, b: Best): Best
    decreases |aliases| - i
  {
    if i >= |aliases| then b
    else FuzzyAliases(ratio, aliases, names, i + 1, FuzzyPass(ratio, i, aliases[i], names, 0, |names|, b))
  }

  /** The fuzzy loop keeps the first maximum: the final score is at least
      every score seen, and when it changed it belongs to a candidate that
      every earlier candidate scores strictly below. */
  lemma {:induction false} FuzzyPassFirstMax(ratio: Scorer, a: nat, query: string, names: seq<string>, j: nat, hi: nat, b: Best)
    requires hi <= |names|
    ensures var r := FuzzyPass(ratio, a, query, names, j, hi, b);
      && r.score >= b.score
      && (forall k :: j <= k < hi ==> NameScore(ratio, query, names[k]) <= r.score)
      && (r == b || (
           && r.at.Some? && r.at.value.alias == a && j <= r.at.value.page < hi
           && r.score == NameScore(ratio, query, names[r.at.value.page]) > b.score
           && forall k :: j <= k < r.at.value.page ==> NameScore(ratio, query, names[k]) < r.score))
    decreases hi - j
  {
    if j < hi {
      var s := NameScore(ratio, query, names[j]);
      var b' := if s > b.score then Best(s, Some(Pair(a, j))) else b;
      FuzzyPassFirstMax(ratio, a, query, names, j + 1, hi, b');
    }
  }

  /** The same across aliases: the best is the first maximum in the order
      alias by alias, page by page. */
  lemma {:induction false} FuzzyAliasesFirstMax(ratio: Scorer, aliases: seq<string>, names: seq<string>, i: nat, b: Best)
    ensures var r := FuzzyAliases(ratio, aliases, names, i, b);
      && r.score >= b.score
      && (forall ai, k :: i <= ai < |aliases| && 0 <= k < |names| ==>
            NameScore(ratio, aliases[ai], names[k]) <= r.score)
      && (r == b || (
           && r.at.Some? && i <= r.at.value.alias < |aliases| && r.at.value.page < |names|
           && r.score == NameScore(ratio, aliases[r.at.value.alias], names[r.at.value.page]) > b.score
           && (forall ai, k :: i <= ai < r.at.value.alias && 0 <= k < |names| ==>
                 NameScore(ratio, aliases[ai], names[k]) < r.score)
           && (forall k :: 0 <= k < r.at.value.page ==>
                 NameScore(ratio, aliases[r.at.value.alias], names[k]) < r.score)))
    decreases |aliases| - i
  {
    if i < |aliases| {
      var b1 := FuzzyPass(ratio, i, aliases[i], names, 0, |names|, b);
      FuzzyPassFirstMax(ratio, i, aliases[i], names, 0, |names|, b);
      FuzzyAliasesFirstMax(ratio, aliases, names, i + 1, b1);
    }
  }

  /** A changed best points at one of the names. */
  lemma FuzzyAliasesInRange(ratio: Scorer, aliases: seq<string>, names: seq<string>, i: nat, b: Best)
    ensures var r := FuzzyAliases(ratio, aliases, names, i, b);
      r == b || (r.at.Some? && r.at.value.page < |names|)
  {
    FuzzyAliasesFirstMax(ratio, aliases, names, i, b);
  }

  /** A spreadsheet `client` cell: missing, a non-text value (a number, or
      NaN, which Python treats as true), or text. */
  datatype ClientValue = NoClient | NonText(truthy: bool) | Text(s: string)

  /** Python truthiness of the cell (`if client:`). */
  predicate Truthy(c: ClientValue) {
    match c
    case NoClient => false
    case NonText(t) => t
    case Text(s) => s != ""
  }

  /** `mapped_names`: the stripped comma-separated aliases of a text cell,
      none for any other value. A text cell, even an empty one, gives one
      name per comma-separated piece. */
  function MappedNames(c: ClientValue): (r: seq<string>)
    ensures r == [] <==> !c.Text?
    ensures c.Text? ==> |r| == |Split(c.s, ',')|
    ensures c.Text? ==> forall k :: 0 <= k < |r| ==> IsTrim(r[k], Split(c.s, ',')[k])
    ensures c.Text? ==> r == Aliases(c.s)
  {
    if c.Text? then Aliases(c.s) else []
  }
}
