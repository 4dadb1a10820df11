/**
 * The browse pages' matching rules: a case-insensitive search over title and description, and
 * criteria where the empty value means "match all", all joined by AND.
 */
module Search {
  import opened Wrappers
  import opened Domain
  import Text
  import Seqs

  /** Empty query, or the lower-cased query occurs in the lower-cased title or description. */
  function MatchesQuery(x: Item, query: string): (ok: bool)
    ensures query == "" ==> ok
    ensures Text.Lower(query) == Text.Lower(x.title) ==> ok
    ensures Text.Lower(query) == Text.Lower(x.description) ==> ok
  {
    Text.ContainsItself(Text.Lower(x.title));
    Text.ContainsItself(Text.Lower(x.description));
    || query == ""
    || Text.Contains(Text.Lower(x.title), Text.Lower(query))
    || Text.Contains(Text.Lower(x.description), Text.Lower(query))
  }

  /** `!criterion || value === criterion`. */
  predicate MatchesValue(value: string, criterion: string)
  {
    criterion == "" || value == criterion
  }

  /** `!hasReward || (item.reward && item.reward > 0)`. */
  predicate MatchesReward(x: Item, hasReward: bool)
  {
    !hasReward || (x.reward.Some? && x.reward.value > 0)
  }

  /** The query depends only on its lower-cased form. */
  lemma QueryIgnoresCase(x: Item, q1: string, q2: string)
    requires Text.Lower(q1) == Text.Lower(q2)
    ensures MatchesQuery(x, q1) == MatchesQuery(x, q2)
  {
    assert q1 == "" <==> Text.Lower(q1) == "";
    assert q2 == "" <==> Text.Lower(q2) == "";
  }

  /** One of the single conditions a browse page combines. */
  datatype Criterion =
    | Query(text: string)
    | Category(value: string)
    | Location(value: string)
    | Urgency(value: string)
    | Condition(value: string)
    | RewardOnly(flag: bool)

  predicate Holds(c: Criterion, x: Item)
  {
    match c
    case Query(q) => MatchesQuery(x, q)
    case Category(v) => MatchesValue(x.category, v)
    case Location(v) => MatchesValue(x.location, v)
    case Urgency(v) => MatchesValue(x.urgency, v)
    case Condition(v) => MatchesValue(x.condition, v)
    case RewardOnly(b) => MatchesReward(x, b)
  }

  function Test(c: Criterion): Item -> bool
  {
    (x: Item) => Holds(c, x)
  }

  predicate HoldsAll(cs: seq<Criterion>, x: Item)
  {
    forall c :: c in cs ==> Holds(c, x)
  }

  function TestAll(cs: seq<Criterion>): Item -> bool
  {
    (x: Item) => HoldsAll(cs, x)
  }

  /** Applies the criteria one after another, in the order given. */
  function Sift(s: seq<Item>, cs: seq<Criterion>): seq<Item>
    decreases |cs|
  {
    if cs == [] then s else Sift(Seqs.Filter(s, Test(cs[0])), cs[1..])
  }

  /** Applying the criteria one by one is the same as one filter by their conjunction. */
  lemma {:induction false} SiftIsConjunction(s: seq<Item>, cs: seq<Criterion>)
    ensures Sift(s, cs) == Seqs.Filter(s, TestAll(cs))
    decreases |cs|
  {
    if cs == [] {
      Seqs.FilterAllPass(s, TestAll(cs));
    } else {
      var t := Seqs.Filter(s, Test(cs[0]));
      SiftIsConjunction(t, cs[1..]);
      forall x
        ensures TestAll(cs)(x) == (Test(cs[0])(x) && TestAll(cs[1..])(x))
      {
        assert cs == [cs[0]] + cs[1..];
      }
      Seqs.FilterConjunction(s, Test(cs[0]), TestAll(cs[1..]), TestAll(cs));
    }
  }

  /** The order in which the criteria are applied does not change the result. */
  lemma SiftOrderIrrelevant(s: seq<Item>, cs: seq<Criterion>, ds: seq<Criterion>)
    requires multiset(cs) == multiset(ds)
    ensures Sift(s, cs) == Sift(s, ds)
  {
    SiftIsConjunction(s, cs);
    SiftIsConjunction(s, ds);
    forall c
      ensures c in cs <==> c in ds
    {
      assert c in cs <==> c in multiset(cs);
      assert c in ds <==> c in multiset(ds);
    }
    Seqs.FilterExtensional(s, TestAll(cs), TestAll(ds));
  }

  /** Applying the same criteria a second time changes nothing. */
  lemma SiftIdempotent(s: seq<Item>, cs: seq<Criterion>)
    ensures Sift(Sift(s, cs), cs) == Sift(s, cs)
  {
    SiftIsConjunction(s, cs);
    SiftIsConjunction(Sift(s, cs), cs);
    Seqs.FilterIdempotent(s, TestAll(cs));
  }
}
