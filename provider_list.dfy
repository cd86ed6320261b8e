/** The provider list of src/components/providers/ProviderList.tsx: a name search and an
    all / featured / competitive filter over the fixture providers of src/data/providers.ts. */
module ProviderList {
  import Seqs
  import Text

  /** The fields of a provider the list filters on. Rates are percentages in hundredths
      (6.31 % is 631). */
  datatype Provider = Provider(
    id: string,
    name: string,
    featured: bool,
    startingRate: int,
    comparisonRate: int)

  datatype ProviderFilter = All | Featured | Competitive

  /** The competitive threshold, 6.5 %, in hundredths. */
  const CompetitiveBelow := 650

  /** `mockProviders`, reduced to the fields above. */
  const MockProviders: seq<Provider> := [
    Provider("1", "Commonwealth Bank", true, 589, 631),
    Provider("2", "Westpac", true, 594, 635),
    Provider("3", "Athena", false, 545, 585)
  ]

  /** The filter callback: the term occurs in the name, ignoring case, and the filter admits the
      provider. */
  predicate ProviderMatches(p: Provider, term: string, filter: ProviderFilter) {
    Text.MatchesTerm(p.name, term) && Admits(filter, p)
  }

  function Keep(term: string, filter: ProviderFilter): Provider -> bool {
    (p: Provider) => ProviderMatches(p, term, filter)
  }

  /** `filteredProviders`, over any provider list. */
  function FilterProviders(ps: seq<Provider>, term: string, filter: ProviderFilter): seq<Provider> {
    Seqs.Filter(ps, Keep(term, filter))
  }

  /** What each filter keeps: a provider is listed exactly when its name matches and, for
      `featured`, it is featured, for `competitive`, its comparison rate is below 6.5 %. The
      listed providers keep their relative order. */
  lemma FilterProvidersSpec(ps: seq<Provider>, more: seq<Provider>, term: string, p: Provider)
    ensures p in FilterProviders(ps, term, All) <==> p in ps && Text.MatchesTerm(p.name, term)
    ensures p in FilterProviders(ps, term, Featured) <==>
              p in ps && Text.MatchesTerm(p.name, term) && p.featured
    ensures p in FilterProviders(ps, term, Competitive) <==>
              p in ps && Text.MatchesTerm(p.name, term) && p.comparisonRate < CompetitiveBelow
    ensures forall f: ProviderFilter ::
              FilterProviders(ps + more, term, f) == FilterProviders(ps, term, f) + FilterProviders(more, term, f)
  {
    Seqs.FilterMembership(ps, Keep(term, All), p);
    Seqs.FilterMembership(ps, Keep(term, Featured), p);
    Seqs.FilterMembership(ps, Keep(term, Competitive), p);
    forall f: ProviderFilter
      ensures FilterProviders(ps + more, term, f) == FilterProviders(ps, term, f) + FilterProviders(more, term, f)
    {
      Seqs.FilterAppend(ps, more, Keep(term, f));
    }
  }

  /** What a filter admits, apart from the search. */
  predicate Admits(filter: ProviderFilter, p: Provider) {
    filter == All ||
    (filter == Featured && p.featured) ||
    (filter == Competitive && p.comparisonRate < CompetitiveBelow)
  }

  function AdmittedBy(filter: ProviderFilter): Provider -> bool {
    (p: Provider) => Admits(filter, p)
  }

  /** With an empty search only the filter decides; `all` then lists the whole input. */
  lemma {:induction false} EmptySearch(ps: seq<Provider>, filter: ProviderFilter)
    ensures FilterProviders(ps, "", filter) == Seqs.Filter(ps, AdmittedBy(filter))
    ensures FilterProviders(ps, "", All) == ps
  {
    if ps != [] {
      Text.MatchesEmptyTerm(ps[0].name);
      EmptySearch(ps[1..], filter);
    }
  }

  /** Over the fixture, `featured` admits Commonwealth Bank and Westpac and `competitive` admits
      all three providers; with `EmptySearch` these are the lists shown for an empty search. */
  lemma FixtureFilters()
    ensures Seqs.Filter(MockProviders, AdmittedBy(Featured)) == MockProviders[..2]
    ensures Seqs.Filter(MockProviders, AdmittedBy(Competitive)) == MockProviders
  {
  }
}
