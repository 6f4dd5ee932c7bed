/**
 * How the reader and the presenter fit together: a reader is loaded and
 * narrowed, and each record of the view is presented as a card.
 */
module Scenario {
  import opened Wrappers
  import opened Strings
  import opened Sequences
  import opened CardData
  import opened Reader
  import opened Card

  /** A card that shows no AI icon is rejected by every active AI filter that does not select "". */
  lemma NoIconsFailAiFilter(f: Filters, r: Record)
    requires HideIcon1(r) && HideIcon2(r) && HideIcon3(r)
    requires AiActive(f) && "" !in f.aiCapabilities.value
    ensures !Matches(f, r)
  {
    assert Lower("") == "";
  }

  /** A card that shows no challenge is rejected by every active challenge filter. */
  lemma NoChallengeFailsChallengeFilter(f: Filters, r: Record)
    requires HideGC(r) && ChallengeActive(f)
    ensures !Matches(f, r)
  {
    assert Lower("") == "";
  }

  /** The filters that select the sector "energy" and nothing else. */
  function EnergyOnly(): Filters
  {
    InitialFilters().(sector := Some(["energy"]))
  }

  lemma EnergyMatches(e: Record)
    requires e.sector == "Energy"
    ensures MatchesOf(EnergyOnly())(e)
  {
    LowerEnergy();
  }

  lemma AgricultureDoesNotMatch(a: Record)
    requires a.sector == "Agriculture"
    ensures !MatchesOf(EnergyOnly())(a)
  {
    assert |Lower(a.sector)| == 11;
  }

  /**
   * Of an "Energy" record and an "Agriculture" record, selecting the sector
   * "energy" keeps the first only.
   */
  lemma EnergyScenario(e: Record, a: Record)
    requires e.sector == "Energy" && a.sector == "Agriculture"
    ensures Select([e, a], EnergyOnly()) == [e]
  {
    var p := MatchesOf(EnergyOnly());
    EnergyMatches(e);
    AgricultureDoesNotMatch(a);
    WhereSnoc([], e, p);
    WhereSnoc([e], a, p);
    assert [] + [e] == [e] && [e] + [a] == [e, a];
  }

  /** The "Energy" record's card is teal and, its second tag and challenge being empty, shows neither. */
  lemma EnergyCard(e: Record)
    requires e.sector == "Energy" && e.ai1 == "Vision" && e.ai2 == "" && e.challenge == ""
    ensures GetColor(e) == Teal
    ensures HideGC(e) && HideIcon2(e) && !HideIcon1(e)
  {
    LowerEnergy();
  }

  /** The same scenario driven through a reader object. */
  method EnergyScenarioThroughReader(e: Record, a: Record)
    requires e.sector == "Energy" && a.sector == "Agriculture"
  {
    var reader := new CardReader("data.json");
    reader.FetchData(Some([e, a]));
    reader.SetSectors(["energy"]);
    assert reader.filters == EnergyOnly();
    var view := reader.ApplyFilters();
    EnergyScenario(e, a);
    assert view == [e];
    var again := reader.ApplyFilters();
    assert again == view;
  }
}
