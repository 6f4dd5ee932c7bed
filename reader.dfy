/**
 * The card reader: it holds the loaded records and the current filter
 * selections, and `ApplyFilters` narrows the records to those every active
 * filter accepts, stage by stage, keeping their order.
 */
module Reader {
  import opened Wrappers
  import opened Strings
  import opened Sequences
  import opened CardData

  /**
   * The filter selections. `None` stands for `null` or an absent key. The
   * constructor declares `grandChallange`, which nothing reads; the challenge
   * stage reads `challenge`, which the constructor does not declare, so that
   * stage starts out switched off.
   */
  datatype Filters = Filters(
    sector: Option<seq<string>>,
    aiCapabilities: Option<seq<string>>,
    grandChallange: Option<string>,
    searchText: string,
    scoreImpact: Option<int>,
    scoreAI: Option<int>,
    scoreNovelty: Option<int>,
    challenge: Option<string>
  )

  /** The selections the reader is constructed with. */
  function InitialFilters(): Filters
  {
    Filters(None, None, None, "", None, None, None, None)
  }

  // When each stage runs: a selection that is null, empty or (for the search) the empty text is skipped.

  predicate SectorActive(f: Filters) { f.sector.Some? && |f.sector.value| > 0 }

  predicate AiActive(f: Filters) { f.aiCapabilities.Some? && |f.aiCapabilities.value| > 0 }

  predicate SearchActive(f: Filters) { f.searchText != "" }

  predicate ChallengeActive(f: Filters) { f.challenge.Some? && |f.challenge.value| > 0 }

  /** No stage of `ApplyFilters` runs. */
  predicate Unrestricted(f: Filters)
  {
    && !SectorActive(f) && !AiActive(f) && !SearchActive(f) && !ChallengeActive(f)
    && f.scoreImpact.None? && f.scoreAI.None? && f.scoreNovelty.None?
  }

  // What each stage accepts. Only the record's side is lower-cased in the sector,
  // AI and challenge stages; the search stage lower-cases both sides.

  predicate SectorAccepts(selected: seq<string>, item: Record)
  {
    Lower(item.sector) in selected
  }

  predicate AiAccepts(selected: seq<string>, item: Record)
  {
    Lower(item.ai1) in selected || Lower(item.ai2) in selected || Lower(item.ai3) in selected
  }

  predicate SearchAccepts(text: string, item: Record)
  {
    var q := Lower(text);
    Includes(Lower(item.title), q) || Includes(Lower(item.description), q)
  }

  predicate ChallengeAccepts(selected: string, item: Record)
  {
    selected == Lower(item.challenge)
  }

  /** A record survives the filters iff every active stage accepts it. */
  predicate Matches(f: Filters, item: Record)
  {
    && (SectorActive(f) ==> SectorAccepts(f.sector.value, item))
    && (AiActive(f) ==> AiAccepts(f.aiCapabilities.value, item))
    && (SearchActive(f) ==> SearchAccepts(f.searchText, item))
    && (ChallengeActive(f) ==> ChallengeAccepts(f.challenge.value, item))
    && (f.scoreImpact.Some? ==> item.Impact == f.scoreImpact.value)
    && (f.scoreAI.Some? ==> item.AISuitability == f.scoreAI.value)
    && (f.scoreNovelty.Some? ==> item.Novelty == f.scoreNovelty.value)
  }

  function MatchesOf(f: Filters): Record -> bool
  {
    item => Matches(f, item)
  }

  /** What `ApplyFilters` is to return: the matching records, in their original order. */
  function Select(xs: seq<Record>, f: Filters): seq<Record>
  {
    Where(xs, MatchesOf(f))
  }

  /** Exactly the records of `xs` that every active stage accepts are selected. */
  lemma SelectMembers(xs: seq<Record>, f: Filters, x: Record)
    ensures x in Select(xs, f) <==> x in xs && Matches(f, x)
    ensures multiset(Select(xs, f))[x] == if Matches(f, x) then multiset(xs)[x] else 0
  {
    WhereMembers(xs, MatchesOf(f));
    assert MatchesOf(f)(x) == Matches(f, x);
  }

  /** The selection is an order-preserving subsequence of the records. */
  lemma SelectKeepsOrder(xs: seq<Record>, f: Filters)
    ensures IsSubsequence(Select(xs, f), xs)
  {
    WhereIsSubsequence(xs, MatchesOf(f));
  }

  /** With every stage switched off, the records come back unchanged. */
  lemma UnrestrictedKeepsAll(xs: seq<Record>, f: Filters)
    requires Unrestricted(f)
    ensures Select(xs, f) == xs
  {
    WhereAll(xs, MatchesOf(f));
  }

  /** A freshly constructed reader shows every record. */
  lemma InitialKeepsAll(xs: seq<Record>)
    ensures Select(xs, InitialFilters()) == xs
  {
    UnrestrictedKeepsAll(xs, InitialFilters());
  }

  /** Filtering the filtered view again with the same selections changes nothing. */
  lemma SelectIdempotent(xs: seq<Record>, f: Filters)
    ensures Select(Select(xs, f), f) == Select(xs, f)
  {
    WhereIdempotent(xs, MatchesOf(f));
  }

  /** Running one more stage, accepting by `p`, on the view selected by `g` gives the view selected by `h`. */
  lemma AddStage(xs: seq<Record>, g: Filters, h: Filters, p: Record -> bool)
    requires forall x :: Matches(h, x) == (Matches(g, x) && p(x))
    ensures Where(Select(xs, g), p) == Select(xs, h)
  {
    WhereWhere(xs, MatchesOf(g), p, MatchesOf(h));
  }

  /** Selections that accept the same records select the same view. */
  lemma SameStages(xs: seq<Record>, g: Filters, h: Filters)
    requires forall x :: Matches(h, x) == Matches(g, x)
    ensures Select(xs, g) == Select(xs, h)
  {
    WhereSame(xs, MatchesOf(g), MatchesOf(h));
  }

  /** The sector stage ignores the case of the record's sector. */
  lemma SectorIgnoresRecordCase(selected: seq<string>, item: Record)
    ensures SectorAccepts(selected, item.(sector := Upper(item.sector))) == SectorAccepts(selected, item)
  {
    LowerOfUpper(item.sector);
  }

  /** The selected sectors are not lower-cased: a selection holding an upper-case letter matches nothing. */
  lemma SectorSelectionIsCaseSensitive(selected: seq<string>, item: Record)
    requires forall s :: s in selected ==> HasUpper(s)
    ensures !SectorAccepts(selected, item)
  {
    LowerHasNoUpper(item.sector);
  }

  /** The same holds of the selected challenge. */
  lemma ChallengeSelectionIsCaseSensitive(selected: string, item: Record)
    requires HasUpper(selected)
    ensures !ChallengeAccepts(selected, item)
  {
    LowerHasNoUpper(item.challenge);
  }

  /** The search ignores the case of the search text. */
  lemma SearchIgnoresTextCase(text: string, item: Record)
    ensures SearchAccepts(Upper(text), item) == SearchAccepts(text, item)
  {
    LowerOfUpper(text);
  }

  class CardReader {
    var jsonURL: string
    var jsonData: seq<Record>
    var filters: Filters

    constructor (jsonURL: string)
      ensures this.jsonURL == jsonURL
      ensures jsonData == [] && filters == InitialFilters()
    {
      this.jsonURL := jsonURL;
      jsonData := [];
      filters := InitialFilters();
    }

    /**
     * Stores the outcome of fetching and parsing the data file, which is
     * supplied by the caller: `None` is a fetch or parse failure, which is
     * logged and leaves the records as they were.
     */
    method FetchData(response: Option<seq<Record>>)
      modifies this`jsonData
      ensures jsonData == if response.Some? then response.value else old(jsonData)
    {
      if response.Some? {
        jsonData := response.value;
      }
    }

    /** The records every active filter accepts, in their original order. */
    method ApplyFilters() returns (filteredData: seq<Record>)
      ensures filteredData == Select(jsonData, filters)
      ensures forall x :: x in filteredData <==> x in jsonData && Matches(filters, x)
      ensures IsSubsequence(filteredData, jsonData)
    {
      // g describes the stages applied so far: those of filters, the others switched off.
      ghost var g := filters.(sector := None, aiCapabilities := None, searchText := "", challenge := None,
                              scoreImpact := None, scoreAI := None, scoreNovelty := None);
      UnrestrictedKeepsAll(jsonData, g);
      filteredData := jsonData;
      filteredData := SectorFilter(filteredData, g);
      g := g.(sector := filters.sector);
      filteredData := AiCapabilityFilter(filteredData, g);
      g := g.(aiCapabilities := filters.aiCapabilities);
      filteredData := SearchFilter(filteredData, g);
      g := g.(searchText := filters.searchText);
      filteredData := ChallengeFilter(filteredData, g);
      g := g.(challenge := filters.challenge);
      filteredData := ScoreImpactFilter(filteredData, g);
      g := g.(scoreImpact := filters.scoreImpact);
      filteredData := ScoreAIFilter(filteredData, g);
      g := g.(scoreAI := filters.scoreAI);
      filteredData := ScoreNoveltyFilter(filteredData, g);
      g := g.(scoreNovelty := filters.scoreNovelty);
      assert g == filters;
      SelectKeepsOrder(jsonData, filters);
      forall x ensures x in filteredData <==> x in jsonData && Matches(filters, x) {
        SelectMembers(jsonData, filters, x);
      }
    }

    // The seven stages of ApplyFilters. Each takes the view selected so far by g,
    // in which its own dimension is still switched off, and switches it on.

    /** Sector stage: keeps the records whose lower-cased sector is selected. */
    method SectorFilter(view: seq<Record>, ghost g: Filters) returns (r: seq<Record>)
      requires view == Select(jsonData, g) && !SectorActive(g)
      ensures r == Select(jsonData, g.(sector := filters.sector))
    {
      r := view;
      if filters.sector.Some? && |filters.sector.value| > 0 {
        var selected := filters.sector.value;
        r := Filter(r, item => SectorAccepts(selected, item));
        AddStage(jsonData, g, g.(sector := filters.sector), item => SectorAccepts(selected, item));
      } else {
        SameStages(jsonData, g, g.(sector := filters.sector));
      }
    }

    /** AI capability stage: keeps the records one of whose lower-cased tags is selected. */
    method AiCapabilityFilter(view: seq<Record>, ghost g: Filters) returns (r: seq<Record>)
      requires view == Select(jsonData, g) && !AiActive(g)
      ensures r == Select(jsonData, g.(aiCapabilities := filters.aiCapabilities))
    {
      r := view;
      if filters.aiCapabilities.Some? && |filters.aiCapabilities.value| > 0 {
        var selected := filters.aiCapabilities.value;
        r := Filter(r, item => AiAccepts(selected, item));
        AddStage(jsonData, g, g.(aiCapabilities := filters.aiCapabilities), item => AiAccepts(selected, item));
      } else {
        SameStages(jsonData, g, g.(aiCapabilities := filters.aiCapabilities));
      }
    }

    /** Search stage: keeps the records whose title or description contains the text, ignoring case. */
    method SearchFilter(view: seq<Record>, ghost g: Filters) returns (r: seq<Record>)
      requires view == Select(jsonData, g) && !SearchActive(g)
      ensures r == Select(jsonData, g.(searchText := filters.searchText))
    {
      r := view;
      if filters.searchText != "" {
        var searchText := Lower(filters.searchText);
        var stage := (item: Record) => Includes(Lower(item.title), searchText) || Includes(Lower(item.description), searchText);
        r := Filter(r, stage);
        AddStage(jsonData, g, g.(searchText := filters.searchText), stage);
      } else {
        SameStages(jsonData, g, g.(searchText := filters.searchText));
      }
    }

    /** Challenge stage: keeps the records whose lower-cased challenge is the selected one. */
    method ChallengeFilter(view: seq<Record>, ghost g: Filters) returns (r: seq<Record>)
      requires view == Select(jsonData, g) && !ChallengeActive(g)
      ensures r == Select(jsonData, g.(challenge := filters.challenge))
    {
      r := view;
      if filters.challenge.Some? && |filters.challenge.value| > 0 {
        var selected := filters.challenge.value;
        r := Filter(r, item => ChallengeAccepts(selected, item));
        AddStage(jsonData, g, g.(challenge := filters.challenge), item => ChallengeAccepts(selected, item));
      } else {
        SameStages(jsonData, g, g.(challenge := filters.challenge));
      }
    }

    /** Impact stage: keeps the records whose Impact is the selected score. */
    method ScoreImpactFilter(view: seq<Record>, ghost g: Filters) returns (r: seq<Record>)
      requires view == Select(jsonData, g) && g.scoreImpact.None?
      ensures r == Select(jsonData, g.(scoreImpact := filters.scoreImpact))
    {
      r := view;
      if filters.scoreImpact.Some? {
        var score := filters.scoreImpact.value;
        r := Filter(r, (item: Record) => item.Impact == score);
        AddStage(jsonData, g, g.(scoreImpact := filters.scoreImpact), (item: Record) => item.Impact == score);
      } else {
        SameStages(jsonData, g, g.(scoreImpact := filters.scoreImpact));
      }
    }

    /** AI suitability stage: keeps the records whose AISuitability is the selected score. */
    method ScoreAIFilter(view: seq<Record>, ghost g: Filters) returns (r: seq<Record>)
      requires view == Select(jsonData, g) && g.scoreAI.None?
      ensures r == Select(jsonData, g.(scoreAI := filters.scoreAI))
    {
      r := view;
      if filters.scoreAI.Some? {
        var score := filters.scoreAI.value;
        r := Filter(r, (item: Record) => item.AISuitability == score);
        AddStage(jsonData, g, g.(scoreAI := filters.scoreAI), (item: Record) => item.AISuitability == score);
      } else {
        SameStages(jsonData, g, g.(scoreAI := filters.scoreAI));
      }
    }

    /** Novelty stage: keeps the records whose Novelty is the selected score. */
    method ScoreNoveltyFilter(view: seq<Record>, ghost g: Filters) returns (r: seq<Record>)
      requires view == Select(jsonData, g) && g.scoreNovelty.None?
      ensures r == Select(jsonData, g.(scoreNovelty := filters.scoreNovelty))
    {
      r := view;
      if filters.scoreNovelty.Some? {
        var score := filters.scoreNovelty.value;
        r := Filter(r, (item: Record) => item.Novelty == score);
        AddStage(jsonData, g, g.(scoreNovelty := filters.scoreNovelty), (item: Record) => item.Novelty == score);
      } else {
        SameStages(jsonData, g, g.(scoreNovelty := filters.scoreNovelty));
      }
    }

    /** The search box changed. */
    method SetSearchText(text: string)
      modifies this`filters
      ensures filters == old(filters).(searchText := text)
    {
      filters := filters.(searchText := text);
    }

    /** The sector check-boxes changed; `selected` are the values of the checked ones. */
    method SetSectors(selected: seq<string>)
      modifies this`filters
      ensures filters == old(filters).(sector := if |selected| > 0 then Some(selected) else None)
    {
      filters := filters.(sector := if |selected| > 0 then Some(selected) else None);
    }

    /** The AI-capability check-boxes changed; `selected` are the values of the checked ones. */
    method SetAiCapabilities(selected: seq<string>)
      modifies this`filters
      ensures filters == old(filters).(aiCapabilities := if |selected| > 0 then Some(selected) else None)
    {
      filters := filters.(aiCapabilities := if |selected| > 0 then Some(selected) else None);
    }

    /** The challenge drop-down changed; "all" clears the selection. */
    method SetChallenge(value: string)
      modifies this`filters
      ensures filters == old(filters).(challenge := if value == "all" then None else Some(value))
    {
      filters := filters.(challenge := if value == "all" then None else Some(value));
    }

    /** The score input called `name` changed; `None` is its "all" value. Unknown names change nothing. */
    method SetScore(name: string, value: Option<int>)
      modifies this`filters
      ensures filters == if name == "Novelty" then old(filters).(scoreNovelty := value)
                         else if name == "AISuitability" then old(filters).(scoreAI := value)
                         else if name == "Impact" then old(filters).(scoreImpact := value)
                         else old(filters)
    {
      if name == "Novelty" { filters := filters.(scoreNovelty := value); }
      if name == "AISuitability" { filters := filters.(scoreAI := value); }
      if name == "Impact" { filters := filters.(scoreImpact := value); }
    }
  }
}
