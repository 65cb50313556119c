/** app/labels/page.tsx: the catalogue of signs, filtered by difficulty level
    and by a case-insensitive search on the name, each card showing the
    friendly name of its sign. */
module LabelsPage {
  import opened Types
  import opened Seqs
  import opened Text
  import opened Store
  import LabelNames
  import Api

  /** The level tabs, in display order. */
  const Levels: seq<string> := ["principiante", "intermedio", "avanzado"]

  /** The tab selected when the page opens. */
  const InitialLevel := "principiante"

  /** The difficulty code a level tab stands for; the catalogue's `Label` type
      gives difficulties as "beginner", "intermediate" or "advanced". */
  function LevelCode(level: string): (c: Option<string>)
    ensures c.Some? <==> level in Levels
  {
    if level == "principiante" then Some("beginner")
    else if level == "intermedio" then Some("intermediate")
    else if level == "avanzado" then Some("advanced")
    else None
  }

  /** As written: `label.difficulty?.toLowerCase() === activeLevel`, which
      compares the difficulty code with the Spanish tab name. */
  predicate AtLevelAsWritten(l: Label, level: string) {
    l.difficulty.Some? && Lower(l.difficulty.value) == level
  }

  /** Corrected: the lower-cased difficulty is the code of the tab. */
  predicate AtLevel(l: Label, level: string) {
    LevelCode(level).Some? && l.difficulty.Some? && Lower(l.difficulty.value) == LevelCode(level).value
  }

  /** `label.name.toLowerCase().includes(searchTerm.toLowerCase())`. */
  predicate MatchesSearch(l: Label, term: string) {
    Includes(Lower(l.name), Lower(term))
  }

  /** The filter effect for a given level test: the level first, then the
      search when the term is truthy. */
  function FilterLabelsWith(labels: Arr<Label>, atLevel: Label -> bool, term: string): seq<Label> {
    var filtered := Filter(AsArray(labels), atLevel);
    if term != "" then Filter(filtered, (l: Label) => MatchesSearch(l, term)) else filtered
  }

  /** The filter effect as written. */
  function FilterLabelsAsWritten(labels: Arr<Label>, level: string, term: string): seq<Label> {
    FilterLabelsWith(labels, (l: Label) => AtLevelAsWritten(l, level), term)
  }

  /** The filter effect with the corrected level test. */
  function FilterLabels(labels: Arr<Label>, level: string, term: string): seq<Label> {
    FilterLabelsWith(labels, (l: Label) => AtLevel(l, level), term)
  }

  /** Skipping the search for an empty term changes nothing: the list holds the
      labels that pass the level test and whose lower-cased name contains the
      lower-cased term, in catalogue order. */
  lemma FilterLabelsCorrect(labels: Arr<Label>, atLevel: Label -> bool, term: string)
    ensures FilterLabelsWith(labels, atLevel, term)
         == Filter(AsArray(labels), (l: Label) => atLevel(l) && MatchesSearch(l, term))
    ensures IsSubsequence(FilterLabelsWith(labels, atLevel, term), AsArray(labels))
  {
    var s := AsArray(labels);
    var ms := (l: Label) => MatchesSearch(l, term);
    var both := (l: Label) => atLevel(l) && MatchesSearch(l, term);
    if term != "" {
      FilterFilter(s, atLevel, ms, both);
    } else {
      forall i | 0 <= i < |s| ensures atLevel(s[i]) == both(s[i]) {
        EmptyIncluded(Lower(s[i].name));
      }
      FilterExt(s, atLevel, both);
    }
    FilterIsSubsequence(s, both);
  }

  /** A difficulty code never equals a tab name once lower-cased. */
  lemma CodeIsNoTab(d: string, level: string)
    requires d in {"beginner", "intermediate", "advanced"} && level in Levels
    ensures Lower(d) != level
  {
    var r := Lower(d);
    if |r| == |level| {
      if d == "advanced" {
        assert r[2] == LowerChar(d[2]) == 'v' != level[2];
      } else {
        assert r[0] == LowerChar(d[0]) == d[0] != level[0];
      }
    }
  }

  /** As written, no tab ever shows a label of the built-in catalogue, whatever
      the search term. */
  lemma DummyCatalogueHiddenAsWritten(level: string, term: string)
    requires level in Levels
    ensures FilterLabelsAsWritten(Array(Api.DummyLabels), level, term) == []
  {
    var lv := (l: Label) => AtLevelAsWritten(l, level);
    forall i | 0 <= i < |Api.DummyLabels| ensures !lv(Api.DummyLabels[i]) {
      CodeIsNoTab(Api.DummyLabels[i].difficulty.value, level);
    }
    FilterNone(Api.DummyLabels, lv);
  }

  /** With the corrected test, a label whose difficulty is a known code is under
      exactly the tab of that code. */
  lemma EachLabelUnderOneTab(l: Label, level: string)
    requires l.difficulty.Some? && l.difficulty.value in {"beginner", "intermediate", "advanced"}
    ensures AtLevel(l, level) <==> LevelCode(level) == Some(l.difficulty.value)
  {
    var d := l.difficulty.value;
    assert Lower(d) == d by {
      forall i | 0 <= i < |d| ensures Lower(d)[i] == d[i] {
        assert IsSlugChar(d[i]);
      }
    }
  }

  /** A level that is not one of the tabs selects nothing. */
  lemma UnknownLevelSelectsNothing(labels: Arr<Label>, level: string, term: string)
    requires level !in Levels
    ensures FilterLabels(labels, level, term) == []
  {
    FilterNone(AsArray(labels), (l: Label) => AtLevel(l, level));
  }

  /** The name a card shows: the friendly name of the id when there is a
      non-empty one, else the name with every `_` turned into a space. */
  function FriendlyName(l: Label): (s: string)
    ensures l.id in LabelNames.FriendlyNames ==> s == LabelNames.FriendlyNames[l.id]
    ensures l.id !in LabelNames.FriendlyNames ==> s == ReplaceChar(l.name, '_', ' ')
  {
    if l.id in LabelNames.FriendlyNames && LabelNames.FriendlyNames[l.id] != "" then LabelNames.FriendlyNames[l.id]
    else ReplaceChar(l.name, '_', ' ')
  }

  /** A label without a friendly name never shows an underscore. */
  lemma FallbackNameHasNoUnderscore(l: Label)
    requires l.id !in LabelNames.FriendlyNames
    ensures '_' !in FriendlyName(l)
  {
    var s := FriendlyName(l);
    forall i | 0 <= i < |s| ensures s[i] != '_' {
      assert s[i] == (if l.name[i] == '_' then ' ' else l.name[i]);
    }
  }

  /** What the results area renders. */
  datatype LabelsView = Skeletons(count: nat) | NoneFound | Cards(cards: seq<Label>)

  function View(isLoading: bool, filtered: seq<Label>): (v: LabelsView)
    ensures isLoading ==> v == Skeletons(6)
    ensures !isLoading && filtered == [] ==> v == NoneFound
    ensures v.Cards? ==> |v.cards| == |filtered| && filtered != []
    ensures v.Cards? ==> forall i :: 0 <= i < |filtered| ==>
      v.cards[i] == filtered[i].(name := FriendlyName(filtered[i]))
  {
    if isLoading then Skeletons(6)
    else if |filtered| == 0 then NoneFound
    else Cards(seq(|filtered|, i requires 0 <= i < |filtered| => filtered[i].(name := FriendlyName(filtered[i]))))
  }

  /** The page's state: the labels from the hook, the tab, the search term and
      the list the filter effect last computed. */
  class Catalogue {
    var labels: Arr<Label>
    var searchTerm: string
    var activeLevel: string
    var filteredLabels: seq<Label>

    /** The effect has run for the current inputs. */
    ghost predicate Valid()
      reads this
    {
      filteredLabels == FilterLabels(labels, activeLevel, searchTerm)
    }

    constructor (labels: Arr<Label>)
      ensures this.labels == labels && searchTerm == "" && activeLevel == InitialLevel
      ensures Valid()
    {
      this.labels := labels;
      searchTerm := "";
      activeLevel := InitialLevel;
      filteredLabels := FilterLabels(labels, InitialLevel, "");
    }

    /** A click on a level tab. */
    method SelectLevel(level: string)
      modifies this
      ensures activeLevel == level && searchTerm == old(searchTerm) && labels == old(labels)
      ensures Valid()
    {
      activeLevel := level;
      filteredLabels := FilterLabels(labels, activeLevel, searchTerm);
    }

    /** Typing in the search box. */
    method Search(term: string)
      modifies this
      ensures searchTerm == term && activeLevel == old(activeLevel) && labels == old(labels)
      ensures Valid()
    {
      searchTerm := term;
      filteredLabels := FilterLabels(labels, activeLevel, searchTerm);
    }

    /** New labels from the hook. */
    method LabelsLoaded(labels: Arr<Label>)
      modifies this
      ensures this.labels == labels && searchTerm == old(searchTerm) && activeLevel == old(activeLevel)
      ensures Valid()
    {
      this.labels := labels;
      filteredLabels := FilterLabels(labels, activeLevel, searchTerm);
    }
  }
}
