/** app/practice/page.tsx: the category tabs, the search over name and
    description, the selection of a sign (from the URL or a click) and the
    advance to the next lesson. The difficulty badge is the one of
    `LabelCard.DifficultyBadge`. The router is modelled as the `label`
    parameter of the last pushed URL. */
module PracticePage {
  import opened Types
  import opened Seqs
  import opened Text
  import opened Store

  /** The value of the "all" tab. */
  const AllCategories := "all"

  /** `["all", ...new Set(labels.map(l => l.category))]`; a missing category
      is a value of its own, as `undefined` is in a `Set`. */
  function Categories(labels: Arr<Label>): seq<Option<string>> {
    [Some(AllCategories)] + Distinct(CategoryOf(AsArray(labels)))
  }

  /** `labels.map(l => l.category)`. */
  function CategoryOf(s: seq<Label>): (r: seq<Option<string>>)
    ensures |r| == |s| && forall i :: 0 <= i < |s| ==> r[i] == s[i].category
  {
    if s == [] then [] else [s[0].category] + CategoryOf(s[1..])
  }

  /** Every label's category has a tab, no tab is repeated unless a label's
      category is literally "all". */
  lemma CategoriesCorrect(labels: Arr<Label>)
    ensures Categories(labels)[0] == Some(AllCategories)
    ensures forall l :: l in AsArray(labels) ==> l.category in Categories(labels)
    ensures (forall l :: l in AsArray(labels) ==> l.category != Some(AllCategories)) ==>
      forall i, j :: 0 <= i < j < |Categories(labels)| ==> Categories(labels)[i] != Categories(labels)[j]
  {
    var s := AsArray(labels);
    var cats := CategoryOf(s);
    forall l | l in s ensures l.category in Categories(labels) {
      var i :| 0 <= i < |s| && s[i] == l;
      assert cats[i] == l.category;
      assert cats[i] in Distinct(cats);
    }
    if forall l :: l in s ==> l.category != Some(AllCategories) {
      var d := Distinct(cats);
      forall k | 0 <= k < |d| ensures d[k] != Some(AllCategories) {
        var i :| 0 <= i < |cats| && cats[i] == d[k];
        assert s[i] in s;
      }
    }
  }

  /** The search: the lower-cased term in the lower-cased name or description. */
  predicate MatchesSearch(l: Label, term: string) {
    Includes(Lower(l.name), Lower(term)) || Includes(Lower(l.description), Lower(term))
  }

  predicate InCategory(l: Label, category: string) {
    l.category == Some(category)
  }

  /** The filter effect: the search when the term is truthy, then the category
      unless it is "all". */
  function FilterLabels(labels: Arr<Label>, term: string, category: string): seq<Label> {
    var filtered := AsArray(labels);
    var filtered := if term != "" then Filter(filtered, (l: Label) => MatchesSearch(l, term)) else filtered;
    if category != AllCategories then Filter(filtered, (l: Label) => InCategory(l, category)) else filtered
  }

  /** The reference condition: the label matches the search and is in the tab. */
  predicate Shown(l: Label, term: string, category: string) {
    MatchesSearch(l, term) && (category == AllCategories || InCategory(l, category))
  }

  /** The list keeps, in order, exactly the labels that match the search and
      belong to the chosen tab; the "all" tab with no term shows everything. */
  lemma FilterLabelsCorrect(labels: Arr<Label>, term: string, category: string)
    ensures FilterLabels(labels, term, category) == Filter(AsArray(labels), (l: Label) => Shown(l, term, category))
    ensures term == "" && category == AllCategories ==> FilterLabels(labels, term, category) == AsArray(labels)
  {
    var s := AsArray(labels);
    var ms := (l: Label) => MatchesSearch(l, term);
    var ic := (l: Label) => InCategory(l, category);
    var sh := (l: Label) => Shown(l, term, category);
    var all := (l: Label) => true;
    if term == "" {
      forall i | 0 <= i < |s| ensures ms(s[i]) {
        EmptyIncluded(Lower(s[i].name));
      }
      FilterAll(s, ms);
    }
    assert (if term != "" then Filter(s, ms) else s) == Filter(s, ms);
    if category != AllCategories {
      FilterFilter(s, ms, ic, sh);
    } else {
      FilterExt(s, ms, sh);
    }
  }

  /** No two labels of the list share an id. */
  predicate UniqueIds(s: seq<Label>) {
    forall i, j :: 0 <= i < j < |s| ==> s[i].id != s[j].id
  }

  /** The label after `current` in lesson order: the following one, or the
      first after the last one or when `current` is not in the list. */
  function NextLesson(labels: seq<Label>, current: Label): (next: Option<Label>)
    ensures next.None? <==> labels == []
  {
    var k := FindIndex(labels, (l: Label) => l.id == current.id);
    if k.Some? && k.value < |labels| - 1 then Some(labels[k.value + 1])
    else if |labels| > 0 then Some(labels[0])
    else None
  }

  /** With unique ids the only label carrying the i-th label's id is the i-th. */
  lemma FindOwnIndex(labels: seq<Label>, i: nat)
    requires UniqueIds(labels) && i < |labels|
    ensures FindIndex(labels, (l: Label) => l.id == labels[i].id) == Some(i)
  {
    var k := FindIndex(labels, (l: Label) => l.id == labels[i].id);
    assert k.Some? && k.value <= i;
    assert labels[k.value].id == labels[i].id;
  }

  /** With unique ids the lessons form a cycle: after the i-th label comes the
      (i + 1)-th, and after the last one the first. */
  lemma NextLessonCycles(labels: seq<Label>, i: nat)
    requires UniqueIds(labels) && i < |labels|
    ensures i < |labels| - 1 ==> NextLesson(labels, labels[i]) == Some(labels[i + 1])
    ensures i == |labels| - 1 ==> NextLesson(labels, labels[i]) == Some(labels[0])
  {
    FindOwnIndex(labels, i);
  }

  class Practice {
    var labels: Arr<Label>
    var selectedLabel: Option<Label>
    var predictionResult: Option<PredictionResponse>
    var searchTerm: string
    var activeCategory: string
    var filteredLabels: seq<Label>
    /** The `label` parameter of the last URL pushed to the router. */
    var pushedLabel: Option<string>

    ghost predicate Valid()
      reads this
    {
      filteredLabels == FilterLabels(labels, searchTerm, activeCategory)
    }

    constructor (labels: Arr<Label>)
      ensures this.labels == labels && selectedLabel.None? && predictionResult.None?
      ensures searchTerm == "" && activeCategory == AllCategories && pushedLabel.None?
      ensures Valid()
    {
      this.labels := labels;
      selectedLabel, predictionResult := None, None;
      searchTerm, activeCategory := "", AllCategories;
      filteredLabels := FilterLabels(labels, "", AllCategories);
      pushedLabel := None;
    }

    /** Typing in the search box. */
    method Search(term: string)
      modifies this
      ensures searchTerm == term && activeCategory == old(activeCategory) && labels == old(labels)
      ensures selectedLabel == old(selectedLabel) && predictionResult == old(predictionResult)
      ensures pushedLabel == old(pushedLabel)
      ensures Valid()
    {
      searchTerm := term;
      filteredLabels := FilterLabels(labels, searchTerm, activeCategory);
    }

    /** Choosing a category tab. */
    method SelectCategory(category: string)
      modifies this
      ensures activeCategory == category && searchTerm == old(searchTerm) && labels == old(labels)
      ensures selectedLabel == old(selectedLabel) && predictionResult == old(predictionResult)
      ensures pushedLabel == old(pushedLabel)
      ensures Valid()
    {
      activeCategory := category;
      filteredLabels := FilterLabels(labels, searchTerm, activeCategory);
    }

    /** The URL effect: a truthy `label` parameter selects the label with that
        id once labels are loaded; otherwise the selection stays. */
    method SelectFromUrl(labelId: Option<string>)
      modifies this
      ensures labelId.Some? && labelId.value != "" && Find(AsArray(labels), (l: Label) => l.id == labelId.value).Some? ==>
        selectedLabel == Find(AsArray(labels), (l: Label) => l.id == labelId.value)
      ensures !(labelId.Some? && labelId.value != "" && Find(AsArray(labels), (l: Label) => l.id == labelId.value).Some?) ==>
        selectedLabel == old(selectedLabel)
      ensures selectedLabel.Some? && selectedLabel != old(selectedLabel) ==> selectedLabel.value in AsArray(labels)
      ensures labels == old(labels) && predictionResult == old(predictionResult) && pushedLabel == old(pushedLabel)
      ensures searchTerm == old(searchTerm) && activeCategory == old(activeCategory)
      ensures filteredLabels == old(filteredLabels)
    {
      var safeLabels := AsArray(labels);
      if labelId.Some? && labelId.value != "" && |safeLabels| > 0 {
        var found := Find(safeLabels, (l: Label) => l.id == labelId.value);
        if found.Some? {
          selectedLabel := found;
        }
      }
    }

    /** `handleLabelSelect`: select, clear the result, push the URL. */
    method LabelSelect(chosen: Label)
      modifies this
      ensures selectedLabel == Some(chosen) && predictionResult.None? && pushedLabel == Some(chosen.id)
      ensures labels == old(labels) && searchTerm == old(searchTerm) && activeCategory == old(activeCategory)
      ensures filteredLabels == old(filteredLabels)
    {
      selectedLabel := Some(chosen);
      predictionResult := None;
      pushedLabel := Some(chosen.id);
    }

    /** `handlePredictionComplete`. */
    method PredictionComplete(result: PredictionResponse)
      modifies this
      ensures predictionResult == Some(result) && selectedLabel == old(selectedLabel)
      ensures labels == old(labels) && pushedLabel == old(pushedLabel) && filteredLabels == old(filteredLabels)
      ensures searchTerm == old(searchTerm) && activeCategory == old(activeCategory)
    {
      predictionResult := Some(result);
    }

    /** `handleClosePrediction` and `handleRepeat`: both only clear the result. */
    method ClearPrediction()
      modifies this
      ensures predictionResult.None? && selectedLabel == old(selectedLabel)
      ensures labels == old(labels) && pushedLabel == old(pushedLabel) && filteredLabels == old(filteredLabels)
      ensures searchTerm == old(searchTerm) && activeCategory == old(activeCategory)
    {
      predictionResult := None;
    }

    /** `handleNextLesson`: nothing without a selection or without labels;
        otherwise the next lesson is selected, the result cleared and its URL
        pushed. */
    method NextLessonSelect()
      modifies this
      ensures old(selectedLabel).None? || AsArray(labels) == [] ==>
        selectedLabel == old(selectedLabel) && predictionResult == old(predictionResult)
        && pushedLabel == old(pushedLabel)
      ensures old(selectedLabel).Some? && AsArray(labels) != [] ==>
        selectedLabel == NextLesson(AsArray(labels), old(selectedLabel).value)
        && predictionResult.None? && pushedLabel == Some(selectedLabel.value.id)
      ensures labels == old(labels) && searchTerm == old(searchTerm) && activeCategory == old(activeCategory)
      ensures filteredLabels == old(filteredLabels)
    {
      if selectedLabel.None? {
        return;
      }
      var safeLabels := AsArray(labels);
      var current := selectedLabel.value;
      var currentIndex := FindIndex(safeLabels, (l: Label) => l.id == current.id);
      if currentIndex.Some? && currentIndex.value < |safeLabels| - 1 {
        var nextLabel := safeLabels[currentIndex.value + 1];
        selectedLabel := Some(nextLabel);
        predictionResult := None;
        pushedLabel := Some(nextLabel.id);
      } else if |safeLabels| > 0 {
        var firstLabel := safeLabels[0];
        selectedLabel := Some(firstLabel);
        predictionResult := None;
        pushedLabel := Some(firstLabel.id);
      }
    }
  }
}
