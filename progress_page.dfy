/** app/progress/page.tsx: the statistics of the progress page. Local counts
    and rounded percentages over the stored records, the priority between the
    global statistics, the per-sign progress data and the local records, the
    pie chart entries, the per-sign table and its ordering, and the number
    formatting helpers. Values that arrive as untyped JSON are `Num`. */
module ProgressPage {
  import opened Types
  import opened Seqs
  import Text

  // ---------------------------------------------------------------------
  // Local counts and percentages.

  function CountEvaluation(records: seq<PredictionRecord>, e: string): (n: nat)
    ensures n <= |records|
  {
    Count(records, (r: PredictionRecord) => r.evaluation == e)
  }

  /** `total > 0 ? Math.round((count / total) * 100) : 0`. */
  function Percent(count: int, total: int): (p: int)
    ensures total <= 0 ==> p == 0
    ensures total > 0 ==> (count * 100) as real / total as real - 0.5 < p as real <= (count * 100) as real / total as real + 0.5
    ensures 0 < total && 0 <= count <= total ==> 0 <= p <= 100
  {
    if total > 0 then
      var share := count as real / total as real * 100.0;
      assert share == (count * 100) as real / total as real;
      PercentBounds(count, total);
      Round(share)
    else 0
  }

  lemma PercentBounds(count: int, total: int)
    requires total > 0
    ensures 0 <= count <= total ==> 0.0 <= (count * 100) as real / total as real <= 100.0
  {
    if 0 <= count <= total {
      assert (count * 100) as real <= (total * 100) as real;
      assert (total * 100) as real / total as real == 100.0;
    }
  }

  /** Every record counted at most once; when every evaluation is one of the
      three, the three counts add up to the number of records. */
  lemma {:induction false} EvaluationCounts(records: seq<PredictionRecord>)
    ensures CountEvaluation(records, Correct) + CountEvaluation(records, Doubtful)
      + CountEvaluation(records, Incorrect) <= |records|
    ensures (forall i :: 0 <= i < |records| ==> records[i].evaluation in {Correct, Doubtful, Incorrect}) ==>
      CountEvaluation(records, Correct) + CountEvaluation(records, Doubtful)
      + CountEvaluation(records, Incorrect) == |records|
  {
    if records != [] {
      EvaluationCounts(records[1..]);
    }
  }

  // ---------------------------------------------------------------------
  // Sums over the progress data; a field that is not a number counts as 0.

  /** One entry of `progressData`; `sign` is its `label` key. */
  datatype ProgressItem = ProgressItem(
    sign: string,
    totalAttempts: Num,
    correctAttempts: Num,
    doubtfulAttempts: Num,
    incorrectAttempts: Num,
    successRate: real)

  /** `typeof x === 'number' ? x : 0`. */
  function NumOr0(x: Num): real {
    if x.Number? then x.n else 0.0
  }

  /** `progressData.reduce((sum, p) => sum + (typeof f(p) === 'number' ? f(p) : 0), 0)`. */
  function SumOf(items: seq<ProgressItem>, f: ProgressItem -> Num): real {
    if items == [] then 0.0 else SumOf(items[..|items| - 1], f) + NumOr0(f(items[|items| - 1]))
  }

  /** Entries whose field is not a number do not change the sum. */
  lemma {:induction false} SumIgnoresNonNumbers(items: seq<ProgressItem>, f: ProgressItem -> Num)
    ensures SumOf(items, f) == SumOf(Filter(items, p => f(p).Number?), f)
  {
    if items != [] {
      var init, last := items[..|items| - 1], items[|items| - 1];
      assert items == init + [last];
      SumIgnoresNonNumbers(init, f);
      FilterConcat(init, [last], p => f(p).Number?);
      var kept := Filter(init, p => f(p).Number?);
      if f(last).Number? {
        assert Filter(items, p => f(p).Number?) == kept + [last];
        assert (kept + [last])[..|kept + [last]| - 1] == kept;
      } else {
        assert Filter(items, p => f(p).Number?) == kept + [];
        assert kept + [] == kept;
      }
    }
  }

  /** With nonnegative numbers the sum is nonnegative. */
  lemma {:induction false} SumNonnegative(items: seq<ProgressItem>, f: ProgressItem -> Num)
    requires forall i :: 0 <= i < |items| ==> NumOr0(f(items[i])) >= 0.0
    ensures SumOf(items, f) >= 0.0
  {
    if items != [] {
      SumNonnegative(items[..|items| - 1], f);
    }
  }

  function TotalOf(p: ProgressItem): Num { p.totalAttempts }
  function CorrectOf(p: ProgressItem): Num { p.correctAttempts }
  function DoubtfulOf(p: ProgressItem): Num { p.doubtfulAttempts }
  function IncorrectOf(p: ProgressItem): Num { p.incorrectAttempts }

  // ---------------------------------------------------------------------
  // displayStats

  /** The four figures shown in the summary cards. */
  datatype Stats = Stats(total: real, correct: real, doubtful: real, incorrect: real)

  datatype StatsSource = GlobalSource | ProgressSource | LocalSource | DefaultSource

  /** `globalStats && typeof total_attempts === 'number' && total_attempts >= 0`. */
  predicate GlobalUsable(g: Option<GlobalStats>) {
    g.Some? && g.value.totalAttempts.Number? && g.value.totalAttempts.n >= 0.0
  }

  /** Which source the summary cards are computed from, in priority order. */
  function DisplaySource(g: Option<GlobalStats>, progress: seq<ProgressItem>, records: seq<PredictionRecord>): (src: StatsSource)
    ensures src == GlobalSource <==> GlobalUsable(g)
    ensures src == ProgressSource <==> !GlobalUsable(g) && progress != []
    ensures src == LocalSource <==> !GlobalUsable(g) && progress == [] && records != []
    ensures src == DefaultSource <==> !GlobalUsable(g) && progress == [] && records == []
  {
    if GlobalUsable(g) then GlobalSource
    else if |progress| > 0 then ProgressSource
    else if |records| > 0 then LocalSource
    else DefaultSource
  }

  /** `(part / total) * 100`, or 0 without a positive total (not rounded). */
  function Share(part: real, total: real): (p: real)
    ensures total > 0.0 ==> p * total == part * 100.0
    ensures total <= 0.0 ==> p == 0.0
  {
    if total > 0.0 then part / total * 100.0 else 0.0
  }

  /** `displayStats`. */
  function DisplayStats(g: Option<GlobalStats>, progress: seq<ProgressItem>, records: seq<PredictionRecord>): (s: Stats)
    ensures DisplaySource(g, progress, records) == GlobalSource ==>
      s.total == g.value.totalAttempts.n
      && s.correct == NumOr0(g.value.correctPercentage)
      && s.doubtful == NumOr0(g.value.doubtfulPercentage)
      && s.incorrect == NumOr0(g.value.incorrectPercentage)
    ensures DisplaySource(g, progress, records) == ProgressSource ==>
      s.total == SumOf(progress, TotalOf)
      && (s.total > 0.0 ==>
            s.correct * s.total == SumOf(progress, CorrectOf) * 100.0
            && s.doubtful * s.total == SumOf(progress, DoubtfulOf) * 100.0
            && s.incorrect * s.total == SumOf(progress, IncorrectOf) * 100.0)
      && (s.total <= 0.0 ==> s.correct == s.doubtful == s.incorrect == 0.0)
    ensures DisplaySource(g, progress, records) == LocalSource ==>
      s.total == |records| as real
      && s.correct == Percent(CountEvaluation(records, Correct), |records|) as real
      && s.doubtful == Percent(CountEvaluation(records, Doubtful), |records|) as real
      && s.incorrect == Percent(CountEvaluation(records, Incorrect), |records|) as real
      && 0.0 <= s.correct <= 100.0 && 0.0 <= s.doubtful <= 100.0 && 0.0 <= s.incorrect <= 100.0
    ensures DisplaySource(g, progress, records) == DefaultSource ==> s == Stats(0.0, 0.0, 0.0, 0.0)
  {
    match DisplaySource(g, progress, records)
    case GlobalSource =>
      Stats(g.value.totalAttempts.n, NumOr0(g.value.correctPercentage),
            NumOr0(g.value.doubtfulPercentage), NumOr0(g.value.incorrectPercentage))
    case ProgressSource =>
      var total := SumOf(progress, TotalOf);
      Stats(total, Share(SumOf(progress, CorrectOf), total), Share(SumOf(progress, DoubtfulOf), total),
            Share(SumOf(progress, IncorrectOf), total))
    case LocalSource =>
      var n := |records|;
      Stats(n as real, Percent(CountEvaluation(records, Correct), n) as real,
            Percent(CountEvaluation(records, Doubtful), n) as real,
            Percent(CountEvaluation(records, Incorrect), n) as real)
    case DefaultSource => Stats(0.0, 0.0, 0.0, 0.0)
  }

  // ---------------------------------------------------------------------
  // pieData

  datatype PieEntry = PieEntry(name: string, value: real)

  /** The three slices in their fixed order, keeping only positive ones. */
  function PieEntries(correct: real, doubtful: real, incorrect: real): (r: seq<PieEntry>)
    ensures IsSubsequence(r, [PieEntry("Correctos", correct), PieEntry("Dudosos", doubtful), PieEntry("Incorrectos", incorrect)])
    ensures forall k :: 0 <= k < |r| ==> r[k].value > 0.0
    ensures PieEntry("Correctos", correct) in r <==> correct > 0.0
    ensures PieEntry("Dudosos", doubtful) in r <==> doubtful > 0.0
    ensures PieEntry("Incorrectos", incorrect) in r <==> incorrect > 0.0
  {
    var all := [PieEntry("Correctos", correct), PieEntry("Dudosos", doubtful), PieEntry("Incorrectos", incorrect)];
    assert all[0].value == correct && all[1].value == doubtful && all[2].value == incorrect;
    FilterIsSubsequence(all, (e: PieEntry) => e.value > 0.0);
    Filter(all, (e: PieEntry) => e.value > 0.0)
  }

  /** The pie uses the global statistics only with a strictly positive total. */
  predicate PieUsesGlobal(g: Option<GlobalStats>) {
    g.Some? && g.value.totalAttempts.Number? && g.value.totalAttempts.n > 0.0
  }

  /** `Math.round((percentage / 100) * total) || 0`; a missing percentage gives NaN, hence 0. */
  function SliceOfTotal(percentage: Num, total: real): (v: real)
    ensures percentage.NotNumber? ==> v == 0.0
    ensures percentage.Number? ==> percentage.n / 100.0 * total - 0.5 < v <= percentage.n / 100.0 * total + 0.5
  {
    if percentage.Number? then Round(percentage.n / 100.0 * total) as real else 0.0
  }

  /** `pieData`. */
  function PieData(g: Option<GlobalStats>, progress: seq<ProgressItem>, records: seq<PredictionRecord>): (r: seq<PieEntry>)
    ensures PieUsesGlobal(g) ==> r == PieEntries(
      SliceOfTotal(g.value.correctPercentage, g.value.totalAttempts.n),
      SliceOfTotal(g.value.doubtfulPercentage, g.value.totalAttempts.n),
      SliceOfTotal(g.value.incorrectPercentage, g.value.totalAttempts.n))
    ensures !PieUsesGlobal(g) && progress != [] ==>
      r == PieEntries(SumOf(progress, CorrectOf), SumOf(progress, DoubtfulOf), SumOf(progress, IncorrectOf))
    ensures !PieUsesGlobal(g) && progress == [] ==>
      r == PieEntries(CountEvaluation(records, Correct) as real, CountEvaluation(records, Doubtful) as real,
                      CountEvaluation(records, Incorrect) as real)
    ensures forall k :: 0 <= k < |r| ==> r[k].value > 0.0
  {
    if PieUsesGlobal(g) then
      var total := g.value.totalAttempts.n;
      PieEntries(SliceOfTotal(g.value.correctPercentage, total), SliceOfTotal(g.value.doubtfulPercentage, total),
                 SliceOfTotal(g.value.incorrectPercentage, total))
    else if |progress| > 0 then
      PieEntries(SumOf(progress, CorrectOf), SumOf(progress, DoubtfulOf), SumOf(progress, IncorrectOf))
    else
      PieEntries(CountEvaluation(records, Correct) as real, CountEvaluation(records, Doubtful) as real,
                 CountEvaluation(records, Incorrect) as real)
  }

  /** With a global total of 0 the cards show the global statistics while the
      pie ignores them and falls through to the other sources. */
  lemma ZeroGlobalTotal(g: GlobalStats, progress: seq<ProgressItem>, records: seq<PredictionRecord>)
    requires g.totalAttempts == Number(0.0)
    ensures DisplaySource(Some(g), progress, records) == GlobalSource
    ensures !PieUsesGlobal(Some(g))
  {
  }

  // ---------------------------------------------------------------------
  // labelStats

  /** One row of the per-sign table. The local rows have no doubtful and
      incorrect counts and no difficulty. */
  datatype LabelStat = LabelStat(
    id: string,
    name: string,
    total: real,
    correct: real,
    doubtful: Option<real>,
    incorrect: Option<real>,
    successRate: real,
    category: string,
    difficulty: Option<string>)

  /** The match rule of `safeLabels.find`. */
  predicate MatchesSign(l: Label, sign: string) {
    var n := Text.NormalizeLabel(sign);
    n == Text.NormalizeLabel(l.name) || n == Text.NormalizeLabel(l.id) || sign == l.name || sign == l.id
  }

  /** `safeLabels.find(...)`: the first matching label. */
  function MatchingLabel(labels: seq<Label>, sign: string): (m: Option<Label>)
    ensures m.Some? ==> m.value in labels && MatchesSign(m.value, sign)
    ensures m.None? <==> forall i :: 0 <= i < |labels| ==> !MatchesSign(labels[i], sign)
    ensures m.Some? ==> m.value == labels[FindIndex(labels, l => MatchesSign(l, sign)).value]
  {
    Find(labels, l => MatchesSign(l, sign))
  }

  /** `x || fallback` on an optional string. */
  function OrDefault(x: Option<string>, fallback: string): string {
    if x.Some? && x.value != "" then x.value else fallback
  }

  /** `Math.round(x * 10) / 10`: the nearest tenth, halves upward. */
  function RoundTenth(x: real): (r: real)
    ensures x - 0.05 < r <= x + 0.05
    ensures r * 10.0 == Round(x * 10.0) as real
  {
    Round(x * 10.0) as real / 10.0
  }

  /** A row built from the progress data. */
  function ProgressStat(p: ProgressItem, labels: seq<Label>): (s: LabelStat)
    ensures s.id == p.sign && s.name == Text.ReplaceChar(p.sign, '_', ' ')
    ensures forall i :: 0 <= i < |s.name| ==> s.name[i] != '_'
    ensures s.total == NumOr0(p.totalAttempts) && s.correct == NumOr0(p.correctAttempts)
    ensures s.doubtful == Some(NumOr0(p.doubtfulAttempts)) && s.incorrect == Some(NumOr0(p.incorrectAttempts))
    ensures p.successRate - 0.05 < s.successRate <= p.successRate + 0.05
    ensures var m := MatchingLabel(labels, p.sign);
      s.category == (if m.Some? && m.value.category.Some? && m.value.category.value != "" then m.value.category.value
                     else "Médico")
    ensures var m := MatchingLabel(labels, p.sign);
      s.difficulty == Some(if m.Some? && m.value.difficulty.Some? && m.value.difficulty.value != "" then m.value.difficulty.value
                           else "default")
  {
    var m := MatchingLabel(labels, p.sign);
    LabelStat(p.sign, Text.ReplaceChar(p.sign, '_', ' '),
              NumOr0(p.totalAttempts), NumOr0(p.correctAttempts),
              Some(NumOr0(p.doubtfulAttempts)), Some(NumOr0(p.incorrectAttempts)),
              RoundTenth(p.successRate),
              OrDefault(if m.Some? then m.value.category else None, "Médico"),
              Some(OrDefault(if m.Some? then m.value.difficulty else None, "default")))
  }

  /** A row built from the local records of one sign: the attempts expecting
      it, the correct ones among them and their rounded percentage. */
  function LocalStat(l: Label, records: seq<PredictionRecord>): (s: LabelStat)
    ensures s.total == Count(records, (r: PredictionRecord) => r.expectedLabel == l.name) as real
    ensures s.correct == CountEvaluation(Filter(records, (r: PredictionRecord) => r.expectedLabel == l.name), Correct) as real
    ensures 0.0 <= s.correct <= s.total
    ensures s.successRate == Percent(s.correct.Floor, s.total.Floor) as real
    ensures 0.0 <= s.successRate <= 100.0
    ensures s.id == l.id && s.name == l.name
    ensures s.category == (if l.category.Some? && l.category.value != "" then l.category.value else "Sin categoría")
    ensures s.doubtful.None? && s.incorrect.None? && s.difficulty.None?
  {
    var mine := Filter(records, (r: PredictionRecord) => r.expectedLabel == l.name);
    var n := Count(records, (r: PredictionRecord) => r.expectedLabel == l.name);
    var c := CountEvaluation(mine, Correct);
    assert n == |mine|;
    LabelStat(l.id, l.name, n as real, c as real, None, None, Percent(c, n) as real,
              OrDefault(l.category, "Sin categoría"), None)
  }

  function LocalStats(labels: seq<Label>, records: seq<PredictionRecord>): seq<LabelStat> {
    Filter(seq(|labels|, i requires 0 <= i < |labels| => LocalStat(labels[i], records)), (s: LabelStat) => s.total > 0.0)
  }

  /** A sign has been practised when some record expects it. */
  predicate Practised(l: Label, records: seq<PredictionRecord>) {
    exists k :: 0 <= k < |records| && records[k].expectedLabel == l.name
  }

  lemma CountPositive(records: seq<PredictionRecord>, name: string)
    ensures Count(records, (r: PredictionRecord) => r.expectedLabel == name) > 0
      <==> exists k :: 0 <= k < |records| && records[k].expectedLabel == name
  {
    var p := (r: PredictionRecord) => r.expectedLabel == name;
    var f := Filter(records, p);
    if exists k :: 0 <= k < |records| && records[k].expectedLabel == name {
      var k :| 0 <= k < |records| && records[k].expectedLabel == name;
      assert records[k] in f;
    }
    if |f| > 0 {
      assert f[0] in records && p(f[0]);
      var k :| 0 <= k < |records| && records[k] == f[0];
      assert records[k].expectedLabel == name;
    }
  }

  /** A local row comes from a catalogue sign that has been practised. */
  predicate PractisedRow(s: LabelStat, labels: seq<Label>, records: seq<PredictionRecord>) {
    exists l :: l in labels && s == LocalStat(l, records) && Practised(l, records)
  }

  /** The local rows are exactly the practised signs, in catalogue order. */
  lemma LocalStatsArePractised(labels: seq<Label>, records: seq<PredictionRecord>)
    ensures forall i :: 0 <= i < |LocalStats(labels, records)| ==>
      PractisedRow(LocalStats(labels, records)[i], labels, records)
    ensures forall i :: 0 <= i < |labels| && Practised(labels[i], records) ==>
      LocalStat(labels[i], records) in LocalStats(labels, records)
    ensures IsSubsequence(LocalStats(labels, records),
      seq(|labels|, i requires 0 <= i < |labels| => LocalStat(labels[i], records)))
  {
    var all := seq(|labels|, i requires 0 <= i < |labels| => LocalStat(labels[i], records));
    var ls := LocalStats(labels, records);
    assert ls == Filter(all, (s: LabelStat) => s.total > 0.0);
    FilterIsSubsequence(all, (s: LabelStat) => s.total > 0.0);
    forall i | 0 <= i < |ls| ensures PractisedRow(ls[i], labels, records) {
      var s := ls[i];
      assert s in all && s.total > 0.0;
      var j :| 0 <= j < |all| && all[j] == s;
      assert all[j] == LocalStat(labels[j], records);
      CountPositive(records, labels[j].name);
      assert labels[j] in labels && Practised(labels[j], records);
    }
    forall i | 0 <= i < |labels| && Practised(labels[i], records)
      ensures LocalStat(labels[i], records) in ls
    {
      assert all[i] == LocalStat(labels[i], records);
      CountPositive(records, labels[i].name);
      assert all[i].total > 0.0;
    }
  }

  /** `labelStats`: from the progress data when there is any, else local. */
  function LabelStats(progress: seq<ProgressItem>, labels: seq<Label>, records: seq<PredictionRecord>): (r: seq<LabelStat>)
    ensures progress != [] ==> |r| == |progress|
    ensures progress != [] ==> forall i :: 0 <= i < |progress| ==> r[i] == ProgressStat(progress[i], labels)
    ensures progress == [] ==> r == LocalStats(labels, records)
  {
    if |progress| > 0 then seq(|progress|, i requires 0 <= i < |progress| => ProgressStat(progress[i], labels))
    else LocalStats(labels, records)
  }

  /** The comparator `(a, b) => b.total - a.total`: a may stay before b when it
      has at least as many attempts. */
  predicate MorePracticed(a: LabelStat, b: LabelStat) {
    a.total >= b.total
  }

  lemma MorePracticedTotal()
    ensures Total(MorePracticed)
  {
  }

  /** `sortedLabelStats`. */
  function SortedLabelStats(stats: seq<LabelStat>): seq<LabelStat> {
    SortBy(stats, MorePracticed)
  }

  /** The sorted table is a permutation of the rows, highest total first, and
      the count of practised signs does not depend on the order. */
  lemma SortedLabelStatsCorrect(stats: seq<LabelStat>)
    ensures multiset(SortedLabelStats(stats)) == multiset(stats)
    ensures forall i :: 0 <= i < |stats| - 1 ==> SortedLabelStats(stats)[i].total >= SortedLabelStats(stats)[i + 1].total
    ensures |SortedLabelStats(stats)| == |stats|
  {
    MorePracticedTotal();
    SortByCorrect(stats, MorePracticed);
  }

  /** `practicesSignsCount`: one per progress entry, or one per practised
      catalogue sign. */
  function PractisedSignsCount(progress: seq<ProgressItem>, labels: seq<Label>, records: seq<PredictionRecord>): (n: nat)
    ensures progress != [] ==> n == |progress|
    ensures progress == [] ==> n <= |labels|
  {
    |LabelStats(progress, labels, records)|
  }

  /** At most the first ten rows of a table. */
  function TopTen(stats: seq<LabelStat>): (r: seq<LabelStat>)
    ensures |r| == (if |stats| < 10 then |stats| else 10)
    ensures r <= stats
  {
    if |stats| < 10 then stats else stats[..10]
  }

  /** The "Más practicadas" tab: the ten most practised signs, highest total
      first. */
  lemma MostPractisedTab(stats: seq<LabelStat>)
    ensures TopTen(SortedLabelStats(stats)) <= SortedLabelStats(stats)
    ensures forall i :: 0 <= i < |TopTen(SortedLabelStats(stats))| ==> TopTen(SortedLabelStats(stats))[i] in stats
    ensures forall i :: 0 <= i < |TopTen(SortedLabelStats(stats))| - 1 ==>
      TopTen(SortedLabelStats(stats))[i].total >= TopTen(SortedLabelStats(stats))[i + 1].total
  {
    var sorted := SortedLabelStats(stats);
    SortedLabelStatsCorrect(stats);
    forall i | 0 <= i < |TopTen(sorted)| ensures TopTen(sorted)[i] in stats {
      assert TopTen(sorted)[i] == sorted[i];
      assert sorted[i] in multiset(stats);
    }
  }

  /** The comparator `(a, b) => b.successRate - a.successRate`. */
  predicate BetterRate(a: LabelStat, b: LabelStat) {
    a.successRate >= b.successRate
  }

  /** The rows with at least two attempts, `stat.total >= 2`. */
  function Eligible(stats: seq<LabelStat>): seq<LabelStat> {
    Filter(stats, (s: LabelStat) => s.total >= 2.0)
  }

  /** The "Mejor rendimiento" tab. */
  function BestPerformance(stats: seq<LabelStat>): seq<LabelStat> {
    TopTen(SortBy(Eligible(stats), BetterRate))
  }

  /** The tab shows the best ten signs with at least two attempts: a prefix of
      those rows in descending order of success rate, which is a permutation
      of them; it lists every such sign when there are at most ten. */
  lemma BestPerformanceCorrect(stats: seq<LabelStat>)
    ensures var ranked := SortBy(Eligible(stats), BetterRate);
      && multiset(ranked) == multiset(Eligible(stats))
      && BestPerformance(stats) <= ranked
      && |BestPerformance(stats)| == (if |Eligible(stats)| < 10 then |Eligible(stats)| else 10)
    ensures forall i :: 0 <= i < |BestPerformance(stats)| ==>
      BestPerformance(stats)[i] in stats && BestPerformance(stats)[i].total >= 2.0
    ensures forall i :: 0 <= i < |BestPerformance(stats)| - 1 ==>
      BestPerformance(stats)[i].successRate >= BestPerformance(stats)[i + 1].successRate
  {
    var e := Eligible(stats);
    var ranked := SortBy(e, BetterRate);
    assert Total(BetterRate);
    SortByCorrect(e, BetterRate);
    var r := BestPerformance(stats);
    forall i | 0 <= i < |r| ensures r[i] in stats && r[i].total >= 2.0 {
      assert r[i] == ranked[i];
      assert ranked[i] in multiset(e);
      assert ranked[i] in e;
    }
  }

  // ---------------------------------------------------------------------
  // formatNumber and formatPercentage

  /** A `number | undefined | null` argument. */
  datatype JsNumber = Undefined | Null | NaN | Finite(x: real)

  predicate Displayable(n: JsNumber) {
    n.Finite? && n.x >= 0.0
  }

  /** `formatPercentage`: "0" for anything not displayable, else the rounded
      value in decimal. */
  function FormatPercentage(n: JsNumber): (s: string)
    ensures !Displayable(n) ==> s == "0"
    ensures Displayable(n) ==> Round(n.x) >= 0
    ensures Displayable(n) ==> (forall i :: 0 <= i < |s| ==> '0' <= s[i] <= '9') && Text.ParseNat(s) == Round(n.x)
  {
    if !Displayable(n) then "0"
    else
      Text.ParseNatToString(Round(n.x));
      Text.NatToString(Round(n.x))
  }

  /** `formatNumber`: "0" for anything not displayable, else the locale
      formatting, given as `format`, of the rounded value. */
  function FormatNumber(n: JsNumber, format: int -> string): (s: string)
    ensures !Displayable(n) ==> s == "0"
    ensures Displayable(n) ==> s == format(Round(n.x)) && Round(n.x) >= 0
  {
    if !Displayable(n) then "0" else format(Round(n.x))
  }
}
