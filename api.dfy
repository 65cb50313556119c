/** The API client of lib/api.ts: a bounded retry loop with exponential backoff,
    a wrapper that turns every failure into fallback data, and the generators of
    that fallback data. Each `fetch` is an abstract attempt outcome, each
    `Math.random()` a draw in [0,1) passed in by the caller, `Date.now()` a
    parameter in milliseconds. */
module Api {
  import opened Types
  import opened Seqs
  import Text

  // ---------------------------------------------------------------------
  // The built-in catalogue used when the backend is unreachable.

  const DummyLabels: seq<Label> := [
    Label("1", "Tengo fiebre", "Señas para indicar que tienes fiebre", Some("Síntomas"), Some("beginner")),
    Label("2", "Me duele la cabeza", "Señas para indicar dolor de cabeza", Some("Síntomas"), Some("beginner")),
    Label("3", "Tengo tos", "Señas para indicar que tienes tos", Some("Síntomas"), Some("beginner")),
    Label("4", "Necesito medicamentos", "Señas para solicitar medicamentos", Some("Solicitudes"), Some("intermediate")),
    Label("5", "Tengo alergia", "Señas para indicar que tienes una alergia", Some("Síntomas"), Some("intermediate")),
    Label("6", "Me siento mareado", "Señas para indicar mareo o vértigo", Some("Síntomas"), Some("intermediate")),
    Label("7", "Necesito un intérprete", "Señas para solicitar un intérprete", Some("Solicitudes"), Some("beginner")),
    Label("8", "Tengo diabetes", "Señas para comunicar que tienes diabetes", Some("Condiciones"), Some("advanced")),
    Label("9", "Soy alérgico a la penicilina", "Señas para comunicar alergia a medicamentos", Some("Condiciones"), Some("advanced")),
    Label("10", "Necesito ayuda", "Señas para solicitar asistencia general", Some("Solicitudes"), Some("beginner")),
    Label("11", "Tengo dolor de estómago", "Señas para indicar dolor abdominal", Some("Síntomas"), Some("intermediate")),
    Label("12", "Estoy embarazada", "Señas para comunicar embarazo", Some("Condiciones"), Some("intermediate"))
  ]

  /** `DUMMY_LABELS.map((l) => l.name)`. */
  function DummyNames(): (names: seq<string>)
    ensures |names| == |DummyLabels|
    ensures forall i :: 0 <= i < |names| ==> names[i] == DummyLabels[i].name
  {
    seq(|DummyLabels|, i requires 0 <= i < |DummyLabels| => DummyLabels[i].name)
  }

  /** No two built-in signs share a name. */
  lemma DummyNamesDistinct()
    ensures NoDuplicates(DummyNames())
  {
    var n := DummyNames();
    assert n == ["Tengo fiebre", "Me duele la cabeza", "Tengo tos", "Necesito medicamentos",
      "Tengo alergia", "Me siento mareado", "Necesito un intérprete", "Tengo diabetes",
      "Soy alérgico a la penicilina", "Necesito ayuda", "Tengo dolor de estómago", "Estoy embarazada"];
  }

  /** The fixed feedback text for each of the three evaluations. */
  function Observation(evaluation: string): string {
    if evaluation == Correct then "Excelente ejecución de la seña. Movimientos claros y precisos."
    else if evaluation == Doubtful then "La seña es reconocible pero puede mejorar en velocidad y precisión."
    else "La seña no fue reconocida correctamente. Intenta seguir el patrón de movimiento con más precisión."
  }

  // ---------------------------------------------------------------------
  // fetchWithRetry

  /** What one `fetch` produced: an HTTP response with its status, or a thrown
      transport error (network failure, aborted request). */
  datatype Attempt = Response(status: int) | NetworkError

  /** `response.ok`: a status in 200..299. */
  predicate IsOk(a: Attempt) {
    a.Response? && 200 <= a.status <= 299
  }

  /** The error kept in `lastError`: `HTTP <status>` for a non-ok response
      (4xx and 5xx alike), or the transport error itself. */
  datatype FetchError = HttpError(status: int) | TransportError

  function ErrorOf(a: Attempt): FetchError {
    if a.Response? then HttpError(a.status) else TransportError
  }

  /** The response of attempt `attempt` was returned, or `error` was rethrown. */
  datatype RetryResult = Delivered(attempt: nat, status: int) | Failed(error: FetchError)

  /** Everything a run of the retry loop does: its result, how many fetches it
      issued and the backoff waits it slept, in order. */
  datatype Trace = Trace(result: RetryResult, fetches: nat, delays: seq<nat>)

  function Pow2(k: nat): (p: nat)
    ensures p >= 1
  {
    if k == 0 then 1 else 2 * Pow2(k - 1)
  }

  /** The retry loop from attempt `attempt` on; `env(k)` is the outcome of fetch k. */
  function RetryFrom(env: nat -> Attempt, maxRetries: nat, attempt: nat): Trace
    requires attempt <= maxRetries
    decreases maxRetries - attempt
  {
    var a := env(attempt);
    if IsOk(a) then Trace(Delivered(attempt, a.status), attempt + 1, [])
    else if attempt < maxRetries then
      var t := RetryFrom(env, maxRetries, attempt + 1);
      Trace(t.result, t.fetches, [Pow2(attempt) * 1000] + t.delays)
    else Trace(Failed(ErrorOf(a)), attempt + 1, [])
  }

  function Retry(env: nat -> Attempt, maxRetries: nat): Trace {
    RetryFrom(env, maxRetries, 0)
  }

  /** `fetchWithRetry`: up to `maxRetries + 1` fetches; a failed attempt k with
      k < maxRetries is followed by a wait of 2^k * 1000 ms. */
  method FetchWithRetry(env: nat -> Attempt, maxRetries: nat)
    returns (result: RetryResult, fetches: nat, delays: seq<nat>)
    ensures Trace(result, fetches, delays) == Retry(env, maxRetries)
  {
    var lastError := TransportError;
    fetches := 0;
    delays := [];
    var attempt := 0;
    while attempt <= maxRetries
      invariant attempt <= maxRetries + 1
      invariant fetches == attempt
      invariant attempt <= maxRetries ==>
        var t := RetryFrom(env, maxRetries, attempt);
        Retry(env, maxRetries) == Trace(t.result, t.fetches, delays + t.delays)
      invariant attempt == maxRetries + 1 ==>
        Retry(env, maxRetries) == Trace(Failed(lastError), fetches, delays)
    {
      var a := env(attempt);
      fetches := fetches + 1;
      if IsOk(a) {
        assert delays + [] == delays;
        return Delivered(attempt, a.status), fetches, delays;
      }
      // a 4xx or 5xx response throws inside the `try`, exactly like a network error
      lastError := ErrorOf(a);
      if attempt < maxRetries {
        ghost var t := RetryFrom(env, maxRetries, attempt + 1);
        assert delays + ([Pow2(attempt) * 1000] + t.delays) == (delays + [Pow2(attempt) * 1000]) + t.delays;
        delays := delays + [Pow2(attempt) * 1000];
      } else {
        assert delays + [] == delays;
      }
      attempt := attempt + 1;
    }
    result := Failed(lastError);
  }

  /** At most `maxRetries + 1` fetches, and one wait between consecutive fetches. */
  lemma {:induction false} RetryBounds(env: nat -> Attempt, maxRetries: nat, attempt: nat)
    requires attempt <= maxRetries
    ensures var t := RetryFrom(env, maxRetries, attempt);
      attempt + 1 <= t.fetches <= maxRetries + 1 && |t.delays| == t.fetches - 1 - attempt
    decreases maxRetries - attempt
  {
    if !IsOk(env(attempt)) && attempt < maxRetries {
      RetryBounds(env, maxRetries, attempt + 1);
    }
  }

  /** The i-th wait is 2^(start + i) * 1000 ms. */
  predicate BackoffFrom(delays: seq<nat>, start: nat) {
    forall i :: 0 <= i < |delays| ==> delays[i] == Pow2(start + i) * 1000
  }

  /** The waits are 1000, 2000, 4000, ... ms: the i-th wait is 2^i * 1000. */
  lemma {:induction false} RetryDelays(env: nat -> Attempt, maxRetries: nat, attempt: nat)
    requires attempt <= maxRetries
    ensures BackoffFrom(RetryFrom(env, maxRetries, attempt).delays, attempt)
    decreases maxRetries - attempt
  {
    if !IsOk(env(attempt)) && attempt < maxRetries {
      RetryDelays(env, maxRetries, attempt + 1);
      var rest := RetryFrom(env, maxRetries, attempt + 1).delays;
      var d := RetryFrom(env, maxRetries, attempt).delays;
      assert d == [Pow2(attempt) * 1000] + rest;
      forall i | 0 < i < |d| ensures d[i] == Pow2(attempt + i) * 1000 {
        var j := i - 1;
        assert d[i] == rest[j];
        assert rest[j] == Pow2(attempt + 1 + j) * 1000;
      }
    }
  }

  /** The first ok response is returned and nothing is fetched after it; a
      failure means no attempt was ok and the last attempt's error is rethrown. */
  lemma {:induction false} RetryFirstOk(env: nat -> Attempt, maxRetries: nat, attempt: nat)
    requires attempt <= maxRetries
    ensures var t := RetryFrom(env, maxRetries, attempt);
      match t.result
      case Delivered(k, s) =>
        attempt <= k <= maxRetries && IsOk(env(k)) && s == env(k).status && t.fetches == k + 1
        && forall j :: attempt <= j < k ==> !IsOk(env(j))
      case Failed(e) =>
        e == ErrorOf(env(maxRetries)) && t.fetches == maxRetries + 1
        && forall j :: attempt <= j <= maxRetries ==> !IsOk(env(j))
    decreases maxRetries - attempt
  {
    if !IsOk(env(attempt)) && attempt < maxRetries {
      RetryFirstOk(env, maxRetries, attempt + 1);
    }
  }

  /** Whole-loop summary: at most maxRetries + 1 fetches, the first ok response
      wins, the waits are 2^i * 1000 ms with none after the last fetch. */
  lemma RetryCorrect(env: nat -> Attempt, maxRetries: nat)
    ensures var t := Retry(env, maxRetries);
      1 <= t.fetches <= maxRetries + 1
      && |t.delays| == t.fetches - 1
      && BackoffFrom(t.delays, 0)
      && (t.result.Delivered? <==> exists k :: 0 <= k <= maxRetries && IsOk(env(k)))
      && (t.result.Delivered? ==>
            IsOk(env(t.result.attempt))
            && t.fetches == t.result.attempt + 1
            && forall j :: 0 <= j < t.result.attempt ==> !IsOk(env(j)))
  {
    RetryBounds(env, maxRetries, 0);
    RetryDelays(env, maxRetries, 0);
    RetryFirstOk(env, maxRetries, 0);
  }

  /** Only `ok` matters: two environments that agree on which attempts are ok
      give the same number of fetches and the same waits, so a 4xx is retried
      exactly like a 5xx or a network error. */
  lemma {:induction false} RetryIgnoresStatusClass(env1: nat -> Attempt, env2: nat -> Attempt, maxRetries: nat, attempt: nat)
    requires attempt <= maxRetries
    requires forall k :: IsOk(env1(k)) == IsOk(env2(k))
    ensures var t1, t2 := RetryFrom(env1, maxRetries, attempt), RetryFrom(env2, maxRetries, attempt);
      t1.fetches == t2.fetches && t1.delays == t2.delays && t1.result.Delivered? == t2.result.Delivered?
    decreases maxRetries - attempt
  {
    if !IsOk(env1(attempt)) && attempt < maxRetries {
      RetryIgnoresStatusClass(env1, env2, maxRetries, attempt + 1);
    }
  }

  /** A backend that always answers 404 is asked three times, with waits of
      1 s and 2 s, before the error is rethrown. */
  lemma NotFoundIsRetried(env: nat -> Attempt)
    requires forall k :: env(k) == Response(404)
    ensures Retry(env, 2) == Trace(Failed(HttpError(404)), 3, [1000, 2000])
  {
  }

  /** A 4xx response, which the loop's comment says is not to be retried. */
  predicate IsClientError(a: Attempt) {
    a.Response? && 400 <= a.status < 500
  }

  /** The retry loop as its comment intends it: a 4xx response is rethrown at
      once, anything else that is not ok is retried as before. */
  function RetryIntendedFrom(env: nat -> Attempt, maxRetries: nat, attempt: nat): Trace
    requires attempt <= maxRetries
    decreases maxRetries - attempt
  {
    var a := env(attempt);
    if IsOk(a) then Trace(Delivered(attempt, a.status), attempt + 1, [])
    else if IsClientError(a) then Trace(Failed(ErrorOf(a)), attempt + 1, [])
    else if attempt < maxRetries then
      var t := RetryIntendedFrom(env, maxRetries, attempt + 1);
      Trace(t.result, t.fetches, [Pow2(attempt) * 1000] + t.delays)
    else Trace(Failed(ErrorOf(a)), attempt + 1, [])
  }

  /** The intended loop asks again only after a 5xx or a transport error, stops
      at the first 4xx with its error, and otherwise behaves exactly like the
      loop as written. */
  lemma {:induction false} RetryIntendedStopsOnClientError(env: nat -> Attempt, maxRetries: nat, attempt: nat)
    requires attempt <= maxRetries
    ensures var t := RetryIntendedFrom(env, maxRetries, attempt);
      attempt + 1 <= t.fetches <= maxRetries + 1
      && (forall j :: attempt <= j < t.fetches - 1 ==> !IsOk(env(j)) && !IsClientError(env(j)))
      && (IsClientError(env(t.fetches - 1)) ==> t.result == Failed(ErrorOf(env(t.fetches - 1))))
    ensures (forall j :: attempt <= j <= maxRetries ==> !IsClientError(env(j))) ==>
      RetryIntendedFrom(env, maxRetries, attempt) == RetryFrom(env, maxRetries, attempt)
    decreases maxRetries - attempt
  {
    var a := env(attempt);
    if !IsOk(a) && !IsClientError(a) && attempt < maxRetries {
      RetryIntendedStopsOnClientError(env, maxRetries, attempt + 1);
    }
  }

  /** With the intended loop, a backend that always answers 404 is asked once
      and nothing is waited for. */
  lemma NotFoundAskedOnce(env: nat -> Attempt)
    requires forall k :: env(k) == Response(404)
    ensures RetryIntendedFrom(env, 2, 0) == Trace(Failed(HttpError(404)), 1, [])
  {
    RetryIntendedStopsOnClientError(env, 2, 0);
  }

  // ---------------------------------------------------------------------
  // fetchWithFallback

  /** `fetchWithFallback` with the retry count 2 it always uses; `body(k)` is
      the result of `response.json()` on the response of attempt k (None when
      it throws). It never throws: every failure yields `fallback`. */
  function FetchWithFallback<T>(env: nat -> Attempt, body: nat -> Option<T>, fallback: T): (r: T)
    ensures Retry(env, 2).result.Failed? ==> r == fallback
    ensures Retry(env, 2).result.Delivered? ==>
      var k := Retry(env, 2).result.attempt;
      r == (if body(k).Some? then body(k).value else fallback)
  {
    var t := Retry(env, 2);
    if t.result.Delivered? && body(t.result.attempt).Some? then body(t.result.attempt).value
    else fallback
  }

  /** The fallback is returned unchanged when all three attempts fail, and at
      most three fetches are issued in any case. */
  lemma FallbackWhenUnreachable<T>(env: nat -> Attempt, body: nat -> Option<T>, fallback: T)
    ensures Retry(env, 2).fetches <= 3
    ensures (forall k :: 0 <= k <= 2 ==> !IsOk(env(k))) ==> FetchWithFallback(env, body, fallback) == fallback
  {
    RetryCorrect(env, 2);
  }

  // ---------------------------------------------------------------------
  // The fallback answer of `predict`.

  /** The draws `predict` makes, in the order the source makes them. */
  datatype PredictDraws = PredictDraws(choice: real, pick: real, confidence: real, rate: real, average: real)

  predicate ValidPredictDraws(d: PredictDraws) {
    IsDraw(d.choice) && IsDraw(d.pick) && IsDraw(d.confidence) && IsDraw(d.rate) && IsDraw(d.average)
  }

  predicate NoDuplicates(names: seq<string>) {
    forall i, j :: 0 <= i < j < |names| ==> names[i] != names[j]
  }

  /** The names other than the expected one; never empty when the names are
      distinct and there are at least two of them. */
  function OtherNames(names: seq<string>, expected: string): (others: seq<string>)
    requires NoDuplicates(names) && |names| >= 2
    ensures |others| > 0
    ensures forall i :: 0 <= i < |others| ==> others[i] in names && others[i] != expected
  {
    var others := Filter(names, n => n != expected);
    assert names[0] in others || names[1] in others;
    others
  }

  /** `possibleLabels[Math.floor(Math.random() * possibleLabels.length)]`. */
  function PickOther(names: seq<string>, expected: string, pick: real): (name: string)
    requires NoDuplicates(names) && |names| >= 2
    requires IsDraw(pick)
    ensures name in names && name != expected
  {
    var others := OtherNames(names, expected);
    Pick(others, pick)
  }

  /** The answer `predict` falls back to when the backend cannot be reached. */
  function PredictFallback(expected: string, d: PredictDraws): (r: PredictionResponse)
    requires ValidPredictDraws(d)
    ensures d.choice > 0.6 ==>
      r.evaluation == Correct && r.predictedLabel == expected && 0.75 <= r.confidence < 1.0
    ensures 0.3 < d.choice <= 0.6 ==>
      r.evaluation == Doubtful && r.predictedLabel == expected && 0.5 <= r.confidence < 0.75
    ensures d.choice <= 0.3 ==>
      r.evaluation == Incorrect && r.predictedLabel != expected && r.predictedLabel in DummyNames()
      && 0.3 <= r.confidence < 0.5
    ensures r.observation == Observation(r.evaluation)
    ensures r.successRate.Some? && 40.0 <= r.successRate.value < 100.0
    ensures r.averageConfidence.Some? && 0.6 <= r.averageConfidence.value < 0.9
    ensures r.retroalimentacion.None?
  {
    var evaluation := if d.choice > 0.6 then Correct else if d.choice > 0.3 then Doubtful else Incorrect;
    DummyNamesDistinct();
    var predicted := if d.choice > 0.3 then expected else PickOther(DummyNames(), expected, d.pick);
    var confidence :=
      if d.choice > 0.6 then 0.75 + d.confidence * 0.25
      else if d.choice > 0.3 then 0.5 + d.confidence * 0.25
      else 0.3 + d.confidence * 0.2;
    PredictionResponse(predicted, confidence, evaluation, Observation(evaluation),
      Some(40.0 + d.rate * 60.0), Some(0.6 + d.average * 0.3), None)
  }

  /** `apiService.predict`: the backend's answer, or the fallback answer. */
  function Predict(request: PredictionRequest, d: PredictDraws, env: nat -> Attempt,
                   body: nat -> Option<PredictionResponse>): (r: PredictionResponse)
    requires ValidPredictDraws(d)
    ensures (forall k :: 0 <= k <= 2 ==> !IsOk(env(k))) ==> r == PredictFallback(request.expectedLabel, d)
    ensures Retry(env, 2).result.Failed? ==> r == PredictFallback(request.expectedLabel, d)
    ensures Retry(env, 2).result.Delivered? ==>
      var k := Retry(env, 2).result.attempt;
      r == (if body(k).Some? then body(k).value else PredictFallback(request.expectedLabel, d))
  {
    FallbackWhenUnreachable(env, body, PredictFallback(request.expectedLabel, d));
    FetchWithFallback(env, body, PredictFallback(request.expectedLabel, d))
  }

  // ---------------------------------------------------------------------
  // generateDummyProgress

  /** The draws made for one label, in source order. */
  datatype ProgressDraws = ProgressDraws(total: real, correct: real, average: real, max: real, last: real)

  predicate ValidProgressDraws(d: ProgressDraws) {
    IsDraw(d.total) && IsDraw(d.correct) && IsDraw(d.average) && IsDraw(d.max) && IsDraw(d.last)
  }

  /** Milliseconds in a week. */
  const WeekMs := 7 * 24 * 60 * 60 * 1000

  /** `new Date(x)` keeps the integral part of a time value, truncating toward zero. */
  function TimeClip(x: real): (n: int)
    ensures x >= 0.0 ==> n as real <= x < n as real + 1.0
    ensures x < 0.0 ==> n as real - 1.0 < x <= n as real
  {
    if x >= 0.0 then x.Floor else -((-x).Floor)
  }

  /** What each generated progress entry satisfies. */
  ghost predicate ProgressEntryOk(p: ProgressData, now: int) {
    && 1 <= p.totalAttempts <= 20
    && p.correctAttempts >= 0 && p.doubtfulAttempts >= 0 && p.incorrectAttempts >= 0
    && p.correctAttempts + p.doubtfulAttempts + p.incorrectAttempts == p.totalAttempts
    && p.successRate * p.totalAttempts as real == p.correctAttempts as real * 100.0
    && 0.0 <= p.successRate < 100.0
    && 0.5 <= p.averageConfidence < 0.9
    && 0.7 <= p.maxConfidence < 1.0
    && now - WeekMs <= p.lastPractice <= now
  }

  function DummyProgress(sign: Label, d: ProgressDraws, now: int): (p: ProgressData)
    requires ValidProgressDraws(d)
    ensures ProgressEntryOk(p, now) && p.labelName == sign.name
  {
    var total := Floor(d.total * 20.0) + 1;
    var correct := CorrectCount(total, d.correct);
    var doubtful := DoubtfulCount(total, correct);
    ProgressData(sign.name, total, correct, doubtful, total - correct - doubtful,
      0.5 + d.average * 0.4, 0.7 + d.max * 0.3,
      LastPractice(now, d.last), SuccessRate(correct, total))
  }

  /** `Math.floor(totalAttempts * (0.3 + Math.random() * 0.5))`. */
  function CorrectCount(total: int, r: real): (correct: int)
    requires 1 <= total && IsDraw(r)
    ensures 0 <= correct < total
  {
    var share := 0.3 + r * 0.5;
    MulBounds(total as real, share);
    Floor(total as real * share)
  }

  /** `Math.floor((totalAttempts - correctAttempts) * 0.6)`. */
  function DoubtfulCount(total: int, correct: int): (doubtful: int)
    requires 0 <= correct < total
    ensures 0 <= doubtful <= total - correct
  {
    Floor((total - correct) as real * 0.6)
  }

  /** `(correctAttempts / totalAttempts) * 100`. */
  function SuccessRate(correct: int, total: int): (rate: real)
    requires 0 <= correct < total
    ensures 0.0 <= rate < 100.0
    ensures rate * total as real == correct as real * 100.0
  {
    DivBound(correct as real, total as real);
    (correct as real / total as real) * 100.0
  }

  /** `new Date(Date.now() - Math.random() * 7 days)`: a moment in the past week. */
  function LastPractice(now: int, r: real): (t: int)
    requires IsDraw(r)
    ensures now - WeekMs <= t <= now
  {
    assert 0.0 <= r * WeekMs as real < WeekMs as real;
    TimeClip(now as real - r * WeekMs as real)
  }

  lemma MulBounds(t: real, share: real)
    requires t >= 1.0 && 0.0 <= share < 1.0
    ensures 0.0 <= t * share < t
  {
  }

  lemma DivBound(c: real, t: real)
    requires 0.0 <= c < t
    ensures 0.0 <= c / t < 1.0
  {
  }

  /** `generateDummyProgress`: one entry per built-in sign; the final
      `filter(total_attempts > 0)` never removes anything. */
  function GenerateDummyProgress(draws: seq<ProgressDraws>, now: int): (r: seq<ProgressData>)
    requires |draws| == |DummyLabels|
    requires forall i :: 0 <= i < |draws| ==> ValidProgressDraws(draws[i])
    ensures |r| == |DummyLabels|
    ensures forall i :: 0 <= i < |r| ==> r[i].labelName == DummyLabels[i].name && ProgressEntryOk(r[i], now)
  {
    var entries := seq(|DummyLabels|, i requires 0 <= i < |DummyLabels| => DummyProgress(DummyLabels[i], draws[i], now));
    FilterAll(entries, (p: ProgressData) => p.totalAttempts > 0);
    Filter(entries, (p: ProgressData) => p.totalAttempts > 0)
  }

  // ---------------------------------------------------------------------
  // generateDummyRecords

  /** The draws made for one record, in source order; `redraws` feeds the
      `do … while` loop that picks a wrong label. */
  datatype RecordDraws = RecordDraws(
    days: real, hours: real, name: real, evaluation: real,
    redraws: seq<real>, confidence: real, rate: real, average: real)

  /** `names[Math.floor(Math.random() * names.length)]`. */
  function Pick(names: seq<string>, r: real): (name: string)
    requires |names| > 0 && IsDraw(r)
    ensures name in names
  {
    DrawIndex(r, |names|);
    names[Floor(r * |names| as real)]
  }

  /** `DUMMY_LABELS[Math.floor(Math.random() * DUMMY_LABELS.length)].name`. */
  function NameAt(r: real): (name: string)
    requires IsDraw(r)
    ensures name in DummyNames()
  {
    Pick(DummyNames(), r)
  }

  /** The first redraw whose name differs from `expected`. */
  function FirstOther(redraws: seq<real>, expected: string): Option<string>
    requires forall j :: 0 <= j < |redraws| ==> IsDraw(redraws[j])
  {
    if redraws == [] then None
    else if NameAt(redraws[0]) != expected then Some(NameAt(redraws[0]))
    else FirstOther(redraws[1..], expected)
  }

  /** The draws are in [0,1) and, for an incorrect record, the redraw stream
      eventually yields another name (the source loops until it does). */
  ghost predicate ValidRecordDraws(d: RecordDraws) {
    && IsDraw(d.days) && IsDraw(d.hours) && IsDraw(d.name) && IsDraw(d.evaluation)
    && IsDraw(d.confidence) && IsDraw(d.rate) && IsDraw(d.average)
    && (forall j :: 0 <= j < |d.redraws| ==> IsDraw(d.redraws[j]))
    && (d.evaluation <= 0.4 ==> FirstOther(d.redraws, NameAt(d.name)).Some?)
  }

  /** The evaluation an evaluation draw selects: above 0.7 correct, above 0.4 doubtful. */
  function RecordEvaluation(x: real): (e: string)
    ensures e == Correct || e == Doubtful || e == Incorrect
    ensures e == Incorrect <==> x <= 0.4
  {
    if x > 0.7 then Correct else if x > 0.4 then Doubtful else Incorrect
  }

  /** `date` moved back by the drawn days (0..13) and hours (0..23). */
  function RecordTimestamp(now: int, days: real, hours: real): (t: int)
    requires IsDraw(days) && IsDraw(hours)
    ensures now - 13 * DayMs - 23 * 3600000 <= t <= now
  {
    DrawIndex(days, 14);
    DrawIndex(hours, 24);
    now - Floor(days * 14.0) * DayMs - Floor(hours * 24.0) * 3600000
  }

  /** The confidence band of each evaluation, placed by the confidence draw. */
  function RecordConfidence(x: real, c: real): real {
    if x > 0.7 then 0.75 + c * 0.25 else if x > 0.4 then 0.5 + c * 0.25 else 0.3 + c * 0.2
  }

  /** Record number i as it is built before sorting. */
  function DummyRecord(i: nat, d: RecordDraws, now: int): (r: PredictionRecord)
    requires ValidRecordDraws(d)
  {
    var expected := NameAt(d.name);
    var evaluation := RecordEvaluation(d.evaluation);
    var predicted := if d.evaluation > 0.4 then expected else FirstOther(d.redraws, expected).value;
    var confidence := RecordConfidence(d.evaluation, d.confidence);
    PredictionRecord(
      "record-" + Text.NatToString(i), RecordTimestamp(now, d.days, d.hours),
      expected, predicted, confidence, evaluation, Observation(evaluation),
      Some(d.rate * 100.0), Some(0.6 + d.average * 0.3))
  }

  /** The sort comparator `b.timestamp - a.timestamp`: newer records first. */
  predicate NewerFirst(a: PredictionRecord, b: PredictionRecord) {
    a.timestamp >= b.timestamp
  }

  function UnsortedRecords(draws: seq<RecordDraws>, now: int): (rs: seq<PredictionRecord>)
    requires forall i :: 0 <= i < |draws| ==> ValidRecordDraws(draws[i])
    ensures |rs| == |draws|
    ensures forall i :: 0 <= i < |rs| ==> rs[i] == DummyRecord(i, draws[i], now)
  {
    seq(|draws|, i requires 0 <= i < |draws| => DummyRecord(i, draws[i], now))
  }

  /** The `do … while` loop: draw names until one differs from `expected`. */
  method RedrawOther(redraws: seq<real>, expected: string) returns (name: string)
    requires forall j :: 0 <= j < |redraws| ==> IsDraw(redraws[j])
    requires FirstOther(redraws, expected).Some?
    ensures name == FirstOther(redraws, expected).value
  {
    var j := 0;
    name := NameAt(redraws[0]);
    while name == expected
      invariant 0 <= j < |redraws|
      invariant name == NameAt(redraws[j])
      invariant FirstOther(redraws, expected) == FirstOther(redraws[j..], expected)
      decreases |redraws| - j
    {
      assert redraws[j..][1..] == redraws[j + 1..];
      j := j + 1;
      if j == |redraws| {
        // FirstOther of the empty rest is None, contradicting the precondition
        assert false;
      }
      name := NameAt(redraws[j]);
    }
  }

  /** The body of the `Array.from` callback: record number i from its draws. */
  method BuildRecord(i: nat, d: RecordDraws, now: int) returns (record: PredictionRecord)
    requires ValidRecordDraws(d)
    ensures record == DummyRecord(i, d, now)
  {
    var expected := NameAt(d.name);
    var evaluation, predicted, confidence;
    if d.evaluation > 0.7 {
      evaluation, predicted, confidence := Correct, expected, 0.75 + d.confidence * 0.25;
    } else if d.evaluation > 0.4 {
      evaluation, predicted, confidence := Doubtful, expected, 0.5 + d.confidence * 0.25;
    } else {
      predicted := RedrawOther(d.redraws, expected);
      evaluation, confidence := Incorrect, 0.3 + d.confidence * 0.2;
    }
    assert evaluation == RecordEvaluation(d.evaluation);
    assert confidence == RecordConfidence(d.evaluation, d.confidence);
    assert predicted == if d.evaluation > 0.4 then expected else FirstOther(d.redraws, expected).value;
    record := PredictionRecord(
      "record-" + Text.NatToString(i), RecordTimestamp(now, d.days, d.hours),
      expected, predicted, confidence, evaluation, Observation(evaluation),
      Some(d.rate * 100.0), Some(0.6 + d.average * 0.3));
  }

  /** Building one more record extends the records built so far. */
  lemma UnsortedRecordsSnoc(draws: seq<RecordDraws>, now: int, i: nat)
    requires i < |draws| && forall k :: 0 <= k < |draws| ==> ValidRecordDraws(draws[k])
    ensures UnsortedRecords(draws[..i + 1], now) == UnsortedRecords(draws[..i], now) + [DummyRecord(i, draws[i], now)]
  {
    var a := UnsortedRecords(draws[..i + 1], now);
    var b := UnsortedRecords(draws[..i], now) + [DummyRecord(i, draws[i], now)];
    assert |a| == |b|;
    forall k | 0 <= k < |a| ensures a[k] == b[k] {
      assert draws[..i + 1][k] == draws[k];
      if k < i {
        assert draws[..i][k] == draws[k];
      }
    }
  }

  /** The `Array.from` loop: record i is built from the i-th draws, in order. */
  method BuildRecords(draws: seq<RecordDraws>, now: int) returns (built: seq<PredictionRecord>)
    requires forall i :: 0 <= i < |draws| ==> ValidRecordDraws(draws[i])
    ensures built == UnsortedRecords(draws, now)
  {
    built := [];
    for i := 0 to |draws|
      invariant built == UnsortedRecords(draws[..i], now)
    {
      var record := BuildRecord(i, draws[i], now);
      UnsortedRecordsSnoc(draws, now, i);
      built := built + [record];
    }
    assert draws[..|draws|] == draws;
  }

  /** `generateDummyRecords(count)`: builds the records one by one, then sorts them. */
  method GenerateDummyRecords(count: nat, draws: seq<RecordDraws>, now: int)
    returns (records: seq<PredictionRecord>)
    requires |draws| == count
    requires forall i :: 0 <= i < count ==> ValidRecordDraws(draws[i])
    ensures records == SortBy(UnsortedRecords(draws, now), NewerFirst)
  {
    var built := BuildRecords(draws, now);
    records := SortBy(built, NewerFirst);
  }

  /** What every generated record satisfies, sorted or not. */
  ghost predicate DummyRecordOk(r: PredictionRecord, now: int) {
    && r.expectedLabel in DummyNames() && r.predictedLabel in DummyNames()
    && (r.evaluation == Incorrect <==> r.predictedLabel != r.expectedLabel)
    && (r.evaluation == Correct || r.evaluation == Doubtful || r.evaluation == Incorrect)
    && r.observation == Observation(r.evaluation)
    && now - 13 * DayMs - 23 * 3600000 <= r.timestamp <= now
  }

  lemma DummyRecordFacts(i: nat, d: RecordDraws, now: int)
    requires ValidRecordDraws(d)
    ensures DummyRecordOk(DummyRecord(i, d, now), now)
  {
    if d.evaluation <= 0.4 {
      FirstOtherFacts(d.redraws, NameAt(d.name));
    }
  }

  lemma {:induction false} FirstOtherFacts(redraws: seq<real>, expected: string)
    requires forall j :: 0 <= j < |redraws| ==> IsDraw(redraws[j])
    requires FirstOther(redraws, expected).Some?
    ensures FirstOther(redraws, expected).value != expected
    ensures FirstOther(redraws, expected).value in DummyNames()
  {
    if NameAt(redraws[0]) == expected {
      FirstOtherFacts(redraws[1..], expected);
    }
  }

  /** `generateDummyRecords(count)` returns `count` records, newest first, a
      permutation of the records it built; each has built-in names, a wrong
      label exactly when it is "incorrect", and a timestamp in the last 14 days. */
  lemma DummyRecordsCorrect(draws: seq<RecordDraws>, now: int)
    requires forall i :: 0 <= i < |draws| ==> ValidRecordDraws(draws[i])
    ensures var rs := SortBy(UnsortedRecords(draws, now), NewerFirst);
      |rs| == |draws|
      && SortedBy(rs, NewerFirst)
      && multiset(rs) == multiset(UnsortedRecords(draws, now))
      && forall k :: 0 <= k < |rs| ==> DummyRecordOk(rs[k], now)
  {
    var us := UnsortedRecords(draws, now);
    SortByCorrect(us, NewerFirst);
    UnsortedRecordsOk(draws, now);
    var rs := SortBy(us, NewerFirst);
    forall k | 0 <= k < |rs| ensures DummyRecordOk(rs[k], now) {
      assert rs[k] in multiset(rs);
      assert rs[k] in us;
    }
  }

  /** Every record built before the sort satisfies the record invariants. */
  lemma UnsortedRecordsOk(draws: seq<RecordDraws>, now: int)
    requires forall i :: 0 <= i < |draws| ==> ValidRecordDraws(draws[i])
    ensures forall r :: r in UnsortedRecords(draws, now) ==> DummyRecordOk(r, now)
  {
    var us := UnsortedRecords(draws, now);
    forall r | r in us ensures DummyRecordOk(r, now) {
      var i :| 0 <= i < |us| && us[i] == r;
      DummyRecordFacts(i, draws[i], now);
    }
  }

  // ---------------------------------------------------------------------
  // The other fallbacks and helpers used by the hooks.

  /** The fallback of `getDailyActivity`: random counts below 10, 5, 3 and 2. */
  function DailyActivityFallback(day: int, t: real, c: real, d: real, i: real): (a: DailyActivity)
    requires IsDraw(t) && IsDraw(c) && IsDraw(d) && IsDraw(i)
    ensures a.date == day
    ensures 0 <= a.totalPractices < 10 && 0 <= a.correct < 5 && 0 <= a.doubtful < 3 && 0 <= a.incorrect < 2
  {
    DrawIndex(t, 10); DrawIndex(c, 5); DrawIndex(d, 3); DrawIndex(i, 2);
    DailyActivity(day, Floor(t * 10.0), Floor(c * 5.0), Floor(d * 3.0), Floor(i * 2.0))
  }

  /** The fallback of `getGlobalStats`. */
  const GlobalStatsFallback := GlobalStats(Number(1250.0), Number(65.0), Number(25.0), Number(10.0))

  /** `checkHealth`: `response.ok`, or false when the request throws or times out. */
  function CheckHealth(a: Attempt): (online: bool)
    ensures online <==> a.Response? && 200 <= a.status <= 299
  {
    IsOk(a)
  }

  /** `getUserNickname`: the stored nickname, or "demo_user" when it is missing or empty. */
  function UserNickname(stored: Option<string>): (nickname: string)
    ensures nickname != ""
    ensures stored.Some? && stored.value != "" ==> nickname == stored.value
  {
    if stored.Some? && stored.value != "" then stored.value else "demo_user"
  }
}
