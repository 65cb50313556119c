/** The records exchanged with the backend (the interfaces of lib/api.ts) and the
    small wrappers the rest of the model shares. Timestamps are milliseconds since
    the epoch; the ISO strings of the source are not modelled. */
module Types {

  datatype Option<T> = None | Some(value: T)

  /** A call that either returns a value or throws. */
  datatype Outcome<T> = Returned(value: T) | Threw

  /** A sign the user can practise. `category` and `difficulty` are absent on
      the labels built from the backend's plain strings. */
  datatype Label = Label(
    id: string,
    name: string,
    description: string,
    category: Option<string>,
    difficulty: Option<string>)

  /** The body of `POST /predict`: 35 frames of 42 features each. */
  datatype PredictionRequest = PredictionRequest(
    sequence: seq<seq<real>>,
    expectedLabel: string,
    nickname: string)

  /** The backend's answer. The evaluation is kept as text because the
      backend may send a value outside "correct" | "doubtful" | "incorrect". */
  datatype PredictionResponse = PredictionResponse(
    predictedLabel: string,
    confidence: real,
    evaluation: string,
    observation: string,
    successRate: Option<real>,
    averageConfidence: Option<real>,
    retroalimentacion: Option<string>)

  /** One practice attempt as stored in the history. */
  datatype PredictionRecord = PredictionRecord(
    id: string,
    timestamp: int,
    expectedLabel: string,
    predictedLabel: string,
    confidence: real,
    evaluation: string,
    observation: string,
    successRate: Option<real>,
    averageConfidence: Option<real>)

  /** Per-sign progress as produced by the fallback generator. */
  datatype ProgressData = ProgressData(
    labelName: string,
    totalAttempts: int,
    correctAttempts: int,
    doubtfulAttempts: int,
    incorrectAttempts: int,
    averageConfidence: real,
    maxConfidence: real,
    lastPractice: int,
    successRate: real)

  /** Activity of one day; `date` is the YYYY-MM-DD key, modelled as a day number. */
  datatype DailyActivity = DailyActivity(
    date: int,
    totalPractices: int,
    correct: int,
    doubtful: int,
    incorrect: int)

  /** A value that arrives untyped from JSON: a number, or something else. */
  datatype Num = Number(n: real) | NotNumber

  /** The global distribution; each field may be missing or not a number. */
  datatype GlobalStats = GlobalStats(
    totalAttempts: Num,
    correctPercentage: Num,
    doubtfulPercentage: Num,
    incorrectPercentage: Num)

  const Correct := "correct"
  const Doubtful := "doubtful"
  const Incorrect := "incorrect"

  /** Milliseconds in a day. */
  const DayMs := 86400000

  /** The UTC day of a millisecond timestamp: whole days since the epoch, which
      is what the YYYY-MM-DD prefix of `toISOString` denotes. */
  function DayOf(ms: int): int {
    ms / DayMs
  }

  /** Moving a timestamp by k whole days moves its day by k. */
  lemma DayShift(ms: int, k: int)
    ensures DayOf(ms + k * DayMs) == DayOf(ms) + k
  {
    assert ms + k * DayMs == (ms / DayMs + k) * DayMs + ms % DayMs;
  }

  /** `Math.floor` of a real, as an integer. */
  function Floor(x: real): (n: int)
    ensures n as real <= x < n as real + 1.0
  {
    x.Floor
  }

  /** `Math.round`: halves round up. */
  function Round(x: real): (n: int)
    ensures x - 0.5 < n as real <= x + 0.5
  {
    (x + 0.5).Floor
  }

  /** A random draw as `Math.random()` returns it. */
  predicate IsDraw(r: real) {
    0.0 <= r < 1.0
  }

  /** `Math.floor(r * n)` for a draw r picks a valid index of an array of length n. */
  lemma DrawIndex(r: real, n: nat)
    requires IsDraw(r) && n > 0
    ensures 0 <= Floor(r * n as real) < n
  {
    assert r * n as real < n as real;
  }
}
