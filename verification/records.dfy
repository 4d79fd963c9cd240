/** The documents the pages write to and read from the document store. */
module Records {
  import opened Options
  import opened JsNumber

  /** The profile document stored under `users/<uid>` at signup. `targetTime`
      and `age` hold whatever `parseInt` gave the form, NaN included. */
  datatype UserDoc = UserDoc(
    name: string,
    email: string,
    category: string,
    targetTime: JsInt,
    age: JsInt,
    gender: string,
    createdAt: string)

  /** A multi-station performance as the tracking form writes it. The
      server-assigned `createdAt` timestamp is not modelled. */
  datatype PerformanceDoc = PerformanceDoc(
    userId: string,
    date: string,
    totalTime: int,
    stations: map<string, int>)

  /** A single-station log entry as the alternative entry form writes it.
      `userId` is absent when no session was known (`user?.uid`); `date` and
      `timestamp` are the clock readings the form takes at submission. */
  datatype StationEntry = StationEntry(
    userId: Option<string>,
    station: string,
    minutes: JsInt,
    seconds: int,
    totalSeconds: JsInt,
    notes: string,
    date: string,
    timestamp: string)
}
