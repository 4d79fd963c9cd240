/** The multi-station tracking form: ten fields (a date, a total time and
    one time per station), a lenient numeric change handler, and a submit
    handler that writes one performance document for the signed-in user. */
module Track {
  import opened Options
  import opened JsNumber
  import IsoDate
  import opened Records
  import opened Effects

  /** The eight race stations, in the order the form lists them. */
  datatype Station =
    | SkiErg | SledPush | SledPull | BurpeeBroadJumps
    | RowErg | FarmerCarry | SandbagLunges | WallBalls

  /** The key a station's time is stored under. */
  function StationKey(s: Station): string {
    match s
    case SkiErg => "skierg"
    case SledPush => "sledPush"
    case SledPull => "sledPull"
    case BurpeeBroadJumps => "burpeeBroadJumps"
    case RowErg => "rowErg"
    case FarmerCarry => "farmerCarry"
    case SandbagLunges => "sandbagLunges"
    case WallBalls => "wallBalls"
  }

  const StationOrder: seq<Station> :=
    [SkiErg, SledPush, SledPull, BurpeeBroadJumps, RowErg, FarmerCarry, SandbagLunges, WallBalls]

  const StationKeys: set<string> :=
    {"skierg", "sledPush", "sledPull", "burpeeBroadJumps", "rowErg", "farmerCarry", "sandbagLunges", "wallBalls"}

  /** Where a station sits in the list. */
  function Position(s: Station): (i: nat)
    ensures i < |StationOrder| && StationOrder[i] == s
  {
    match s
    case SkiErg => 0
    case SledPush => 1
    case SledPull => 2
    case BurpeeBroadJumps => 3
    case RowErg => 4
    case FarmerCarry => 5
    case SandbagLunges => 6
    case WallBalls => 7
  }

  /** The list names every station exactly once, distinct stations have
      distinct keys, and the keys are the eight the record stores. */
  lemma StationListComplete()
    ensures |StationOrder| == 8
    ensures forall s: Station :: s in StationOrder
    ensures forall i, j :: 0 <= i < j < |StationOrder| ==> StationOrder[i] != StationOrder[j]
    ensures forall s: Station, t: Station :: StationKey(s) == StationKey(t) ==> s == t
    ensures forall s: Station :: StationKey(s) in StationKeys
    ensures |StationKeys| == 8
  {
    forall s: Station
      ensures s in StationOrder
    {
      var i := Position(s);
    }
  }

  datatype TrackForm = TrackForm(
    date: string,
    totalTime: int,
    skierg: int,
    sledPush: int,
    sledPull: int,
    burpeeBroadJumps: int,
    rowErg: int,
    farmerCarry: int,
    sandbagLunges: int,
    wallBalls: int)

  function Time(f: TrackForm, s: Station): int {
    match s
    case SkiErg => f.skierg
    case SledPush => f.sledPush
    case SledPull => f.sledPull
    case BurpeeBroadJumps => f.burpeeBroadJumps
    case RowErg => f.rowErg
    case FarmerCarry => f.farmerCarry
    case SandbagLunges => f.sandbagLunges
    case WallBalls => f.wallBalls
  }

  /** The form a fresh page shows: today's date as `YYYY-MM-DD` (the clock
      reading is an input) and zero everywhere else. */
  function InitialForm(today: IsoDate.Date): (f: TrackForm)
    requires IsoDate.Valid(today)
    ensures IsoDate.Parse(f.date) == Some(today)
    ensures f.date != ""
    ensures f.totalTime == 0
    ensures forall s: Station :: Time(f, s) == 0
  {
    IsoDate.ParseFormat(today);
    TrackForm(IsoDate.Format(today), 0, 0, 0, 0, 0, 0, 0, 0, 0)
  }

  datatype Field = DateField | TotalTimeField | StationField(station: Station)

  datatype FieldValue = Text(text: string) | Number(number: int)

  function Get(f: TrackForm, k: Field): FieldValue {
    match k
    case DateField => Text(f.date)
    case TotalTimeField => Number(f.totalTime)
    case StationField(s) => Number(Time(f, s))
  }

  function SetTime(f: TrackForm, s: Station, n: int): (r: TrackForm)
    ensures Time(r, s) == n
    ensures forall t: Station :: t != s ==> Time(r, t) == Time(f, t)
    ensures r.date == f.date && r.totalTime == f.totalTime
  {
    match s
    case SkiErg => f.(skierg := n)
    case SledPush => f.(sledPush := n)
    case SledPull => f.(sledPull := n)
    case BurpeeBroadJumps => f.(burpeeBroadJumps := n)
    case RowErg => f.(rowErg := n)
    case FarmerCarry => f.(farmerCarry := n)
    case SandbagLunges => f.(sandbagLunges := n)
    case WallBalls => f.(wallBalls := n)
  }

  /** The change handler: the date is kept verbatim; every other field takes
      `parseInt(value) || 0`; the other nine fields do not move. */
  function HandleChange(f: TrackForm, k: Field, value: string): (r: TrackForm)
    ensures k == DateField ==> Get(r, k) == Text(value)
    ensures k != DateField ==> Get(r, k) == Number(ParseIntOrZero(value))
    ensures forall k' :: k' != k ==> Get(r, k') == Get(f, k')
  {
    match k
    case DateField => f.(date := value)
    case TotalTimeField => f.(totalTime := ParseIntOrZero(value))
    case StationField(s) => SetTime(f, s, ParseIntOrZero(value))
  }

  /** The document a submission stores: the session's uid, the form's date
      and total time, and a map holding exactly the eight station keys. */
  function Record(uid: string, f: TrackForm): (r: PerformanceDoc)
    ensures r.userId == uid
    ensures r.date == f.date && r.totalTime == f.totalTime
    ensures r.stations.Keys == StationKeys
    ensures forall s: Station :: r.stations[StationKey(s)] == Time(f, s)
  {
    PerformanceDoc(uid, f.date, f.totalTime,
      map["skierg" := f.skierg,
          "sledPush" := f.sledPush,
          "sledPull" := f.sledPull,
          "burpeeBroadJumps" := f.burpeeBroadJumps,
          "rowErg" := f.rowErg,
          "farmerCarry" := f.farmerCarry,
          "sandbagLunges" := f.sandbagLunges,
          "wallBalls" := f.wallBalls])
  }

  /** The body of the `try` block: nothing without a session, an alert for an
      empty date, otherwise the write and then success or failure. */
  function SubmitBody(user: Option<string>, f: TrackForm, store: StoreReply): Trace {
    if user.None? then []
    else if f.date == "" then [Alert(FillAllFields), SetBusy(false)]
    else [AddPerformance(Record(user.value, f))] + AfterWrite(store)
  }

  function AfterWrite(store: StoreReply): Trace {
    match store
    case Stored => [Alert(Success), Navigate(DashboardRoute)]
    case StoreRejected(_) => [Alert(Error)]
  }

  /** The submit handler, with the `finally` that clears the submitting flag.
      `user` is the session's uid, absent when signed out. */
  function HandleSubmit(user: Option<string>, f: TrackForm, store: StoreReply): Trace {
    [SetBusy(true)] + SubmitBody(user, f, store) + [SetBusy(false)]
  }

  lemma SubmitFilters(user: Option<string>, f: TrackForm, store: StoreReply, k: Kind)
    requires k != Busy
    ensures Only(HandleSubmit(user, f, store), k) == Only(SubmitBody(user, f, store), k)
  {
    Wrapped(SubmitBody(user, f, store), k);
  }

  lemma SubmitEndsIdle(busy: bool, user: Option<string>, f: TrackForm, store: StoreReply)
    ensures !BusyAfter(busy, HandleSubmit(user, f, store))
  {
    FinallyIdle(busy, [SetBusy(true)] + SubmitBody(user, f, store));
  }

  /** Signed out: no write and no alert. */
  lemma SubmitSignedOut(f: TrackForm, store: StoreReply)
    ensures Only(HandleSubmit(None, f, store), Remote) == []
    ensures Only(HandleSubmit(None, f, store), Notice) == []
  {
    SubmitFilters(None, f, store, Remote);
    SubmitFilters(None, f, store, Notice);
  }

  /** An empty date: the "fill all fields" alert and no write. */
  lemma SubmitWithoutDate(uid: string, f: TrackForm, store: StoreReply)
    requires f.date == ""
    ensures Only(HandleSubmit(Some(uid), f, store), Remote) == []
    ensures Only(HandleSubmit(Some(uid), f, store), Notice) == [Alert(FillAllFields)]
  {
    assert HandleSubmit(Some(uid), f, store)
        == [SetBusy(true)] + [Alert(FillAllFields), SetBusy(false)] + [SetBusy(false)];
    EarlyExit(FillAllFields);
  }

  lemma AfterWriteFilters(store: StoreReply)
    ensures Only(AfterWrite(store), Remote) == []
  {
    match store
    case Stored => {
      assert AfterWrite(store) == [Alert(Success)] + [Navigate(DashboardRoute)];
      OnlyAppend([Alert(Success)], [Navigate(DashboardRoute)], Remote);
      OnlyOther(Alert(Success), Remote);
      OnlyOther(Navigate(DashboardRoute), Remote);
    }
    case StoreRejected(_) => {
      OnlyOther(Alert(Error), Remote);
    }
  }

  /** With a session and a date, exactly one document is written: the one
      `Record` builds from the session uid and the form, whatever the store
      replies. */
  lemma SubmitWrites(uid: string, f: TrackForm, store: StoreReply)
    requires f.date != ""
    ensures Only(HandleSubmit(Some(uid), f, store), Remote) == [AddPerformance(Record(uid, f))]
  {
    var w := AddPerformance(Record(uid, f));
    assert SubmitBody(Some(uid), f, store) == [w] + AfterWrite(store);
    AfterWriteFilters(store);
    OneCall(w, AfterWrite(store));
  }

  function StationSum(f: TrackForm): int {
    f.skierg + f.sledPush + f.sledPull + f.burpeeBroadJumps
    + f.rowErg + f.farmerCarry + f.sandbagLunges + f.wallBalls
  }

  /** The total time is stored as typed: a total below the sum of the station
      times is written all the same. */
  lemma TotalTimeNotChecked(uid: string)
    ensures var f := TrackForm("2024-01-10", 0, 300, 0, 0, 0, 0, 0, 0, 0);
            && Only(HandleSubmit(Some(uid), f, Stored), Remote) == [AddPerformance(Record(uid, f))]
            && Record(uid, f).totalTime < StationSum(f)
  {
    SubmitWrites(uid, TrackForm("2024-01-10", 0, 300, 0, 0, 0, 0, 0, 0, 0), Stored);
  }
}
