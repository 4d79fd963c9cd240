/** The single-station entry form: a station picked from a fixed list,
    minutes, seconds and notes as raw text, and a submit handler that
    derives the total in seconds and resets the form after a save. */
module Tracking {
  import opened Options
  import opened JsNumber
  import opened Records
  import opened Effects

  /** The eight station labels, numbered with keycap emoji. */
  const Stations: seq<string> := [
    "1\U{FE0F}\U{20E3} SkiErg",
    "2\U{FE0F}\U{20E3} Sled Push",
    "3\U{FE0F}\U{20E3} Sled Pull",
    "4\U{FE0F}\U{20E3} Burpee Broad Jumps",
    "5\U{FE0F}\U{20E3} Rowing",
    "6\U{FE0F}\U{20E3} Farmers Carry",
    "7\U{FE0F}\U{20E3} Fentes march\U{E9}es",
    "8\U{FE0F}\U{20E3} Wall Balls"
  ]

  /** Alert texts written directly in this page. */
  const FillAllFieldsText: string := "Veuillez remplir tous les champs"
  const SavedText: string := "\U{2705} Performance enregistr\U{E9}e !"
  const FailedText: string := "\U{274C} Erreur lors de l'enregistrement"

  datatype EntryForm = EntryForm(station: string, minutes: string, seconds: string, notes: string)

  /** The form a fresh page shows, and the one a successful save restores. */
  const InitialForm: EntryForm := EntryForm(Stations[0], "", "", "")

  /** Eight distinct, non-empty labels; the form starts on the first. */
  lemma StationListShape()
    ensures |Stations| == 8
    ensures forall i :: 0 <= i < |Stations| ==> Stations[i] != ""
    ensures forall i, j :: 0 <= i < j < |Stations| ==> Stations[i] != Stations[j]
    ensures InitialForm.station == Stations[0] && InitialForm.station != ""
    ensures InitialForm.minutes == "" && InitialForm.seconds == "" && InitialForm.notes == ""
  {
    forall i, j | 0 <= i < j < |Stations|
      ensures Stations[i] != Stations[j]
    {
      assert Stations[i][0] != Stations[j][0];
    }
  }

  datatype Field = StationField | Minutes | Seconds | Notes

  function Get(f: EntryForm, k: Field): string {
    match k
    case StationField => f.station
    case Minutes => f.minutes
    case Seconds => f.seconds
    case Notes => f.notes
  }

  /** The change handler stores the raw text in the named field only. */
  function HandleChange(f: EntryForm, k: Field, value: string): (r: EntryForm)
    ensures Get(r, k) == value
    ensures forall k' :: k' != k ==> Get(r, k') == Get(f, k')
  {
    match k
    case StationField => f.(station := value)
    case Minutes => f.(minutes := value)
    case Seconds => f.(seconds := value)
    case Notes => f.(notes := value)
  }

  /** `parseInt(minutes) * 60 + (parseInt(seconds) || 0)`, from the two
      parsed values: NaN minutes make the whole sum NaN. The sum is exact;
      JavaScript rounds it once it leaves the safe integers. */
  function TotalSeconds(minutes: JsInt, seconds: int): JsInt {
    if minutes.NaN? then NaN else Int(minutes.value * 60 + seconds)
  }

  /** The entry a submission stores. `user` is the session's uid if known;
      `today` and `now` are the clock readings for `date` and `timestamp`. */
  function Entry(user: Option<string>, f: EntryForm, today: string, now: string): (e: StationEntry)
    ensures e.userId == user && e.station == f.station && e.notes == f.notes
    ensures e.date == today && e.timestamp == now
    ensures e.minutes == ParseInt(f.minutes)
    ensures e.minutes.Int? ==> e.totalSeconds == Int(e.minutes.value * 60 + e.seconds)
    ensures e.minutes.NaN? ==> e.totalSeconds.NaN?
    ensures ParseInt(f.seconds).Int? ==> e.seconds == ParseInt(f.seconds).value
    ensures ParseInt(f.seconds).NaN? ==> e.seconds == 0
  {
    var minutes := ParseInt(f.minutes);
    var seconds := ParseInt(f.seconds).OrZero();
    StationEntry(user, f.station, minutes, seconds, TotalSeconds(minutes, seconds), f.notes, today, now)
  }

  /** The page after a submission: what happened, and the form left behind. */
  datatype Outcome = Outcome(trace: Trace, form: EntryForm)

  /** The `try` block: the gate, then the write and what follows it. */
  function SubmitBody(user: Option<string>, f: EntryForm, today: string, now: string, store: StoreReply): Outcome {
    if f.minutes == "" || f.station == "" then
      Outcome([Alert(Literal(FillAllFieldsText)), SetBusy(false)], f)
    else
      var after := AfterWrite(f, store);
      Outcome([AddEntry(Entry(user, f, today, now))] + after.trace, after.form)
  }

  /** After the write: on success the saved alert, the reset of the form and
      the move to the dashboard; on failure the error alert, form untouched. */
  function AfterWrite(f: EntryForm, store: StoreReply): Outcome {
    match store
    case Stored => Outcome([Alert(Literal(SavedText)), Navigate(DashboardRoute)], InitialForm)
    case StoreRejected(_) => Outcome([Alert(Literal(FailedText))], f)
  }

  /** The submit handler: the `try` block, with the `finally` that clears the
      busy flag. The form is reset only when the gate passed and the store
      accepted the entry. */
  function HandleSubmit(user: Option<string>, f: EntryForm, today: string, now: string, store: StoreReply): (r: Outcome)
    ensures f.minutes != "" && f.station != "" && store.Stored? ==> r.form == InitialForm
    ensures !(f.minutes != "" && f.station != "" && store.Stored?) ==> r.form == f
  {
    var body := SubmitBody(user, f, today, now, store);
    Outcome([SetBusy(true)] + body.trace + [SetBusy(false)], body.form)
  }

  lemma SubmitEndsIdle(busy: bool, user: Option<string>, f: EntryForm, today: string, now: string, store: StoreReply)
    ensures !BusyAfter(busy, HandleSubmit(user, f, today, now, store).trace)
  {
    FinallyIdle(busy, [SetBusy(true)] + SubmitBody(user, f, today, now, store).trace);
  }

  /** Empty minutes or an empty station: the fixed "fill all fields" alert,
      no write, and the form kept as it was. */
  lemma SubmitIncomplete(user: Option<string>, f: EntryForm, today: string, now: string, store: StoreReply)
    requires f.minutes == "" || f.station == ""
    ensures var r := HandleSubmit(user, f, today, now, store);
            Only(r.trace, Remote) == [] && Only(r.trace, Notice) == [Alert(Literal(FillAllFieldsText))] && r.form == f
  {
    var m := Literal(FillAllFieldsText);
    assert HandleSubmit(user, f, today, now, store).trace
        == [SetBusy(true)] + [Alert(m), SetBusy(false)] + [SetBusy(false)];
    EarlyExit(m);
  }

  lemma AfterWriteFilters(f: EntryForm, store: StoreReply)
    ensures Only(AfterWrite(f, store).trace, Remote) == []
    ensures Only(AfterWrite(f, store).trace, Navigation) == (if store.Stored? then [Navigate(DashboardRoute)] else [])
  {
    match store
    case Stored => {
      var a := Alert(Literal(SavedText));
      assert AfterWrite(f, store).trace == [a] + [Navigate(DashboardRoute)];
      Prepend(a, [Navigate(DashboardRoute)], Remote);
      Prepend(a, [Navigate(DashboardRoute)], Navigation);
      OnlyOther(Navigate(DashboardRoute), Remote);
      OnlyOther(Navigate(DashboardRoute), Navigation);
    }
    case StoreRejected(_) => {
      OnlyOther(Alert(Literal(FailedText)), Remote);
      OnlyOther(Alert(Literal(FailedText)), Navigation);
    }
  }

  /** Past the gate, exactly one entry is written, whatever the store
      replies. */
  lemma SubmitWrites(user: Option<string>, f: EntryForm, today: string, now: string, store: StoreReply)
    requires f.minutes != "" && f.station != ""
    ensures Only(HandleSubmit(user, f, today, now, store).trace, Remote) == [AddEntry(Entry(user, f, today, now))]
  {
    var w := AddEntry(Entry(user, f, today, now));
    assert SubmitBody(user, f, today, now, store).trace == [w] + AfterWrite(f, store).trace;
    AfterWriteFilters(f, store);
    OneCall(w, AfterWrite(f, store).trace);
  }

  /** The page moves to the dashboard exactly when the gate passed and the
      store accepted the entry. */
  lemma SubmitNavigates(user: Option<string>, f: EntryForm, today: string, now: string, store: StoreReply)
    ensures Only(HandleSubmit(user, f, today, now, store).trace, Navigation)
         == (if f.minutes != "" && f.station != "" && store.Stored? then [Navigate(DashboardRoute)] else [])
  {
    Wrapped(SubmitBody(user, f, today, now, store).trace, Navigation);
    if f.minutes == "" || f.station == "" {
      var a := Alert(Literal(FillAllFieldsText));
      assert SubmitBody(user, f, today, now, store).trace == [a] + [SetBusy(false)];
      Prepend(a, [SetBusy(false)], Navigation);
      OnlyOther(SetBusy(false), Navigation);
    } else {
      WriteNavigates(AddEntry(Entry(user, f, today, now)), f, store);
    }
  }

  lemma WriteNavigates(w: Effect, f: EntryForm, store: StoreReply)
    requires w.AddEntry?
    ensures Only([w] + AfterWrite(f, store).trace, Navigation)
         == (if store.Stored? then [Navigate(DashboardRoute)] else [])
  {
    Prepend(w, AfterWrite(f, store).trace, Navigation);
    AfterWriteFilters(f, store);
  }

  /** The form is reset exactly when the handler moves to the dashboard:
      the reset and the navigation happen together, after a saved entry. */
  lemma ResetExactlyOnSave(user: Option<string>, f: EntryForm, today: string, now: string, store: StoreReply)
    ensures var r := HandleSubmit(user, f, today, now, store);
            r.form == (if Only(r.trace, Navigation) == [Navigate(DashboardRoute)] then InitialForm else f)
  {
    SubmitNavigates(user, f, today, now, store);
  }

  /** With both fields read as integers whose total stays a safe integer,
      the total is exact. */
  lemma EntryOfParsed(user: Option<string>, f: EntryForm, today: string, now: string, m: int, s: int)
    requires ParseInt(f.minutes) == Int(m) && ParseInt(f.seconds) == Int(s)
    requires IsSafe(m) && IsSafe(s) && IsSafe(m * 60 + s)
    ensures Entry(user, f, today, now) == StationEntry(user, f.station, Int(m), s, Int(m * 60 + s), f.notes, today, now)
  {
  }

  lemma EntryOfNumbers(user: Option<string>, station: string, m: nat, s: nat, notes: string, today: string, now: string)
    requires m * 60 + s <= MaxSafeInteger
    ensures Entry(user, EntryForm(station, DecimalString(m), DecimalString(s), notes), today, now)
         == StationEntry(user, station, Int(m), s, Int(m * 60 + s), notes, today, now)
  {
    var f := EntryForm(station, DecimalString(m), DecimalString(s), notes);
    ParseIntRoundTrip(m);
    ParseIntRoundTrip(s);
    EntryOfParsed(user, f, today, now, m, s);
  }

  /** Minutes and seconds typed as plain numbers are stored as those numbers
      with `totalSeconds == minutes * 60 + seconds`, as long as the total is a
      safe integer; seconds have no upper bound, so 75 seconds are simply
      added. */
  lemma SubmitStoresConsistentTimes(user: Option<string>, station: string, m: nat, s: nat, notes: string,
                                    today: string, now: string, store: StoreReply)
    requires station != "" && m * 60 + s <= MaxSafeInteger
    ensures var f := EntryForm(station, DecimalString(m), DecimalString(s), notes);
            Only(HandleSubmit(user, f, today, now, store).trace, Remote)
              == [AddEntry(StationEntry(user, station, Int(m), s, Int(m * 60 + s), notes, today, now))]
  {
    var f := EntryForm(station, DecimalString(m), DecimalString(s), notes);
    SubmitWrites(user, f, today, now, store);
    EntryOfNumbers(user, station, m, s, notes, today, now);
  }

  lemma EntryWithoutSeconds(user: Option<string>, station: string, m: nat, notes: string, today: string, now: string)
    requires m * 60 <= MaxSafeInteger
    ensures Entry(user, EntryForm(station, DecimalString(m), "", notes), today, now)
         == StationEntry(user, station, Int(m), 0, Int(m * 60), notes, today, now)
  {
    var f := EntryForm(station, DecimalString(m), "", notes);
    ParseIntRoundTrip(m);
    ParseIntEmptyIsNaN();
    assert ParseInt(f.minutes) == Int(m);
    assert ParseInt(f.seconds) == NaN;
    var e := Entry(user, f, today, now);
    assert e.minutes == Int(m) && e.seconds == 0;
    assert e.totalSeconds == Int(m * 60);
  }

  /** Seconds left empty are stored as 0 and add nothing to the total. */
  lemma SubmitWithoutSeconds(user: Option<string>, station: string, m: nat, notes: string,
                             today: string, now: string, store: StoreReply)
    requires station != "" && m * 60 <= MaxSafeInteger
    ensures var f := EntryForm(station, DecimalString(m), "", notes);
            Only(HandleSubmit(user, f, today, now, store).trace, Remote)
              == [AddEntry(StationEntry(user, station, Int(m), 0, Int(m * 60), notes, today, now))]
  {
    var f := EntryForm(station, DecimalString(m), "", notes);
    SubmitWrites(user, f, today, now, store);
    EntryWithoutSeconds(user, station, m, notes, today, now);
  }

  /** Minutes that are not a number still pass the gate (it only looks for
      empty text): the entry is written with NaN minutes and a NaN total. */
  lemma SubmitNonNumericMinutes(user: Option<string>, f: EntryForm, today: string, now: string, store: StoreReply)
    requires f.station != "" && f.minutes != ""
    requires !IsWhitespace(f.minutes[0]) && !IsDecimalDigit(f.minutes[0])
    requires f.minutes[0] != '-' && f.minutes[0] != '+'
    ensures var w := Only(HandleSubmit(user, f, today, now, store).trace, Remote);
            |w| == 1 && w[0].AddEntry? && w[0].entry.minutes == NaN && w[0].entry.totalSeconds == NaN
  {
    ParseIntNoDigit(f.minutes);
    SubmitWrites(user, f, today, now, store);
  }
}
