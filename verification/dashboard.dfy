/** The dashboard: what the session callback loads (the profile document if
    it exists, the user's performances sorted by date) and what the page
    then shows (profile card, chart, five most recent sessions, or the
    placeholders that stand in for an empty history). */
module Dashboard {
  import opened Options
  import opened JsNumber
  import IsoDate
  import opened Records
  import opened Effects
  import opened History

  /** A fetched performance document: its id and its stored fields. */
  datatype Doc = Doc(id: string, data: PerformanceDoc)

  /** `{ id: doc.id, ...doc.data() }`. */
  function Load(d: Doc): Performance {
    Performance(d.id, d.data.date, d.data.totalTime, d.data.stations)
  }

  /** The fetched documents in fetch order, each carrying its document id. */
  function LoadAll(docs: seq<Doc>): (perfs: seq<Performance>)
    ensures |perfs| == |docs|
    ensures forall i :: 0 <= i < |docs| ==>
              perfs[i].id == docs[i].id && perfs[i].date == docs[i].data.date
              && perfs[i].totalTime == docs[i].data.totalTime && perfs[i].stations == docs[i].data.stations
  {
    if docs == [] then [] else [Load(docs[0])] + LoadAll(docs[1..])
  }

  /** Every fetched document has a `YYYY-MM-DD` date. */
  predicate FetchedDated(docs: seq<Doc>) {
    forall i :: 0 <= i < |docs| ==> IsoDate.Parse(docs[i].data.date).Some?
  }

  datatype State = State(
    loading: bool,
    user: Option<string>,
    profile: Option<UserDoc>,
    performances: seq<Performance>,
    redirect: Option<Route>)

  /** Before the session callback: loading, nothing known. */
  const Initial: State := State(true, None, None, [], None)

  /** The store's answer to a read: the value, or a rejection. */
  datatype Reply<T> = Read(value: T) | ReadFailed(reason: string)

  /** The session callback. Signed out: go to the login page and clear the
      loading flag. Signed in: remember the user; read the profile and take
      it if its document exists; read the performances and store them sorted
      most recent first; then clear the loading flag. The callback catches
      nothing, so a rejected read ends it on the spot: what was set before
      stays, and the loading flag stays as it was. `profileRead` and
      `docsRead` are the store's answers for this user. */
  function OnAuthState(st: State, user: Option<string>, profileRead: Reply<Option<UserDoc>>,
                       docsRead: Reply<seq<Doc>>): (r: State)
    requires user.Some? && profileRead.Read? && docsRead.Read? ==> FetchedDated(docsRead.value)
    ensures user.None? ==> r == st.(loading := false, redirect := Some(LoginRoute))
    ensures user.Some? ==> r.user == user && r.redirect == st.redirect
    ensures !r.loading <==> user.None? || (profileRead.Read? && docsRead.Read?) || !st.loading
    ensures user.Some? && profileRead.ReadFailed? ==> r.profile == st.profile
    ensures user.Some? && profileRead.Read? ==>
              r.profile == (if profileRead.value.Some? then profileRead.value else st.profile)
    ensures user.Some? && (profileRead.ReadFailed? || docsRead.ReadFailed?) ==> r.performances == st.performances
    ensures user.Some? && profileRead.Read? && docsRead.Read? ==>
              && multiset(r.performances) == multiset(LoadAll(docsRead.value))
              && AllDated(r.performances) && r.performances == SortByDate(LoadAll(docsRead.value))
  {
    if user.None? then st.(loading := false, redirect := Some(LoginRoute))
    else
      var signedIn := st.(user := user);
      match profileRead
      case ReadFailed(_) => signedIn
      case Read(profileDoc) =>
        var withProfile := signedIn.(profile := if profileDoc.Some? then profileDoc else st.profile);
        match docsRead
        case ReadFailed(_) => withProfile
        case Read(docs) =>
          var perfs := LoadAll(docs);
          assert AllDated(perfs) by {
            forall i | 0 <= i < |perfs| ensures Dated(perfs[i]) {
              assert perfs[i].date == docs[i].data.date;
            }
          }
          withProfile.(performances := SortByDate(perfs), loading := false)
  }

  datatype ProfileCard = ProfileCard(name: string, category: string, targetTime: JsInt, age: JsInt)

  datatype ChartPanel = ChartPlaceholder | Chart(points: seq<ChartPoint>)

  datatype RecentPanel = RecentPlaceholder | RecentList(items: seq<Performance>)

  datatype View =
    | LoadingView
    | PageView(card: Option<ProfileCard>, chart: ChartPanel, recent: RecentPanel)

  /** What the page draws for a state: the loading view while loading;
      otherwise the profile card when there is a profile, and the chart and
      the recent list when there is at least one performance. */
  function Render(st: State): (v: View)
    ensures v.LoadingView? <==> st.loading
    ensures v.PageView? ==> (v.card.Some? <==> st.profile.Some?)
    ensures v.PageView? ==> (v.chart.Chart? <==> st.performances != [])
    ensures v.PageView? ==> (v.recent.RecentList? <==> st.performances != [])
  {
    if st.loading then LoadingView
    else
      var card := if st.profile.Some?
        then Some(ProfileCard(st.profile.value.name, st.profile.value.category,
                              st.profile.value.targetTime, st.profile.value.age))
        else None;
      var points := ChartData(st.performances);
      PageView(card,
               if |points| > 0 then Chart(points) else ChartPlaceholder,
               if |st.performances| > 0 then RecentList(Recent(st.performances)) else RecentPlaceholder)
  }

  /** No performances: both panels show the placeholder instead of failing,
      whatever the profile. */
  lemma EmptyHistoryShowsPlaceholders(uid: string, profileDoc: Option<UserDoc>)
    ensures var v := Render(OnAuthState(Initial, Some(uid), Read(profileDoc), Read([])));
            v.PageView? && v.chart == ChartPlaceholder && v.recent == RecentPlaceholder
  {
  }

  /** With performances: the chart has one point per performance, oldest
      first, and the recent list holds the first five of the sorted list. */
  lemma HistoryShown(uid: string, profileDoc: Option<UserDoc>, docs: seq<Doc>)
    requires FetchedDated(docs) && docs != []
    ensures var st := OnAuthState(Initial, Some(uid), Read(profileDoc), Read(docs));
            var v := Render(st);
            && v.PageView? && v.chart.Chart? && v.recent.RecentList?
            && |v.chart.points| == |docs|
            && v.chart.points == ChartData(st.performances)
            && v.recent.items == st.performances[..|v.recent.items|]
            && |v.recent.items| == (if |docs| < 5 then |docs| else 5)
  {
  }

  /** The profile card appears exactly when the profile document exists,
      and then shows its name, category, target time and age. */
  lemma ProfileShownIffExists(uid: string, profileDoc: Option<UserDoc>, docs: seq<Doc>)
    requires FetchedDated(docs)
    ensures var v := Render(OnAuthState(Initial, Some(uid), Read(profileDoc), Read(docs)));
            && v.PageView?
            && (v.card.Some? <==> profileDoc.Some?)
            && (profileDoc.Some? ==>
                  v.card.value == ProfileCard(profileDoc.value.name, profileDoc.value.category,
                                              profileDoc.value.targetTime, profileDoc.value.age))
  {
  }

  /** Signed out: the page heads for the login page with nothing loaded. */
  lemma SignedOutRedirects(profileRead: Reply<Option<UserDoc>>, docsRead: Reply<seq<Doc>>)
    ensures var st := OnAuthState(Initial, None, profileRead, docsRead);
            st.redirect == Some(LoginRoute) && st.profile.None? && st.performances == []
  {
  }

  /** A rejected profile read stops the callback before anything is loaded:
      the page keeps showing the loading view, with no profile and no
      performances, whatever the performance query would have answered. */
  lemma ProfileReadFailureKeepsLoading(uid: string, reason: string, docsRead: Reply<seq<Doc>>)
    ensures var st := OnAuthState(Initial, Some(uid), ReadFailed(reason), docsRead);
            && Render(st) == LoadingView
            && st.user == Some(uid) && st.profile.None? && st.performances == []
  {
  }

  /** A rejected performance query comes after the profile was taken: the
      profile is kept, no performance is stored, and the page keeps showing
      the loading view. */
  lemma QueryFailureKeepsProfile(uid: string, profileDoc: Option<UserDoc>, reason: string)
    ensures var st := OnAuthState(Initial, Some(uid), Read(profileDoc), ReadFailed(reason));
            && Render(st) == LoadingView
            && st.profile == profileDoc && st.performances == []
  {
  }

  /** The three dates of the scenario below are real calendar days. */
  lemma ScenarioDates()
    ensures IsoDate.Parse("2024-01-10") == Some(IsoDate.Date(2024, 1, 10))
    ensures IsoDate.Parse("2024-01-05") == Some(IsoDate.Date(2024, 1, 5))
    ensures IsoDate.Parse("2024-01-20") == Some(IsoDate.Date(2024, 1, 20))
  {
    January2024(1, 0);
    January2024(0, 5);
    January2024(2, 0);
  }

  /** The January 2024 day written with the digits `tens` and `ones`. */
  lemma January2024(tens: nat, ones: nat)
    requires tens <= 3 && ones < 10 && 1 <= tens * 10 + ones <= 31
    ensures IsoDate.Parse(['2', '0', '2', '4', '-', '0', '1', '-', DigitChar(tens), DigitChar(ones)])
         == Some(IsoDate.Date(2024, 1, tens * 10 + ones))
  {
    var d := IsoDate.Date(2024, 1, tens * 10 + ones);
    IsoDate.Pad4OfDigits(2, 0, 2, 4);
    IsoDate.Pad2OfDigits(0, 1);
    IsoDate.Pad2OfDigits(tens, ones);
    assert IsoDate.Format(d) == ['2', '0', '2', '4', '-', '0', '1', '-', DigitChar(tens), DigitChar(ones)];
    IsoDate.ParseFormat(d);
  }

  /** Fetched as 10, 5 and 20 January, they are keyed 5 < 10 < 20. */
  lemma ScenarioKeys(a: Performance, b: Performance, c: Performance)
    requires a.date == "2024-01-10" && b.date == "2024-01-05" && c.date == "2024-01-20"
    ensures AllDated([a, b, c])
    ensures DateKey(b) < DateKey(a) < DateKey(c)
  {
    var da, db, dc := IsoDate.Date(2024, 1, 10), IsoDate.Date(2024, 1, 5), IsoDate.Date(2024, 1, 20);
    ScenarioDates();
    assert DateOf(a) == da && DateOf(b) == db && DateOf(c) == dc;
    IsoDate.DayKeyOrder(db, da);
    IsoDate.DayKeyOrder(da, dc);
  }

  /** Fetched as 10, 5 and 20 January, they are stored 20, 10, 5 January. */
  lemma ScenarioOrder(a: Performance, b: Performance, c: Performance)
    requires a.date == "2024-01-10" && b.date == "2024-01-05" && c.date == "2024-01-20"
    ensures AllDated([a, b, c])
    ensures SortByDate([a, b, c]) == [c, a, b]
  {
    ScenarioKeys(a, b, c);
    StableSort.SortThree(a, b, c, DateKey);
  }

  /** Three fetched documents dated 10, 5 and 20 January 2024. */
  function ScenarioDocs(): seq<Doc> {
    [Doc("a", PerformanceDoc("u", "2024-01-10", 0, map[])),
     Doc("b", PerformanceDoc("u", "2024-01-05", 0, map[])),
     Doc("c", PerformanceDoc("u", "2024-01-20", 0, map[]))]
  }

  /** Loading keeps fetch order and each document id. */
  lemma ScenarioLoad()
    ensures FetchedDated(ScenarioDocs())
    ensures LoadAll(ScenarioDocs()) == [Performance("a", "2024-01-10", 0, map[]),
                                        Performance("b", "2024-01-05", 0, map[]),
                                        Performance("c", "2024-01-20", 0, map[])]
  {
    ScenarioDates();
    var docs := ScenarioDocs();
    assert docs[1..][1..][1..] == [];
  }

  /** Reversing the stored order gives the chart order. */
  lemma ScenarioChart(a: Performance, b: Performance, c: Performance)
    requires a.date == "2024-01-10" && b.date == "2024-01-05" && c.date == "2024-01-20"
    requires a.totalTime == 0 && b.totalTime == 0 && c.totalTime == 0
    ensures ChartData([c, a, b]) == [ChartPoint("2024-01-05", 0), ChartPoint("2024-01-10", 0), ChartPoint("2024-01-20", 0)]
  {
    var points := ChartData([c, a, b]);
    assert points[0] == ChartPoint("2024-01-05", 0);
    assert points[1] == ChartPoint("2024-01-10", 0);
    assert points[2] == ChartPoint("2024-01-20", 0);
  }

  /** Three sessions fetched as 10, 5 and 20 January 2024 are charted as
      5, 10 and 20 January. */
  lemma ChartScenario()
    ensures FetchedDated(ScenarioDocs())
    ensures var v := Render(OnAuthState(Initial, Some("u"), Read(None), Read(ScenarioDocs())));
            v.PageView? && v.chart.Chart?
            && v.chart.points == [ChartPoint("2024-01-05", 0), ChartPoint("2024-01-10", 0), ChartPoint("2024-01-20", 0)]
  {
    var a := Performance("a", "2024-01-10", 0, map[]);
    var b := Performance("b", "2024-01-05", 0, map[]);
    var c := Performance("c", "2024-01-20", 0, map[]);
    ScenarioLoad();
    ScenarioOrder(a, b, c);
    ScenarioChart(a, b, c);
    var st := OnAuthState(Initial, Some("u"), Read(None), Read(ScenarioDocs()));
    assert st.performances == [c, a, b];
    assert !st.loading;
  }
}
