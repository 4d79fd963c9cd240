/** What a page handler does, as the ordered list of its observable effects:
    busy-flag updates, alerts, navigation and calls to the identity provider
    and document store. Replies of those services are inputs. */
module Effects {
  import opened Records

  datatype Route = LoginRoute | DashboardRoute

  /** Alert texts: translation keys, the `'Error: ' + message` form, and
      fixed text written directly in a page. */
  datatype Message =
    | PasswordMismatch
    | FillAllFields
    | AccountCreated
    | LoginSuccess
    | Success
    | Error
    | ErrorDetail(text: string)
    | Literal(text: string)

  datatype Kind = Busy | Notice | Navigation | Remote

  datatype Effect =
    | SetBusy(on: bool)
    | Alert(message: Message)
    | Navigate(route: Route)
    | CreateUser(email: string, password: string)
    | WriteUserDoc(uid: string, doc: UserDoc)
    | SignIn(email: string, password: string)
    | AddPerformance(perf: PerformanceDoc)
    | AddEntry(entry: StationEntry)
  {
    function Kind(): Kind {
      match this
      case SetBusy(_) => Busy
      case Alert(_) => Notice
      case Navigate(_) => Navigation
      case _ => Remote
    }
  }

  type Trace = seq<Effect>

  /** Reply of the identity provider to account creation or sign-in. */
  datatype AuthReply = Authenticated(uid: string) | AuthRejected(message: string)

  /** Reply of the document store to a write. */
  datatype StoreReply = Stored | StoreRejected(message: string)

  /** The effects of one kind, in the order they happened. */
  function Only(t: Trace, k: Kind): (r: Trace)
    ensures |r| <= |t|
    ensures forall i :: 0 <= i < |r| ==> r[i].Kind() == k
  {
    if t == [] then []
    else (if t[0].Kind() == k then [t[0]] else []) + Only(t[1..], k)
  }

  lemma {:induction false} OnlyAppend(a: Trace, b: Trace, k: Kind)
    ensures Only(a + b, k) == Only(a, k) + Only(b, k)
  {
    if a == [] {
      assert a + b == b;
    } else {
      assert (a + b)[1..] == a[1..] + b;
      OnlyAppend(a[1..], b, k);
    }
  }

  /** An effect of another kind leaves the filtered view unchanged. */
  lemma OnlyOther(e: Effect, k: Kind)
    ensures Only([e], k) == if e.Kind() == k then [e] else []
  {
    assert [e][1..] == [];
  }

  /** Filtering a trace that starts with `e`. */
  lemma Prepend(e: Effect, rest: Trace, k: Kind)
    ensures Only([e] + rest, k) == (if e.Kind() == k then [e] else []) + Only(rest, k)
  {
    OnlyAppend([e], rest, k);
    OnlyOther(e, k);
  }

  function Step(busy: bool, e: Effect): bool {
    if e.SetBusy? then e.on else busy
  }

  /** The busy flag once every effect of `t` has happened, in order. */
  function BusyAfter(busy: bool, t: Trace): bool
    decreases |t|
  {
    if t == [] then busy else BusyAfter(Step(busy, t[0]), t[1..])
  }

  lemma {:induction false} BusyAfterSnoc(busy: bool, t: Trace, e: Effect)
    ensures BusyAfter(busy, t + [e]) == Step(BusyAfter(busy, t), e)
    decreases |t|
  {
    if t != [] {
      assert (t + [e])[1..] == t[1..] + [e];
      BusyAfterSnoc(Step(busy, t[0]), t[1..], e);
    }
  }

  /** A `finally` that clears the busy flag wins over everything before it. */
  lemma FinallyIdle(busy: bool, t: Trace)
    ensures !BusyAfter(busy, t + [SetBusy(false)])
  {
    BusyAfterSnoc(busy, t, SetBusy(false));
  }

  /** Busy-flag updates around a handler body add no effect of another
      kind. */
  lemma Wrapped(body: Trace, k: Kind)
    requires k != Busy
    ensures Only([SetBusy(true)] + body + [SetBusy(false)], k) == Only(body, k)
  {
    OnlyAppend([SetBusy(true)] + body, [SetBusy(false)], k);
    OnlyAppend([SetBusy(true)], body, k);
    OnlyOther(SetBusy(true), k);
    OnlyOther(SetBusy(false), k);
  }

  /** A handler that alerts and returns early makes no remote call and
      shows exactly that alert. */
  lemma EarlyExit(m: Message)
    ensures Only([SetBusy(true)] + [Alert(m), SetBusy(false)] + [SetBusy(false)], Remote) == []
    ensures Only([SetBusy(true)] + [Alert(m), SetBusy(false)] + [SetBusy(false)], Notice) == [Alert(m)]
  {
    var body := [Alert(m), SetBusy(false)];
    Wrapped(body, Remote);
    Wrapped(body, Notice);
    assert body == [Alert(m)] + [SetBusy(false)];
    OnlyAppend([Alert(m)], [SetBusy(false)], Remote);
    OnlyAppend([Alert(m)], [SetBusy(false)], Notice);
    OnlyOther(Alert(m), Remote);
    OnlyOther(Alert(m), Notice);
    OnlyOther(SetBusy(false), Remote);
    OnlyOther(SetBusy(false), Notice);
  }

  /** A handler body that makes one remote call and then only reacts to its
      reply makes exactly that call, busy-flag updates around it included. */
  lemma OneCall(w: Effect, rest: Trace)
    requires w.Kind() == Remote && Only(rest, Remote) == []
    ensures Only([SetBusy(true)] + ([w] + rest) + [SetBusy(false)], Remote) == [w]
  {
    Wrapped([w] + rest, Remote);
    Prepend(w, rest, Remote);
  }
}
