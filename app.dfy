/** The root component's view-state machine: seven state fields, the handlers that change them
    (each asynchronous handler split into the step that begins it and the step that completes it,
    with the network outcome as an input), the effect that starts the first load, and the rule
    that decides what is on screen.

    `Step` is the transition function and `Render` the selection rule; the class `App` holds the
    state in fields and is proved to follow `Step` event by event. */
module AppRoot {
  import opened Records
  import Header
  import Dashboard
  import AppointmentModal

  const StatusLoading := "loading"
  const StatusLoaded := "loaded"
  const ScreenMain := "main"
  const ScreenProfile := "profile"
  const TabDashboard := "dashboard"
  const TabChatbot := "chatbot"
  const TabAppointments := "appointments"
  const TabReports := "reports"

  /** Which handler called `loadData`; it decides what happens once the load completes. */
  datatype LoadOrigin = StatusEffect | PullToRefresh | AppointmentAdded

  /** A handler that has begun its network call and not yet completed. */
  datatype InFlight = Load(origin: LoadOrigin) | Save(submitted: PatientRecord)

  /** The seven state fields, and the calls begun and not yet completed. */
  datatype State = State(
    appStatus: string,
    activeTab: string,
    patientData: Option<PatientRecord>,
    isModalVisible: bool,
    isRefreshing: bool,
    activeScreen: string,
    isSaving: bool,
    inFlight: seq<InFlight>)

  /** What can happen to the root component. `fetched` is what `fetchPatientData` resolved to:
      the parsed record, or `None` for a non-2xx response or any thrown error. `succeeded` says
      whether `updatePatientData` resolved or threw. */
  datatype Event =
    | SplashFinished
    | RefreshBegun
    | AppointmentAddedBegun(request: AppointmentModal.Request)
    | LoadCompleted(index: nat, fetched: Option<PatientRecord>)
    | SaveBegun(submitted: PatientRecord)
    | SaveCompleted(index: nat, succeeded: bool)
    | TabChanged(tab: string)
    | ProfilePressed
    | ProfileBack
    | ModalVisibilitySet(visible: bool)

  /** What a tab of the main app shows. */
  datatype TabContent =
    | ShowsDashboard(dashboard: Dashboard.View)
    | ShowsChatbot(conversations: Option<seq<Message>>)
    | ShowsAppointments(appointments: Option<seq<Appointment>>, refreshing: bool)
    | ShowsReports(patient: PatientRecord)
    | ShowsNothing

  /** What the root component renders. */
  datatype Shown =
    | Splash
    | Spinner
    | MainApp(avatar: string, content: TabContent, pullToRefresh: bool, refreshing: bool,
              selectedTab: string, modalVisible: bool)
    | ProfileForm(patient: PatientRecord, isLoading: bool)

  /** The state when the app mounts. */
  function Init(): (s: State)
    ensures Render(s) == Splash && s.inFlight == [] && s.patientData.None?
  {
    State(StatusLoading, TabDashboard, None, false, false, ScreenMain, false, [])
  }

  /** `xs` without its entry at `i`. */
  function Without<T>(xs: seq<T>, i: nat): (r: seq<T>)
    requires i < |xs|
    ensures |r| == |xs| - 1
    ensures multiset(r) == multiset(xs) - multiset{xs[i]}
  {
    assert xs == xs[..i] + [xs[i]] + xs[i + 1..];
    xs[..i] + xs[i + 1..]
  }

  /** The effect on `[appStatus, patientData]`: it runs after a render in which either changed,
      and starts a load when the splash is over and no record is held. */
  function AfterRender(prevStatus: string, prevData: Option<PatientRecord>, s: State): (r: State)
    ensures r == s.(inFlight := r.inFlight)
    ensures r.inFlight == s.inFlight || r.inFlight == s.inFlight + [Load(StatusEffect)]
    ensures r.inFlight != s.inFlight <==>
      (prevStatus != s.appStatus || prevData != s.patientData)
      && s.appStatus == StatusLoaded && s.patientData.None?
  {
    if (prevStatus != s.appStatus || prevData != s.patientData)
       && s.appStatus == StatusLoaded && s.patientData.None?
    then s.(inFlight := s.inFlight + [Load(StatusEffect)])
    else s
  }

  /** A completion event names a call that was begun and is of the right kind. */
  predicate Allowed(s: State, e: Event) {
    match e
    case LoadCompleted(i, _) => i < |s.inFlight| && s.inFlight[i].Load?
    case SaveCompleted(i, _) => i < |s.inFlight| && s.inFlight[i].Save?
    case _ => true
  }

  /** The state updates of the handler for `e`, before the effect runs. */
  function Apply(s: State, e: Event): (r: State)
    requires Allowed(s, e)
    ensures r.appStatus != s.appStatus ==> e.SplashFinished? && r.appStatus == StatusLoaded
    ensures r.patientData != s.patientData ==> e.LoadCompleted? || (e.SaveCompleted? && e.succeeded)
    ensures e.LoadCompleted? ==> r.patientData == e.fetched
    ensures r.activeTab != s.activeTab ==> e.TabChanged? || e.LoadCompleted?
    ensures r.activeScreen != s.activeScreen ==> e.ProfilePressed? || e.ProfileBack? || e.SaveCompleted?
    ensures r.isModalVisible != s.isModalVisible ==> e.ModalVisibilitySet? || e.AppointmentAddedBegun?
    ensures r.isRefreshing != s.isRefreshing ==> e.RefreshBegun? || e.LoadCompleted?
    ensures r.isSaving != s.isSaving ==> e.SaveBegun? || e.SaveCompleted?
    ensures e.LoadCompleted? || e.SaveCompleted? ==> r.inFlight == Without(s.inFlight, e.index)
    ensures e.RefreshBegun? || e.AppointmentAddedBegun? || e.SaveBegun? ==>
      |r.inFlight| == |s.inFlight| + 1 && r.inFlight[..|s.inFlight|] == s.inFlight
    ensures (e.SplashFinished? || e.TabChanged? || e.ProfilePressed? || e.ProfileBack?
             || e.ModalVisibilitySet?) ==> r.inFlight == s.inFlight
  {
    match e
    case SplashFinished => s.(appStatus := StatusLoaded)
    case RefreshBegun => s.(isRefreshing := true, inFlight := s.inFlight + [Load(PullToRefresh)])
    case AppointmentAddedBegun(_) =>
      s.(isModalVisible := false, inFlight := s.inFlight + [Load(AppointmentAdded)])
    case LoadCompleted(i, fetched) =>
      var loaded := s.(patientData := fetched, inFlight := Without(s.inFlight, i));
      (match s.inFlight[i].origin
       case StatusEffect => loaded
       case PullToRefresh => loaded.(isRefreshing := false)
       case AppointmentAdded => loaded.(activeTab := TabAppointments))
    case SaveBegun(r) => s.(isSaving := true, inFlight := s.inFlight + [Save(r)])
    case SaveCompleted(i, ok) =>
      var settled := s.(isSaving := false, inFlight := Without(s.inFlight, i));
      if ok then settled.(patientData := Some(s.inFlight[i].submitted), activeScreen := ScreenMain)
      else settled
    case TabChanged(t) => s.(activeTab := t)
    case ProfilePressed => s.(activeScreen := ScreenProfile)
    case ProfileBack => s.(activeScreen := ScreenMain)
    case ModalVisibilitySet(v) => s.(isModalVisible := v)
  }

  /** One event: the handler's updates, then the effect. */
  function Step(s: State, e: Event): State
    requires Allowed(s, e)
  {
    AfterRender(s.appStatus, s.patientData, Apply(s, e))
  }

  /** `renderMainContent`: each of the four tab names selects its screen, any other selects none. */
  function MainContent(tab: string, p: PatientRecord, isRefreshing: bool): (c: TabContent)
    ensures c.ShowsDashboard? <==> tab == TabDashboard
    ensures c.ShowsChatbot? <==> tab == TabChatbot
    ensures c.ShowsAppointments? <==> tab == TabAppointments
    ensures c.ShowsReports? <==> tab == TabReports
    ensures c.ShowsNothing? <==> tab !in [TabDashboard, TabChatbot, TabAppointments, TabReports]
    ensures c.ShowsDashboard? ==> c.dashboard == Dashboard.Render(Some(p))
    ensures c.ShowsChatbot? ==> c.conversations == p.chatbotConversations
    ensures c.ShowsAppointments? ==> c.appointments == p.appointments && c.refreshing == isRefreshing
    ensures c.ShowsReports? ==> c.patient == p
  {
    if tab == TabDashboard then ShowsDashboard(Dashboard.Render(Some(p)))
    else if tab == TabChatbot then ShowsChatbot(p.chatbotConversations)
    else if tab == TabAppointments then ShowsAppointments(p.appointments, isRefreshing)
    else if tab == TabReports then ShowsReports(p)
    else ShowsNothing
  }

  /** The selection rule: the splash while the status is 'loading'; else the spinner while no
      record is held; else the main app on the 'main' screen and the profile form otherwise. */
  function Render(s: State): (v: Shown)
    ensures v.Splash? <==> s.appStatus == StatusLoading
    ensures v.Spinner? <==> s.appStatus != StatusLoading && s.patientData.None?
    ensures v.MainApp? <==>
      s.appStatus != StatusLoading && s.patientData.Some? && s.activeScreen == ScreenMain
    ensures v.ProfileForm? <==>
      s.appStatus != StatusLoading && s.patientData.Some? && s.activeScreen != ScreenMain
    ensures v.ProfileForm? ==> v.patient == s.patientData.value && v.isLoading == s.isSaving
    ensures v.MainApp? ==>
      && v.avatar == Header.Initials(s.patientData.value.patientName)
      && v.content == MainContent(s.activeTab, s.patientData.value, s.isRefreshing)
      && v.selectedTab == s.activeTab && v.modalVisible == s.isModalVisible
      && v.refreshing == s.isRefreshing
      && (v.pullToRefresh <==> s.activeTab != TabChatbot && s.activeTab != TabAppointments)
  {
    if s.appStatus == StatusLoading then Splash
    else if s.patientData.None? then Spinner
    else if s.activeScreen == ScreenMain then
      var p := s.patientData.value;
      MainApp(Header.Initials(p.patientName), MainContent(s.activeTab, p, s.isRefreshing),
              s.activeTab != TabChatbot && s.activeTab != TabAppointments, s.isRefreshing,
              s.activeTab, s.isModalVisible)
    else ProfileForm(s.patientData.value, s.isSaving)
  }

  /** Some call in `xs` is a profile save. */
  predicate SavePending(xs: seq<InFlight>) {
    exists x :: x in xs && x.Save?
  }

  /** What holds of every state the app can reach from `Init`. */
  predicate Valid(s: State) {
    && (s.appStatus == StatusLoading || s.appStatus == StatusLoaded)
    && (s.activeScreen == ScreenMain || s.activeScreen == ScreenProfile)
    && (s.isRefreshing ==> Load(PullToRefresh) in s.inFlight)
    && (s.isSaving ==> SavePending(s.inFlight))
    && (s.appStatus == StatusLoading ==> Load(StatusEffect) !in s.inFlight)
  }

  /** An entry other than the removed one is still there after the removal. */
  lemma StaysAfterRemoval(xs: seq<InFlight>, i: nat, x: InFlight)
    requires i < |xs| && x in xs && x != xs[i]
    ensures x in Without(xs, i)
  {
    assert x in multiset(xs);
    assert x in multiset(Without(xs, i));
  }

  /** A completion keeps validity when it removes the completed call, keeps the status and the
      screen valid, and raises neither flag whose call it removed. */
  lemma RemovalKeepsValid(s: State, i: nat, t: State)
    requires Valid(s) && i < |s.inFlight|
    requires t.inFlight == Without(s.inFlight, i) && t.appStatus == s.appStatus
    requires t.activeScreen == ScreenMain || t.activeScreen == ScreenProfile
    requires t.isRefreshing ==> s.isRefreshing && s.inFlight[i] != Load(PullToRefresh)
    requires t.isSaving ==> s.isSaving && !s.inFlight[i].Save?
    ensures Valid(t)
  {
    if t.isRefreshing {
      StaysAfterRemoval(s.inFlight, i, Load(PullToRefresh));
    }
    if t.isSaving {
      var x :| x in s.inFlight && x.Save?;
      StaysAfterRemoval(s.inFlight, i, x);
    }
    if s.appStatus == StatusLoading {
      assert Load(StatusEffect) !in multiset(t.inFlight);
    }
  }

  lemma LoadCompletionKeepsValid(s: State, i: nat, fetched: Option<PatientRecord>)
    requires Valid(s) && Allowed(s, LoadCompleted(i, fetched))
    ensures Valid(Apply(s, LoadCompleted(i, fetched)))
  {
    RemovalKeepsValid(s, i, Apply(s, LoadCompleted(i, fetched)));
  }

  lemma SaveCompletionKeepsValid(s: State, i: nat, ok: bool)
    requires Valid(s) && Allowed(s, SaveCompleted(i, ok))
    ensures Valid(Apply(s, SaveCompleted(i, ok)))
  {
    RemovalKeepsValid(s, i, Apply(s, SaveCompleted(i, ok)));
  }

  lemma BeginKeepsValid(s: State, e: Event)
    requires Valid(s) && !e.LoadCompleted? && !e.SaveCompleted?
    ensures Valid(Apply(s, e))
  {
    var t := Apply(s, e);
    if t.isSaving {
      if e.SaveBegun? {
        assert Save(e.submitted) in t.inFlight;
      } else {
        var x :| x in s.inFlight && x.Save?;
        assert x in t.inFlight;
      }
    }
  }

  /** The effect keeps validity: it only appends, and only once the splash is over. */
  lemma EffectKeepsValid(prevStatus: string, prevData: Option<PatientRecord>, t: State)
    requires Valid(t)
    ensures Valid(AfterRender(prevStatus, prevData, t))
  {
    var u := AfterRender(prevStatus, prevData, t);
    if u.isSaving {
      var x :| x in t.inFlight && x.Save?;
      assert x in u.inFlight;
    }
  }

  lemma StepKeepsValid(s: State, e: Event)
    requires Valid(s) && Allowed(s, e)
    ensures Valid(Step(s, e))
  {
    match e {
      case LoadCompleted(i, fetched) => LoadCompletionKeepsValid(s, i, fetched);
      case SaveCompleted(i, ok) => SaveCompletionKeepsValid(s, i, ok);
      case _ => BeginKeepsValid(s, e);
    }
    EffectKeepsValid(s.appStatus, s.patientData, Apply(s, e));
  }

  /** Runs `events` from `s`; `None` if some completion names no matching call. */
  function Run(s: State, events: seq<Event>): Option<State>
    decreases |events|
  {
    if events == [] then Some(s)
    else if Allowed(s, events[0]) then Run(Step(s, events[0]), events[1..])
    else None
  }

  lemma {:induction false} RunKeepsValid(s: State, events: seq<Event>)
    requires Valid(s)
    ensures Run(s, events).Some? ==> Valid(Run(s, events).value)
    decreases |events|
  {
    if events != [] && Allowed(s, events[0]) {
      StepKeepsValid(s, events[0]);
      RunKeepsValid(Step(s, events[0]), events[1..]);
    }
  }

  /** Every reachable state is valid: the refreshing flag is only up while a refresh is in flight,
      the saving flag only while a save is, and no effect load is begun during the splash. */
  lemma ReachableIsValid(events: seq<Event>)
    ensures Run(Init(), events).Some? ==> Valid(Run(Init(), events).value)
  {
    RunKeepsValid(Init(), events);
  }

  /** Finishing the splash sets the status to 'loaded' and, with no record held, begins the
      first load behind the spinner. */
  lemma SplashFinishBeginsFirstLoad()
    ensures Step(Init(), SplashFinished).appStatus == StatusLoaded
    ensures Step(Init(), SplashFinished).inFlight == [Load(StatusEffect)]
    ensures Render(Step(Init(), SplashFinished)) == Spinner
  {
  }

  /** A load is begun by the effect exactly when the step leaves the status 'loaded' and no
      record held, having changed the status or dropped a record. */
  lemma EffectLoadCondition(s: State, e: Event)
    requires Valid(s) && Allowed(s, e)
    ensures var t := Step(s, e);
      |t.inFlight| == |Apply(s, e).inFlight| + 1 <==>
        t.appStatus == StatusLoaded && t.patientData.None?
        && (s.appStatus == StatusLoading || s.patientData.Some?)
    ensures var t := Step(s, e);
      |t.inFlight| == |Apply(s, e).inFlight| + 1 ==> t.inFlight[|t.inFlight| - 1] == Load(StatusEffect)
  {
  }

  /** A completed load stores exactly what the fetch resolved to, whatever began it, and
      leaves the screen, the modal and the saving flag alone. */
  lemma LoadStoresFetchResult(s: State, i: nat, fetched: Option<PatientRecord>)
    requires Allowed(s, LoadCompleted(i, fetched))
    ensures Step(s, LoadCompleted(i, fetched)).patientData == fetched
    ensures Step(s, LoadCompleted(i, fetched)).activeScreen == s.activeScreen
    ensures Step(s, LoadCompleted(i, fetched)).isModalVisible == s.isModalVisible
    ensures Step(s, LoadCompleted(i, fetched)).isSaving == s.isSaving
  {
  }

  /** A refresh raises `isRefreshing` when it begins and lowers it when its load completes,
      whether the fetch succeeded or failed. */
  lemma RefreshFlagAroundLoad(s: State, fetched: Option<PatientRecord>)
    ensures Step(s, RefreshBegun).isRefreshing
    ensures var t := Step(s, RefreshBegun);
      var i := |t.inFlight| - 1;
      t.inFlight[i] == Load(PullToRefresh) && !Step(t, LoadCompleted(i, fetched)).isRefreshing
  {
  }

  /** Whatever happened since the refresh began, the completion of its load lowers the flag, for
      a record and for `null` alike. */
  lemma RefreshLoadLowersFlag(s: State, i: nat, fetched: Option<PatientRecord>)
    requires Allowed(s, LoadCompleted(i, fetched)) && s.inFlight[i] == Load(PullToRefresh)
    ensures !Step(s, LoadCompleted(i, fetched)).isRefreshing
  {
  }

  /** A refresh that fails after a record was shown drops the record: the spinner replaces the
      main app, and the effect begins one more load. */
  lemma FailedRefreshDropsRecord(s: State, r: PatientRecord)
    requires s.appStatus == StatusLoaded && s.patientData == Some(r)
    ensures var t := Step(s, RefreshBegun);
      var u := Step(t, LoadCompleted(|t.inFlight| - 1, None));
      u.patientData.None? && Render(u) == Spinner && !u.isRefreshing
      && u.inFlight == s.inFlight + [Load(StatusEffect)]
  {
    var t := Step(s, RefreshBegun);
    assert Without(t.inFlight, |t.inFlight| - 1) == s.inFlight;
  }

  /** When the first load fails the spinner stays up and nothing is left in flight: the effect
      does not run again because the record stays `null`. */
  lemma FailedFirstLoadStrandsSpinner()
    ensures var t := Step(Init(), SplashFinished);
      var u := Step(t, LoadCompleted(0, None));
      Render(u) == Spinner && u.inFlight == []
  {
  }

  /** A completed save lowers `isSaving` on both paths; on success the record becomes exactly the
      submitted one and the main screen returns, on failure record and screen are untouched. */
  lemma SaveCompletion(s: State, i: nat, ok: bool)
    requires Allowed(s, SaveCompleted(i, ok))
    ensures !Step(s, SaveCompleted(i, ok)).isSaving
    ensures ok ==> Step(s, SaveCompleted(i, ok)).patientData == Some(s.inFlight[i].submitted)
    ensures ok ==> Step(s, SaveCompleted(i, ok)).activeScreen == ScreenMain
    ensures !ok ==> Step(s, SaveCompleted(i, ok)).patientData == s.patientData
    ensures !ok ==> Step(s, SaveCompleted(i, ok)).activeScreen == s.activeScreen
  {
  }

  /** Beginning a save raises `isSaving` and changes neither the record nor the screen. */
  lemma SaveBegins(s: State, r: PatientRecord)
    ensures var t := Step(s, SaveBegun(r));
      t.isSaving && t.patientData == s.patientData && t.activeScreen == s.activeScreen
      && t.inFlight == s.inFlight + [Save(r)]
  {
  }

  /** A submitted booking hides the modal at once and begins a reload; the request itself is
      never used, so two different requests lead to the same state. */
  lemma AppointmentAddedIgnoresRequest(s: State, a: AppointmentModal.Request, b: AppointmentModal.Request)
    ensures Step(s, AppointmentAddedBegun(a)) == Step(s, AppointmentAddedBegun(b))
    ensures var t := Step(s, AppointmentAddedBegun(a));
      !t.isModalVisible && t.activeTab == s.activeTab && t.patientData == s.patientData
      && t.inFlight == s.inFlight + [Load(AppointmentAdded)]
  {
  }

  /** The tab becomes 'appointments' only when the reload begun by a booking completes; the
      other loads leave the tab alone. */
  lemma TabSwitchAfterBookingReload(s: State, i: nat, fetched: Option<PatientRecord>)
    requires Allowed(s, LoadCompleted(i, fetched))
    ensures s.inFlight[i].origin == AppointmentAdded ==>
      Step(s, LoadCompleted(i, fetched)).activeTab == TabAppointments
    ensures s.inFlight[i].origin != AppointmentAdded ==>
      Step(s, LoadCompleted(i, fetched)).activeTab == s.activeTab
  {
  }

  /** After a booking from the main app and a successful reload, the appointments tab shows the
      server's list: whatever it holds, nothing is added on the client. */
  lemma BookingShowsServerList(s: State, a: AppointmentModal.Request, r: PatientRecord)
    requires s.appStatus == StatusLoaded && s.patientData.Some? && s.activeScreen == ScreenMain
    ensures var t := Step(s, AppointmentAddedBegun(a));
      var u := Step(t, LoadCompleted(|t.inFlight| - 1, Some(r)));
      Render(u).MainApp? && Render(u).content == ShowsAppointments(r.appointments, s.isRefreshing)
      && !Render(u).modalVisible
  {
    var t := Step(s, AppointmentAddedBegun(a));
    assert t == s.(isModalVisible := false, inFlight := s.inFlight + [Load(AppointmentAdded)]);
    assert Without(t.inFlight, |t.inFlight| - 1) == s.inFlight;
    var u := Step(t, LoadCompleted(|t.inFlight| - 1, Some(r)));
    assert u == t.(patientData := Some(r), inFlight := s.inFlight, activeTab := TabAppointments);
  }

  class App {
    var appStatus: string
    var activeTab: string
    var patientData: Option<PatientRecord>
    var isModalVisible: bool
    var isRefreshing: bool
    var activeScreen: string
    var isSaving: bool
    /** The handlers that have begun their network call and not yet completed. */
    var inFlight: seq<InFlight>

    function Snapshot(): State
      reads this
    {
      State(appStatus, activeTab, patientData, isModalVisible, isRefreshing, activeScreen,
            isSaving, inFlight)
    }

    constructor ()
      ensures Snapshot() == Init()
    {
      appStatus := StatusLoading;
      activeTab := TabDashboard;
      patientData := None;
      isModalVisible := false;
      isRefreshing := false;
      activeScreen := ScreenMain;
      isSaving := false;
      inFlight := [];
    }

    /** The effect on `[appStatus, patientData]`, given their values at the previous render. */
    method RunEffect(prevStatus: string, prevData: Option<PatientRecord>)
      modifies this
      ensures Snapshot() == AfterRender(prevStatus, prevData, old(Snapshot()))
    {
      if (prevStatus != appStatus || prevData != patientData)
         && appStatus == StatusLoaded && patientData.None? {
        inFlight := inFlight + [Load(StatusEffect)];
      }
    }

    /** The splash screen's `onAnimationFinish`. */
    method FinishSplash()
      modifies this
      ensures Snapshot() == Step(old(Snapshot()), SplashFinished)
    {
      var prevStatus, prevData := appStatus, patientData;
      appStatus := StatusLoaded;
      RunEffect(prevStatus, prevData);
    }

    /** `onRefresh` up to its `await loadData()`. */
    method BeginRefresh()
      modifies this
      ensures Snapshot() == Step(old(Snapshot()), RefreshBegun)
    {
      isRefreshing := true;
      inFlight := inFlight + [Load(PullToRefresh)];
    }

    /** `handleAppointmentAdded`: begins a reload and hides the modal; the request is unused. */
    method AppointmentAddedHandler(request: AppointmentModal.Request)
      modifies this
      ensures Snapshot() == Step(old(Snapshot()), AppointmentAddedBegun(request))
    {
      inFlight := inFlight + [Load(AppointmentAdded)];
      isModalVisible := false;
    }

    /** The load at `index` resolves to `fetched`: `setPatientData(data)`, then what the handler
        that began it does after its `await`. */
    method CompleteLoad(index: nat, fetched: Option<PatientRecord>)
      requires Allowed(Snapshot(), LoadCompleted(index, fetched))
      modifies this
      ensures Snapshot() == Step(old(Snapshot()), LoadCompleted(index, fetched))
    {
      var prevStatus, prevData := appStatus, patientData;
      var origin := inFlight[index].origin;
      patientData := fetched;
      inFlight := Without(inFlight, index);
      if origin == PullToRefresh {
        isRefreshing := false;
      } else if origin == AppointmentAdded {
        activeTab := TabAppointments;
      }
      RunEffect(prevStatus, prevData);
    }

    /** `handleSaveProfile` up to its `await updatePatientData(...)`. */
    method BeginSave(updatedPatient: PatientRecord)
      modifies this
      ensures Snapshot() == Step(old(Snapshot()), SaveBegun(updatedPatient))
    {
      isSaving := true;
      inFlight := inFlight + [Save(updatedPatient)];
    }

    /** The save at `index` resolves (`succeeded`) or throws: the try branch or the catch branch,
        then the finally block. */
    method CompleteSave(index: nat, succeeded: bool)
      requires Allowed(Snapshot(), SaveCompleted(index, succeeded))
      modifies this
      ensures Snapshot() == Step(old(Snapshot()), SaveCompleted(index, succeeded))
    {
      var prevStatus, prevData := appStatus, patientData;
      var submitted := inFlight[index].submitted;
      inFlight := Without(inFlight, index);
      if succeeded {
        patientData := Some(submitted);
        activeScreen := ScreenMain;
      }
      isSaving := false;
      RunEffect(prevStatus, prevData);
    }

    /** `setActiveTab`, from the bottom navigation or the dashboard's report button. */
    method SetActiveTab(tab: string)
      modifies this
      ensures Snapshot() == Step(old(Snapshot()), TabChanged(tab))
    {
      activeTab := tab;
    }

    /** The header avatar's `onProfilePress`. */
    method OpenProfile()
      modifies this
      ensures Snapshot() == Step(old(Snapshot()), ProfilePressed)
    {
      activeScreen := ScreenProfile;
    }

    /** The profile form's `onBack`. */
    method CloseProfile()
      modifies this
      ensures Snapshot() == Step(old(Snapshot()), ProfileBack)
    {
      activeScreen := ScreenMain;
    }

    /** `setModalVisible`, from the booking buttons (true) and the modal's close control (false). */
    method SetModalVisible(visible: bool)
      modifies this
      ensures Snapshot() == Step(old(Snapshot()), ModalVisibilitySet(visible))
    {
      isModalVisible := visible;
    }
  }
}
