/** The main window: which page the stacked widget shows, whether a user is
    logged in, which actions are enabled, and the menu captions for the
    current language. */
module MainWindow {
  import opened Signals
  import opened SettingsStore

  datatype Screen = LoginScreen | RegisterScreen | TrafficScreen | SettingsScreen

  /** The window title, the four menu titles and three action captions. */
  datatype Captions = Captions(
    title: string,
    fileMenu: string,
    viewMenu: string,
    toolsMenu: string,
    helpMenu: string,
    settingsAction: string,
    exitAction: string,
    aboutAction: string)

  const EnglishCaptions := Captions(
    "Network Traffic Analyzer v2.0", "File(&F)", "View(&V)", "Tools(&T)", "Help(&H)",
    "Settings(&S)", "Exit(&X)", "About(&A)")

  const ChineseCaptions := Captions(
    "网络流量分析系统 v2.0", "文件(&F)", "查看(&V)", "工具(&T)", "帮助(&H)",
    "设置(&S)", "退出(&X)", "关于(&A)")

  /** The captions for a language: English only for "English", Chinese for
      every other language text. */
  function CaptionsFor(language: string): (c: Captions)
    ensures language == "English" ==> c == EnglishCaptions
    ensures language != "English" ==> c == ChineseCaptions
    ensures c.title == "Network Traffic Analyzer v2.0" <==> language == "English"
  {
    if language == "English" then EnglishCaptions else ChineseCaptions
  }

  datatype Window = Window(
    screen: Screen,
    loggedIn: bool,
    settingsActionEnabled: bool,
    quickAnalysisEnabled: bool,   // the 快速分析 tool-bar action
    exportDataEnabled: bool,      // the 导出数据 tool-bar action
    theme: string,
    language: string,
    captions: Captions)

  /** The actions that need a logged-in user are enabled exactly when one is;
      the settings page is shown only to a logged-in user, the traffic page
      only after login, the login page only after logout; the captions
      follow the language. */
  predicate Consistent(w: Window) {
    && (w.settingsActionEnabled <==> w.loggedIn)
    && (w.quickAnalysisEnabled <==> w.loggedIn)
    && (w.exportDataEnabled <==> w.loggedIn)
    && (w.screen == SettingsScreen ==> w.loggedIn)
    && (w.screen == TrafficScreen ==> w.loggedIn)
    && (w.screen == LoginScreen ==> !w.loggedIn)
    && w.captions == CaptionsFor(w.language)
  }

  /** The window as constructed, reading the theme and the language from the
      window's own store (defaults 浅色主题 and 简体中文). */
  function Init(store: Store): (w: Window)
    ensures w.screen == LoginScreen && !w.loggedIn
    ensures !w.settingsActionEnabled && !w.quickAnalysisEnabled && !w.exportDataEnabled
    ensures Known(Theme) !in store ==> w.theme == "浅色主题"
    ensures Known(Language) !in store ==> w.language == "简体中文" && w.captions == ChineseCaptions
    ensures Consistent(w)
  {
    var theme := TextOr(store, Theme, "浅色主题");
    var language := TextOr(store, Language, "简体中文");
    Window(LoginScreen, false, false, false, false, theme, language, CaptionsFor(language))
  }

  // The keys the window stores its geometry and its dock state under.
  const GeometryKey: Key := (NotASettingName("geometry"); Other("geometry"))
  const WindowStateKey: Key := (NotASettingName("windowState"); Other("windowState"))

  /** The keys saving the window state writes. */
  predicate WindowStateWrites(k: Key) {
    k == GeometryKey || k == WindowStateKey || k == Known(Theme) || k == Known(Language)
  }

  /** Saving the window state writes the geometry, the dock state, the theme
      and the language. The geometry and the dock state are Qt's own
      encodings and are passed in as they are. Every other key is kept. */
  function SaveWindowState(store: Store, w: Window, geometry: Value, windowState: Value): (r: Store)
    ensures GeometryKey in r && r[GeometryKey] == geometry
    ensures WindowStateKey in r && r[WindowStateKey] == windowState
    ensures Stores(r, Theme, TextValue(w.theme)) && Stores(r, Language, TextValue(w.language))
    ensures forall k :: k in r <==> k in store || WindowStateWrites(k)
    ensures forall k :: k in store && !WindowStateWrites(k) ==> r[k] == store[k]
  {
    assert GeometryKey.name[0] != WindowStateKey.name[0];
    store[GeometryKey := geometry][WindowStateKey := windowState]
      [Known(Theme) := TextValue(w.theme)][Known(Language) := TextValue(w.language)]
  }

  /** A window constructed after the state was saved comes back with the
      same theme, language and captions. */
  lemma SaveWindowStateThenInit(store: Store, w: Window, geometry: Value, windowState: Value)
    requires Consistent(w)
    ensures Init(SaveWindowState(store, w, geometry, windowState)).theme == w.theme
    ensures Init(SaveWindowState(store, w, geometry, windowState)).language == w.language
    ensures Init(SaveWindowState(store, w, geometry, windowState)).captions == w.captions
  {
  }

  function ShowRegister(w: Window): (r: Window)
    ensures r.screen == RegisterScreen
    ensures r.(screen := w.screen) == w
  {
    w.(screen := RegisterScreen)
  }

  function ShowLogin(w: Window): (r: Window)
    ensures r.screen == LoginScreen && !r.loggedIn
    ensures !r.settingsActionEnabled && !r.quickAnalysisEnabled && !r.exportDataEnabled
    ensures r.theme == w.theme && r.language == w.language && r.captions == w.captions
  {
    w.(screen := LoginScreen, loggedIn := false,
       settingsActionEnabled := false, quickAnalysisEnabled := false, exportDataEnabled := false)
  }

  function ShowTrafficAnalyzer(w: Window): (r: Window)
    ensures r.screen == TrafficScreen && r.loggedIn
    ensures r.settingsActionEnabled && r.quickAnalysisEnabled && r.exportDataEnabled
    ensures r.theme == w.theme && r.language == w.language && r.captions == w.captions
  {
    w.(screen := TrafficScreen, loggedIn := true,
       settingsActionEnabled := true, quickAnalysisEnabled := true, exportDataEnabled := true)
  }

  /** The settings page opens only for a logged-in user; otherwise a warning
      is shown and nothing changes. */
  function ShowSettings(w: Window): (r: Window)
    ensures w.loggedIn ==> r.screen == SettingsScreen
    ensures !w.loggedIn ==> r == w
    ensures r.(screen := w.screen) == w
  {
    if !w.loggedIn then w else w.(screen := SettingsScreen)
  }

  /** What can happen to the window: a page's signal, or the settings
      action (menu, tool bar or tray) being triggered. */
  datatype Event = Received(signal: Signal) | SettingsActionTriggered

  /** The window's reaction to one event, following its connections. A
      disabled action cannot be triggered. */
  function Step(w: Window, e: Event): (r: Window)
    ensures e == Received(LoginSuccess) ==> r == ShowTrafficAnalyzer(w)
    ensures e == Received(RegisterRequested) ==> r == ShowRegister(w)
    ensures e == Received(BackToLogin) ==> r == ShowLogin(w)
    ensures e == Received(BackRequested) ==> r == ShowTrafficAnalyzer(w)
    ensures e == Received(SettingsChanged) ==> r == w
    ensures e == SettingsActionTriggered ==> r == if w.settingsActionEnabled then ShowSettings(w) else w
    ensures e.Received? && e.signal.ThemeChanged? ==> r == w.(theme := e.signal.theme)
    ensures e.Received? && e.signal.LanguageChanged? ==>
      r == w.(language := e.signal.language, captions := CaptionsFor(e.signal.language))
  {
    match e
    case SettingsActionTriggered => if w.settingsActionEnabled then ShowSettings(w) else w
    case Received(s) =>
      match s
      case LoginSuccess => ShowTrafficAnalyzer(w)
      case RegisterRequested => ShowRegister(w)
      case BackToLogin => ShowLogin(w)
      case BackRequested => ShowTrafficAnalyzer(w)
      case SettingsChanged => w
      case ThemeChanged(t) => w.(theme := t)
      case LanguageChanged(l) => w.(language := l, captions := CaptionsFor(l))
  }

  /** Every event keeps the window consistent. */
  lemma StepPreservesConsistent(w: Window, e: Event)
    requires Consistent(w)
    ensures Consistent(Step(w, e))
  {
  }

  /** The window after a sequence of events. */
  function Run(w: Window, events: seq<Event>): Window
    decreases |events|
  {
    if events == [] then w else Run(Step(w, events[0]), events[1..])
  }

  lemma {:induction false} RunPreservesConsistent(w: Window, events: seq<Event>)
    requires Consistent(w)
    ensures Consistent(Run(w, events))
    decreases |events|
  {
    if events != [] {
      StepPreservesConsistent(w, events[0]);
      RunPreservesConsistent(Step(w, events[0]), events[1..]);
    }
  }

  /** The signals that start a session. */
  predicate OpensSession(e: Event) {
    e == Received(LoginSuccess) || e == Received(BackRequested)
  }

  /** Without a signal that starts a session, a logged-out window stays
      logged out and never shows the settings page. */
  lemma {:induction false} NoSessionNoSettings(w: Window, events: seq<Event>)
    requires Consistent(w) && !w.loggedIn
    requires forall i :: 0 <= i < |events| ==> !OpensSession(events[i])
    ensures !Run(w, events).loggedIn
    ensures Run(w, events).screen != SettingsScreen
    decreases |events|
  {
    if events != [] {
      var w' := Step(w, events[0]);
      StepPreservesConsistent(w, events[0]);
      assert !OpensSession(events[0]);
      NoSessionNoSettings(w', events[1..]);
    }
  }

  /** From a freshly constructed window, the settings page is reached only
      after a session was opened. */
  lemma SettingsNeedLogin(store: Store, events: seq<Event>)
    requires forall i :: 0 <= i < |events| ==> !OpensSession(events[i])
    ensures Run(Init(store), events).screen != SettingsScreen
    ensures Consistent(Run(Init(store), events))
  {
    NoSessionNoSettings(Init(store), events);
    RunPreservesConsistent(Init(store), events);
  }
}
