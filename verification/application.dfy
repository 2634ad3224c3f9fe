/** The pages wired to the main window: a page's button produces signals,
    and the main window reacts to each in turn. */
module Application {
  import opened Signals
  import opened SettingsStore
  import opened SettingsValidation
  import MainWindow
  import Login
  import Register

  /** The main window's reaction to the signals one click emitted, in order. */
  function Deliver(w: MainWindow.Window, signals: seq<Signal>): (r: MainWindow.Window)
    ensures signals == [] ==> r == w
    ensures MainWindow.Consistent(w) ==> MainWindow.Consistent(r)
    decreases |signals|
  {
    if signals == [] then w
    else Deliver(MainWindow.Step(w, MainWindow.Received(signals[0])), signals[1..])
  }

  /** Delivering a click's signals followed by settingsChanged, which the
      window only answers with a notice, is delivering the signals alone. */
  lemma {:induction false} DeliverThenSettingsChanged(w: MainWindow.Window, signals: seq<Signal>)
    ensures Deliver(w, signals + [SettingsChanged]) == Deliver(w, signals)
    decreases |signals|
  {
    if signals == [] {
      assert [SettingsChanged][1..] == [];
    } else {
      assert (signals + [SettingsChanged])[1..] == signals[1..] + [SettingsChanged];
      DeliverThenSettingsChanged(MainWindow.Step(w, MainWindow.Received(signals[0])), signals[1..]);
    }
  }

  /** The window after it received the signals of a change of the settings
      page's widgets: it takes the page's language, with its captions, and
      the page's theme exactly when they changed; the page shown, the login
      and the actions stay as they were. */
  lemma ComboSignalsDelivered(w: MainWindow.Window, before: Form, after: Form)
    ensures var r := Deliver(w, ComboSignals(before, after));
      && r.language == (if before.general.language != after.general.language then after.general.language else w.language)
      && r.captions == (if before.general.language != after.general.language then MainWindow.CaptionsFor(after.general.language) else w.captions)
      && r.theme == (if before.appearance.theme != after.appearance.theme then after.appearance.theme else w.theme)
      && r.(language := w.language, captions := w.captions, theme := w.theme) == w
  {
    var signals := ComboSignals(before, after);
    if |signals| == 2 {
      assert signals[1..][1..] == [];
    } else if |signals| == 1 {
      assert signals[1..] == [];
    }
  }

  /** Restore defaults on the settings page, followed by the window's
      reaction: a page showing another language or theme than the defaults
      switches the window to 简体中文 and 浅色主题. */
  function ResetClicked(w: MainWindow.Window, p: Page, host: Host, confirmed: bool): (r: (MainWindow.Window, Reloaded))
    ensures r.1 == Reset(p, host, confirmed)
    ensures !confirmed ==> r.0 == w
    ensures confirmed && p.form.general.language != "简体中文" ==>
      r.0.language == "简体中文" && r.0.captions == MainWindow.ChineseCaptions
    ensures confirmed && p.form.general.language == "简体中文" ==> r.0.language == w.language
    ensures confirmed && p.form.appearance.theme != "浅色主题" ==> r.0.theme == "浅色主题"
    ensures confirmed && p.form.appearance.theme == "浅色主题" ==> r.0.theme == w.theme
    ensures r.0.screen == w.screen && r.0.loggedIn == w.loggedIn
    ensures MainWindow.Consistent(w) ==> MainWindow.Consistent(r.0)
  {
    var reset := Reset(p, host, confirmed);
    ComboSignalsDelivered(w, p.form, Defaults(host));
    (Deliver(w, reset.signals), reset)
  }

  /** Cancel on the settings page, followed by the window's reaction: the
      window follows the reloaded language and theme when they differ from
      what the page showed. */
  function CancelClicked(w: MainWindow.Window, p: Page, host: Host): (r: (MainWindow.Window, Reloaded))
    ensures r.1 == Cancel(p, host)
    ensures var shown := r.1.page.form;
      && (shown.general.language != p.form.general.language ==>
            r.0.language == shown.general.language && r.0.captions == MainWindow.CaptionsFor(shown.general.language))
      && (shown.general.language == p.form.general.language ==> r.0.language == w.language)
      && (shown.appearance.theme != p.form.appearance.theme ==> r.0.theme == shown.appearance.theme)
      && (shown.appearance.theme == p.form.appearance.theme ==> r.0.theme == w.theme)
    ensures r.0.screen == w.screen && r.0.loggedIn == w.loggedIn
  {
    var cancelled := Cancel(p, host);
    ComboSignalsDelivered(w, p.form, cancelled.page.form);
    (Deliver(w, cancelled.signals), cancelled)
  }

  /** Choosing another language on the settings page switches the window's
      language and captions to it; choosing the shown one does nothing. */
  lemma LanguageSelectedReachesWindow(w: MainWindow.Window, p: Page, language: string)
    requires language in Languages
    ensures language != p.form.general.language ==>
      && Deliver(w, SelectLanguage(p, language).signals).language == language
      && Deliver(w, SelectLanguage(p, language).signals).captions == MainWindow.CaptionsFor(language)
    ensures language == p.form.general.language ==> Deliver(w, SelectLanguage(p, language).signals) == w
  {
    assert [LanguageChanged(language)][1..] == [];
  }

  /** Importing settings, followed by the window's reaction: the window
      follows the imported language and theme when they differ from what the
      page showed; the final settingsChanged only shows a notice. */
  method ImportClicked(w: MainWindow.Window, p: Page, host: Host, fileName: string, confirmed: bool, file: Store)
    returns (r: MainWindow.Window, imported: Imported)
    ensures fileName != [] && confirmed ==> imported.page.store == file
    ensures !(fileName != [] && confirmed) ==> r == w && imported.page == p
    ensures var shown := imported.page.form;
      && (shown.general.language != p.form.general.language ==>
            r.language == shown.general.language && r.captions == MainWindow.CaptionsFor(shown.general.language))
      && (shown.general.language == p.form.general.language ==> r.language == w.language)
      && (shown.appearance.theme != p.form.appearance.theme ==> r.theme == shown.appearance.theme)
      && (shown.appearance.theme == p.form.appearance.theme ==> r.theme == w.theme)
    ensures r.screen == w.screen && r.loggedIn == w.loggedIn
  {
    imported := Import(p, host, fileName, confirmed, file);
    if fileName != [] && confirmed {
      var shown := imported.page.form;
      DeliverThenSettingsChanged(w, ComboSignals(p.form, shown));
      ComboSignalsDelivered(w, p.form, shown);
    }
    r := Deliver(w, imported.signals);
  }

  /** Choosing another theme on the settings page switches the window's
      theme to it; choosing the shown one does nothing. */
  lemma ThemeSelectedReachesWindow(w: MainWindow.Window, p: Page, theme: string)
    requires theme in Themes
    ensures theme != p.form.appearance.theme ==> Deliver(w, SelectTheme(p, theme).signals) == w.(theme := theme)
    ensures theme == p.form.appearance.theme ==> Deliver(w, SelectTheme(p, theme).signals) == w
  {
    assert [ThemeChanged(theme)][1..] == [];
  }

  /** Logging in from the login page: the admin account opens the traffic
      page with the logged-in actions enabled; anything else leaves the
      window as it was. */
  function LoginClicked(w: MainWindow.Window, c: Login.Credentials): (r: MainWindow.Window)
    ensures Login.IsAdmin(c) ==> r.screen == MainWindow.TrafficScreen && r.loggedIn && r.settingsActionEnabled
    ensures !Login.IsAdmin(c) ==> r == w
  {
    Deliver(w, Login.LoginClicked(c).signals)
  }

  /** The register page's back button always returns to a logged-out login page. */
  function RegisterBackClicked(w: MainWindow.Window, f: Register.RegisterForm): (r: MainWindow.Window)
    ensures r.screen == MainWindow.LoginScreen && !r.loggedIn && !r.settingsActionEnabled
  {
    Deliver(w, Register.BackClicked(f).1)
  }

  /** Apply on the settings page, followed by the main window's reaction to
      settingsChanged (a notice only): the window never changes. */
  function ApplyClicked(w: MainWindow.Window, p: Page, fs: FileSystem, keep: bool): (r: (MainWindow.Window, Applied))
    ensures r.0 == w
    ensures r.1 == Apply(p, fs, keep)
  {
    var applied := Apply(p, fs, keep);
    (Deliver(w, if applied.settingsChanged then [SettingsChanged] else []), applied)
  }

  /** From a freshly constructed window, logging in with the admin account
      and then opening the settings shows the settings page. */
  lemma LoginThenSettings(store: Store, c: Login.Credentials)
    requires Login.IsAdmin(c)
    ensures MainWindow.Step(LoginClicked(MainWindow.Init(store), c), MainWindow.SettingsActionTriggered).screen
      == MainWindow.SettingsScreen
  {
  }

  /** Any other credentials leave a fresh window on the login page, where the
      settings action does nothing. */
  lemma FailedLoginKeepsSettingsClosed(store: Store, c: Login.Credentials)
    requires !Login.IsAdmin(c)
    ensures MainWindow.Step(LoginClicked(MainWindow.Init(store), c), MainWindow.SettingsActionTriggered)
      == MainWindow.Init(store)
  {
  }
}
