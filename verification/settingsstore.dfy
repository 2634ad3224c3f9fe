/** The settings page's persisted state: twenty keys in a key/value store,
    read into the page's widgets with defaults for absent keys, written back
    on save, cleared on reset, copied out on export and replaced on import. */
module SettingsStore {
  import opened Strings
  import opened Widgets
  import opened Signals

  /** A stored value: the page writes strings, booleans and ints. */
  datatype Value = TextValue(text: string) | FlagValue(flag: bool) | NumberValue(number: int)

  /** The twenty settings the page persists. */
  datatype Setting =
    | Language | DefaultDataSource | AutoSave | AutoStart | MinimizeToTray
    | Theme | Opacity | CustomThemeColor | Font
    | RefreshInterval | MaxRecords | Timeout | ProxyEnabled | ProxyHost | ProxyPort
    | LogLevel | AutoExport | ExportPath | DebugMode | BufferSize

  /** The name each setting is stored under. */
  function Name(s: Setting): string {
    match s
    case Language => "language"
    case DefaultDataSource => "defaultDataSource"
    case AutoSave => "autoSave"
    case AutoStart => "autoStart"
    case MinimizeToTray => "minimizeToTray"
    case Theme => "theme"
    case Opacity => "opacity"
    case CustomThemeColor => "customThemeColor"
    case Font => "font"
    case RefreshInterval => "refreshInterval"
    case MaxRecords => "maxRecords"
    case Timeout => "timeout"
    case ProxyEnabled => "proxyEnabled"
    case ProxyHost => "proxyHost"
    case ProxyPort => "proxyPort"
    case LogLevel => "logLevel"
    case AutoExport => "autoExport"
    case ExportPath => "exportPath"
    case DebugMode => "debugMode"
    case BufferSize => "bufferSize"
  }

  /** The names the twenty settings are stored under. */
  predicate IsSettingName(n: string) {
    exists s :: Name(s) == n
  }

  /** Any key name other than the twenty the page uses. */
  type OtherName = n: string | !IsSettingName(n) witness (NotASettingName("geometry"); "geometry")

  /** A key of the store. Every name is exactly one of: the name of a
      setting, or another name (which an imported file may carry). */
  datatype Key = Known(setting: Setting) | Other(name: OtherName)

  function KeyName(k: Key): string {
    match k
    case Known(s) => Name(s)
    case Other(n) => n
  }

  /** Distinct settings are stored under distinct names. */
  lemma NameInjective(s: Setting, t: Setting)
    requires Name(s) == Name(t)
    ensures s == t
  {
  }

  // NameInitial and NotASettingName model nothing of the page: they only
  // show that names such as "geometry" fit the OtherName subset type.

  /** The first letter of every setting's name is one of these. */
  const NameInitials := "abcdeflmoprt"

  lemma NameInitial(s: Setting)
    ensures |Name(s)| > 0 && Name(s)[0] in NameInitials
  {
  }

  /** A name whose first letter no setting name starts with is another name. */
  lemma NotASettingName(n: string)
    requires |n| > 0 && n[0] !in NameInitials
    ensures !IsSettingName(n)
  {
    forall s
      ensures Name(s) != n
    {
      NameInitial(s);
    }
  }

  /** Distinct keys have distinct names, so a store indexed by keys is a
      store indexed by names. */
  lemma KeyNameInjective(a: Key, b: Key)
    requires KeyName(a) == KeyName(b)
    ensures a == b
  {
    match a {
      case Known(s) =>
        match b {
          case Known(t) => NameInjective(s, t);
          case Other(n) =>
        }
      case Other(m) =>
        match b {
          case Known(t) =>
          case Other(n) =>
        }
    }
  }

  type Store = map<Key, Value>

  /** What the page reads from its host: the user's documents directory
      (the default export path) and the application font. */
  datatype Host = Host(documentsDir: string, applicationFont: string)

  /** The General tab: interface language, default data source, start-up options. */
  datatype General = General(
    language: string,
    defaultDataSource: string,
    autoSave: bool,
    autoStart: bool,
    minimizeToTray: bool)

  /** The Appearance tab. The custom theme colour and the font are kept as
      their text descriptions. */
  datatype Appearance = Appearance(
    theme: string,
    opacity: int,
    customThemeColor: string,
    font: string)

  /** The Network tab: monitoring intervals and the proxy. */
  datatype Network = Network(
    refreshInterval: int,
    maxRecords: int,
    timeout: int,
    proxyEnabled: bool,
    proxyHost: string,
    proxyPort: int)

  /** The Advanced tab: logging, automatic export and the buffer. */
  datatype Advanced = Advanced(
    logLevel: string,
    autoExport: bool,
    exportPath: string,
    debugMode: bool,
    bufferSize: int)

  /** What the page's widgets show, one field per persisted key, by tab. */
  datatype Form = Form(general: General, appearance: Appearance, network: Network, advanced: Advanced)

  // Combo-box items.
  const Languages: seq<string> := ["简体中文", "English", "繁體中文", "日本語"]
  const Themes: seq<string> := ["浅色主题", "深色主题", "自动跟随系统", "自定义"]
  const LogLevels: seq<string> := ["调试", "信息", "警告", "错误"]

  // The ranges of the page's slider and spin boxes.
  const OpacityRange := Range(50, 100)
  const RefreshIntervalRange := Range(1, 60)
  const MaxRecordsRange := Range(100, 10000)
  const TimeoutRange := Range(5, 120)
  const ProxyPortRange := Range(1, 65535)
  const BufferSizeRange := Range(64, 4096)

  // Reading a stored value as the kind a widget needs.

  function ReadText(v: Value): string {
    match v
    case TextValue(s) => s
    case FlagValue(b) => if b then "true" else "false"
    case NumberValue(n) => IntText(n)
  }

  /** Text reads as false when, ASCII-lower-cased, it is empty, "0" or "false". */
  function ReadFlag(v: Value): bool {
    match v
    case TextValue(s) => var l := Lower(s); !(l == "" || l == "0" || l == "false")
    case FlagValue(b) => b
    case NumberValue(n) => n != 0
  }

  function ReadNumber(v: Value): int {
    match v
    case TextValue(s) => TextToInt(s)
    case FlagValue(b) => if b then 1 else 0
    case NumberValue(n) => n
  }

  function TextOr(store: Store, s: Setting, default: string): string {
    if Known(s) in store then ReadText(store[Known(s)]) else default
  }

  function FlagOr(store: Store, s: Setting, default: bool): bool {
    if Known(s) in store then ReadFlag(store[Known(s)]) else default
  }

  function NumberOr(store: Store, s: Setting, default: int): int {
    if Known(s) in store then ReadNumber(store[Known(s)]) else default
  }

  /** A stored font description; any other kind of value yields the
      application font, as a default-constructed font does. */
  function FontOr(store: Store, s: Setting, appFont: string): string {
    if Known(s) in store && store[Known(s)].TextValue? then store[Known(s)].text else appFont
  }

  /** Tabs every widget could show: numbers within their ranges and
      combo-box texts among their items. */
  predicate WellFormed(f: Form) {
    && f.general.language in Languages
    && f.appearance.theme in Themes
    && InRange(f.appearance.opacity, OpacityRange)
    && NetworkInRange(f.network)
    && f.advanced.logLevel in LogLevels
    && InRange(f.advanced.bufferSize, BufferSizeRange)
  }

  predicate NetworkInRange(n: Network) {
    && InRange(n.refreshInterval, RefreshIntervalRange)
    && InRange(n.maxRecords, MaxRecordsRange)
    && InRange(n.timeout, TimeoutRange)
    && InRange(n.proxyPort, ProxyPortRange)
  }

  /** The widgets as the page builds them, before anything is loaded. */
  function Built(host: Host): (f: Form)
    ensures WellFormed(f)
    ensures !f.general.autoSave && !f.general.autoStart && !f.general.minimizeToTray
    ensures !f.network.proxyEnabled && !f.advanced.autoExport && !f.advanced.debugMode
    ensures f.appearance.customThemeColor == "#0000ff" && f.appearance.font == host.applicationFont
    ensures f.advanced.exportPath == host.documentsDir
  {
    Form(
      General("简体中文", "", false, false, false),
      Appearance("浅色主题", 100, "#0000ff", host.applicationFont),
      Network(5, 1000, 30, false, "", 8080),
      Advanced("信息", false, host.documentsDir, false, 512))
  }

  /** The documented defaults: what loading shows for every absent key. */
  function Defaults(host: Host): (f: Form)
    ensures WellFormed(f)
  {
    Form(
      General("简体中文", "", true, false, false),
      Appearance("浅色主题", 100, "#007bff", host.applicationFont),
      Network(5, 1000, 30, false, "", 8080),
      Advanced("信息", false, host.documentsDir, false, 512))
  }

  function LoadGeneral(store: Store, shown: General): (g: General)
    ensures store == map[] ==> g == General("简体中文", "", true, false, false)
    ensures Known(Language) !in store ==> g.language == "简体中文"
    ensures Known(DefaultDataSource) !in store ==> g.defaultDataSource == ""
    ensures Known(AutoSave) !in store ==> g.autoSave
    ensures Known(AutoStart) !in store ==> !g.autoStart
    ensures Known(MinimizeToTray) !in store ==> !g.minimizeToTray
    ensures shown.language in Languages ==> g.language in Languages
  {
    General(
      language := ComboSelect(Languages, TextOr(store, Language, "简体中文"), shown.language),
      defaultDataSource := TextOr(store, DefaultDataSource, ""),
      autoSave := FlagOr(store, AutoSave, true),
      autoStart := FlagOr(store, AutoStart, false),
      minimizeToTray := FlagOr(store, MinimizeToTray, false))
  }

  function LoadAppearance(store: Store, shown: Appearance, host: Host): (a: Appearance)
    ensures store == map[] ==> a == Appearance("浅色主题", 100, "#007bff", host.applicationFont)
    ensures Known(Theme) !in store ==> a.theme == "浅色主题"
    ensures Known(Opacity) !in store ==> a.opacity == 100
    ensures Known(CustomThemeColor) !in store ==> a.customThemeColor == "#007bff"
    ensures Known(Font) !in store ==> a.font == host.applicationFont
    ensures shown.theme in Themes ==> a.theme in Themes
    ensures InRange(a.opacity, OpacityRange)
  {
    Appearance(
      theme := ComboSelect(Themes, TextOr(store, Theme, "浅色主题"), shown.theme),
      opacity := Clamp(NumberOr(store, Opacity, 100), OpacityRange),
      customThemeColor := TextOr(store, CustomThemeColor, "#007bff"),
      font := FontOr(store, Font, host.applicationFont))
  }

  function LoadNetwork(store: Store): (n: Network)
    ensures store == map[] ==> n == Network(5, 1000, 30, false, "", 8080)
    ensures Known(RefreshInterval) !in store ==> n.refreshInterval == 5
    ensures Known(MaxRecords) !in store ==> n.maxRecords == 1000
    ensures Known(Timeout) !in store ==> n.timeout == 30
    ensures Known(ProxyEnabled) !in store ==> !n.proxyEnabled
    ensures Known(ProxyHost) !in store ==> n.proxyHost == ""
    ensures Known(ProxyPort) !in store ==> n.proxyPort == 8080
    ensures NetworkInRange(n)
  {
    Network(
      refreshInterval := Clamp(NumberOr(store, RefreshInterval, 5), RefreshIntervalRange),
      maxRecords := Clamp(NumberOr(store, MaxRecords, 1000), MaxRecordsRange),
      timeout := Clamp(NumberOr(store, Timeout, 30), TimeoutRange),
      proxyEnabled := FlagOr(store, ProxyEnabled, false),
      proxyHost := TextOr(store, ProxyHost, ""),
      proxyPort := Clamp(NumberOr(store, ProxyPort, 8080), ProxyPortRange))
  }

  function LoadAdvanced(store: Store, shown: Advanced, host: Host): (a: Advanced)
    ensures store == map[] ==> a == Advanced("信息", false, host.documentsDir, false, 512)
    ensures Known(LogLevel) !in store ==> a.logLevel == "信息"
    ensures Known(AutoExport) !in store ==> !a.autoExport
    ensures Known(ExportPath) !in store ==> a.exportPath == host.documentsDir
    ensures Known(DebugMode) !in store ==> !a.debugMode
    ensures Known(BufferSize) !in store ==> a.bufferSize == 512
    ensures shown.logLevel in LogLevels ==> a.logLevel in LogLevels
    ensures InRange(a.bufferSize, BufferSizeRange)
  {
    Advanced(
      logLevel := ComboSelect(LogLevels, TextOr(store, LogLevel, "信息"), shown.logLevel),
      autoExport := FlagOr(store, AutoExport, false),
      exportPath := TextOr(store, ExportPath, host.documentsDir),
      debugMode := FlagOr(store, DebugMode, false),
      bufferSize := Clamp(NumberOr(store, BufferSize, 512), BufferSizeRange))
  }

  /** Reads every key into the widgets currently showing `shown`: absent keys
      give their defaults, numbers are brought into range, and a combo-box
      text that is not one of its items leaves the shown item. */
  function Load(store: Store, shown: Form, host: Host): (f: Form)
    ensures store == map[] ==> f == Defaults(host)
    ensures forall s :: Known(s) !in store ==> Entry(f, s) == Entry(Defaults(host), s)
    ensures WellFormed(shown) ==> WellFormed(f)
    ensures NetworkInRange(f.network) && InRange(f.appearance.opacity, OpacityRange)
    ensures InRange(f.advanced.bufferSize, BufferSizeRange)
  {
    Form(
      LoadGeneral(store, shown.general),
      LoadAppearance(store, shown.appearance, host),
      LoadNetwork(store),
      LoadAdvanced(store, shown.advanced, host))
  }

  /** The page as constructed: built widgets, then a load. */
  function Constructed(store: Store, host: Host): (f: Form)
    ensures WellFormed(f)
    ensures store == map[] ==> f == Defaults(host)
  {
    Load(store, Built(host), host)
  }

  /** The value the page writes for one setting, as the kind its widget holds. */
  function Entry(f: Form, s: Setting): Value {
    match s
    case Language => TextValue(f.general.language)
    case DefaultDataSource => TextValue(f.general.defaultDataSource)
    case AutoSave => FlagValue(f.general.autoSave)
    case AutoStart => FlagValue(f.general.autoStart)
    case MinimizeToTray => FlagValue(f.general.minimizeToTray)
    case Theme => TextValue(f.appearance.theme)
    case Opacity => NumberValue(f.appearance.opacity)
    case CustomThemeColor => TextValue(f.appearance.customThemeColor)
    case Font => TextValue(f.appearance.font)
    case RefreshInterval => NumberValue(f.network.refreshInterval)
    case MaxRecords => NumberValue(f.network.maxRecords)
    case Timeout => NumberValue(f.network.timeout)
    case ProxyEnabled => FlagValue(f.network.proxyEnabled)
    case ProxyHost => TextValue(f.network.proxyHost)
    case ProxyPort => NumberValue(f.network.proxyPort)
    case LogLevel => TextValue(f.advanced.logLevel)
    case AutoExport => FlagValue(f.advanced.autoExport)
    case ExportPath => TextValue(f.advanced.exportPath)
    case DebugMode => FlagValue(f.advanced.debugMode)
    case BufferSize => NumberValue(f.advanced.bufferSize)
  }

  /** The settings in the order the page writes them. */
  const Written: seq<Setting> := [
    Language, DefaultDataSource, AutoSave, AutoStart, MinimizeToTray,
    Theme, Opacity, CustomThemeColor, Font,
    RefreshInterval, MaxRecords, Timeout, ProxyEnabled, ProxyHost, ProxyPort,
    LogLevel, AutoExport, ExportPath, DebugMode, BufferSize
  ]

  /** Every setting is written. */
  lemma SettingWritten(s: Setting)
    ensures s in Written
  {
    match s
    case Language =>
    case DefaultDataSource =>
    case AutoSave =>
    case AutoStart =>
    case MinimizeToTray =>
    case Theme =>
    case Opacity =>
    case CustomThemeColor =>
    case Font =>
    case RefreshInterval =>
    case MaxRecords =>
    case Timeout =>
    case ProxyEnabled =>
    case ProxyHost =>
    case ProxyPort =>
    case LogLevel =>
    case AutoExport =>
    case ExportPath =>
    case DebugMode =>
    case BufferSize =>
  }

  /** Writes the entries of `settings` one after another. */
  function WriteAll(store: Store, f: Form, settings: seq<Setting>): (r: Store)
    ensures forall k :: k in r <==> k in store || (k.Known? && k.setting in settings)
    ensures forall k :: k in store && !(k.Known? && k.setting in settings) ==> r[k] == store[k]
    ensures forall s :: s in settings ==> r[Known(s)] == Entry(f, s)
  {
    if settings == [] then store
    else
      var last := settings[|settings| - 1];
      WriteAll(store, f, settings[..|settings| - 1])[Known(last) := Entry(f, last)]
  }

  /** Writes the twenty keys; every other key keeps its value. */
  function Save(store: Store, f: Form): (r: Store)
    ensures forall k :: k in r <==> k in store || k.Known?
    ensures forall k :: k in store && k.Other? ==> r[k] == store[k]
    ensures forall s :: Known(s) in r && r[Known(s)] == Entry(f, s)
  {
    forall s {
      SettingWritten(s);
    }
    WriteAll(store, f, Written)
  }

  /** The store holds `v` under the setting's key. */
  predicate Stores(store: Store, s: Setting, v: Value) {
    Known(s) in store && store[Known(s)] == v
  }

  // Loading one tab from a store that holds exactly what that tab writes.

  lemma LoadStoredGeneral(store: Store, g: General, shown: General)
    requires g.language in Languages
    requires Stores(store, Language, TextValue(g.language))
    requires Stores(store, DefaultDataSource, TextValue(g.defaultDataSource))
    requires Stores(store, AutoSave, FlagValue(g.autoSave))
    requires Stores(store, AutoStart, FlagValue(g.autoStart))
    requires Stores(store, MinimizeToTray, FlagValue(g.minimizeToTray))
    ensures LoadGeneral(store, shown) == g
  {
  }

  lemma LoadStoredAppearance(store: Store, a: Appearance, shown: Appearance, host: Host)
    requires a.theme in Themes && InRange(a.opacity, OpacityRange)
    requires Stores(store, Theme, TextValue(a.theme))
    requires Stores(store, Opacity, NumberValue(a.opacity))
    requires Stores(store, CustomThemeColor, TextValue(a.customThemeColor))
    requires Stores(store, Font, TextValue(a.font))
    ensures LoadAppearance(store, shown, host) == a
  {
  }

  lemma LoadStoredNetwork(store: Store, n: Network)
    requires NetworkInRange(n)
    requires Stores(store, RefreshInterval, NumberValue(n.refreshInterval))
    requires Stores(store, MaxRecords, NumberValue(n.maxRecords))
    requires Stores(store, Timeout, NumberValue(n.timeout))
    requires Stores(store, ProxyEnabled, FlagValue(n.proxyEnabled))
    requires Stores(store, ProxyHost, TextValue(n.proxyHost))
    requires Stores(store, ProxyPort, NumberValue(n.proxyPort))
    ensures LoadNetwork(store) == n
  {
  }

  lemma LoadStoredAdvanced(store: Store, a: Advanced, shown: Advanced, host: Host)
    requires a.logLevel in LogLevels && InRange(a.bufferSize, BufferSizeRange)
    requires Stores(store, LogLevel, TextValue(a.logLevel))
    requires Stores(store, AutoExport, FlagValue(a.autoExport))
    requires Stores(store, ExportPath, TextValue(a.exportPath))
    requires Stores(store, DebugMode, FlagValue(a.debugMode))
    requires Stores(store, BufferSize, NumberValue(a.bufferSize))
    ensures LoadAdvanced(store, shown, host) == a
  {
  }

  lemma GeneralEntries(f: Form)
    ensures Entry(f, Language) == TextValue(f.general.language)
    ensures Entry(f, DefaultDataSource) == TextValue(f.general.defaultDataSource)
    ensures Entry(f, AutoSave) == FlagValue(f.general.autoSave)
    ensures Entry(f, AutoStart) == FlagValue(f.general.autoStart)
    ensures Entry(f, MinimizeToTray) == FlagValue(f.general.minimizeToTray)
  {
  }

  lemma AppearanceEntries(f: Form)
    ensures Entry(f, Theme) == TextValue(f.appearance.theme)
    ensures Entry(f, Opacity) == NumberValue(f.appearance.opacity)
    ensures Entry(f, CustomThemeColor) == TextValue(f.appearance.customThemeColor)
    ensures Entry(f, Font) == TextValue(f.appearance.font)
  {
  }

  lemma NetworkEntries(f: Form)
    ensures Entry(f, RefreshInterval) == NumberValue(f.network.refreshInterval)
    ensures Entry(f, MaxRecords) == NumberValue(f.network.maxRecords)
    ensures Entry(f, Timeout) == NumberValue(f.network.timeout)
    ensures Entry(f, ProxyEnabled) == FlagValue(f.network.proxyEnabled)
    ensures Entry(f, ProxyHost) == TextValue(f.network.proxyHost)
    ensures Entry(f, ProxyPort) == NumberValue(f.network.proxyPort)
  {
  }

  lemma AdvancedEntries(f: Form)
    ensures Entry(f, LogLevel) == TextValue(f.advanced.logLevel)
    ensures Entry(f, AutoExport) == FlagValue(f.advanced.autoExport)
    ensures Entry(f, ExportPath) == TextValue(f.advanced.exportPath)
    ensures Entry(f, DebugMode) == FlagValue(f.advanced.debugMode)
    ensures Entry(f, BufferSize) == NumberValue(f.advanced.bufferSize)
  {
  }

  lemma SaveThenLoadGeneral(store: Store, f: Form, shown: General)
    requires f.general.language in Languages
    ensures LoadGeneral(Save(store, f), shown) == f.general
  {
    var saved := Save(store, f);
    GeneralEntries(f);
    LoadStoredGeneral(saved, f.general, shown);
  }

  lemma SaveThenLoadAppearance(store: Store, f: Form, shown: Appearance, host: Host)
    requires f.appearance.theme in Themes && InRange(f.appearance.opacity, OpacityRange)
    ensures LoadAppearance(Save(store, f), shown, host) == f.appearance
  {
    var saved := Save(store, f);
    AppearanceEntries(f);
    LoadStoredAppearance(saved, f.appearance, shown, host);
  }

  lemma SaveThenLoadNetwork(store: Store, f: Form)
    requires NetworkInRange(f.network)
    ensures LoadNetwork(Save(store, f)) == f.network
  {
    var saved := Save(store, f);
    NetworkEntries(f);
    LoadStoredNetwork(saved, f.network);
  }

  lemma SaveThenLoadAdvanced(store: Store, f: Form, shown: Advanced, host: Host)
    requires f.advanced.logLevel in LogLevels && InRange(f.advanced.bufferSize, BufferSizeRange)
    ensures LoadAdvanced(Save(store, f), shown, host) == f.advanced
  {
    var saved := Save(store, f);
    AdvancedEntries(f);
    LoadStoredAdvanced(saved, f.advanced, shown, host);
  }

  /** Saving a well-formed form and loading it back shows the same form,
      whatever the store held before and whatever the widgets showed. */
  lemma SaveThenLoad(store: Store, f: Form, shown: Form, host: Host)
    requires WellFormed(f)
    ensures Load(Save(store, f), shown, host) == f
  {
    SaveThenLoadGeneral(store, f, shown.general);
    SaveThenLoadAppearance(store, f, shown.appearance, host);
    SaveThenLoadNetwork(store, f);
    SaveThenLoadAdvanced(store, f, shown.advanced, host);
  }

  /** The page's store and widgets together. */
  datatype Page = Page(store: Store, form: Form)

  /** What the page announces when its widgets go from `before` to `after`.
      Only the language and theme combo boxes are connected to signals, and
      a combo box reports a change only when its selected item changes; the
      language box is set before the theme box. */
  function ComboSignals(before: Form, after: Form): (signals: seq<Signal>)
    ensures LanguageChanged(after.general.language) in signals <==>
      before.general.language != after.general.language
    ensures ThemeChanged(after.appearance.theme) in signals <==>
      before.appearance.theme != after.appearance.theme
    ensures forall x :: x in signals ==>
      x == LanguageChanged(after.general.language) || x == ThemeChanged(after.appearance.theme)
    ensures |signals| <= 2
    ensures |signals| == 2 ==> signals[0].LanguageChanged?
  {
    (if before.general.language != after.general.language then [LanguageChanged(after.general.language)] else [])
    + (if before.appearance.theme != after.appearance.theme then [ThemeChanged(after.appearance.theme)] else [])
  }

  /** The page after an operation that reloads its widgets, and the signals
      the reload emitted, in order. */
  datatype Reloaded = Reloaded(page: Page, signals: seq<Signal>)

  /** Choosing a language on the page: only an item of the box is taken, and
      a change of item is announced. */
  function SelectLanguage(p: Page, text: string): (r: Reloaded)
    ensures r.page.store == p.store
    ensures r.page.form == p.form.(general := p.form.general.(language := r.page.form.general.language))
    ensures text in Languages ==> r.page.form.general.language == text
    ensures text !in Languages ==> r.page.form == p.form
    ensures r.signals == (if text in Languages && text != p.form.general.language then [LanguageChanged(text)] else [])
  {
    var shown := p.form.(general := p.form.general.(language := ComboSelect(Languages, text, p.form.general.language)));
    Reloaded(p.(form := shown), ComboSignals(p.form, shown))
  }

  /** Choosing a theme on the page: only an item of the box is taken, and a
      change of item is announced. */
  function SelectTheme(p: Page, text: string): (r: Reloaded)
    ensures r.page.store == p.store
    ensures r.page.form == p.form.(appearance := p.form.appearance.(theme := r.page.form.appearance.theme))
    ensures text in Themes ==> r.page.form.appearance.theme == text
    ensures text !in Themes ==> r.page.form == p.form
    ensures r.signals == (if text in Themes && text != p.form.appearance.theme then [ThemeChanged(text)] else [])
  {
    var shown := p.form.(appearance := p.form.appearance.(theme := ComboSelect(Themes, text, p.form.appearance.theme)));
    Reloaded(p.(form := shown), ComboSignals(p.form, shown))
  }

  /** Restore defaults: on Yes the store is cleared and the widgets reloaded;
      on No nothing changes. */
  function Reset(p: Page, host: Host, confirmed: bool): (r: Reloaded)
    ensures confirmed ==> r.page.store == map[] && r.page.form == Defaults(host)
    ensures confirmed ==> r.signals == ComboSignals(p.form, Defaults(host))
    ensures !confirmed ==> r == Reloaded(p, [])
  {
    if confirmed then
      var cleared := p.form.(appearance := p.form.appearance.(customThemeColor := "#007bff", font := host.applicationFont));
      var shown := Load(map[], cleared, host);
      Reloaded(Page(map[], shown), ComboSignals(p.form, shown))
    else Reloaded(p, [])
  }

  /** Cancel: the widgets are reloaded from the store. */
  function Cancel(p: Page, host: Host): (r: Reloaded)
    ensures r.page.store == p.store
    ensures WellFormed(p.form) ==> WellFormed(r.page.form)
    ensures p.store == map[] ==> r.page.form == Defaults(host)
    ensures r.signals == ComboSignals(p.form, r.page.form)
  {
    var shown := Load(p.store, p.form, host);
    Reloaded(Page(p.store, shown), ComboSignals(p.form, shown))
  }

  /** Cancel discards every edit made since a well-formed form was saved:
      the widgets show the saved form again, whatever they held. */
  lemma CancelRestoresSaved(store: Store, saved: Form, edited: Form, host: Host)
    requires WellFormed(saved)
    ensures Cancel(Page(Save(store, saved), edited), host).page.form == saved
  {
    SaveThenLoad(store, saved, edited, host);
  }

  /** The outcome of exporting: the page, and the file written if a name was chosen. */
  datatype Exported = Exported(page: Page, written: bool, file: Store)

  /** Export: when a file name was chosen the form is saved first and every
      stored key is written into the chosen file, which keeps the keys it
      already held (`previous`) unless they are overwritten; otherwise
      nothing happens. */
  function Export(p: Page, fileName: string, previous: Store): (r: Exported)
    ensures r.written <==> fileName != []
    ensures r.page.form == p.form
    ensures r.written ==> r.page.store == Save(p.store, p.form)
    ensures r.written ==> forall k :: k in r.file <==> k in previous || k in r.page.store
    ensures r.written ==> forall k :: k in r.page.store ==> r.file[k] == r.page.store[k]
    ensures r.written ==> forall k :: k in previous && k !in r.page.store ==> r.file[k] == previous[k]
    ensures !r.written ==> r.page == p && r.file == previous
  {
    if fileName == [] then Exported(p, false, previous)
    else
      var saved := Save(p.store, p.form);
      Exported(Page(saved, p.form), true, previous + saved)
  }

  /** A store that holds every setting's entry for a well-formed form loads
      as that form, whatever else it holds. */
  lemma LoadHoldingEntries(store: Store, f: Form, shown: Form, host: Host)
    requires WellFormed(f)
    requires forall s :: Stores(store, s, Entry(f, s))
    ensures Load(store, shown, host) == f
  {
    GeneralEntries(f);
    LoadStoredGeneral(store, f.general, shown.general);
    AppearanceEntries(f);
    LoadStoredAppearance(store, f.appearance, shown.appearance, host);
    NetworkEntries(f);
    LoadStoredNetwork(store, f.network);
    AdvancedEntries(f);
    LoadStoredAdvanced(store, f.advanced, shown.advanced, host);
  }

  /** Loading what an export wrote shows the exported form again, whatever
      the chosen file held before. */
  lemma ExportedFileLoadsForm(p: Page, fileName: string, previous: Store, shown: Form, host: Host)
    requires fileName != [] && WellFormed(p.form)
    ensures Load(Export(p, fileName, previous).file, shown, host) == p.form
  {
    var file := Export(p, fileName, previous).file;
    assert forall s :: Stores(file, s, Entry(p.form, s));
    LoadHoldingEntries(file, p.form, shown, host);
  }

  /** The outcome of importing: the page, and the signals it emitted. */
  datatype Imported = Imported(page: Page, signals: seq<Signal>)

  /** Import: when a file was chosen and overwriting confirmed, the store is
      cleared, every key of the file copied in, the widgets reloaded and the
      change announced after the reload's own signals; otherwise nothing
      changes. */
  method Import(p: Page, host: Host, fileName: string, confirmed: bool, file: Store) returns (r: Imported)
    ensures SettingsChanged in r.signals <==> fileName != [] && confirmed
    ensures fileName != [] && confirmed ==>
      && r.page.store == file
      && r.page.form == Load(file, p.form, host)
      && r.signals == ComboSignals(p.form, r.page.form) + [SettingsChanged]
    ensures !(fileName != [] && confirmed) ==> r == Imported(p, [])
  {
    if fileName == [] || !confirmed {
      return Imported(p, []);
    }
    var store: Store := map[];
    var pending := file.Keys;
    while pending != {}
      invariant pending <= file.Keys
      invariant store.Keys == file.Keys - pending
      invariant forall k :: k in store ==> store[k] == file[k]
      decreases pending
    {
      var k :| k in pending;
      store := store[k := file[k]];
      pending := pending - {k};
    }
    assert store == file;
    var shown := Load(store, p.form, host);
    var reloaded := ComboSignals(p.form, shown);
    assert SettingsChanged !in reloaded;
    r := Imported(Page(store, shown), reloaded + [SettingsChanged]);
  }
}
