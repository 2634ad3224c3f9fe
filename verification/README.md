# TrafficAnalyzer: settings, validation and page navigation in Dafny

This project models the logic of the Qt network-traffic analyser that is not
widget layout. It covers:

- **the settings page**: the twenty settings it persists in its key/value
  store; how they are loaded with defaults into the widgets; saving, reset,
  cancel, export and import; and the validation run by Apply;
- **the data-source format check**: an IPv4 regular expression and an
  interface-name regular expression;
- **the main window**: which page the stacked widget shows, the login flag,
  the actions enabled for a logged-in user, the menu captions per language,
  and how page signals are routed;
- **the traffic-analysis page**: its start/stop/clear/export state machine;
- **the login and register pages**: their ordered form checks.

Modules, one per file:

| file | module | what it holds |
|---|---|---|
| `strings.dfy` | `Strings` | decimal text of 32-bit ints, ASCII lower case, splitting on a character |
| `widgets.dfy` | `Widgets` | spin-box/slider clamping, non-editable combo-box selection |
| `datasource.dfy` | `DataSource` | the two regular expressions as recursive predicates, and what they accept |
| `settingsstore.dfy` | `SettingsStore` | store, form (one record per settings tab), load, save, reset, cancel, export, import |
| `settingsvalidation.dfy` | `SettingsValidation` | `validateSettings` and Apply |
| `signals.dfy` | `Signals` | the signals pages send to the main window |
| `mainwindow.dfy` | `MainWindow` | the window's state machine |
| `trafficanalyzer.dfy` | `TrafficAnalyzer` | the analysis page's state machine |
| `login.dfy`, `register.dfy` | `Login`, `Register` | the two forms |
| `application.dfy` | `Application` | pages wired to the main window |

How Qt and the environment are represented:

- **Store keys.** A key is either one of the twenty settings (`Known`) or any
  other name (`Other`), such as keys an imported file may carry.
  `SettingsStore.KeyNameInjective` shows that this is the same as keying by
  name.
- **Stored values.** A value is a text, a flag or a number.
- **Reading values.** Reading a value as another kind follows QVariant:
  - text reads as `false` when it is empty, `0` or `false` (ignoring ASCII
    case);
  - text reads as an int when it is an optional sign followed by decimal
    digits within 32-bit range, and as 0 otherwise, as `QString::toInt`
    reads it (Qt 5's `QVariant::toInt` differs for numerals beyond 32 bits;
    see "Left out");
  - a flag reads as 1 or 0.
- **Widgets.** Spin boxes and the opacity slider clamp to their ranges. A
  non-editable combo box ignores a text that is not one of its items.
- **Parameters instead of I/O.** Dialog answers, the chosen file names,
  the keys a chosen export file already holds, the keys of an imported file
  and the file system's view of the export path are parameters. An empty
  file name means the dialog was cancelled.
- **Combo-box signals.** The language and theme boxes announce a change of
  their selected item, whether the user chose it or a load set it. The page
  connects to the main window only after the page's own constructor has
  loaded the settings, so that first load announces nothing the window
  sees.
- **Colour and font.** The custom colour and the font are kept as their text
  descriptions.

Both regular expressions are anchored with `^…$`. With QRegularExpression's
default options, `$` also matches just before a newline that ends the text.
The model follows this:
- `DataSource.Ipv4Match` and `DataSource.InterfaceMatch` accept a text when
  the pattern accepts it whole, or accepts it without its final newline.
- `DataSource.FormatWarningIff` therefore states that the warning is asked
  exactly when the text is non-empty and, after dropping at most one final
  newline, is empty or holds a character outside `[a-zA-Z0-9_.-]`.
- For texts without a newline this is the plain statement "non-empty and
  holds a character outside the class" (`DataSource.FormatWarningWithoutNewline`).

## Model

| member | source | states |
|---|---|---|
| Strings.TextToInt | Settingswidget.cpp:399-418 | a stored text reads as the value of its optional sign and digits when that fits in 32 bits, and as 0 when it is not such a numeral or does not fit |
| Strings.TextToIntOfIntText | Settingswidget.cpp:399-418 | an int written as decimal text reads back as the same int |
| Strings.LeadingZeroDigits | Settingswidget.cpp:399-418 | a leading zero does not change the value of a digit string |
| Strings.SignAndZerosIgnored | Settingswidget.cpp:399-418 | a leading '+' or a leading zero does not change the int a text reads as |
| Widgets.Clamp | Settingswidget.cpp:214 | a spin box or slider set to any value holds the in-range value nearest to it, and an in-range value unchanged |
| Widgets.ComboSelect | Settingswidget.cpp:391 | a non-editable combo box takes a listed text and otherwise keeps its current item, so it always shows one of its items |
| DataSource.OctetPatternIff | Settingswidget.cpp:793 | `25[0-5]\|2[0-4][0-9]\|[01]?[0-9][0-9]?` accepts exactly 1–3 decimal digits with value at most 255 |
| DataSource.DottedOctetsIff | Settingswidget.cpp:793 | `(OCTET\.){n}OCTET` accepts exactly the texts with n+1 dot-separated fields that are all octets |
| DataSource.Ipv4PatternIff | Settingswidget.cpp:793 | the IPv4 pattern accepts exactly four dot-separated octets of 1–3 digits, each at most 255 |
| DataSource.DottedOctetsChars | Settingswidget.cpp:793 | every text the IPv4 pattern accepts is non-empty and made only of digits and dots |
| DataSource.InterfacePatternIff | Settingswidget.cpp:794 | the interface pattern accepts exactly the non-empty texts over `[a-zA-Z0-9_.-]` |
| DataSource.Ipv4ImpliesInterface | Settingswidget.cpp:793-794 | every text the IPv4 pattern accepts, the interface pattern accepts too |
| DataSource.AnchoredMatchIff | Settingswidget.cpp:795 | an end-anchored pattern matches a text exactly when it accepts the text without its final newline |
| DataSource.FormatWarningIff | Settingswidget.cpp:791-797 | the format question is asked iff the text is non-empty and, without a final newline, empty or holding a character outside the class; the IPv4 alternative never decides it |
| DataSource.FormatWarningWithoutNewline | Settingswidget.cpp:791-797 | for texts without a newline, the question is asked iff the text is non-empty and has a character outside `[a-zA-Z0-9_.-]` |
| DataSource.FinalNewlineAccepted | Settingswidget.cpp:794-795 | an interface name followed by a newline is not questioned |
| SettingsStore.NameInjective | Settingswidget.cpp:431-456 | the twenty settings are stored under twenty distinct key names |
| SettingsStore.NotASettingName | Settingswidget.cpp:431-456 | a name whose first letter starts none of the twenty names is not a setting's name, so it is an other key |
| SettingsStore.KeyNameInjective | Settingswidget.cpp:836-839 | distinct store keys have distinct names, so the key type loses nothing of a name-keyed store |
| SettingsStore.Built | Settingswidget.cpp:13-21 | the widgets as built: everything well-formed, all six check boxes off, colour blue (#0000ff), the application font, export path the documents directory |
| SettingsStore.Defaults | Settingswidget.cpp:387-418 | the documented defaults are a well-formed form |
| SettingsStore.LoadGeneral | Settingswidget.cpp:390-395 | each absent key gives its default: 简体中文, no data source, autoSave on, autoStart and tray off; the language stays a listed item |
| SettingsStore.LoadAppearance | Settingswidget.cpp:397-402 | each absent key gives its default: 浅色主题, opacity 100, colour #007bff, the application font; opacity is always in 50–100 |
| SettingsStore.LoadNetwork | Settingswidget.cpp:404-410 | each absent key gives its default: 5 s, 1000 records, 30 s, proxy off, no host, port 8080; all four numbers are always in range |
| SettingsStore.LoadAdvanced | Settingswidget.cpp:412-418 | each absent key gives its default: 信息, no auto-export, the documents directory, no debug, buffer 512; the buffer is always in 64–4096 |
| SettingsStore.Load | Settingswidget.cpp:387-426 | every setting whose key is absent shows its documented default, whatever else the store holds; loading keeps a well-formed form well-formed and always brings the numbers into range |
| SettingsStore.Constructed | Settingswidget.cpp:13-22 | the page as constructed is well-formed, and shows the defaults for an empty store |
| SettingsStore.WriteAll | Settingswidget.cpp:428-459 | writing a list of settings stores each one's widget value and keeps every other key |
| SettingsStore.Save | Settingswidget.cpp:428-459 | saving stores all twenty settings with their widget values and keeps every other key |
| SettingsStore.LoadStoredGeneral | Settingswidget.cpp:390-395 | a store holding the General tab's values loads them back |
| SettingsStore.LoadStoredAppearance | Settingswidget.cpp:397-402 | a store holding the Appearance tab's values loads them back when they are in range |
| SettingsStore.LoadStoredNetwork | Settingswidget.cpp:404-410 | a store holding the Network tab's values loads them back when they are in range |
| SettingsStore.LoadStoredAdvanced | Settingswidget.cpp:412-418 | a store holding the Advanced tab's values loads them back when they are in range |
| SettingsStore.SaveThenLoadGeneral | Settingswidget.cpp:431-435 | saving then loading gives back the General tab |
| SettingsStore.SaveThenLoadAppearance | Settingswidget.cpp:438-441 | saving then loading gives back the Appearance tab |
| SettingsStore.SaveThenLoadNetwork | Settingswidget.cpp:444-449 | saving then loading gives back the Network tab |
| SettingsStore.SaveThenLoadAdvanced | Settingswidget.cpp:452-456 | saving then loading gives back the Advanced tab |
| SettingsStore.SaveThenLoad | Settingswidget.cpp:387-459 | saving a well-formed form and loading it back shows the same form, whatever the store held and the widgets showed |
| SettingsStore.LoadHoldingEntries | Settingswidget.cpp:387-418 | a store holding every setting's entry of a well-formed form loads as that form, whatever other keys it holds |
| SettingsStore.ComboSignals | Settingswidget.cpp:463-478 | a change of the widgets announces languageChanged with the new language exactly when the language item changed, and themeChanged with the new theme exactly when the theme item changed, language first, nothing else |
| SettingsStore.SelectLanguage | Settingswidget.cpp:474-478 | choosing a listed language shows it and announces it when it differs from the shown one; an unlisted text changes nothing; the store is untouched |
| SettingsStore.SelectTheme | Settingswidget.cpp:463-472 | choosing a listed theme shows it and announces it when it differs from the shown one; an unlisted text changes nothing; the store is untouched |
| SettingsStore.Reset | Settingswidget.cpp:518-529 | on Yes the store is emptied, the page shows the defaults and announces the language and theme that changed; on No nothing changes and nothing is announced |
| SettingsStore.Cancel | Settingswidget.cpp:541-544 | cancel keeps the store, reloads the widgets from it and announces the language and theme that changed |
| SettingsStore.CancelRestoresSaved | Settingswidget.cpp:541-544 | after a well-formed form was saved, Cancel shows that form again whatever the widgets were edited to |
| SettingsStore.Export | Settingswidget.cpp:808-823 | a chosen file name saves the form first; the file then holds every stored key with its stored value and keeps its other earlier keys; a cancelled dialog changes nothing |
| SettingsStore.ExportedFileLoadsForm | Settingswidget.cpp:808-823 | loading an exported file shows the exported form, whatever the file held before |
| SettingsStore.Import | Settingswidget.cpp:825-846 | a chosen and confirmed import leaves the store equal to the file's keys and values, reloads the widgets, announces the language and theme that changed and then settingsChanged; otherwise nothing changes and nothing is announced |
| SettingsValidation.Validate | Settingswidget.cpp:771-806 | each failure verdict holds exactly when its check fails and every earlier check passes; the form is valid iff the proxy has a host when enabled, the export path is a writable directory when auto-export is on, and the source is not questioned or the user keeps it |
| SettingsValidation.EmptySourceAccepted | Settingswidget.cpp:791-805 | an empty data source never fails validation, and passes once the proxy and export checks pass |
| SettingsValidation.RecognisedSourceAccepted | Settingswidget.cpp:793-801 | an IPv4 address or interface name validates as if the user had chosen to keep it |
| SettingsValidation.ProxyOffIgnoresHost | Settingswidget.cpp:773-776 | with the proxy off the host text never changes the verdict |
| SettingsValidation.MissingHostFailsFirst | Settingswidget.cpp:773-776 | an enabled proxy without host fails before any other check |
| SettingsValidation.AutoExportOffIgnoresPath | Settingswidget.cpp:778-789 | with auto-export off neither the export path nor the file system changes the verdict |
| SettingsValidation.Apply | Settingswidget.cpp:531-539 | settingsChanged is emitted iff validation passes; then the form is saved, otherwise the store is unchanged |
| SettingsValidation.ApplyPersists | Settingswidget.cpp:531-539 | after a successful Apply the store loads back as the applied form |
| SettingsValidation.CancelAfterApply | Settingswidget.cpp:531-544 | after a successful Apply, Cancel discards any later edit and shows the applied form |
| SettingsValidation.FailedApplyKeepsStore | Settingswidget.cpp:531-544 | after a failed Apply, Cancel restores exactly what it would have restored before |
| MainWindow.CaptionsFor | MainWindow.cpp:394-417 | English captions exactly for the language text "English", Chinese for every other text |
| MainWindow.Init | MainWindow.cpp:13-32 | the window starts on the login page, logged out, with the logged-in actions disabled, theme and language from its store (defaults 浅色主题, 简体中文), consistent |
| MainWindow.SaveWindowState | MainWindow.cpp:430-438 | saving the window state stores the given geometry and dock state, the theme and the language, and keeps every other key |
| MainWindow.SaveWindowStateThenInit | MainWindow.cpp:419-438 | a window constructed after saving comes back with the same theme, language and captions |
| MainWindow.ShowRegister | MainWindow.cpp:196-199 | only the page changes, to the register page |
| MainWindow.ShowLogin | MainWindow.cpp:201-216 | login page, logged out, settings, 快速分析 and 导出数据 disabled |
| MainWindow.ShowTrafficAnalyzer | MainWindow.cpp:218-233 | traffic page, logged in, settings, 快速分析 and 导出数据 enabled |
| MainWindow.ShowSettings | MainWindow.cpp:235-242 | a logged-in user gets the settings page; otherwise nothing changes |
| MainWindow.Step | MainWindow.cpp:61-69 | loginSuccess and backRequested open the traffic page, registerRequested the register page, backToLogin the login page; settingsChanged changes nothing; theme and language signals update them |
| MainWindow.StepPreservesConsistent | MainWindow.cpp:201-242 | every event keeps the actions enabled iff logged in, the settings page logged-in only, and the captions matching the language |
| MainWindow.RunPreservesConsistent | MainWindow.cpp:201-242 | any sequence of events keeps the window consistent |
| MainWindow.NoSessionNoSettings | MainWindow.cpp:235-242 | without loginSuccess or backRequested a logged-out window never logs in nor shows the settings page |
| MainWindow.SettingsNeedLogin | MainWindow.cpp:72 | from the constructed window, the settings page is reached only after a session was opened |
| TrafficAnalyzer.Initial | TrafficAnalyzerWidget.cpp:11-16 | start enabled, stop disabled, progress hidden, five sample rows of seven columns, one startup log line |
| TrafficAnalyzer.EditSource | TrafficAnalyzerWidget.cpp:35 | typing changes only the data-source text |
| TrafficAnalyzer.SelectProtocol | TrafficAnalyzerWidget.cpp:42 | the protocol filter only ever takes one of its items |
| TrafficAnalyzer.Start | TrafficAnalyzerWidget.cpp:151-168 | an empty source changes nothing; otherwise start off, stop on, progress shown, exactly one log line naming source and filter |
| TrafficAnalyzer.Stop | TrafficAnalyzerWidget.cpp:170-178 | start on, stop off, progress hidden, exactly one log line; table untouched |
| TrafficAnalyzer.Clear | TrafficAnalyzerWidget.cpp:180-184 | no rows, zeroed statistics, one log line; nothing else changes |
| TrafficAnalyzer.Export | TrafficAnalyzerWidget.cpp:186-192 | a chosen file name adds one log line; the table never changes |
| TrafficAnalyzer.Step | TrafficAnalyzerWidget.cpp:124-127 | a disabled start or stop button does nothing; enabled ones, clear, export, typing and choosing a filter each run their own slot |
| TrafficAnalyzer.StepPreservesCoherent | TrafficAnalyzerWidget.cpp:53 | every action keeps exactly one of start/stop enabled, progress and status tied to stop, seven columns |
| TrafficAnalyzer.StepExtendsLog | TrafficAnalyzerWidget.cpp:167 | every action appends at most one log line and never rewrites the log |
| TrafficAnalyzer.RunKeepsCoherentAndLog | TrafficAnalyzerWidget.cpp:151-192 | along any sequence of actions the panel stays coherent and the log is only appended to |
| TrafficAnalyzer.FromInitial | TrafficAnalyzerWidget.cpp:52-53 | from the constructed page, start and stop are never both enabled and the log starts with the startup line |
| Login.LoginClicked | LoginWidget.cpp:62-79 | empty fields are reported first; loginSuccess is emitted iff the pair is admin/123456; any other pair is wrong |
| Login.RegisterClicked | LoginWidget.cpp:81-84 | the register button always emits registerRequested |
| Login.LoginSuccessOnlyForAdmin | LoginWidget.cpp:73-75 | only one pair of texts ever emits loginSuccess |
| Register.RegisterClicked | RegisterWidget.cpp:74-99 | an empty field is reported first, then differing passwords; success clears all four fields, failures keep them |
| Register.BackClicked | RegisterWidget.cpp:101-104 | back emits backToLogin and keeps the fields |
| Register.EmailContentIrrelevant | RegisterWidget.cpp:81 | the e-mail's content never changes the outcome once it is non-empty |
| Register.RegisterTwice | RegisterWidget.cpp:94-98 | a second press right after a success reports empty fields |
| Application.Deliver | MainWindow.cpp:61-69 | delivering a click's signals keeps the window consistent |
| Application.DeliverThenSettingsChanged | MainWindow.cpp:244-248 | a trailing settingsChanged leaves the window as the signals before it left it |
| Application.ComboSignalsDelivered | MainWindow.cpp:250-260 | after the settings page's widgets change, the window takes the page's language with its captions, and its theme, exactly when they changed; nothing else changes |
| Application.ResetClicked | Settingswidget.cpp:518-529 | a confirmed reset of a page showing another language or theme than the defaults switches the window to 简体中文 with Chinese captions and to 浅色主题; otherwise the window keeps them |
| Application.CancelClicked | Settingswidget.cpp:541-544 | after Cancel the window follows the reloaded language and theme when they differ from what the page showed |
| Application.ImportClicked | Settingswidget.cpp:825-846 | after an import the window follows the imported language and theme when they differ from what the page showed; the page shown and the login stay |
| Application.LanguageSelectedReachesWindow | MainWindow.cpp:256-260 | choosing another language on the settings page sets the window's language and captions; choosing the shown one does nothing |
| Application.ThemeSelectedReachesWindow | MainWindow.cpp:250-254 | choosing another theme on the settings page sets the window's theme; choosing the shown one does nothing |
| Application.LoginClicked | LoginWidget.cpp:73-75 | the admin account opens the traffic page with the settings action enabled; anything else leaves the window |
| Application.RegisterBackClicked | RegisterWidget.cpp:101-104 | the register page's back button returns to a logged-out login page |
| Application.ApplyClicked | MainWindow.cpp:244-248 | Apply never changes the main window (settingsChanged only shows a notice) |
| Application.LoginThenSettings | MainWindow.cpp:235-242 | after an admin login the settings action opens the settings page |
| Application.FailedLoginKeepsSettingsClosed | MainWindow.cpp:89 | after a failed login the settings action leaves the fresh window as it was |

## Left out

- Widget layout, style sheets, titles and message-box texts: presentation
  only. Message boxes appear only as outcomes (verdicts, warnings) or as
  boolean answers.
- `applyTheme`, `applyCustomTheme`, `updateCustomColorButton`,
  `updateLanguageUI` and `setAppFont` on the settings page, and `applyTheme`
  in the main window: colour maths and style sheets inside Qt. Theme and
  colour texts are kept, but not their effect on the look.
- The visual side of `onThemeChanged` and `onLanguageChanged` (enabling
  the colour button, restyling, relabelling): presentation only. Their
  themeChanged and languageChanged signals are modelled, for a choice on
  the page and for the reloads of Reset, Cancel and Import.
- The export-directory, colour and font dialogs (`onBrowseExportPath`,
  `onCustomColorClicked`, `onFontSettingsClicked`): each writes the user's
  choice into one form field, which the model covers by letting the shown
  form hold any value. `onAutoExportToggled` only enables widgets, and the
  remaining placeholder slots of the settings page do nothing.
- The settings page's getters and setters: each forwards to one widget,
  which the form record models directly.
- QSettings file format, `sync`, and the INI export and import files: a store
  and a file are both plain maps.
- Window geometry and dock state: saving writes them as values passed in
  from Qt, and `restoreWindowState`, which reads them back into the window's
  frame, is not modelled.
- The system tray, the close event, `exitApplication` and the about dialog:
  event-loop and platform plumbing.
- Time stamps in the analysis log: they come from the clock; log lines are
  kept without them.
- The statistics line of the analysis page is a fixed text in the source,
  not computed from the rows, and is modelled as that text.
- SettingsStore.FontOr: a stored font is read back only when it was stored
  as a font description; how Qt parses font strings is not modelled.
- SettingsStore.LoadAppearance: the custom colour is kept as the stored
  text; Qt's parsing through QColor and its canonical `name()` form (for
  example "#FFF" saved back as "#ffffff") are not modelled.
- Strings.TextToInt: leading and trailing white space, which QString::toInt
  accepts, is not modelled. A numeral outside the 32-bit range reads as 0
  here, as `QString::toInt` gives. Qt 5's `QVariant::toInt` instead parses a
  stored text as a 64-bit number and truncates it to 32 bits, so there
  "4294967396" reads as 100. The source does not fix the Qt version, and
  the model follows the 32-bit reading.
- SettingsStore.Load: the text-to-flag reading folds only ASCII letters,
  while Qt lower-cases all of Unicode.
- Header files: declarations only.
