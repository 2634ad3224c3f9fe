/** Checking the settings page before it is saved, and the Apply button.
    The checks run in a fixed order: the proxy host, then the export
    directory (only when automatic export is on), then the format of the
    default data source, where the user may still choose to keep a text
    that looks wrong. */
module SettingsValidation {
  import opened SettingsStore
  import opened DataSource

  /** What the file system says about a path: whether it exists, is a
      directory and is writable. */
  datatype DirInfo = DirInfo(present: bool, isDir: bool, isWritable: bool)

  /** The file system, as seen by the export-path check. */
  type FileSystem = string -> DirInfo

  /** The outcome of validation: accepted, or the first check that failed. */
  datatype Verdict =
    | Valid
    | ProxyHostMissing
    | ExportPathNotDirectory
    | ExportPathNotWritable
    | SourceFormatDeclined

  /** The proxy check passes: the proxy is off, or a host is given. */
  predicate ProxyConfigured(n: Network) {
    n.proxyEnabled ==> n.proxyHost != []
  }

  /** The export check passes: automatic export is off, or the export path
      is an existing, writable directory. */
  predicate ExportDirUsable(a: Advanced, fs: FileSystem) {
    var d := fs(a.exportPath);
    a.autoExport ==> d.present && d.isDir && d.isWritable
  }

  /** The data source the format question is asked about: non-empty and,
      apart from a final newline, empty or holding a character outside
      [a-zA-Z0-9_.-]. */
  predicate SuspectSource(src: string) {
    var t := WithoutFinalNewline(src);
    src != [] && (t == [] || HasForeignChar(t))
  }

  /** Validation of the form. `keepSuspectSource` is the user's answer to the
      question asked when the data source matches neither format. */
  function Validate(f: Form, fs: FileSystem, keepSuspectSource: bool): (v: Verdict)
    ensures v == ProxyHostMissing <==> !ProxyConfigured(f.network)
    ensures v == ExportPathNotDirectory <==>
      ProxyConfigured(f.network) && f.advanced.autoExport
      && !(fs(f.advanced.exportPath).present && fs(f.advanced.exportPath).isDir)
    ensures v == ExportPathNotWritable <==>
      ProxyConfigured(f.network) && f.advanced.autoExport
      && fs(f.advanced.exportPath).present && fs(f.advanced.exportPath).isDir
      && !fs(f.advanced.exportPath).isWritable
    ensures v == SourceFormatDeclined <==>
      ProxyConfigured(f.network) && ExportDirUsable(f.advanced, fs)
      && SuspectSource(f.general.defaultDataSource) && !keepSuspectSource
    ensures v == Valid <==>
      ProxyConfigured(f.network) && ExportDirUsable(f.advanced, fs)
      && (keepSuspectSource || !SuspectSource(f.general.defaultDataSource))
  {
    var src := f.general.defaultDataSource;
    FormatWarningIff(src);
    if f.network.proxyEnabled && f.network.proxyHost == [] then ProxyHostMissing
    else if f.advanced.autoExport && (!fs(f.advanced.exportPath).present || !fs(f.advanced.exportPath).isDir) then
      ExportPathNotDirectory
    else if f.advanced.autoExport && !fs(f.advanced.exportPath).isWritable then ExportPathNotWritable
    else if NeedsFormatWarning(src) && !keepSuspectSource then SourceFormatDeclined
    else Valid
  }

  /** An empty data source is never questioned: once the proxy and export
      checks pass, validation succeeds whatever the user would answer. */
  lemma EmptySourceAccepted(f: Form, fs: FileSystem, keep: bool)
    requires f.general.defaultDataSource == []
    ensures Validate(f, fs, keep) != SourceFormatDeclined
    ensures ProxyConfigured(f.network) && ExportDirUsable(f.advanced, fs) ==> Validate(f, fs, keep) == Valid
  {
  }

  /** An IPv4 address or an interface name is never questioned. */
  lemma RecognisedSourceAccepted(f: Form, fs: FileSystem, keep: bool)
    requires Ipv4Match(f.general.defaultDataSource) || InterfaceMatch(f.general.defaultDataSource)
    ensures Validate(f, fs, keep) == Validate(f, fs, true)
  {
    FormatWarningIff(f.general.defaultDataSource);
  }

  /** With the proxy off, the host text plays no part in validation. */
  lemma ProxyOffIgnoresHost(f: Form, fs: FileSystem, keep: bool, host: string)
    requires !f.network.proxyEnabled
    ensures Validate(f.(network := f.network.(proxyHost := host)), fs, keep) == Validate(f, fs, keep)
  {
  }

  /** With automatic export off, the export path and the file system play no
      part in validation. */
  lemma AutoExportOffIgnoresPath(f: Form, fs: FileSystem, fs': FileSystem, keep: bool, path: string)
    requires !f.advanced.autoExport
    ensures Validate(f.(advanced := f.advanced.(exportPath := path)), fs', keep) == Validate(f, fs, keep)
  {
  }

  /** A proxy with no host fails first, whatever else the form holds. */
  lemma MissingHostFailsFirst(f: Form, fs: FileSystem, keep: bool)
    requires f.network.proxyEnabled && f.network.proxyHost == []
    ensures Validate(f, fs, keep) == ProxyHostMissing
  {
  }

  /** The outcome of Apply: the page, the verdict, and whether
      settingsChanged is emitted. */
  datatype Applied = Applied(page: Page, verdict: Verdict, settingsChanged: bool)

  /** Apply: on a valid form the form is saved and the change announced; on
      an invalid one nothing changes. The widgets keep what they show. */
  function Apply(p: Page, fs: FileSystem, keepSuspectSource: bool): (r: Applied)
    ensures r.verdict == Validate(p.form, fs, keepSuspectSource)
    ensures r.settingsChanged <==> r.verdict == Valid
    ensures r.page.form == p.form
    ensures !r.settingsChanged ==> r.page.store == p.store
    ensures r.settingsChanged ==> r.page.store == Save(p.store, p.form)
  {
    var v := Validate(p.form, fs, keepSuspectSource);
    if v != Valid then Applied(p, v, false)
    else Applied(Page(Save(p.store, p.form), p.form), Valid, true)
  }

  /** After a successful Apply, loading the store shows the applied form. */
  lemma ApplyPersists(p: Page, fs: FileSystem, keep: bool, shown: Form, host: Host)
    requires WellFormed(p.form)
    requires Apply(p, fs, keep).settingsChanged
    ensures Load(Apply(p, fs, keep).page.store, shown, host) == p.form
  {
    SaveThenLoad(p.store, p.form, shown, host);
  }

  /** After a successful Apply, Cancel discards any later edit and shows the
      applied form again. */
  lemma CancelAfterApply(p: Page, fs: FileSystem, keep: bool, edited: Form, host: Host)
    requires WellFormed(p.form)
    requires Apply(p, fs, keep).settingsChanged
    ensures Cancel(Apply(p, fs, keep).page.(form := edited), host).page.form == p.form
  {
    CancelRestoresSaved(p.store, p.form, edited, host);
  }

  /** A failed Apply leaves what Cancel would restore unchanged. */
  lemma FailedApplyKeepsStore(p: Page, fs: FileSystem, keep: bool, host: Host)
    requires !Apply(p, fs, keep).settingsChanged
    ensures Cancel(Apply(p, fs, keep).page, host) == Cancel(p, host)
  {
  }
}
