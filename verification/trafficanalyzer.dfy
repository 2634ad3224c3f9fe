/** The traffic-analysis page: the data-source field and protocol filter,
    the start/stop/clear/export buttons, the status line, the result table
    and the system log. Log lines are kept without their timestamps. */
module TrafficAnalyzer {
  import opened Widgets

  const Protocols: seq<string> := ["全部", "TCP", "UDP", "HTTP", "HTTPS", "FTP", "SSH", "DNS"]

  const Headers: seq<string> := ["时间", "源IP", "源端口", "目标IP", "目标端口", "协议", "流量类型"]

  /** The sample rows the page starts with. */
  const SampleRows: seq<seq<string>> := [
    ["2024-01-15 10:30:45", "192.168.1.100", "8080", "10.0.0.1", "80", "HTTP", "Web浏览"],
    ["2024-01-15 10:30:46", "192.168.1.101", "443", "74.125.224.72", "443", "HTTPS", "加密Web"],
    ["2024-01-15 10:30:47", "192.168.1.102", "22", "10.0.0.2", "22", "SSH", "远程登录"],
    ["2024-01-15 10:30:48", "192.168.1.103", "53", "8.8.8.8", "53", "DNS", "域名解析"],
    ["2024-01-15 10:30:49", "192.168.1.104", "21", "192.168.1.200", "21", "FTP", "文件传输"]
  ]

  // The statistics line: the fixed text shown with the sample rows, and the
  // zeroed text shown before them and after clearing.
  const SampleStats := "总计: 5 个包 | TCP: 3 | UDP: 1 | HTTP: 1"
  const ZeroStats := "总计: 0 个包 | TCP: 0 | UDP: 0 | HTTP: 0"

  /** The status line: 就绪, 正在分析..., 已停止. */
  datatype Status = Ready | Analyzing | Stopped

  /** One line of the system log, without its time of day. */
  datatype LogLine =
    | StartupLine                                  // 系统启动完成，等待开始分析...
    | StartedLine(source: string, protocol: string) // 开始分析数据源: …, 协议过滤: …
    | StoppedLine                                  // 分析已停止
    | ClearedLine                                  // 结果已清空
    | ExportedLine(fileName: string)               // 结果已导出: …

  datatype Panel = Panel(
    source: string,
    protocol: string,
    startEnabled: bool,
    stopEnabled: bool,
    progressVisible: bool,
    status: Status,
    rows: seq<seq<string>>,
    stats: string,
    log: seq<LogLine>)

  /** Every row has one cell per column. */
  predicate TableShaped(rows: seq<seq<string>>) {
    forall i :: 0 <= i < |rows| ==> |rows[i]| == |Headers|
  }

  /** Exactly one of start and stop is enabled; the progress bar and the
      "analysing" status show exactly while stop is enabled; the table keeps
      its seven columns and the filter is one of its items. */
  predicate Coherent(p: Panel) {
    && (p.startEnabled <==> !p.stopEnabled)
    && (p.progressVisible <==> p.stopEnabled)
    && (p.status == Analyzing <==> p.stopEnabled)
    && TableShaped(p.rows)
    && p.protocol in Protocols
  }

  /** The page as constructed: start enabled, stop disabled, progress hidden,
      the five sample rows of seven columns, one startup log line. */
  function Initial(): (p: Panel)
    ensures p.startEnabled && !p.stopEnabled && !p.progressVisible
    ensures |p.rows| == 5 && TableShaped(p.rows)
    ensures p.log == [StartupLine]
    ensures Coherent(p)
  {
    Panel("", "全部", true, false, false, Ready, SampleRows, SampleStats, [StartupLine])
  }

  /** Typing in the data-source field. */
  function EditSource(p: Panel, text: string): (r: Panel)
    ensures r.source == text
    ensures r.(source := p.source) == p
  {
    p.(source := text)
  }

  /** Choosing a protocol filter; the combo box only accepts its items. */
  function SelectProtocol(p: Panel, text: string): (r: Panel)
    ensures r.protocol == (if text in Protocols then text else p.protocol)
    ensures r.(protocol := p.protocol) == p
  {
    p.(protocol := ComboSelect(Protocols, text, p.protocol))
  }

  /** Start: an empty data source only raises a warning. Otherwise start is
      disabled, stop enabled, the progress bar shown, and one line naming the
      source and the filter is logged. */
  function Start(p: Panel): (r: Panel)
    ensures p.source == [] ==> r == p
    ensures p.source != [] ==>
      && !r.startEnabled && r.stopEnabled && r.progressVisible && r.status == Analyzing
      && r.log == p.log + [StartedLine(p.source, p.protocol)]
      && r.rows == p.rows && r.stats == p.stats
      && r.source == p.source && r.protocol == p.protocol
  {
    if p.source == [] then p
    else p.(startEnabled := false, stopEnabled := true, status := Analyzing, progressVisible := true,
            log := p.log + [StartedLine(p.source, p.protocol)])
  }

  /** Stop: start enabled, stop disabled, progress hidden, one line logged. */
  function Stop(p: Panel): (r: Panel)
    ensures r.startEnabled && !r.stopEnabled && !r.progressVisible && r.status == Stopped
    ensures r.log == p.log + [StoppedLine]
    ensures r.rows == p.rows && r.stats == p.stats
    ensures r.source == p.source && r.protocol == p.protocol
  {
    p.(startEnabled := true, stopEnabled := false, status := Stopped, progressVisible := false,
       log := p.log + [StoppedLine])
  }

  /** Clear: no rows, zeroed statistics, one line logged; buttons, progress
      and status are untouched. */
  function Clear(p: Panel): (r: Panel)
    ensures r.rows == [] && r.stats == ZeroStats
    ensures r.log == p.log + [ClearedLine]
    ensures r.(rows := p.rows, stats := p.stats, log := p.log) == p
  {
    p.(rows := [], stats := ZeroStats, log := p.log + [ClearedLine])
  }

  /** Export: `fileName` is the name chosen in the save dialog, empty when
      it was cancelled. A chosen name is logged; the table never changes. */
  function Export(p: Panel, fileName: string): (r: Panel)
    ensures fileName == [] ==> r == p
    ensures fileName != [] ==> r.log == p.log + [ExportedLine(fileName)]
    ensures r.(log := p.log) == p
  {
    if fileName == [] then p else p.(log := p.log + [ExportedLine(fileName)])
  }

  /** What the user can do on the page. A disabled button cannot be clicked. */
  datatype Action =
    | SourceEdited(text: string)
    | ProtocolSelected(text: string)
    | StartClicked
    | StopClicked
    | ClearClicked
    | ExportClicked(fileName: string)

  function Step(p: Panel, a: Action): (r: Panel)
    ensures a == StartClicked && !p.startEnabled ==> r == p
    ensures a == StopClicked && !p.stopEnabled ==> r == p
    ensures a == StartClicked && p.startEnabled ==> r == Start(p)
    ensures a == StopClicked && p.stopEnabled ==> r == Stop(p)
    ensures a == ClearClicked ==> r == Clear(p)
    ensures a.SourceEdited? ==> r == EditSource(p, a.text)
    ensures a.ProtocolSelected? ==> r == SelectProtocol(p, a.text)
    ensures a.ExportClicked? ==> r == Export(p, a.fileName)
  {
    match a
    case SourceEdited(t) => EditSource(p, t)
    case ProtocolSelected(t) => SelectProtocol(p, t)
    case StartClicked => if p.startEnabled then Start(p) else p
    case StopClicked => if p.stopEnabled then Stop(p) else p
    case ClearClicked => Clear(p)
    case ExportClicked(f) => Export(p, f)
  }

  /** Each action keeps the panel coherent, whether or not it was clickable. */
  lemma StepPreservesCoherent(p: Panel, a: Action)
    requires Coherent(p)
    ensures Coherent(Step(p, a))
  {
  }

  /** The log only grows, by at most one line per action. */
  lemma StepExtendsLog(p: Panel, a: Action)
    ensures |p.log| <= |Step(p, a).log| <= |p.log| + 1
    ensures Step(p, a).log[..|p.log|] == p.log
  {
  }

  function Run(p: Panel, actions: seq<Action>): Panel
    decreases |actions|
  {
    if actions == [] then p else Run(Step(p, actions[0]), actions[1..])
  }

  /** Along any sequence of actions the panel stays coherent and the log is
      only appended to, one line at most per action. */
  lemma {:induction false} RunKeepsCoherentAndLog(p: Panel, actions: seq<Action>)
    requires Coherent(p)
    ensures Coherent(Run(p, actions))
    ensures p.log <= Run(p, actions).log
    ensures |Run(p, actions).log| <= |p.log| + |actions|
    decreases |actions|
  {
    if actions != [] {
      var q := Step(p, actions[0]);
      StepPreservesCoherent(p, actions[0]);
      StepExtendsLog(p, actions[0]);
      RunKeepsCoherentAndLog(q, actions[1..]);
    }
  }

  /** From the page as constructed, start and stop are never both enabled
      and the log always begins with the startup line. */
  lemma FromInitial(actions: seq<Action>)
    ensures var p := Run(Initial(), actions);
      && (p.startEnabled <==> !p.stopEnabled)
      && |p.log| >= 1 && p.log[0] == StartupLine
  {
    RunKeepsCoherentAndLog(Initial(), actions);
  }
}
