/** The rkt backend: its pods, its reading of command lines and the effect of its commands. rkt itself
    is not part of rktlet; what it may answer freely is passed in as an Answer. */
module Rkt {
  import opened Wrappers
  import opened Lists
  import opened Flags
  import opened FlagNames
  import opened Annotations
  import opened Network
  import opened StopErrors
  import Cri

  // ----- state -----

  /** What rkt reports about an app besides its name, annotations and labels. */
  datatype Report = Report(
    state: string, createdAt: Option<int>, startedAt: Option<int>, finishedAt: Option<int>,
    exitCode: Option<int>, imageID: string, mounts: seq<Cri.Mount>)

  datatype App = App(name: string, report: Report, annotations: map<string, string>, labels: map<string, string>)

  datatype Pod = Pod(
    uuid: string, state: string, createdAt: Option<int>, networks: seq<NetInfo>,
    annotations: map<string, string>, labels: map<string, string>, apps: seq<App>)

  function Uuids(pods: seq<Pod>): (ids: seq<string>)
    ensures |ids| == |pods| && forall i :: 0 <= i < |pods| ==> ids[i] == pods[i].uuid
  {
    seq(|pods|, i requires 0 <= i < |pods| => pods[i].uuid)
  }

  function AppNames(apps: seq<App>): (names: seq<string>)
    ensures |names| == |apps| && forall i :: 0 <= i < |apps| ==> names[i] == apps[i].name
  {
    seq(|apps|, i requires 0 <= i < |apps| => apps[i].name)
  }

  predicate IsHex(c: char) { '0' <= c <= '9' || 'a' <= c <= 'f' }

  /** rkt's pod UUIDs: hexadecimal digits in groups of 8, 4, 4, 4 and 12, joined by dashes. */
  predicate IsUuid(s: string)
  {
    |s| == 36 && forall i :: 0 <= i < |s| ==>
      if i == 8 || i == 13 || i == 18 || i == 23 then s[i] == '-' else IsHex(s[i])
  }

  // ----- command lines -----

  datatype Instruction =
    | AddApp(pod: string, image: string, more: seq<string>, name: string, annotations: seq<string>, labels: seq<string>)
    | StartApp(pod: string, app: string)
    | StopApp(pod: string, app: string)
    | RemoveApp(pod: string, app: string)
    | AppStatus(pod: string, app: string)
    | StopPod(pod: string)
    | RemovePod(pod: string)
    | PodStatus(pod: string, waitReady: bool)
    | ListPods
    | RunPod(annotations: seq<string>, labels: seq<string>)
    | Malformed

  function LastOf(values: seq<string>): string { if values == [] then "" else values[|values| - 1] }

  function ReadAppVerb(verb: string, pod: string, app: string): Instruction
  {
    if verb == "start" then StartApp(pod, app)
    else if verb == "stop" then StopApp(pod, app)
    else if verb == "rm" then RemoveApp(pod, app)
    else if verb == "status" then AppStatus(pod, app)
    else Malformed
  }

  function ReadPodVerb(verb: string, pod: string, waitReady: bool): Instruction
  {
    if verb == "stop" then StopPod(pod)
    else if verb == "rm" then RemovePod(pod)
    else if verb == "status" then PodStatus(pod, waitReady)
    else Malformed
  }

  /** rkt's reading of the arguments after its own name: the subcommand and its operands are words, and
      flags may stand anywhere before the first `--`. */
  function ReadInstruction(args: seq<string>): Instruction
  {
    var w := Words(args);
    if w == ["list"] then ListPods
    else if |w| == 2 && w[0] == "app" && w[1] == "sandbox" then
      RunPod(Values(USER_ANNOTATION, args), Values(USER_LABEL, args))
    else if |w| == 2 then ReadPodVerb(w[0], w[1], Values(WAIT_READY, args) != [])
    else if |w| == 3 && w[0] == "app" then ReadAppVerb(w[1], w[2], LastOf(Values(APP, args)))
    else if |w| >= 4 && w[0] == "app" && w[1] == "add" then
      AddApp(w[2], w[3], w[4..], LastOf(Values(NAME, args)), Values(USER_ANNOTATION, args), Values(USER_LABEL, args))
    else Malformed
  }

  // ----- effects -----

  /** What rkt decides on its own when it runs a command: whether it refuses (and with what output), the
      text around its messages, where it lists a new entry, what it reports, whether a pod got ready in
      time, and whether it minds operands it has no use for. */
  datatype Answer = Answer(
    refusal: Option<string>, before: string, after: string, position: nat, report: Report, ready: bool, strict: bool,
    uuid: string, podState: string, createdAt: Option<int>, networks: seq<NetInfo>, lines: seq<string>)

  datatype Output = Lines(lines: seq<string>) | OneApp(app: App) | OnePod(pod: Pod) | AllPods(pods: seq<Pod>)

  /** Success with its output, or failure with the text rkt printed. */
  datatype Outcome = Success(output: Output) | Failure(text: string)

  function Stopped(r: Report): Report { if r.state == "running" then r.(state := "exited") else r }

  function StopApps(apps: seq<App>): (r: seq<App>)
    ensures |r| == |apps|
    ensures forall i :: 0 <= i < |apps| ==> r[i] == apps[i].(report := Stopped(apps[i].report))
  {
    seq(|apps|, i requires 0 <= i < |apps| => apps[i].(report := Stopped(apps[i].report)))
  }

  function SetApp(pods: seq<Pod>, i: nat, j: nat, report: Report): seq<Pod>
    requires i < |pods| && j < |pods[i].apps|
  {
    pods[i := pods[i].(apps := pods[i].apps[j := pods[i].apps[j].(report := report)])]
  }

  function MissingText(id: string, a: Answer): string { a.before + Quoted(MISSING_PRE, id, MISSING_POST) + a.after }

  function StoppedText(id: string, a: Answer): string { a.before + Quoted(STOPPED_PRE, id, STOPPED_POST) + a.after }

  predicate OnApp(ins: Instruction) { ins.StartApp? || ins.StopApp? || ins.RemoveApp? || ins.AppStatus? }

  /** The effect of a command on app `j` of pod `i`. */
  function AppEffect(pods: seq<Pod>, i: nat, j: nat, ins: Instruction, a: Answer): (seq<Pod>, Outcome)
    requires OnApp(ins) && i < |pods| && j < |pods[i].apps|
  {
    var app := pods[i].apps[j];
    if ins.AppStatus? then (pods, Success(OneApp(app)))
    else if a.refusal.Some? then (pods, Failure(a.refusal.value))
    else if ins.RemoveApp? then
      (pods[i := pods[i].(apps := RemoveAt(pods[i].apps, j))], Success(Lines(a.lines)))
    else if ins.StartApp? then
      (SetApp(pods, i, j, app.report.(state := "running", startedAt := a.report.startedAt)), Success(Lines(a.lines)))
    else
      (SetApp(pods, i, j, app.report.(state := "exited", finishedAt := a.report.finishedAt,
                                      exitCode := a.report.exitCode)), Success(Lines(a.lines)))
  }

  /** Commands on one app of one pod. */
  function ExecOnApp(pods: seq<Pod>, ins: Instruction, a: Answer): (seq<Pod>, Outcome)
    requires OnApp(ins)
  {
    match IndexOf(Uuids(pods), ins.pod)
    case None => (pods, Failure("no such pod"))
    case Some(i) =>
      match IndexOf(AppNames(pods[i].apps), ins.app)
      case None => (pods, Failure("no such app"))
      case Some(j) => AppEffect(pods, i, j, ins, a)
  }

  /** Commands on one pod. A pod that is not running counts as stopped, and only stopped pods are removed. */
  function ExecOnPod(pods: seq<Pod>, ins: Instruction, a: Answer): (seq<Pod>, Outcome)
    requires ins.StopPod? || ins.RemovePod? || ins.PodStatus?
  {
    match IndexOf(Uuids(pods), ins.pod)
    case None => (pods, Failure(MissingText(ins.pod, a)))
    case Some(i) =>
      if ins.PodStatus? then
        (pods, if ins.waitReady && !a.ready then Failure("not ready") else Success(OnePod(pods[i])))
      else if ins.StopPod? && pods[i].state != "running" then (pods, Failure(StoppedText(ins.pod, a)))
      else if a.refusal.Some? then (pods, Failure(a.refusal.value))
      else if ins.StopPod? then
        (pods[i := pods[i].(state := "exited", apps := StopApps(pods[i].apps))], Success(Lines(a.lines)))
      else if pods[i].state == "running" then (pods, Failure("pod is running"))
      else (RemoveAt(pods, i), Success(Lines(a.lines)))
  }

  /** A new app; its name must be free in the pod. */
  function AddTo(pods: seq<Pod>, pod: string, app: App, a: Answer): (seq<Pod>, Outcome)
  {
    match IndexOf(Uuids(pods), pod)
    case None => (pods, Failure("no such pod"))
    case Some(i) =>
      if app.name in AppNames(pods[i].apps) then (pods, Failure("app name already in use"))
      else if a.refusal.Some? then (pods, Failure(a.refusal.value))
      else (pods[i := pods[i].(apps := InsertAt(pods[i].apps, a.position, app))], Success(Lines(a.lines)))
  }

  function ExecAddApp(pods: seq<Pod>, ins: Instruction, a: Answer): (seq<Pod>, Outcome)
    requires ins.AddApp?
  {
    if a.strict && ins.more != [] then (pods, Failure("must give only one app"))
    else
      AddTo(pods, ins.pod,
            App(ins.name, a.report, ReadPairs(map[], ins.annotations), ReadPairs(map[], ins.labels)), a)
  }

  /** A new pod, under a UUID not in use. */
  function ExecRunPod(pods: seq<Pod>, ins: Instruction, a: Answer): (seq<Pod>, Outcome)
    requires ins.RunPod?
  {
    if a.refusal.Some? then (pods, Failure(a.refusal.value))
    else if !IsUuid(a.uuid) || a.uuid in Uuids(pods) then (pods, Failure("no uuid"))
    else
      var pod := Pod(a.uuid, a.podState, a.createdAt, a.networks, ReadPairs(map[], ins.annotations),
                     ReadPairs(map[], ins.labels), []);
      (InsertAt(pods, a.position, pod), Success(Lines(a.lines)))
  }

  /** Pods and apps change on their own. */
  function DriftPod(pods: seq<Pod>, uuid: string, state: string): seq<Pod>
  {
    match IndexOf(Uuids(pods), uuid) case None => pods case Some(i) => pods[i := pods[i].(state := state)]
  }

  function DriftApp(pods: seq<Pod>, uuid: string, app: string, report: Report): seq<Pod>
  {
    match IndexOf(Uuids(pods), uuid)
    case None => pods
    case Some(i) =>
      match IndexOf(AppNames(pods[i].apps), app) case None => pods case Some(j) => SetApp(pods, i, j, report)
  }

  function Exec(pods: seq<Pod>, args: seq<string>, a: Answer): (seq<Pod>, Outcome)
  {
    var ins := ReadInstruction(args);
    match ins
    case AddApp(_, _, _, _, _, _) => ExecAddApp(pods, ins, a)
    case StartApp(_, _) => ExecOnApp(pods, ins, a)
    case StopApp(_, _) => ExecOnApp(pods, ins, a)
    case RemoveApp(_, _) => ExecOnApp(pods, ins, a)
    case AppStatus(_, _) => ExecOnApp(pods, ins, a)
    case StopPod(_) => ExecOnPod(pods, ins, a)
    case RemovePod(_) => ExecOnPod(pods, ins, a)
    case PodStatus(_, _) => ExecOnPod(pods, ins, a)
    case ListPods => (pods, Success(AllPods(pods)))
    case RunPod(_, _) => ExecRunPod(pods, ins, a)
    case Malformed => (pods, Failure("usage"))
  }
}
