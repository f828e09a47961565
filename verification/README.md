# rktlet, modelled in Dafny

rktlet answers the Kubernetes Container Runtime Interface (CRI) by running `rkt`. It keeps no database: a
container's identity lives in an app name, a sandbox's metadata in `key=value` annotations, and every request
and answer passes through an argument list or a printed text. The model follows that loop end to end and
proves that it behaves like a CRI runtime that does keep a database.

## How the model is built

- `Text`, `AcName`, `Identity`, `Annotations`, `Flags`, `Ports`, `Volumes`, `Paths`, `Cpu`, `Network`, `ImageNames`,
  `StopErrors`, `Systemd`, `Cli`: the encodings, each with a decoder written independently of the encoder.
- `AppAdd` and `AppSandbox` say what the two long command lines mean to a reader that knows only flags and
  words; `AppAddBuilder` and `AppSandboxBuilder` are the loops that append the arguments one by one. `ContainerRequests`
  and `SandboxRequests` say it in terms of the request alone: which flag, by name, has which value. `SandboxOptions`
  covers the flags that a sandbox command prints a second time behind the global ones.
- `Rkt` is the backend: pods, apps, a reading of command lines into instructions, and their effects.
- `ConversionHeap` converts pods and apps as rktlet does, deleting reserved keys in the map of the object;
  `Conversion` is the same on values.
- `Database` is the reference: typed sandboxes and records. `Refinement` relates it to rkt's pods, `Effects` to rkt's
  reading of each printed command.
- `Registry` is the same seen from outside: two maps, from ids to what the status calls answer, which every call
  updates and from which every reply follows. The database mirrors them after every run.
- `Runtime` holds class `RktRuntime` with one method per CRI call. Every method goes through text, and each is proved
  to answer and act as `Database` does, and to issue the command lines it should.
- `Runs` defines runs of CRI calls mixed with changes rkt makes on its own, `Ledgers` what should exist after a run and
  which request asked for it. The container ledger is computed from calls and replies alone. A sandbox can be started
  without the caller being told, so there are two statements about sandboxes: a ledger that looks at rkt's side of each
  launch, and what a caller can conclude from calls and replies. `History` proves that statuses and listings agree with
  both after any run, and `Execution` transfers this to `RktRuntime`.
- `Frames` says, call by call, what a later status call sees and what stays as it was.
- `Listing` covers container listings on any state of rkt, with foreign pods and internal apps.
- `ImageBackend`, `Images` and `ImageService` are the image half: class `ImageStore` over rkt's image store.

## Assumptions about rkt and the outside

- Pod UUIDs are well formed (hexadecimal groups joined by dashes) and a new pod gets an unused one; rkt finds pods by
  the whole UUID. A command whose operand looks like a flag is read as that flag.
- `app add` refuses an app name that is in use (docs/limitations.md:17-19). A command that fails has no effect. Beyond
  that rkt may refuse any command that changes something, with any text.
- `--user-annotation` and `--user-label` split at the first `=`; a later pair replaces an earlier one. A repeated
  flag such as `--name` or `--insecure-options` counts with its last value, and a bare `--debug` means true.
- Volumes are read by splitting at commas and then at the first `=`, environment variables at the first `=`. The
  insecure options that lift the confinement of paths are `paths`, `all-run` and `all`.
- `rkt app add` takes the first two operands behind `app add`; a further one, such as a stray empty word, it either
  ignores or refuses (`Answer.strict`). A line that names no known command, or lacks an operand, fails; so does one whose
  operands were taken for flags, even where a flag like `--help` might print something and succeed.
- A fetch prints the image id as its last line, below any number of other lines.
- JSON output is lossless and on one line, so it is carried as a value. Listings may show pods and apps in any
  order; the order is kept until something is added or removed.
- `rkt stop` of an unknown pod and of a pod that is not running prints the two messages quoted in rktlet/cli/errors.go,
  in any surrounding text. `rkt rm` removes only pods that are not running.
- systemd-run takes leading flags for itself and runs the rest.
- The AC Name sanitizer is the one of the App Container library rktlet vendors: lower case, dashes for everything else
  that is illegal, no dashes at the edges, an error when nothing is left. A legal name is one that the library's own
  check accepts (vendor/github.com/appc/spec/schema/types/acname.go:92-104).
- The Docker reference parser is any function that rejects `docker://` names, parses what it normalized and tagged as a
  tagged reference, and does not normalize a name into an image hash (`ImageNames.Lawful`). Only the results
  that name this predicate use it; `ImageNames.LawsAreSatisfiable` shows that they are consistent.
- An image fetched by a `docker://` name records that name without the scheme; an image id is a SHA-512 hash of the
  content and so determines the manifest.
- Go's map iteration order is an arbitrary enumeration of the keys, passed as a parameter. So are file-system outcomes,
  volume names, the host name, unit names and capability lists.

## Where the code does not do what one would expect

- `RemovePodSandbox` returns an error in every case (rktlet/runtime/pod_sandbox.go:134). `RemoveError` is that error; its
  cause is missing exactly when rkt removed the pod, and only the effect on rkt is claimed.
- For the seccomp profile `docker/default` an empty argument is printed (rktlet/runtime/helpers.go:310). rkt sees one
  operand more than an image (`ContainerRequests.SeccompAsRequested`, `Commands.AddLine`); when rkt minds (`Database.Minded`), creating
  such a container fails, and otherwise it is like any other create.
- When the temporary file cannot be created, its name is asked for before the error is looked at
  (rktlet/runtime/pod_sandbox.go:41-43), which ends the call; nothing was started and nobody gets an id.
- A map with `=` in a key is not read back (`Annotations.WireExactIff`), and what arrives can depend on the iteration
  order (`Annotations.OrderIrrelevantIff`; `Annotations.DirtyKeysDependOnOrder` is a witness).
- A port mapping with an IPv6 host address is not read back (`Ports.PortRoundTripIff`), nor a volume with a comma in a
  path (`Volumes.VolumeRoundTripIff`), nor insecure options with commas (`Cli.ConfigRoundTripIff`).
- The CPU quota is converted correctly exactly when its thousandfold fits into 64 bits (`Cpu.RoundsDownIff`); beyond that
  a positive quota keeps its flag exactly when the wrapped product still reaches the period (`Cpu.OverflowingFlagIff`;
  `Cpu.HugeQuotaLosesFlag` is a witness).
- The global `--insecure-options` also reach sandboxes, so a sandbox can be unconfined without being privileged, and a
  privileged one loses the configured options (`SandboxOptions.UnconfinedIff`).
- A sandbox whose UUID file stays empty exists and is listed although the caller got an error (`History.HandedOutIff`).
- `ImageStatus` rejects names written with `docker://`, which `PullImage` accepts (`Images.PulledIsFound`).
- The user of an image is tested the wrong way round: a number comes as a user name and a name is lost
  (`Images.UserToldIff`).
- A sanitized name can miss the documented pattern of AC Names (`AcName.SanitizedMatchesIff`; `AcName.DoubleUnderscore`
  is a witness); the library itself accepts it.
- The default log directory is named after the pod only for a uid whose components are ordinary
  (`Paths.DefaultDirectoryIff`).
- Names that differ in letter case name the same container (docs/limitations.md:17-19, `Identity.CaseCollision`).
- The comments above `parseContainerID` and `parseAppName` show a colon between attempt and name; the code uses a dash.

## Model

| member | source | states |
|---|---|---|
| Execution.ExecuteThenList | rktlet/runtime/rkt_runtime.go:128-254 | Conservation on the text level: after any run of CRI calls against rkt from an empty state, with pods and containers changing on their own in between, ListContainers shows each created container that was neither removed nor lost with its sandbox exactly once, with the attempt, sanitized name, image, labels and annotations of its request, and nothing else, by calls and replies alone; ListPodSandbox shows every sandbox handed out and not removed with the metadata and labels of its request, and apart from these only sandboxes whose launch never showed its UUID to the poller |
| Execution.ExecuteThenAsk | rktlet/runtime/rkt_runtime.go:100-254 | After any run and for any text, ContainerStatus knows the container if and only if the text parses and its normalized form was created and not removed since, by calls and replies alone, and then shows it as requested; the whole status is the entry of a map that every call updates, and all replies follow from the maps |
| Execution.ExecuteThenAskSandbox | rktlet/runtime/pod_sandbox.go:38-164 | After any run PodSandboxStatus knows every sandbox handed out and not removed, as its request said, and apart from these only sandboxes whose launch never showed its UUID; the whole status is the entry of the map of sandboxes |
| Execution.ExecuteThenListByState | rktlet/runtime/rkt_runtime.go:157-240 | After any run and a start or stop that succeeded, listing by state shows the container in the one state the call brought it to and in no other |
| Execution.Execute | rktlet/runtime/rkt_runtime.go:100-254 | Refinement over whole runs: replies and final state are those of the typed database |
| History.ContainersAreConserved | rktlet/runtime/rkt_runtime.go:184-240 | For every run, the unfiltered listing shows exactly the containers of the create, remove and sandbox removal replies, once each, as requested, and each as ContainerStatus shows it |
| History.SandboxesAreConserved | rktlet/runtime/pod_sandbox.go:166-207 | For every run, the sandboxes rkt started and that were not removed are listed once each, with exactly their metadata and labels and as PodSandboxStatus shows them; the ledger looks at rkt's side of each launch |
| History.ListingMatchesReplies | rktlet/runtime/pod_sandbox.go:38-207 | For every run, by calls and replies: each id handed out and not told removed is listed as its request said, and any other listed sandbox is a launch whose UUID the poller never saw |
| History.StatusesMatchHistory | rktlet/runtime/rkt_runtime.go:100-126 | For every run and every text taken for an ID, both status calls answer what the maps of statuses hold, know exactly what the ledgers hold, and show it as requested |
| Registry.StepMirrors | rktlet/runtime/rkt_runtime.go:128-254 | Every call, whatever rkt answers, replies what two maps of statuses imply and updates them: the database, its order and its encodings show in nothing else; ids stay unique and keys valid |
| Ledgers.StepFits | rktlet/runtime/rkt_runtime.go:128-254 | Every call and every change on its own keeps the maps of statuses and the ledgers of requests in agreement |
| Ledgers.ArrivedExactIff | rktlet/runtime/helpers.go:168-183 | What is shown of a request's labels and annotations is exactly what was sent if and only if no key has `=` and, for annotations, none is reserved |
| History.HandedOutIff | rktlet/runtime/pod_sandbox.go:70-97 | A sandbox id is handed out if and only if rkt started the sandbox and the UUID showed up within the first hundred attempts; otherwise a started sandbox exists and nobody was told |
| History.StopTwice | rktlet/runtime/pod_sandbox.go:100-120 | After a stop that went through, a further stop succeeds whatever rkt answers and leaves the state of one stop |
| History.CreatedIsKnown | rktlet/runtime/rkt_runtime.go:128-155 | The id CreateContainer returns is understood by ContainerStatus, which shows the requested attempt, sanitized name, image and, for clean keys, labels and annotations, and the container as created when rkt says so |
| Frames.VerbIsVisible | rktlet/runtime/rkt_runtime.go:157-182 | A started container runs since the reported time, a stopped one exited with the reported time and code, a removed one is unknown; nothing else about it changes |
| Frames.VerbLeavesOthers | rktlet/runtime/rkt_runtime.go:157-182 | Start, stop and remove leave every other container's status alone |
| Frames.CreateLeavesOthers | rktlet/runtime/rkt_runtime.go:128-155 | Creating leaves every container with another ID alone |
| Frames.StopIsVisible | rktlet/runtime/pod_sandbox.go:100-120 | Stopping a sandbox makes exactly its own running containers exit |
| Frames.RemovalIsVisible | rktlet/runtime/pod_sandbox.go:127-135 | Removing a sandbox takes its containers along and nobody else's |
| Frames.RunIsVisible | rktlet/runtime/pod_sandbox.go:38-98 | A new sandbox starts without containers and disturbs none |
| Runtime.RktRuntime.CreateContainer | rktlet/runtime/rkt_runtime.go:128-155 | Printing, rkt's reading and its effect together create the record the database creates, or fail with it; the returned ID is the database's; the one command issued is the one printed for the request and the canonical image name |
| Runtime.RktRuntime.StartContainer | rktlet/runtime/rkt_runtime.go:157-168 | Acts and succeeds as the database does, for any text given as an ID, by exactly one `app start` with the app of the ID, or none when it does not parse |
| Runtime.RktRuntime.StopContainer | rktlet/runtime/rkt_runtime.go:170-182 | Likewise, by `app stop` |
| Runtime.RktRuntime.RemoveContainer | rktlet/runtime/rkt_runtime.go:242-254 | Likewise, by `app rm` |
| Runtime.RktRuntime.ContainerStatus | rktlet/runtime/rkt_runtime.go:100-126 | On any state of rkt the answer is the one the lookup gives, and on states rktlet made it is the database's; nothing changes, and at most one `app status` is issued |
| Runtime.RktRuntime.ListContainers | rktlet/runtime/rkt_runtime.go:184-240 | The nested loops with their three skips give the specified listing on any state of rkt, and the database's on states rktlet made; with a filter, exactly the listed containers that agree with each of its restrictions |
| Runtime.RktRuntime.RunPodSandbox | rktlet/runtime/pod_sandbox.go:38-98 | State, id and error are the database's, through the temporary file, systemd, the command line, the polling and the status call; systemd is given exactly the printed command, in the slice of the request |
| Runtime.PollUuidFile | rktlet/runtime/pod_sandbox.go:70-86 | The bounded loop succeeds exactly when the first attempt that is not empty is a successful read among the first hundred |
| Runtime.RktRuntime.StopPodSandbox | rktlet/runtime/pod_sandbox.go:100-125 | Success and effect are the database's; tolerated errors are recognised through the text RunCommand wraps around them; it succeeds if and only if the sandbox is known and rkt does not refuse to stop it while it runs for a reason that is not tolerated, and a failure changes nothing |
| Runtime.RktRuntime.RemovePodSandbox | rktlet/runtime/pod_sandbox.go:127-135 | A stop with `--force=true` first and `rm` last: the effect is the database's, and the error that is always returned lacks a cause exactly when the pod is gone |
| Runtime.RktRuntime.PodSandboxStatus | rktlet/runtime/pod_sandbox.go:137-164 | Asks with `--wait-ready=10s` and, after a failure only, once more without; whether or not the pod gets ready in time, the status is the database's |
| Runtime.RktRuntime.ListPodSandbox | rktlet/runtime/pod_sandbox.go:166-207 | On any state the listing loop over self-mutating conversions gives the specified listing, errors included; on states rktlet made it never fails; with a filter, exactly the sandboxes that agree with each of its restrictions |
| Runtime.RktRuntime.StartProcess | rktlet/cli/init.go:65-92 | systemd is given the whole launch command, and rkt executes exactly the given command, whenever that starts with a word, unless the cgroup parent is not convertible; then nothing happens |
| Refinement.OnContainerAgrees | rktlet/runtime/rkt_runtime.go:157-182 | rkt's effect on an app and the database's effect on a container keep the representation and succeed together |
| Refinement.LocatedIff | rktlet/runtime/helpers.go:70-109 | In a database an ID leads to a record if and only if its app name is exactly the name of the record's key, so the search for a text is a search for the key |
| Refinement.CreateAgrees | rktlet/runtime/rkt_runtime.go:140-154 | The stored app encodes the record: key in the name, image in a reserved annotation, user data in the rest |
| Refinement.RunAgrees | rktlet/runtime/helpers.go:481-501 | The stored pod encodes the sandbox: metadata in reserved annotations, user data in the rest |
| Refinement.StopAgrees | rktlet/runtime/pod_sandbox.go:100-120 | Stopping keeps the representation, and for known sandboxes success and toleration of the error agree with the database |
| Refinement.EveryRecordIsShown | rktlet/runtime/rkt_runtime.go:208-231 | No container rktlet created is hidden by the internal prefix or dropped by the skip on errors |
| Refinement.ContainerListingAgrees | rktlet/runtime/rkt_runtime.go:200-237 | On represented states the listing of rkt's apps is the listing of the records, for every filter |
| Refinement.SandboxListingAgrees | rktlet/runtime/pod_sandbox.go:181-204 | On represented states no pod spoils the listing, and each is listed as recorded |
| Listing.ListingCommutesWithFilter | rktlet/runtime/helpers.go:596-616 | On every state, listing containers with a filter is filtering the unfiltered listing in the same order |
| Listing.FilteredIff | rktlet/runtime/helpers.go:596-616 | On every state a container is in the filtered listing if and only if it is in the unfiltered one and agrees with the given id, state and sandbox and with every selected label |
| Listing.StatusInFull | rktlet/runtime/helpers.go:111-162 | On every state a shown status has the identity of its app's name, the state that rkt's word stands for, unknown for any other word, its times and exit code or zero, its image, labels, mounts and unreserved annotations |
| Listing.LargerSelectorShrinks | rktlet/runtime/helpers.go:609-614 | Enlarging the label selector gives the old listing filtered further |
| Listing.ListedIffVisible | rktlet/runtime/rkt_runtime.go:202-219 | On every sound state of rkt the listing shows exactly the apps of Kubernetes pods that are not internal and whose names parse |
| Listing.InternalAppsAreHidden | rktlet/runtime/rkt_runtime.go:208-211 | An app with the internal prefix is in no listing, whatever the filter |
| Conversion.ListingCommutesWithFilter | rktlet/runtime/helpers.go:669-692 | The same for sandboxes, with the same failures |
| Conversion.FilteredIff | rktlet/runtime/helpers.go:669-692 | The same for sandboxes: id, readiness and labels |
| Conversion.StatusInFull | rktlet/runtime/helpers.go:508-561 | A shown sandbox is ready exactly when its pod runs, and has its creation time or zero, preferred address, labels, reserved metadata and unreserved annotations |
| Conversion.LargerSelectorShrinks | rktlet/runtime/helpers.go:681-689 | The same for sandbox label selectors |
| ConversionHeap.ListPodObjects | rktlet/runtime/pod_sandbox.go:181-204 | Although each conversion deletes from the pod's own map, for pods with separate maps the result is the order-preserving filter-then-map over the pods as they were |
| ConversionHeap.ConvertTwice | rktlet/runtime/helpers.go:508-561 | Converting the same pod object twice: after a success it is no Kubernetes pod any more and the second conversion fails, a failure changes nothing, and every entry that is not reserved is kept |
| ConversionHeap.GetKubernetesAnnotations | rktlet/runtime/helpers.go:168-178 | The caller's own map loses exactly the reserved keys and is itself the result, or nil for an empty map |
| ConversionHeap.ToPodSandboxStatus | rktlet/runtime/helpers.go:533-561 | Metadata is taken before the deletion; a failed conversion leaves the map alone |
| ConversionHeap.ToContainerStatusObject | rktlet/runtime/helpers.go:111-162 | The image name is taken before the deletion; the app's own map is stripped, unless its name does not parse |
| Identity.IdentityRoundTrip | rktlet/runtime/helpers.go:70-109 | From the request to the ID and back: uuid, exact app name, attempt and sanitized name |
| Identity.ContainerIDRoundTrip | rktlet/runtime/helpers.go:70-84 | An ID built from an app name reads back exactly if and only if the uuid has no colon |
| Identity.CollisionIff | rktlet/runtime/helpers.go:82-109 | Two requests get the same ID if and only if sandbox, attempt and sanitized name agree, for any sandbox ids |
| AcName.SanitizeIsCanonical | vendor/github.com/appc/spec/schema/types/acname.go:92-146 | Sanitizing yields names that the library's check accepts and fails exactly on texts without a usable character |
| AcName.SanitizedMatchesIff | vendor/github.com/appc/spec/schema/types/acname.go:26-43 | The result also matches the documented pattern if and only if no two unusable characters are neighbours between usable ones |
| AcName.FixedPointIffCanonical | vendor/github.com/appc/spec/schema/types/acname.go:92-146 | The names the check accepts are exactly the fixed points of the sanitizer |
| Annotations.WireExactIff | rktlet/runtime/helpers.go:220-226 | A map survives printing and reading, in any iteration order and whatever its values contain, if and only if no key contains `=` |
| Annotations.OrderIrrelevantIff | rktlet/runtime/helpers.go:482-487 | What arrives is the same for all iteration orders of a map if and only if no two of its entries arrive under the same key with different values |
| Annotations.DirtyKeysDependOnOrder | rktlet/runtime/helpers.go:485-487 | A map with two iteration orders that arrive differently |
| Annotations.UserAnnotationsExactIff | rktlet/runtime/helpers.go:168-178 | Users get back exactly their annotations if and only if they use no reserved key and no `=` in a key |
| Annotations.SandboxMetadataRoundTrip | rktlet/runtime/helpers.go:490-531 | Metadata is read back exactly whatever annotations come along, and leaves no trace in the user's |
| Annotations.ImageNameRoundTrip | rktlet/runtime/helpers.go:180-183 | Likewise the image name |
| AppAdd.CommandReads | rktlet/runtime/helpers.go:246-252 | For every flag and any sandbox id: a reader of the whole command finds the words and values behind the ids, preceded by what an id that looks like a flag adds, or nothing behind an id `--` |
| ContainerRequests.PairsAsRequested | rktlet/runtime/helpers.go:219-272 | Labels, annotations and environment go out pair by pair and in order under their own flags, the image name last among the annotations |
| AppAdd.ProgramSeparatedIff | rktlet/runtime/helpers.go:378-390 | What lies between the first `--` and the final `---` is exactly the program's arguments, whatever they contain, if and only if neither id is itself `--` |
| ContainerRequests.ProgramAsRequested | rktlet/runtime/helpers.go:353-391 | `--exec` is the first word of the command when there is one; its other words and the arguments stand behind the first `--`, closed by `---`; the directory and one volume per mount that is not nil, in order and in full |
| ContainerRequests.StreamsAsRequested | rktlet/runtime/helpers.go:230-259 | The name is the attempt, a dash and the sanitized name; the log goes to the requested path, else to one made of that name; all three streams are attached |
| ContainerRequests.LimitsAsRequested | rktlet/runtime/helpers.go:274-293 | Each limit arrives under its own flag exactly when it is set, and none without resources |
| ContainerRequests.SeccompAsRequested | rktlet/runtime/helpers.go:185-214 | For containers that are not privileged: the requested profile decides when there is one, else the annotation for this container, else the one for the pod, else the container is unconfined; `unconfined` and the empty text are sent as such, `docker/default` as an empty argument, anything else is refused |
| ContainerRequests.PrivilegesAsRequested | rktlet/runtime/helpers.go:299-321 | A privileged container is unconfined and keeps all capabilities, any other keeps the adjusted ones if it asked for an adjustment, and without a security context no security flag is sent |
| ContainerRequests.UserAsRequested | rktlet/runtime/helpers.go:323-345 | The user is the number if there is one, else the name, never both; the groups read back to the numbers of the request; the root is read-only as requested |
| Volumes.VolumeRoundTripIff | rktlet/runtime/helpers.go:373-374 | A volume argument reads back to its name and mount if and only if no text in it has a comma |
| Volumes.EnvRoundTripIff | rktlet/runtime/helpers.go:270-272 | An environment variable reads back if and only if its name has no `=` |
| ContainerRequests.RefusedIff | rktlet/runtime/helpers.go:230-371 | A request is refused if and only if its name has no usable character, a host path is not available, two users are given, or, without privileges, the capabilities cannot be adjusted or the seccomp profile is not known |
| AppAddBuilder.GenerateAppAddCommand | rktlet/runtime/helpers.go:216-393 | The appending loops, with their error exits, print the specified command |
| SandboxRequests.PairsAsRequested | rktlet/runtime/helpers.go:481-504 | The annotations pair by pair, then uid, name, namespace and attempt under their reserved keys; the labels pair by pair |
| SandboxRequests.NetworkAsRequested | rktlet/runtime/helpers.go:458-479 | The host's network, entries and name are used, and no port is published, if and only if the request says `true`; with `false` or nothing the sandbox is on the plugin's network with one port, in full and in order, per mapping with both numbers set |
| SandboxRequests.ResolutionAsRequested | rktlet/runtime/helpers.go:437-448 | The three lists of name resolution arrive in order, and none without them |
| SandboxRequests.FilesAsRequested | rktlet/runtime/helpers.go:406-431 | rkt is told the file that is polled, the requested log directory or the default one, and the annotated stage1 name, else the configured one, else none |
| Paths.DefaultDirectoryIff | rktlet/runtime/helpers.go:417 | The cleaned default log directory is the one named after the pod if and only if no component of the uid is empty, `.` or `..` |
| SandboxRequests.PrivilegesAsRequested | rktlet/runtime/helpers.go:450-456 | Among the sandbox's own arguments `all-run` stands exactly for a request that asks for privileges |
| SandboxOptions.InsecureOptionsSent | rktlet/cli/cli.go:162-164 | On the line rkt is given, the configured insecure options come first and the sandbox's own follow |
| SandboxOptions.UnconfinedIff | rktlet/runtime/helpers.go:450-456 | With the last list in force, paths are unconfined if and only if the sandbox is privileged or the configuration says so for all; a configured option is lost if and only if the sandbox is privileged and it is not `all-run` |
| SandboxOptions.DebugIsOn | rktlet/runtime/helpers.go:407 | `--debug` is sent as configured and then as true |
| AppSandboxBuilder.GenerateAppSandboxCommand | rktlet/runtime/helpers.go:406-504 | The appending loops print the specified command |
| Commands.AddLine | rktlet/cli/cli.go:162-164 | With the global flags slipped in, rkt still reads a create request as one app to add with its name and pairs, and the stray operand as one more |
| Commands.BadSandboxLine | rktlet/runtime/rkt_runtime.go:140-146 | A sandbox id that looks like a flag never makes rkt add an app to a pod |
| Commands.SandboxLine | rktlet/runtime/pod_sandbox.go:48-53 | rkt reads a sandbox request as one pod to run with its pairs |
| Effects.StopEffect | rktlet/runtime/pod_sandbox.go:101-113 | The printed stop command has the database's effect, and its wrapped error is classified as the database says |
| Effects.LaunchEffect | rktlet/runtime/pod_sandbox.go:48-66 | Through systemd-run the printed command starts exactly the requested sandbox, or nothing |
| Ports.PortRoundTripIff | rktlet/runtime/helpers.go:630-643 | A port argument reads back to its mapping if and only if the host address has no colon |
| Ports.PortValuesReadBack | rktlet/runtime/helpers.go:460-468 | The arguments read back to the mappings with both ports set, one by one and in order |
| Ports.PortNameIff | rktlet/runtime/helpers.go:638-640 | Two port names are equal if and only if protocol and both ports are |
| Cpu.RoundsDownIff | rktlet/runtime/helpers.go:622-627 | For every quota that is not negative and positive period: the result is the quota in thousandths of the period, rounded down, if and only if the thousandfold quota fits into 64 bits |
| Cpu.QuotaInFull | rktlet/runtime/helpers.go:622-627 | For all quotas and periods, negative and overflowing ones included, the result is the truncated quotient of a number congruent to the thousandfold quota modulo 2 to the 64, with one exception |
| Cpu.MilliCoresAdd | rktlet/runtime/helpers.go:622-627 | Larger quotas never give less, and splitting a quota loses at most one millicore |
| Cpu.CpuFlagIff | rktlet/runtime/helpers.go:281-285 | For all quotas and periods the flag is sent if and only if the wrapped thousandfold quota reaches the period with the same sign, up to the one quotient that overflows |
| Cpu.OverflowingFlagIff | rktlet/runtime/helpers.go:281-285 | A positive quota that overflows should have a flag, and has it if and only if the wrapped product still reaches the period |
| Cpu.HugeQuotaLosesFlag | rktlet/runtime/helpers.go:622-627 | A positive quota that loses its flag |
| Network.GetIP | rktlet/runtime/helpers.go:567-593 | The loop finds the first `rkt.kubernetes.io` network, else the last `default`, else the first; the address is empty if and only if there is no network |
| Network.AddressInFull | rktlet/runtime/helpers.go:567-593 | The address shown is the four numbers of the network found, joined by dots |
| Cli.ConfigRoundTripIff | rktlet/cli/cli.go:39-108 | The printed global flags read back to the configuration if and only if no insecure option contains a comma |
| Cli.GetArgumentFormOfStruct | rktlet/cli/cli.go:74-93 | The loop prints one flag per field that is tagged and not empty, in order |
| Cli.GlobalFlagsComeFirst | rktlet/cli/cli.go:162-164 | Inserting the global flags leaves the words and what follows `--`, and gives every flag its global values followed by its own |
| Cli.OutputLinesMeaning | rktlet/cli/cli.go:157 | Output always has at least one line, no line holds a newline, and the lines rejoin to the trimmed output |
| StopErrors.HasQuotedIff | rktlet/cli/errors.go:22-41 | The matchers accept exactly the texts in which the message occurs with some quoted text |
| StopErrors.ToleratedThroughWrapping | rktlet/cli/cli.go:150-154 | Without quotes in command and status, the wrapped error is tolerated if and only if rkt's output says so |
| StopErrors.RecognisedThroughWrapping | rktlet/cli/cli.go:150-154 | A recognised output stays recognised, whatever command it came from |
| Systemd.SliceNameMeaning | rktlet/cli/init.go:52-61 | An accepted cgroup parent gives its last component, free of slashes, ending in `.slice`, which converts to itself |
| Systemd.SliceAcceptedIff | rktlet/cli/init.go:52-61 | Every path is a directory part, a last component and trailing slashes; it is accepted if and only if the last component ends in `.slice`, which is then the name |
| Systemd.LaunchRunsCommand | rktlet/cli/init.go:65-86 | What systemd-run executes is exactly the given command |
| Systemd.LaunchInFull | rktlet/cli/init.go:65-86 | The whole systemd-run command: unit, environment, type, the slice exactly for a cgroup parent that is given, and the command; it fails exactly for a parent that is no slice |
| ImageNames.CanonicalIdempotent | rktlet/util/image.go:57-75 | Canonical names are canonical |
| ImageNames.FetchedName | rktlet/util/image.go:40-75 | A hash is fetched as it is, a reference with tag or digest as it was written, any other under its normalized name with `:latest`, each behind `docker://`, which may but need not be written |
| ImageNames.HashIff | rktlet/util/image.go:31 | A hash is one of four algorithm names, a dash and a text without line break |
| ImageNames.CanonicalIsOperand | rktlet/util/image.go:57-75 | Whatever the parser does, a canonical name is never read as a flag nor as a pod |
| ImageService.ImageStore.PullImage | rktlet/image/imagestore.go:214-233 | Store and reference are those of the specified pull; exactly one fetch command is issued, for the canonical name; the reference is the last of the lines into which the printed text is split |
| ImageService.PullReading | rktlet/image/imagestore.go:214-221 | The line PullImage issues makes rkt fetch exactly the reference that was written when it has a tag or digest, else its default tag |
| ImageService.LastLineIsId | rktlet/cli/cli.go:157 | However much a fetch prints before, the last line of the trimmed and split output is the image id |
| ImageService.ImageStore.RemoveImage | rktlet/image/imagestore.go:62-76 | Store and success are those of the specified removal; the last command removes the image that was found, by its id |
| ImageService.ImageStore.ImageStatus | rktlet/image/imagestore.go:81-111 | The early-exit search returns the first match of the listing; when the listing is refused that is the error, whatever the name, and otherwise the error is that of the name |
| ImageService.ImageStore.ListImages | rktlet/image/imagestore.go:114-165 | The loop, one manifest command per image, gives the specified listing, users included, for whatever set of manifests can be read |
| Images.ImageInFull | rktlet/image/imagestore.go:134-152 | A listed image has the stored id, also as digest, the stored size, and as its tag the original name with the default tag where it had none, else the name rkt has for it |
| Images.SoughtName | rktlet/image/imagestore.go:87-98 | ImageStatus looks for a hash or a reference with tag or digest as written, for any other under its normalized name with `:latest` |
| Images.UserToldIff | rktlet/image/imagestore.go:153-157 | An image tells its user, a number as uid and else as name, if and only if it has none |
| Text.ParseInt64InFull | rktlet/image/imagestore.go:153 | A user counts as a number if and only if it is digits behind at most one sign and fits 64 bits, and its uid is that number |
| ImageService.ImageStore.PullThenStatus | rktlet/image/imagestore.go:81-111 | After a successful pull of a name that is no hash, asking for it succeeds if and only if it has no `docker://`, and then finds an image as long as its manifest can be read |
| ImageService.ExecuteThenList | rktlet/image/imagestore.go:62-233 | After any run of pulls and removals, each removal preceded by the question which image it concerns, the listing shows the images that by the service's own replies were pulled and not removed since, once each |
| ImageService.ExistInSlice | rktlet/util/image.go:77-84 | The search loop decides membership |
| Images.PulledIsFound | rktlet/image/imagestore.go:186-233 | The same on values, and for every name, hash or not, the returned reference is found |
| Images.PulledStaysFound | rktlet/image/imagestore.go:62-111 | Whatever else is pulled or removed, a pulled image stays known by its reference and under its name until it is itself removed |
| Images.RemoveTakesFirstMatch | rktlet/image/imagestore.go:62-76 | A removal takes exactly the image ImageStatus returns, everything else is listed as before, and ImageStatus then returns the next match |
| Images.ImagesAreConserved | rktlet/image/imagestore.go:62-233 | For every run, stored ids are unique and agree with the ledger of the replies to pulls, questions and removals |
| Images.StatusFindsIff | rktlet/image/imagestore.go:99-110 | An image is found if and only if some stored image has the wanted id or tag |
| Images.ListingCommutesWithFilter | rktlet/image/imagestore.go:236-252 | Listing images with a filter is filtering the unfiltered listing |
| Images.FilteredIff | rktlet/image/imagestore.go:236-252 | A filtered listing shows exactly the images that carry the wanted text as tag |

## Left out

- Runtime.RktRuntime.RunPodSandbox: partial reads of the UUID file, and the time spent waiting.
- Runtime.RktRuntime.RemovePodSandbox: nothing is claimed about the error it returns beyond its cause, because the code returns one in every case.
- Execution.ExecuteThenList: runs start from an rkt that only rktlet uses; foreign pods, internal apps and unreadable names are covered by `Listing` and by `ListContainers`, `ListPodSandbox` and `ContainerStatus` on any state instead.
- AppAdd.ProgramSeparatedIff: how rkt itself would split program arguments that contain `---` is not modelled.
- Images.PulledStaysFound: of a name that is a hash only the returned reference is claimed to be found, because what a fetch by hash stores is rkt's business.
- Capability lists (`tweakCapabilities`, `getAllCapabilites`) are given lists or a given failure.
- Strings are sequences of Unicode characters; UTF-8 encoding does not appear, and error texts are shortened to their fixed parts where nothing matches on them.
- JSON encoding and its failures, and answers with more than one line: listings, statuses and manifests are carried as values; only the output of a fetch is text that is split.
- Exec, attach, port forwarding and streaming (rktlet/runtime/exec.go): plumbing without decisions of its own.
- `CLIConfig.Merge` and `With` (rktlet/cli/cli.go:110-142): they assign through reflection to a copy and are not called here.
- Startup, the gRPC server, stage1 fetching, Version and Status: wiring and constants.
- Two calls at the same time: calls are steps one after the other, with changes made by rkt in between.
