/** The records of internal/migrate: inventory, specification, plan and per-workload progress. */
module MigrationTypes {
  import opened Text

  /** Text operations the model leaves open; every result holds for any choice of them. */
  datatype TextRules = TextRules(
    lower: string -> string,
    equalFold: (string, string) -> bool,
    matchPattern: (string, string) -> bool)

  /** `nics` holds the network each interface is connected to. */
  datatype VM = VM(
    id: string, name: string, folder: string, tags: map<string, string>, powerState: string, disks: nat,
    nics: seq<string>)

  datatype Network = Network(name: string, vlan: int)

  /** What discovery found: the source's VMs and the target's networks. */
  datatype Inventory = Inventory(vms: seq<VM>, networks: seq<Network>)

  datatype Criteria = Criteria(
    namePattern: string, tags: map<string, string>, folder: string, powerState: string, exclude: seq<string>)

  datatype Overrides = Overrides(
    targetHost: string, targetStorage: string, networkMap: map<string, string>, storageMap: map<string, string>,
    dependencies: seq<string>)

  datatype Selector = Selector(criteria: Criteria, overrides: Overrides)

  /** Time zero stands for an unset bound. */
  datatype Window = Window(notBefore: int, notAfter: int)

  datatype Approval = Approval(required: bool, approvedBy: string) {
    predicate Approved() {
      !required || TrimSpace(approvedBy) != ""
    }
  }

  datatype WaveStrategy = WaveStrategy(size: int, dependencyAware: bool)

  datatype Options = Options(
    dryRun: bool, parallel: int, shutdownSource: bool, verifyBoot: bool, window: Window, approval: Approval,
    waves: WaveStrategy)

  datatype Spec = Spec(
    name: string, defaultHost: string, defaultStorage: string, workloads: seq<Selector>, options: Options)

  datatype PlannedWorkload = PlannedWorkload(
    vmId: string, name: string, dependencies: seq<string>, targetHost: string, targetStorage: string,
    networkMap: map<string, string>)

  datatype Wave = Wave(index: nat, reason: string, workloads: seq<PlannedWorkload>, dependencyAware: bool)

  datatype Plan = Plan(
    total: nat, window: Window, requiresApproval: bool, approvalSatisfied: bool, strategy: WaveStrategy,
    waves: seq<Wave>)

  datatype PlanError =
    | UnknownDependency(workload: string, dependency: string)
    | SelfDependency(workload: string)
    | DependencyCycle

  datatype Phase = PlanPhase | Export | Convert | Import | Configure | Verify | Complete | Failed | RolledBack

  datatype Workload = Workload(
    vm: VM, phase: Phase, sourcePaths: seq<string>, convertedPaths: seq<string>, targetId: string,
    networkMap: map<string, string>, error: string)

  function VMs(ws: seq<Workload>): (r: seq<VM>)
    ensures |r| == |ws| && forall i :: 0 <= i < |r| ==> r[i] == ws[i].vm
  {
    seq(|ws|, i requires 0 <= i < |ws| => ws[i].vm)
  }

  /** plan.go's workloadKey. */
  function WorkloadKey(vm: VM): string {
    if TrimSpace(vm.id) != "" then vm.id else vm.name
  }

  function KeyOf(w: Workload): string {
    WorkloadKey(w.vm)
  }

  /** The deduplication key of matcher.go, which tests the identifier without trimming it. */
  function MatchKey(vm: VM): string {
    if vm.id == "" then vm.name else vm.id
  }
}
