/** Which device, GPUs and workers a configuration leads to: profiles, the planner of the API parent, the planner
    that looks at the hardware, and the workers built from a plan. */
module Topology {
  import opened Messages
  import GpuList

  datatype Device = Cpu | Cuda | Auto

  datatype Profile = CpuProfile | CudaSingle | CudaReplica | AutoProfile

  datatype Config = Config(profile: Option<Profile>, device: Device, gpus: Option<seq<nat>>, workers: Option<nat>)

  datatype Fault =
    | ProfileFault
    | CpuGpuConflict
    | CpuWorkerCount
    | ExplicitGpusRequired
    | InvalidTopology
    | InvalidGpuSelection
    | Oversubscription
    | CudaUnavailable
    | InvalidPlan

  datatype Outcome<T> = Ok(value: T) | Failed(fault: Fault)

  // What the constructor of a configuration lets through.
  predicate ValidConfig(c: Config) {
    (c.gpus.Some? ==> c.gpus.value != [] && GpuList.Distinct(c.gpus.value)) && (c.workers.Some? ==> c.workers.value > 0)
  }

  /* ---- Hardware ---- */

  datatype Inventory = Inventory(cudaAvailable: bool, gpus: seq<nat>, count: nat)

  // The indices below `n` that are not listed.
  function Unlisted(n: nat, listed: seq<nat>): seq<nat> {
    if n == 0 then [] else Unlisted(n - 1, listed) + if n - 1 in listed then [] else [n - 1]
  }

  // A count above the number of listed GPUs stands for unlisted ones.
  function NewInventory(cudaAvailable: bool, listed: seq<nat>, count: Option<nat>): Option<Inventory> {
    var n := if count.Some? then count.value else |listed|;
    if !GpuList.Distinct(listed) || n < |listed| then None
    else if n == |listed| then Some(Inventory(cudaAvailable, listed, n))
    else Some(Inventory(cudaAvailable, listed + Unlisted(n, listed), n))
  }

  ghost predicate ValidInventory(inv: Inventory) {
    GpuList.Distinct(inv.gpus) && (inv.gpus == [] <==> inv.count == 0)
  }

  lemma {:induction false} UnlistedOk(n: nat, listed: seq<nat>)
    ensures var r := Unlisted(n, listed);
      GpuList.Distinct(r) && forall k :: 0 <= k < |r| ==> r[k] < n && r[k] !in listed
    ensures forall x: nat :: x < n && x !in listed ==> x in Unlisted(n, listed)
  {
    if n > 0 { UnlistedOk(n - 1, listed); }
  }

  /** Every inventory lists each GPU once, and lists one exactly when it counts one. */
  lemma InventoriesAreValid(cudaAvailable: bool, listed: seq<nat>, count: Option<nat>)
    requires NewInventory(cudaAvailable, listed, count).Some?
    ensures ValidInventory(NewInventory(cudaAvailable, listed, count).value)
  {
    var n := if count.Some? then count.value else |listed|;
    UnlistedOk(n, listed);
    if n > 0 && listed == [] { assert 0 in Unlisted(n, listed); }
  }

  /* ---- Plans ---- */

  datatype Plan = Plan(cuda: bool, selected: seq<nat>, workers: nat, workerGpus: seq<nat>)

  function Prefix(xs: seq<nat>, n: nat): seq<nat> {
    if n < |xs| then xs[..n] else xs
  }

  // The constructor of a plan.
  function NewPlan(cuda: bool, selected: seq<nat>, workers: nat, given: seq<nat>): Option<Plan> {
    var workerGpus := if cuda && given == [] then Prefix(selected, workers) else given;
    if workers == 0 || !GpuList.Distinct(selected) then None
    else if !cuda then
      if selected == [] && workerGpus == [] && workers == 1 then Some(Plan(cuda, selected, workers, workerGpus)) else None
    else if selected == [] || workers > |selected| || |workerGpus| != workers || !GpuList.Distinct(workerGpus) then None
    else if exists k :: 0 <= k < |workerGpus| && workerGpus[k] !in selected then None
    else Some(Plan(cuda, selected, workers, workerGpus))
  }

  const CPU_PLAN := Plan(false, [], 1, [])

  /* ---- Profiles ---- */

  predicate Compatible(c: Config, expected: Device) {
    c.device == Auto || c.device == expected
  }

  predicate AtMostOneWorker(c: Config) {
    c.workers.None? || c.workers.value == 1
  }

  // `probed` are the GPUs found when the configuration names none.
  function Materialize(c: Config, probed: seq<nat>): Outcome<Config> {
    if c.profile.None? then Ok(c)
    else match c.profile.value
      case CpuProfile =>
        if !Compatible(c, Cpu) || c.gpus.Some? || !AtMostOneWorker(c) then Failed(ProfileFault)
        else Ok(c.(device := Cpu, gpus := None, workers := Some(1)))
      case CudaSingle =>
        if !Compatible(c, Cuda) || (c.gpus.None? && probed == []) then Failed(ProfileFault)
        else
          var selected := if c.gpus.Some? then c.gpus.value else [probed[0]];
          if |selected| != 1 || !AtMostOneWorker(c) then Failed(ProfileFault)
          else Ok(c.(device := Cuda, gpus := Some(selected), workers := Some(1)))
      case CudaReplica =>
        var selected := if c.gpus.Some? then c.gpus.value else probed;
        if !Compatible(c, Cuda) || |selected| < 2 || (c.workers.Some? && c.workers.value != |selected|) then Failed(ProfileFault)
        else Ok(c.(device := Cuda, gpus := Some(selected), workers := Some(|selected|)))
      case AutoProfile =>
        if c.device == Cpu then
          if c.gpus.Some? || !AtMostOneWorker(c) then Failed(ProfileFault) else Ok(c.(workers := Some(1)))
        else
          var selected := if c.gpus.Some? then c.gpus.value else probed;
          if selected != [] then
            if c.workers.Some? && c.workers.value > |selected| then Failed(ProfileFault)
            else
              var workers := if c.workers.Some? then c.workers.value else |selected|;
              Ok(c.(device := Cuda, gpus := Some(selected), workers := Some(workers)))
          else if c.device == Cuda || !AtMostOneWorker(c) then Failed(ProfileFault)
          else Ok(c.(device := Cpu, gpus := None, workers := Some(1)))
  }

  /** Materialising keeps a configuration valid, and doing it again, with whatever GPUs are found then, changes nothing. */
  lemma MaterializeOnce(c: Config, probed: seq<nat>, again: seq<nat>)
    requires ValidConfig(c) && GpuList.Distinct(probed) && Materialize(c, probed).Ok?
    ensures var r := Materialize(c, probed).value;
      ValidConfig(r) && Materialize(r, again) == Ok(r)
    ensures c.profile.Some? ==> var r := Materialize(c, probed).value;
      r.workers.Some? && if r.device == Cpu then r.gpus.None? && r.workers.value == 1
                         else r.device == Cuda && r.gpus.Some? && r.workers.value <= |r.gpus.value|
  {
  }

  /* ---- The two planners ---- */

  // The API parent does not look at the hardware beyond the probe of the profile.
  function ParentPlan(config: Config, probed: seq<nat>): Outcome<Plan> {
    var materialized := Materialize(config, probed);
    if materialized.Failed? then Failed(ProfileFault)
    else
      var c := materialized.value;
      if c.device == Cpu then
        if c.gpus.Some? && c.gpus.value != [] then Failed(CpuGpuConflict)
        else if !AtMostOneWorker(c) then Failed(CpuWorkerCount)
        else CpuOutcome()
      else if c.gpus.None? || c.gpus.value == [] then Failed(ExplicitGpusRequired)
      else
        var selected := c.gpus.value;
        var workers := if c.workers.None? then |selected| else c.workers.value;
        var plan := NewPlan(true, selected, workers, Prefix(selected, workers));
        if plan.None? then Failed(InvalidTopology) else Ok(plan.value)
  }

  predicate Usable(inv: Inventory) {
    inv.cudaAvailable && inv.count > 0
  }

  predicate AllIn(xs: seq<nat>, ys: seq<nat>) {
    forall k :: 0 <= k < |xs| ==> xs[k] in ys
  }

  function CpuOutcome(): Outcome<Plan> {
    var plan := NewPlan(false, [], 1, []);
    if plan.None? then Failed(InvalidPlan) else Ok(plan.value)
  }

  function ResolveValues(device: Device, gpus: Option<seq<nat>>, limit: Option<nat>, inv: Inventory): Outcome<Plan> {
    if device == Cpu then
      if gpus.Some? then Failed(InvalidGpuSelection)
      else if limit.Some? && limit.value > 1 then Failed(Oversubscription)
      else CpuOutcome()
    else if device == Cuda && !Usable(inv) then Failed(CudaUnavailable)
    else if !Usable(inv) then
      if gpus.Some? then Failed(InvalidGpuSelection)
      else if limit.Some? && limit.value > 1 then Failed(Oversubscription)
      else CpuOutcome()
    else if gpus.Some? && !AllIn(gpus.value, inv.gpus) then Failed(InvalidGpuSelection)
    else
      var selected := if gpus.Some? then gpus.value else inv.gpus;
      if selected == [] then Failed(CudaUnavailable)
      else if limit.Some? && limit.value > |selected| then Failed(Oversubscription)
      else
        var workers := if limit.None? then |selected| else limit.value;
        var plan := NewPlan(true, selected, workers, Prefix(selected, workers));
        if plan.None? then Failed(InvalidPlan) else Ok(plan.value)
  }

  function ResolvePlan(config: Config, inv: Inventory): Outcome<Plan> {
    var materialized := Materialize(config, inv.gpus);
    if materialized.Failed? then Failed(materialized.fault)
    else ResolveValues(materialized.value.device, materialized.value.gpus, materialized.value.workers, inv)
  }

  /* ---- What they guarantee ---- */

  lemma PrefixOk(xs: seq<nat>, n: nat)
    requires GpuList.Distinct(xs) && 0 < n <= |xs|
    ensures NewPlan(true, xs, n, Prefix(xs, n)) == Some(Plan(true, xs, n, xs[..n]))
  {
    assert Prefix(xs, n) == xs[..n];
    assert forall k :: 0 <= k < n ==> xs[..n][k] in xs;
  }

  /** A plan that either planner returns is one CPU worker, or a worker on each of the first so many selected GPUs,
      which are distinct; and the resolver never asks for a plan that the constructor refuses. */
  lemma PlansAreSound(config: Config, inv: Inventory)
    requires ValidConfig(config) && ValidInventory(inv)
    ensures ResolvePlan(config, inv) != Failed(InvalidPlan) && ParentPlan(config, inv.gpus) != Failed(InvalidPlan)
    ensures forall plan :: Ok(plan) in {ResolvePlan(config, inv), ParentPlan(config, inv.gpus)} ==>
      plan == CPU_PLAN
      || (plan.cuda && GpuList.Distinct(plan.selected) && 0 < plan.workers <= |plan.selected| && plan.workerGpus == plan.selected[..plan.workers])
  {
    if Materialize(config, inv.gpus).Ok? {
      MaterializeOnce(config, inv.gpus, []);
      var c := Materialize(config, inv.gpus).value;
      var selected := if c.gpus.Some? then c.gpus.value else inv.gpus;
      var workers := if c.workers.None? then |selected| else c.workers.value;
      if 0 < workers <= |selected| { PrefixOk(selected, workers); }
    }
  }

  /** Given the same visible GPUs, the planners return the same plan whenever both return one. */
  lemma PlannersAgree(config: Config, inv: Inventory)
    requires ValidConfig(config) && ValidInventory(inv)
    requires ResolvePlan(config, inv).Ok? && ParentPlan(config, inv.gpus).Ok?
    ensures ResolvePlan(config, inv) == ParentPlan(config, inv.gpus)
  {
    MaterializeOnce(config, inv.gpus, []);
  }

  /** When the parent has a plan, the resolver has one exactly when it is the CPU plan, or CUDA is usable and the
      selected GPUs are visible. */
  lemma ResolverFollowsIff(config: Config, inv: Inventory)
    requires ValidConfig(config) && ValidInventory(inv) && ParentPlan(config, inv.gpus).Ok?
    ensures var plan := ParentPlan(config, inv.gpus).value;
      ResolvePlan(config, inv).Ok? <==> plan == CPU_PLAN || (Usable(inv) && AllIn(plan.selected, inv.gpus))
  {
    MaterializeOnce(config, inv.gpus, []);
    var c := Materialize(config, inv.gpus).value;
    if c.gpus.Some? {
      var workers := if c.workers.None? then |c.gpus.value| else c.workers.value;
      if 0 < workers <= |c.gpus.value| { PrefixOk(c.gpus.value, workers); }
    }
  }

  /** When the resolver has a plan, the parent has one exactly when the materialised configuration asks for the CPU
      or names its GPUs: without a profile the parent selects no GPUs by itself. */
  lemma ParentFollowsIff(config: Config, inv: Inventory)
    requires ValidConfig(config) && ValidInventory(inv) && ResolvePlan(config, inv).Ok?
    ensures var c := Materialize(config, inv.gpus).value;
      ParentPlan(config, inv.gpus).Ok? <==> c.device == Cpu || c.gpus.Some?
  {
    MaterializeOnce(config, inv.gpus, []);
    var c := Materialize(config, inv.gpus).value;
    if c.gpus.Some? {
      var workers := if c.workers.None? then |c.gpus.value| else c.workers.value;
      if 0 < workers <= |c.gpus.value| { PrefixOk(c.gpus.value, workers); }
    }
  }

  /** Who asks for CUDA never gets a CPU plan, from either planner. */
  lemma CudaIsNeverCpu(config: Config, inv: Inventory, plan: Plan)
    requires ValidConfig(config) && ValidInventory(inv) && config.device == Cuda
    requires Ok(plan) in {ResolvePlan(config, inv), ParentPlan(config, inv.gpus)}
    ensures plan.cuda
  {
    PlansAreSound(config, inv);
    MaterializeOnce(config, inv.gpus, []);
    assert Materialize(config, inv.gpus).value.device == Cuda;
  }

  /* ---- Exactly when there is which plan ---- */

  // The GPUs a configuration comes to: those it names, else the first found for a single one, else all found.
  function Wanted(config: Config, found: seq<nat>): seq<nat> {
    if config.gpus.Some? then config.gpus.value
    else if config.profile == Some(CudaSingle) then Prefix(found, 1)
    else found
  }

  // As many GPUs as the profile asks for, and workers for them.
  predicate GpusFit(config: Config, gpus: seq<nat>) {
    match config.profile
    case None => config.workers.None? || config.workers.value <= |gpus|
    case Some(CpuProfile) => false
    case Some(CudaSingle) => |gpus| == 1 && AtMostOneWorker(config)
    case Some(CudaReplica) => |gpus| >= 2 && (config.workers.None? || config.workers.value == |gpus|)
    case Some(AutoProfile) => config.workers.None? || config.workers.value <= |gpus|
  }

  function PlannedWorkers(config: Config, gpus: seq<nat>): nat {
    if config.workers.Some? then config.workers.value else |gpus|
  }

  function CudaPlan(config: Config, gpus: seq<nat>): Plan
    requires PlannedWorkers(config, gpus) <= |gpus|
  {
    Plan(true, gpus, PlannedWorkers(config, gpus), gpus[..PlannedWorkers(config, gpus)])
  }

  // The profile and the device allow for the CPU, given that there may be no GPUs.
  predicate CpuFits(config: Config, noGpus: bool) {
    match config.profile
    case None => config.device == Cpu || (config.device == Auto && noGpus)
    case Some(CpuProfile) => config.device != Cuda
    case Some(AutoProfile) => config.device == Cpu || (config.device == Auto && noGpus)
    case _ => false
  }

  predicate ResolvesToCuda(config: Config, inv: Inventory) {
    var gpus := Wanted(config, inv.gpus);
    config.device != Cpu && Usable(inv) && gpus != [] && AllIn(gpus, inv.gpus) && GpusFit(config, gpus)
  }

  lemma MaterializedForCuda(config: Config, inv: Inventory)
    requires ValidConfig(config) && ValidInventory(inv) && config.profile.Some? && config.device != Cpu
    ensures var m, gpus := Materialize(config, inv.gpus), Wanted(config, inv.gpus);
      && (m.Ok? && m.value.device == Cuda <==> gpus != [] && GpusFit(config, gpus))
      && (m.Ok? && m.value.device == Cuda ==>
            PlannedWorkers(config, gpus) <= |gpus| && m.value.gpus == Some(gpus) && m.value.workers == Some(PlannedWorkers(config, gpus)))
      && (m.Ok? ==> m.value.device in {Cpu, Cuda})
  {
    if inv.gpus != [] { assert Prefix(inv.gpus, 1) == [inv.gpus[0]]; }
  }

  /** The resolver plans for CUDA exactly when the configuration does not ask for the CPU, CUDA is usable, and the wanted GPUs
      are visible and suit the profile; the plan is then on those GPUs, with a worker on each unless fewer were asked for. */
  lemma ResolvesToCudaIff(config: Config, inv: Inventory)
    requires ValidConfig(config) && ValidInventory(inv)
    ensures var r, gpus := ResolvePlan(config, inv), Wanted(config, inv.gpus);
      && (r.Ok? && r.value.cuda <==> ResolvesToCuda(config, inv))
      && (r.Ok? && r.value.cuda ==> PlannedWorkers(config, gpus) <= |gpus| && r.value == CudaPlan(config, gpus))
  {
    WantedIsDistinct(config, inv);
    var gpus := Wanted(config, inv.gpus);
    var n := PlannedWorkers(config, gpus);
    if 0 < n <= |gpus| { PrefixOk(gpus, n); }
    if config.profile.Some? && config.device != Cpu { MaterializedForCuda(config, inv); }
  }

  lemma WantedIsDistinct(config: Config, inv: Inventory)
    requires ValidConfig(config) && ValidInventory(inv)
    ensures GpuList.Distinct(Wanted(config, inv.gpus))
  {
  }

  /** It plans for the CPU exactly when no GPUs are named, at most one worker is asked for, and the profile and the device
      allow for it: without a profile when CUDA is not usable, under the automatic profile when there are no GPUs. */
  lemma ResolvesToCpuIff(config: Config, inv: Inventory)
    requires ValidConfig(config) && ValidInventory(inv)
    ensures ResolvePlan(config, inv) == Ok(CPU_PLAN)
      <==> (config.gpus.None? && AtMostOneWorker(config)
            && CpuFits(config, if config.profile.None? then !Usable(inv) else inv.gpus == []))
  {
  }

  /** The parent plans for CUDA exactly when the configuration does not ask for the CPU, names GPUs or has a profile, and the
      wanted GPUs suit the profile; whether CUDA is usable it does not ask. */
  lemma ParentPlansCudaIff(config: Config, inv: Inventory)
    requires ValidConfig(config) && ValidInventory(inv)
    ensures var r, gpus := ParentPlan(config, inv.gpus), Wanted(config, inv.gpus);
      && (r.Ok? && r.value.cuda
          <==> config.device != Cpu && (config.gpus.Some? || config.profile.Some?) && gpus != [] && GpusFit(config, gpus))
      && (r.Ok? && r.value.cuda ==> PlannedWorkers(config, gpus) <= |gpus| && r.value == CudaPlan(config, gpus))
  {
    WantedIsDistinct(config, inv);
    var gpus := Wanted(config, inv.gpus);
    var n := PlannedWorkers(config, gpus);
    if 0 < n <= |gpus| { PrefixOk(gpus, n); }
  }

  /** And for the CPU exactly when no GPUs are named, at most one worker is asked for, and the profile and the device allow for
      it; without a profile the device must be the CPU. */
  lemma ParentPlansCpuIff(config: Config, inv: Inventory)
    requires ValidConfig(config) && ValidInventory(inv)
    ensures ParentPlan(config, inv.gpus) == Ok(CPU_PLAN)
      <==> (config.gpus.None? && AtMostOneWorker(config) && CpuFits(config, config.profile.Some? && inv.gpus == []))
  {
  }

  /* ---- The workers of a plan ---- */

  // A worker is on a physical GPU, or on the CPU.
  function WorkerGpus(plan: Plan): seq<Option<nat>> {
    if !plan.cuda then [None]
    else seq(|plan.workerGpus|, k requires 0 <= k < |plan.workerGpus| => Some(plan.workerGpus[k]))
  }

  /** Building clients makes as many workers as planned; on CUDA worker `k` has the `k`-th selected GPU, to itself. */
  lemma WorkersHaveOwnGpus(config: Config, inv: Inventory)
    requires ValidConfig(config) && ValidInventory(inv) && ParentPlan(config, inv.gpus).Ok?
    ensures var plan := ParentPlan(config, inv.gpus).value; var built := WorkerGpus(plan);
      && |built| == plan.workers
      && (plan.cuda ==> forall k :: 0 <= k < |built| ==> built[k] == Some(plan.selected[k]))
      && (forall j, k :: 0 <= j < k < |built| ==> built[j] != built[k])
  {
    PlansAreSound(config, inv);
  }
}
