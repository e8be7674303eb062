/**
 * The event-relevance rules of the ClusterHealthCheck controller: for each
 * watched kind, whether a create, update, delete or generic (resync) event
 * re-triggers reconciliation of ClusterHealthChecks.
 *
 * `Event<T>` is one delivered event; each `...Predicates` function is the
 * kind's four callbacks (the `Create`/`Update`/`Delete`/`Generic` methods of
 * `ClusterPredicate` and `MachinePredicate`, or the closures of the
 * `predicate.Funcs` the other kinds build). The update rules, the only ones
 * that compare two snapshots, are separate functions that follow the source's
 * chain of early returns; their contracts state the rule with Dafny equality.
 */
module Predicates {
  import opened Optional
  import opened Objects
  import DeepEqual

  /** `objectOld` is `None` when the update event carries a nil old object. */
  datatype Event<T> =
    | Create(obj: T)
    | Update(objectOld: Option<T>, objectNew: T)
    | Delete(obj: T)
    | Generic(obj: T)

  /** Cluster API Cluster update: an absent old object, an unpause or a
      label change triggers; nothing else does. */
  function ClusterUpdate(oldCluster: Option<Cluster>, newCluster: Cluster): (r: bool)
    ensures r <==>
      || oldCluster.None?
      || (oldCluster.value.paused && !newCluster.paused)
      || oldCluster.value.meta.labels != newCluster.meta.labels
  {
    if oldCluster.None? then true
    else if oldCluster.value.paused && !newCluster.paused then true
    else if !DeepEqual.MapDeepEqual(oldCluster.value.meta.labels, newCluster.meta.labels) then true
    else false
  }

  function ClusterPredicates(e: Event<Cluster>): (r: bool)
    ensures e.Create? ==> (r <==> !e.obj.paused)
    ensures e.Update? ==> r == ClusterUpdate(e.objectOld, e.objectNew)
    ensures e.Delete? ==> r
    ensures e.Generic? ==> !r
  {
    match e
    case Create(cluster) => !cluster.paused
    case Update(oldCluster, newCluster) => ClusterUpdate(oldCluster, newCluster)
    case Delete(_) => true
    case Generic(_) => false
  }

  /** Machine update: only a machine that is Running now can trigger, and it
      does when the old object is absent or was not Running. */
  function MachineUpdate(oldMachine: Option<Machine>, newMachine: Machine): (r: bool)
    ensures r <==>
      && newMachine.phase == Running
      && (oldMachine.None? || oldMachine.value.phase != Running)
  {
    if newMachine.phase != Running then false
    else if oldMachine.None? then true
    else if oldMachine.value.phase != newMachine.phase then true
    else false
  }

  function MachinePredicates(e: Event<Machine>): (r: bool)
    ensures e.Create? ==> (r <==> e.obj.phase == Running)
    ensures e.Update? ==> r == MachineUpdate(e.objectOld, e.objectNew)
    ensures e.Delete? ==> !r
    ensures e.Generic? ==> !r
  {
    match e
    case Create(machine) => machine.phase == Running
    case Update(oldMachine, newMachine) => MachineUpdate(oldMachine, newMachine)
    case Delete(_) => false
    case Generic(_) => false
  }

  /** Sveltos cluster update: the Cluster API rule plus one more trigger,
      the cluster becoming ready. */
  function SveltosClusterUpdate(oldCluster: Option<SveltosCluster>, newCluster: SveltosCluster): (r: bool)
    ensures r <==>
      || oldCluster.None?
      || (oldCluster.value.paused && !newCluster.paused)
      || (!oldCluster.value.ready && newCluster.ready)
      || oldCluster.value.meta.labels != newCluster.meta.labels
  {
    if oldCluster.None? then true
    else if oldCluster.value.paused && !newCluster.paused then true
    else if !oldCluster.value.ready && newCluster.ready then true
    else if !DeepEqual.MapDeepEqual(oldCluster.value.meta.labels, newCluster.meta.labels) then true
    else false
  }

  function SveltosClusterPredicates(e: Event<SveltosCluster>): (r: bool)
    ensures e.Create? ==> (r <==> !e.obj.paused)
    ensures e.Update? ==> r == SveltosClusterUpdate(e.objectOld, e.objectNew)
    ensures e.Delete? ==> r
    ensures e.Generic? ==> !r
  {
    match e
    case Create(cluster) => !cluster.paused
    case Update(oldCluster, newCluster) => SveltosClusterUpdate(oldCluster, newCluster)
    case Delete(_) => true
    case Generic(_) => false
  }

  /** ClusterSummary update: an absent old object or any difference in
      `Status.FeatureSummaries` triggers; no other field matters. */
  function ClusterSummaryUpdate<S, F(==)>(oldSummary: Option<ClusterSummary<S, F>>, newSummary: ClusterSummary<S, F>): (r: bool)
    ensures r <==>
      || oldSummary.None?
      || oldSummary.value.featureSummaries != newSummary.featureSummaries
  {
    if oldSummary.None? then true
    else if !DeepEqual.SliceDeepEqual(oldSummary.value.featureSummaries, newSummary.featureSummaries) then true
    else false
  }

  function ClusterSummaryPredicates<S, F(==)>(e: Event<ClusterSummary<S, F>>): (r: bool)
    ensures e.Create? ==> !r
    ensures e.Update? ==> r == ClusterSummaryUpdate(e.objectOld, e.objectNew)
    ensures e.Delete? ==> r
    ensures e.Generic? ==> !r
  {
    match e
    case Create(_) => false
    case Update(oldSummary, newSummary) => ClusterSummaryUpdate(oldSummary, newSummary)
    case Delete(_) => true
    case Generic(_) => false
  }

  /** HealthCheckReport update: an absent old object or a different `Spec`
      triggers; so the update is ignored exactly when the two reports differ
      at most in their metadata. */
  function HealthCheckReportUpdate<S(==)>(oldReport: Option<HealthCheckReport<S>>, newReport: HealthCheckReport<S>): (r: bool)
    ensures !r <==> oldReport.Some? && oldReport.value == newReport.(meta := oldReport.value.meta)
  {
    if oldReport.None? then true
    else if oldReport.value.spec != newReport.spec then true
    else false
  }

  function HealthCheckReportPredicates<S(==)>(e: Event<HealthCheckReport<S>>): (r: bool)
    ensures e.Create? ==> r
    ensures e.Update? ==> r == HealthCheckReportUpdate(e.objectOld, e.objectNew)
    ensures e.Delete? ==> r
    ensures e.Generic? ==> !r
  {
    match e
    case Create(_) => true
    case Update(oldReport, newReport) => HealthCheckReportUpdate(oldReport, newReport)
    case Delete(_) => true
    case Generic(_) => false
  }

  /** HealthCheck update: an absent old object or a different `Spec`
      triggers; so the update is ignored exactly when the two checks differ
      at most in their metadata. */
  function HealthCheckUpdate<S(==)>(oldCheck: Option<HealthCheck<S>>, newCheck: HealthCheck<S>): (r: bool)
    ensures !r <==> oldCheck.Some? && oldCheck.value == newCheck.(meta := oldCheck.value.meta)
  {
    if oldCheck.None? then true
    else if oldCheck.value.spec != newCheck.spec then true
    else false
  }

  function HealthCheckPredicates<S(==)>(e: Event<HealthCheck<S>>): (r: bool)
    ensures e.Create? ==> r
    ensures e.Update? ==> r == HealthCheckUpdate(e.objectOld, e.objectNew)
    ensures e.Delete? ==> r
    ensures e.Generic? ==> !r
  {
    match e
    case Create(_) => true
    case Update(oldCheck, newCheck) => HealthCheckUpdate(oldCheck, newCheck)
    case Delete(_) => true
    case Generic(_) => false
  }
}
