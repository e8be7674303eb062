/**
 * Properties of the relevance rules: which transitions trigger, which never
 * do, what an absent old object yields, and how the per-kind tables differ.
 */
module PredicateProperties {
  import opened Optional
  import opened Objects
  import opened Predicates

  // ---- Cluster API Cluster ----

  /** Unpausing triggers whatever else changed. */
  lemma ClusterUnpauseTriggers(oldCluster: Cluster, newCluster: Cluster)
    requires oldCluster.paused && !newCluster.paused
    ensures ClusterUpdate(Some(oldCluster), newCluster)
  {
  }

  /** Pausing a cluster, or leaving it unpaused, with the labels unchanged
      does not trigger. */
  lemma ClusterPauseWithSameLabelsIgnored(oldCluster: Cluster, newCluster: Cluster)
    requires !oldCluster.paused
    requires oldCluster.meta.labels == newCluster.meta.labels
    ensures !ClusterUpdate(Some(oldCluster), newCluster)
  {
  }

  /** The label comparison tells a nil label map from an empty one: a
      cluster whose labels go from nil to empty triggers although it has no
      label either way. */
  lemma ClusterNilToEmptyLabelsTriggers(c: Cluster)
    requires c.meta.labels == None
    ensures ClusterUpdate(Some(c), c.(meta := c.meta.(labels := Some(map[]))))
  {
  }

  // ---- Sveltos cluster ----

  /** The Cluster API view of a Sveltos cluster: the same metadata and pause
      flag, without the readiness flag. */
  function AsCapiCluster(c: SveltosCluster): Cluster
  {
    Cluster(c.meta, c.paused)
  }

  /** The Sveltos rule is the Cluster API rule on the same pause flags and
      labels, extended by exactly one trigger: readiness going false to true. */
  lemma SveltosUpdateExtendsClusterUpdate(oldCluster: Option<SveltosCluster>, newCluster: SveltosCluster)
    ensures SveltosClusterUpdate(oldCluster, newCluster) <==>
      || ClusterUpdate(if oldCluster.None? then None else Some(AsCapiCluster(oldCluster.value)), AsCapiCluster(newCluster))
      || (oldCluster.Some? && !oldCluster.value.ready && newCluster.ready)
  {
  }

  /** Losing readiness or being paused, with the labels unchanged and no
      unpause, does not trigger. */
  lemma SveltosReadyLossOrPauseIgnored(oldCluster: SveltosCluster, newCluster: SveltosCluster)
    requires !(oldCluster.paused && !newCluster.paused)
    requires !(!oldCluster.ready && newCluster.ready)
    requires oldCluster.meta.labels == newCluster.meta.labels
    ensures !SveltosClusterUpdate(Some(oldCluster), newCluster)
  {
  }

  /** Creation is decided exactly as for a Cluster API cluster. */
  lemma SveltosCreateMatchesCluster(c: SveltosCluster)
    ensures SveltosClusterPredicates(Create(c)) == ClusterPredicates(Create(AsCapiCluster(c)))
  {
  }

  // ---- Machine ----

  /** A machine that is not Running after the update never triggers, even
      when the old object is absent: the phase is checked first. */
  lemma MachineNotRunningIgnoredEvenWithoutOld(oldMachine: Option<Machine>, newMachine: Machine)
    requires newMachine.phase != Running
    ensures !MachineUpdate(oldMachine, newMachine)
  {
  }

  /** Running to Running never triggers, whatever else changed. */
  lemma MachineRunningToRunningIgnored(oldMachine: Machine, newMachine: Machine)
    requires oldMachine.phase == Running && newMachine.phase == Running
    ensures !MachineUpdate(Some(oldMachine), newMachine)
  {
  }

  /** Entering Running from any other phase triggers. */
  lemma MachineEnteringRunningTriggers(oldMachine: Machine, newMachine: Machine)
    requires oldMachine.phase != Running && newMachine.phase == Running
    ensures MachineUpdate(Some(oldMachine), newMachine)
  {
  }

  /** Only the phases matter: two updates with the same old and new phases
      get the same verdict, whatever their metadata. */
  lemma MachineUpdateDependsOnlyOnPhases(o1: Machine, n1: Machine, o2: Machine, n2: Machine)
    requires o1.phase == o2.phase && n1.phase == n2.phase
    ensures MachineUpdate(Some(o1), n1) == MachineUpdate(Some(o2), n2)
  {
  }

  // ---- ClusterSummary, HealthCheckReport, HealthCheck ----

  /** Fields other than `Status.FeatureSummaries` never affect the verdict. */
  lemma ClusterSummaryUpdateIgnoresOtherFields<S, F>(
    o1: ClusterSummary<S, F>, n1: ClusterSummary<S, F>,
    o2: ClusterSummary<S, F>, n2: ClusterSummary<S, F>)
    requires o1.featureSummaries == o2.featureSummaries
    requires n1.featureSummaries == n2.featureSummaries
    ensures ClusterSummaryUpdate(Some(o1), n1) == ClusterSummaryUpdate(Some(o2), n2)
  {
  }

  /** Any structural change of the feature summaries triggers: a different
      number of entries, or a different entry at some index. */
  lemma ClusterSummaryStructuralChangeTriggers<S, F>(
    o: ClusterSummary<S, F>, n: ClusterSummary<S, F>, xs: seq<F>, ys: seq<F>, i: nat)
    requires o.featureSummaries == Some(xs) && n.featureSummaries == Some(ys)
    requires |xs| != |ys| || (i < |xs| && i < |ys| && xs[i] != ys[i])
    ensures ClusterSummaryUpdate(Some(o), n)
  {
  }

  /** Identical feature summaries never trigger. */
  lemma ClusterSummarySameFeatureSummariesIgnored<S, F>(o: ClusterSummary<S, F>, n: ClusterSummary<S, F>)
    requires o.featureSummaries == n.featureSummaries
    ensures !ClusterSummaryUpdate(Some(o), n)
  {
  }

  /** The report rule and the definition rule are the same table. */
  lemma HealthCheckRulesAgree<S>(oldReport: Option<HealthCheckReport<S>>, newReport: HealthCheckReport<S>)
    ensures HealthCheckReportUpdate(oldReport, newReport) ==
      HealthCheckUpdate(if oldReport.None? then None else Some(HealthCheck(oldReport.value.meta, oldReport.value.spec)),
                        HealthCheck(newReport.meta, newReport.spec))
  {
  }

  // ---- How the six tables differ ----

  /** A resync event never triggers, for any kind. */
  lemma GenericNeverTriggers<S, F, R, H>(
    c: Cluster, m: Machine, sc: SveltosCluster,
    cs: ClusterSummary<S, F>, hcr: HealthCheckReport<R>, hc: HealthCheck<H>)
    ensures !ClusterPredicates(Generic(c))
    ensures !MachinePredicates(Generic(m))
    ensures !SveltosClusterPredicates(Generic(sc))
    ensures !ClusterSummaryPredicates(Generic(cs))
    ensures !HealthCheckReportPredicates(Generic(hcr))
    ensures !HealthCheckPredicates(Generic(hc))
  {
  }

  /** A delete triggers for every kind except Machine. */
  lemma DeleteTriggersExceptMachine<S, F, R, H>(
    c: Cluster, m: Machine, sc: SveltosCluster,
    cs: ClusterSummary<S, F>, hcr: HealthCheckReport<R>, hc: HealthCheck<H>)
    ensures ClusterPredicates(Delete(c))
    ensures !MachinePredicates(Delete(m))
    ensures SveltosClusterPredicates(Delete(sc))
    ensures ClusterSummaryPredicates(Delete(cs))
    ensures HealthCheckReportPredicates(Delete(hcr))
    ensures HealthCheckPredicates(Delete(hc))
  {
  }

  /** Create: clusters trigger iff unpaused, machines iff Running, a
      ClusterSummary never, a report or a HealthCheck always. */
  lemma CreateTable<S, F, R, H>(
    c: Cluster, m: Machine, sc: SveltosCluster,
    cs: ClusterSummary<S, F>, hcr: HealthCheckReport<R>, hc: HealthCheck<H>)
    ensures ClusterPredicates(Create(c)) == !c.paused
    ensures MachinePredicates(Create(m)) == (m.phase == Running)
    ensures SveltosClusterPredicates(Create(sc)) == !sc.paused
    ensures !ClusterSummaryPredicates(Create(cs))
    ensures HealthCheckReportPredicates(Create(hcr))
    ensures HealthCheckPredicates(Create(hc))
  {
  }

  /** An update with no old object triggers for every kind, except that a
      Machine must also be Running now. */
  lemma AbsentOldObjectTable<S, F, R, H>(
    c: Cluster, m: Machine, sc: SveltosCluster,
    cs: ClusterSummary<S, F>, hcr: HealthCheckReport<R>, hc: HealthCheck<H>)
    ensures ClusterPredicates(Update(None, c))
    ensures MachinePredicates(Update(None, m)) == (m.phase == Running)
    ensures SveltosClusterPredicates(Update(None, sc))
    ensures ClusterSummaryPredicates(Update(None, cs))
    ensures HealthCheckReportPredicates(Update(None, hcr))
    ensures HealthCheckPredicates(Update(None, hc))
  {
  }

  /** An update whose old and new objects are identical never triggers, for
      any kind. */
  lemma IdenticalUpdateNeverTriggers<S, F, R, H>(
    c: Cluster, m: Machine, sc: SveltosCluster,
    cs: ClusterSummary<S, F>, hcr: HealthCheckReport<R>, hc: HealthCheck<H>)
    ensures !ClusterPredicates(Update(Some(c), c))
    ensures !MachinePredicates(Update(Some(m), m))
    ensures !SveltosClusterPredicates(Update(Some(sc), sc))
    ensures !ClusterSummaryPredicates(Update(Some(cs), cs))
    ensures !HealthCheckReportPredicates(Update(Some(hcr), hcr))
    ensures !HealthCheckPredicates(Update(Some(hc), hc))
  {
  }
}
