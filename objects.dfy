/**
 * Snapshots of the watched kinds, holding only the fields the predicates
 * read plus the object metadata. A field the predicates never look at is
 * either left out or abstracted by a type parameter.
 */
module Objects {
  import opened Optional

  /** `metadata.labels`; `None` is a nil Go map, distinct from an empty one. */
  type Labels = Option<map<string, string>>

  datatype ObjectMeta = ObjectMeta(namespace: string, name: string, labels: Labels)

  /** A Cluster API Cluster: `paused` is `Spec.Paused`. */
  datatype Cluster = Cluster(meta: ObjectMeta, paused: bool)

  /** A Sveltos cluster: `paused` is `Spec.Paused`, `ready` is `Status.Ready`. */
  datatype SveltosCluster = SveltosCluster(meta: ObjectMeta, paused: bool, ready: bool)

  /** The typed phase of a Cluster API Machine, as `Status.GetTypedPhase()`
      returns it; a phase string it does not recognise yields `Unknown`. */
  datatype MachinePhase =
    | Pending
    | Provisioning
    | Provisioned
    | Running
    | Deleting
    | Deleted
    | Failed
    | Unknown

  datatype Machine = Machine(meta: ObjectMeta, phase: MachinePhase)

  /** A ClusterSummary: `featureSummaries` is the `Status.FeatureSummaries`
      slice (`None` when nil) with entries of type `F`; `spec` is its Spec. */
  datatype ClusterSummary<S, F> = ClusterSummary(meta: ObjectMeta, spec: S, featureSummaries: Option<seq<F>>)

  /** A HealthCheckReport with its `Spec` of type `S`. */
  datatype HealthCheckReport<S> = HealthCheckReport(meta: ObjectMeta, spec: S)

  /** A HealthCheck (cluster-scoped) with its `Spec` of type `S`. */
  datatype HealthCheck<S> = HealthCheck(meta: ObjectMeta, spec: S)
}
