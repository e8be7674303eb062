# ClusterHealthCheck event predicates — a Dafny model

This project models the event-relevance rules of the healthcheck-manager
controller (`controllers/clusterhealthcheck_predicates.go`). The controller
reconciles ClusterHealthChecks and watches six kinds: Cluster API `Cluster`
and `Machine`, `SveltosCluster`, `ClusterSummary`, `HealthCheckReport` and
`HealthCheck`. For each kind, a predicate decides whether a create, update,
delete or generic (resync) event should re-trigger reconciliation. Every rule
is a pure decision over a few fields of the old and new objects, so each one
is a Dafny function. The branches are stated as contracts and lemmas.

Files:

- `optional.dfy`: `Option`. `None` stands for a nil Go pointer, map or slice.
- `deep_equal.dfy`: the `reflect.DeepEqual` rules for a label map and for a
  slice at the top level. A nil map or slice equals only another nil one. Non-nil
  values must have the same length and equal entries. Both rules are proved to
  be exactly Dafny equality on the `Option` values.
- `objects.dfy`: snapshots of the six kinds, holding only the fields the rules
  read (`Spec.Paused`, `Status.Ready`, labels, the machine's typed phase,
  `Status.FeatureSummaries`, `Spec`) plus the object metadata.
- `predicates.dfy`: `Event<T>` and one function per kind for its four
  callbacks (`...Predicates`). Each kind also has its update rule as a
  separate function (`...Update`). That function follows the source's chain of
  early returns, and its contract states the rule using equality.
- `properties.dfy`: which transitions trigger, which never do, what an absent
  old object yields, and how the six tables differ from one another.

## Model

| member | source | states |
|---|---|---|
| DeepEqual.MapDeepEqual | controllers/clusterhealthcheck_predicates.go:75 | DeepEqual's map rule (both nil, or same size with every key mapped to an equal value) holds iff the two optional label maps are equal; nil and empty are different |
| DeepEqual.SliceDeepEqual | controllers/clusterhealthcheck_predicates.go:278 | DeepEqual's slice rule (both nil, or same length and equal at every index) holds iff the two optional slices are equal |
| DeepEqual.SameSizeSubmapIsEqual | controllers/clusterhealthcheck_predicates.go:209 | a map whose entries all occur in a map of the same size equals it, which is why the map rule needs no check in the other direction |
| Predicates.ClusterUpdate | controllers/clusterhealthcheck_predicates.go:55-86 | a Cluster update triggers iff the old object is absent, or the cluster was unpaused (paused true to false), or the label maps differ |
| Predicates.ClusterPredicates | controllers/clusterhealthcheck_predicates.go:36-106 | Create triggers iff the cluster is not paused; Update follows ClusterUpdate; Delete always triggers; Generic never does |
| Predicates.MachineUpdate | controllers/clusterhealthcheck_predicates.go:129-157 | a Machine update triggers iff the new phase is Running and the old object is absent or its phase was not Running |
| Predicates.MachinePredicates | controllers/clusterhealthcheck_predicates.go:112-177 | Create triggers iff the phase is Running; Update follows MachineUpdate; Delete and Generic never trigger |
| Predicates.SveltosClusterUpdate | controllers/clusterhealthcheck_predicates.go:183-220 | a SveltosCluster update triggers iff the old object is absent, or the cluster was unpaused, or it became ready (false to true), or the labels differ |
| Predicates.SveltosClusterPredicates | controllers/clusterhealthcheck_predicates.go:181-258 | Create triggers iff not paused; Update follows SveltosClusterUpdate; Delete always triggers; Generic never does |
| Predicates.ClusterSummaryUpdate | controllers/clusterhealthcheck_predicates.go:264-288 | a ClusterSummary update triggers iff the old object is absent or `Status.FeatureSummaries` differs, with nil distinct from empty |
| Predicates.ClusterSummaryPredicates | controllers/clusterhealthcheck_predicates.go:262-318 | Create never triggers; Update follows ClusterSummaryUpdate; Delete always triggers; Generic never does |
| Predicates.HealthCheckReportUpdate | controllers/clusterhealthcheck_predicates.go:324-348 | a report update is ignored iff the old object is present and the two reports differ at most in their metadata, that is, the Spec is unchanged |
| Predicates.HealthCheckReportPredicates | controllers/clusterhealthcheck_predicates.go:322-378 | Create and Delete always trigger; Update follows HealthCheckReportUpdate; Generic never does |
| Predicates.HealthCheckUpdate | controllers/clusterhealthcheck_predicates.go:384-407 | a HealthCheck update is ignored iff the old object is present and the two checks differ at most in their metadata, that is, the Spec is unchanged |
| Predicates.HealthCheckPredicates | controllers/clusterhealthcheck_predicates.go:382-434 | Create and Delete always trigger; Update follows HealthCheckUpdate; Generic never does |
| PredicateProperties.ClusterUnpauseTriggers | controllers/clusterhealthcheck_predicates.go:68-73 | unpausing a cluster triggers, whatever else changed |
| PredicateProperties.ClusterPauseWithSameLabelsIgnored | controllers/clusterhealthcheck_predicates.go:63-85 | pausing a cluster, or leaving it unpaused, with the labels unchanged does not trigger |
| PredicateProperties.ClusterNilToEmptyLabelsTriggers | controllers/clusterhealthcheck_predicates.go:75-80 | labels going from a nil map to an empty map trigger, although no label is present in either |
| PredicateProperties.SveltosUpdateExtendsClusterUpdate | controllers/clusterhealthcheck_predicates.go:191-219 | the SveltosCluster update rule equals the Cluster API rule on the same pause flags and labels, plus one extra trigger: readiness going false to true |
| PredicateProperties.SveltosReadyLossOrPauseIgnored | controllers/clusterhealthcheck_predicates.go:191-219 | losing readiness or being paused, with no unpause, no readiness gain and unchanged labels, does not trigger |
| PredicateProperties.SveltosCreateMatchesCluster | controllers/clusterhealthcheck_predicates.go:228-237 | a SveltosCluster creation is decided exactly as a Cluster API cluster creation |
| PredicateProperties.MachineNotRunningIgnoredEvenWithoutOld | controllers/clusterhealthcheck_predicates.go:137-144 | a machine that is not Running after the update never triggers, even with no old object, because the phase is checked before the nil check |
| PredicateProperties.MachineRunningToRunningIgnored | controllers/clusterhealthcheck_predicates.go:146-156 | Running to Running never triggers, whatever else changed |
| PredicateProperties.MachineEnteringRunningTriggers | controllers/clusterhealthcheck_predicates.go:146-151 | entering Running from any other phase, Unknown included, triggers |
| PredicateProperties.MachineUpdateDependsOnlyOnPhases | controllers/clusterhealthcheck_predicates.go:137-156 | two machine updates with the same old and new phases get the same verdict |
| PredicateProperties.ClusterSummaryUpdateIgnoresOtherFields | controllers/clusterhealthcheck_predicates.go:277-287 | ClusterSummary fields other than `Status.FeatureSummaries` never affect the update verdict |
| PredicateProperties.ClusterSummaryStructuralChangeTriggers | controllers/clusterhealthcheck_predicates.go:277-282 | a different number of feature summaries, or a different entry at some index, triggers |
| PredicateProperties.ClusterSummarySameFeatureSummariesIgnored | controllers/clusterhealthcheck_predicates.go:277-287 | identical feature summaries never trigger |
| PredicateProperties.HealthCheckRulesAgree | controllers/clusterhealthcheck_predicates.go:332-347 | the HealthCheckReport and HealthCheck update rules are the same table |
| PredicateProperties.GenericNeverTriggers | controllers/clusterhealthcheck_predicates.go:98-432 | a resync event triggers for none of the six kinds |
| PredicateProperties.DeleteTriggersExceptMachine | controllers/clusterhealthcheck_predicates.go:88-424 | Delete triggers for every kind except Machine |
| PredicateProperties.CreateTable | controllers/clusterhealthcheck_predicates.go:36-416 | Create: clusters trigger iff unpaused, machines iff Running, a ClusterSummary never, a report or a HealthCheck always |
| PredicateProperties.AbsentOldObjectTable | controllers/clusterhealthcheck_predicates.go:63-394 | an update with no old object triggers for every kind, except that a Machine must also be Running |
| PredicateProperties.IdenticalUpdateNeverTriggers | controllers/clusterhealthcheck_predicates.go:55-407 | an update whose old and new objects are identical triggers for none of the six kinds |

## Left out

- Logging (`logr.Logger`, `WithValues`, `V(...).Info`): it only records verdicts and never affects one.
- controller-runtime wiring (`event.Typed*Event`, `predicate.Funcs`, turning a true verdict into a work-queue enqueue): each callback is a function of the fields it reads, and `Event<T>` stands in for the event types.
- The Go type assertions on event objects and their panic on a wrong dynamic type: inputs are well typed, and `Option` stands for a nil old object.
- `Status.GetTypedPhase()` parsing of the phase string: the phase is taken as already typed, with `Unknown` for unrecognised strings.
- The schemas of `HealthCheckReport.Spec`, `HealthCheck.Spec`, `ClusterSummary.Spec` and the `FeatureSummary` entries: they are type parameters compared with equality, so `reflect.DeepEqual` inside them is taken to be structural equality. The nil-versus-empty distinction is modelled only for the label maps and the `FeatureSummaries` slice.
- No registry of kinds, no duplicate-registration failure and no "unknown kind" fallback: the source has none. The controller's watch setup that attaches each predicate set to its kind is not part of this model.
