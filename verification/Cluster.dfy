/** Pods, the keys under which the fake API server stores them, and their conditions. */
module Cluster {
  import opened Options

  datatype Key = Key(namespace: string, name: string)

  datatype Condition = Condition(kind: string, status: string, reason: string, message: string)

  /** `requests` is the effective request of the whole pod, one amount per resource. */
  datatype Pod = Pod(
    namespace: string,
    name: string,
    nodeName: string,
    schedulerName: string,
    phase: string,
    annotations: Option<map<string, string>>,
    requests: map<string, nat>,
    conditions: seq<Condition>
  )

  type Store = map<Key, Pod>

  const PROVISIONER := "cc.kubernetes.io/provisioned-by"
  const POD_SCHEDULED := "PodScheduled"
  const UNSCHEDULABLE := "Unschedulable"
  const RUNNING := "Running"

  function KeyOf(pod: Pod): Key {
    Key(pod.namespace, pod.name)
  }

  predicate Provisioned(pod: Pod) {
    pod.annotations.Some? && PROVISIONER in pod.annotations.value
  }

  /** Every entry is stored under its own namespace and name. */
  ghost predicate WellKeyed(store: Store) {
    forall key | key in store :: KeyOf(store[key]) == key
  }
}
