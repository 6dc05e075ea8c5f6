/** The simulator's objects with their fields updated in place. Every method is tied to the function of
    module Simulator that says what it does to the shared data. */
module Objects {
  import opened Options
  import opened Cluster
  import opened Simulator
  import opened Report
  import opened FakeClient
  import opened Sync
  import Decimal

  lemma NamedByNumeral(template: Pod, k: nat)
    ensures forall numeral | Decimal.IsNumeral(numeral) && Decimal.Read(numeral) == k ::
              CopyName(template, k) == template.name + "-" + numeral
  {
    forall numeral | Decimal.IsNumeral(numeral) && Decimal.Read(numeral) == k
      ensures CopyName(template, k) == template.name + "-" + numeral
    {
      Decimal.PrintIsTheNumeral(k, numeral);
    }
  }

  lemma NumeralsAgree(n: nat)
    ensures forall numeral | Decimal.IsNumeral(numeral) && Decimal.Read(numeral) == n :: numeral == Decimal.PrintInt(n)
  {
    forall numeral | Decimal.IsNumeral(numeral) && Decimal.Read(numeral) == n
      ensures numeral == Decimal.PrintInt(n)
    {
      Decimal.PrintIsTheNumeral(n, numeral);
    }
  }

  class SinglePodGenerator {
    var counter: nat
    const podTemplate: Pod

    constructor (podTemplate: Pod)
      ensures this.podTemplate == podTemplate && counter == 0
    {
      this.podTemplate := podTemplate;
      counter := 0;
    }

    method Generate() returns (pod: Pod)
      modifies this
      ensures pod == Copy(podTemplate, old(counter)) && counter == old(counter) + 1
      ensures forall numeral | Decimal.IsNumeral(numeral) && Decimal.Read(numeral) == old(counter) ::
                pod.name == podTemplate.name + "-" + numeral
      ensures pod == podTemplate.(name := pod.name, nodeName := "", annotations := pod.annotations)
      ensures pod.annotations == if podTemplate.annotations == None then Some(map[]) else podTemplate.annotations
    {
      pod := podTemplate;
      pod := pod.(nodeName := "");
      pod := pod.(name := CopyName(podTemplate, counter));
      if pod.annotations.None? {
        pod := pod.(annotations := Some(map[]));
      }
      NamedByNumeral(podTemplate, counter);
      counter := counter + 1;
    }
  }

  class ClusterCapacity {
    const externalkubeclient: Clientset
    const podGenerator: SinglePodGenerator
    const simulatedPod: Pod
    const maxSimulated: int
    const defaultSchedulerName: string
    const excludeNodes: set<string>
    var lastSimulatedPod: Option<Pod>
    var simulated: nat
    var statusPods: seq<Pod>
    var statusStopReason: string
    var report: Option<Review>
    var closed: bool
    var stopped: bool
    /** How often informerStopCh has been closed, how often the stop token has been offered, and
        whether `stop` has been closed. */
    var informerCloses: nat
    var offers: nat
    var stopClosed: bool

    function Config(): (cfg: Config)
      ensures cfg.template == simulatedPod && cfg.maxSimulated == maxSimulated && cfg.scheduler == defaultSchedulerName
    {
      Simulator.Config(simulatedPod, maxSimulated, defaultSchedulerName, [])
    }

    /** The template is shared with the generator, and the informers are stopped once, with `closed`. */
    ghost predicate Valid()
      reads this
    {
      && podGenerator.podTemplate == simulatedPod
      && informerCloses == if closed then 1 else 0
    }

    function Shared(): Data
      reads this, externalkubeclient, podGenerator
    {
      Data(externalkubeclient.pods, podGenerator.counter, simulated, lastSimulatedPod, statusPods,
           statusStopReason, closed, stopped)
    }

    constructor (client: Clientset, simulatedPod: Pod, maxPods: int, schedulerName: string,
                 excludeNodes: set<string>)
      ensures Valid() && fresh(podGenerator) && externalkubeclient == client
      ensures this.simulatedPod == simulatedPod && maxSimulated == maxPods && defaultSchedulerName == schedulerName
      ensures this.excludeNodes == excludeNodes
      ensures Shared() == Fresh(client.pods) && report == None && offers == 0 && !stopClosed
    {
      externalkubeclient := client;
      podGenerator := new SinglePodGenerator(simulatedPod);
      this.simulatedPod := simulatedPod;
      simulated, maxSimulated := 0, maxPods;
      defaultSchedulerName := schedulerName;
      this.excludeNodes := excludeNodes;
      lastSimulatedPod, statusPods, statusStopReason, report := None, [], "", None;
      closed, stopped, informerCloses, offers, stopClosed := false, false, 0, 0, false;
    }

    /** Copies the live pods and the nodes that are not excluded; the first failing creation ends it. */
    method SyncWithClient(podItems: seq<Pod>, nodeItems: seq<Node>) returns (ok: bool)
      modifies externalkubeclient
      ensures externalkubeclient.pods == CopyPods(old(externalkubeclient.pods), podItems).0
      ensures externalkubeclient.modified == old(externalkubeclient.modified)
      ensures ok <==> CopyPods(old(externalkubeclient.pods), podItems).1
                      && CopyNodes(old(externalkubeclient.nodes), nodeItems, excludeNodes).1
      ensures externalkubeclient.nodes
           == if CopyPods(old(externalkubeclient.pods), podItems).1
              then CopyNodes(old(externalkubeclient.nodes), nodeItems, excludeNodes).0
              else old(externalkubeclient.nodes)
    {
      for i := 0 to |podItems|
        invariant CopyPods(externalkubeclient.pods, podItems[i..]) == CopyPods(old(externalkubeclient.pods), podItems)
        invariant externalkubeclient.nodes == old(externalkubeclient.nodes)
        invariant externalkubeclient.modified == old(externalkubeclient.modified)
      {
        var item := podItems[i];
        assert podItems[i..][0] == item && podItems[i..][1..] == podItems[i + 1..];
        if item.phase != "Succeeded" && item.phase != "Failed" {
          var created := externalkubeclient.CreatePod(item);
          if !created {
            return false;
          }
        }
      }
      assert podItems[|podItems|..] == [];
      for i := 0 to |nodeItems|
        invariant (externalkubeclient.pods, true) == CopyPods(old(externalkubeclient.pods), podItems)
        invariant CopyNodes(externalkubeclient.nodes, nodeItems[i..], excludeNodes)
               == CopyNodes(old(externalkubeclient.nodes), nodeItems, excludeNodes)
        invariant externalkubeclient.modified == old(externalkubeclient.modified)
      {
        var item := nodeItems[i];
        assert nodeItems[i..][0] == item && nodeItems[i..][1..] == nodeItems[i + 1..];
        if item.name in excludeNodes {
          continue;
        }
        var created := externalkubeclient.CreateNode(item);
        if !created {
          return false;
        }
      }
      assert nodeItems[|nodeItems|..] == [];
      return true;
    }

    method Close()
      requires Valid()
      modifies this
      ensures Valid() && Shared() == old(Shared()).(closed := true)
      ensures closed && informerCloses == 1
      ensures report == old(report) && offers == old(offers) && stopClosed == old(stopClosed)
    {
      if closed {
        return;
      }
      informerCloses := informerCloses + 1;
      closed := true;
    }

    /** The annotation write needs a non-nil map: the verifier's check of `.value` is that fact. */
    method CreateNextPod() returns (ok: bool)
      requires Valid()
      modifies this, externalkubeclient`pods, podGenerator
      ensures Valid() && (Shared(), ok) == Simulator.CreateNextPod(Config(), old(Shared()))
      ensures simulated == old(simulated) + 1 && podGenerator.counter == old(podGenerator.counter) + 1
      ensures lastSimulatedPod.Some?
      ensures var pod := lastSimulatedPod.value;
              && pod.nodeName == "" && pod.schedulerName == defaultSchedulerName
              && pod.namespace == simulatedPod.namespace
              && pod.annotations.Some? && "cc.kubernetes.io/provisioned-by" in pod.annotations.value
              && pod.annotations.value["cc.kubernetes.io/provisioned-by"] == defaultSchedulerName
              && ok == (Key(pod.namespace, pod.name) !in old(externalkubeclient.pods))
              && externalkubeclient.pods
                 == if ok then old(externalkubeclient.pods)[Key(pod.namespace, pod.name) := pod]
                    else old(externalkubeclient.pods)
      ensures report == old(report) && offers == old(offers) && stopClosed == old(stopClosed)
    {
      var pod := podGenerator.Generate();
      pod := pod.(schedulerName := defaultSchedulerName);
      pod := pod.(annotations := Some(pod.annotations.value[PROVISIONER := defaultSchedulerName]));
      simulated := simulated + 1;
      lastSimulatedPod := Some(pod);
      ok := externalkubeclient.CreatePod(pod);
    }

    method PostBindHook(updatedPod: Pod) returns (result: HookResult)
      requires Valid()
      modifies this, externalkubeclient`pods, podGenerator
      ensures Valid() && (Shared(), result) == Simulator.PostBindHook(Config(), old(Shared()), updatedPod)
      ensures statusPods == old(statusPods) + [updatedPod]
      ensures result.OffersStop? <==> maxSimulated > 0 && old(simulated) >= maxSimulated
      ensures result.OffersStop? ==>
                && closed && simulated == old(simulated) && externalkubeclient.pods == old(externalkubeclient.pods)
                && forall numeral | Decimal.IsNumeral(numeral) && Decimal.Read(numeral) == maxSimulated ::
                     statusStopReason == "LimitReached: Maximum number of pods simulated: " + numeral
      ensures !result.OffersStop? ==> simulated == old(simulated) + 1 && statusStopReason == old(statusStopReason)
      ensures report == old(report) && stopClosed == old(stopClosed)
      ensures offers == old(offers) + if result.OffersStop? then 1 else 0
    {
      statusPods := statusPods + [updatedPod];
      if maxSimulated > 0 && simulated >= maxSimulated {
        statusStopReason := "LimitReached: Maximum number of pods simulated: " + Decimal.PrintInt(maxSimulated);
        NumeralsAgree(maxSimulated);
        Close();
        offers := offers + 1;
        return OffersStop;
      }
      var ok := CreateNextPod();
      if !ok {
        return Fails;
      }
      return Continues;
    }

    method Update(pod: Pod, podCondition: Condition)
      requires Valid()
      modifies this
      ensures Valid()
      ensures var (data, offered) := Simulator.Update(old(Shared()), pod, podCondition);
              Shared() == data && offers == old(offers) + if offered then 1 else 0
      ensures var stop := podCondition.kind == "PodScheduled" && podCondition.status == "False"
                          && podCondition.reason == "Unschedulable" && pod.annotations.Some?
                          && "cc.kubernetes.io/provisioned-by" in pod.annotations.value;
              && offers == old(offers) + (if stop then 1 else 0)
              && statusStopReason == (if stop then "Unschedulable: " + podCondition.message else old(statusStopReason))
              && (closed <==> stop || old(closed)) && (stopped <==> stop || old(stopped))
      ensures report == old(report) && stopClosed == old(stopClosed)
    {
      var stop := IsRefusal(podCondition);
      if stop && Provisioned(pod) {
        statusStopReason := podCondition.reason + ": " + podCondition.message;
        Close();
        stopped := true;
        offers := offers + 1;
      }
    }

    /** The informer's handler: the callback for each scheduling condition of an updated pod. */
    method OnUpdate(newObj: Pod)
      requires Valid()
      modifies this
      ensures Valid()
      ensures var (data, offered) := UpdateAll(old(Shared()), newObj, newObj.conditions);
              Shared() == data && offers == old(offers) + offered
      ensures report == old(report) && stopClosed == old(stopClosed)
    {
      for i := 0 to |newObj.conditions|
        invariant Valid()
        invariant var (data, offered) := UpdateAll(Shared(), newObj, newObj.conditions[i..]);
                  (data, offers + offered)
                  == (UpdateAll(old(Shared()), newObj, newObj.conditions).0,
                      old(offers) + UpdateAll(old(Shared()), newObj, newObj.conditions).1)
        invariant report == old(report) && stopClosed == old(stopClosed)
      {
        var podCondition := newObj.conditions[i];
        assert newObj.conditions[i..][0] == podCondition && newObj.conditions[i..][1..] == newObj.conditions[i + 1..];
        if podCondition.kind == POD_SCHEDULED {
          Update(newObj, podCondition);
        }
      }
    }

    /** `Run` up to its receive: the first pod is created, or everything is closed and `Run` fails. */
    method RunToReceive() returns (ok: bool)
      requires Valid() && !stopClosed
      modifies this, externalkubeclient`pods, podGenerator
      ensures Valid()
      ensures var (data, created) := Simulator.CreateNextPod(Config(), old(Shared()));
              ok == created && Shared() == (if created then data else data.(closed := true))
      ensures stopClosed == !ok
      ensures report == old(report) && offers == old(offers)
    {
      ok := CreateNextPod();
      if !ok {
        Close();
        stopClosed := true;
      }
    }

    /** `Run` from its receive on: a token has been offered, and `stop` is closed once. */
    method RunFromReceive()
      requires Valid() && !stopClosed && offers > 0
      modifies this
      ensures Valid() && Shared() == old(Shared()) && stopClosed
      ensures report == old(report) && offers == old(offers) - 1
    {
      offers := offers - 1;
      stopClosed := true;
    }

    /** The cached review still is what would be computed now. */
    predicate CacheAgrees()
      reads this
    {
      report.Some? ==> report == FreshReport(simulatedPod, maxSimulated, statusPods, statusStopReason)
    }

    /** Returns the cached review; None stands for the panic on an unreadable stop reason. */
    method Report() returns (review: Option<Review>)
      modifies this`report
      ensures old(report).Some? ==> review == old(report)
      ensures old(report).None? ==> review == FreshReport(simulatedPod, maxSimulated, statusPods, statusStopReason)
      ensures report == review
      ensures old(CacheAgrees()) ==>
                CacheAgrees() && review == FreshReport(simulatedPod, maxSimulated, statusPods, statusStopReason)
    {
      if report == None {
        var pods: seq<Pod> := [];
        pods := pods + [simulatedPod];
        assert pods == [simulatedPod];
        var built := GetReport(pods, statusPods, statusStopReason);
        if built.Some? {
          report := Some(built.value.(specReplicas := Int32(maxSimulated)));
        }
      }
      review := report;
    }
  }

  /** The binder plugin, which calls the simulator's hook after writing the placed pod back. */
  class ClusterCapacityBinder {
    const client: Clientset
    const simulator: ClusterCapacity

    constructor (simulator: ClusterCapacity)
      ensures this.simulator == simulator && client == simulator.externalkubeclient
    {
      this.simulator := simulator;
      client := simulator.externalkubeclient;
    }

    method Bind(key: Key, nodeName: string) returns (result: HookResult)
      requires client == simulator.externalkubeclient && simulator.Valid()
      modifies simulator, simulator.podGenerator
      modifies simulator.externalkubeclient`pods, simulator.externalkubeclient`modified
      ensures simulator.Valid()
      ensures (simulator.Shared(), result)
           == Simulator.Bind(simulator.Config(), old(simulator.Shared()), key, nodeName)
      ensures key in old(client.pods) && KeyOf(old(client.pods)[key]) in old(client.pods) ==>
                simulator.statusPods
                == old(simulator.statusPods) + [old(client.pods)[key].(nodeName := nodeName, phase := "Running")]
      ensures key !in old(client.pods) ==> result.Fails? && simulator.statusPods == old(simulator.statusPods)
      ensures client.modified == old(client.modified) + Announced(old(simulator.Shared()), key, nodeName)
      ensures simulator.report == old(simulator.report)
      ensures simulator.offers == old(simulator.offers) + if result.OffersStop? then 1 else 0
    {
      var pod := client.GetPod(key);
      if pod == None {
        return Fails;
      }
      var updatedPod := pod.value;
      updatedPod := updatedPod.(nodeName := nodeName);
      updatedPod := updatedPod.(phase := RUNNING);
      var ok := client.UpdatePod(updatedPod);
      if !ok {
        return Fails;
      }
      result := simulator.PostBindHook(updatedPod);
    }
  }
}
