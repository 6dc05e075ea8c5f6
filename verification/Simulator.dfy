/** The data that the goroutines of a simulation share, and what each of their functions does to it
    when nothing interleaves. */
module Simulator {
  import opened Options
  import opened Cluster
  import Decimal

  datatype Config = Config(
    template: Pod,
    maxSimulated: int,
    scheduler: string,
    nodes: seq<string>
  )

  /** The unlocked fields of the simulator, the generator's counter and the fake API store. */
  datatype Data = Data(
    store: Store,
    counter: nat,
    simulated: nat,
    last: Option<Pod>,
    pods: seq<Pod>,
    stopReason: string,
    closed: bool,
    stopped: bool
  )

  // ---------------------------------------------------------------- the generator

  function CopyName(template: Pod, k: nat): string {
    template.name + "-" + Decimal.Print(k)
  }

  /** The k-th copy of a template, with no node and a map to annotate. */
  function Copy(template: Pod, k: nat): Pod {
    template.(
      nodeName := "",
      name := CopyName(template, k),
      annotations := if template.annotations.None? then Some(map[]) else template.annotations
    )
  }

  function TemplateName(cfg: Config, k: nat): string {
    CopyName(cfg.template, k)
  }

  function TemplateKey(cfg: Config, k: nat): Key {
    Key(cfg.template.namespace, TemplateName(cfg, k))
  }

  /** The k-th copy of the template, before the simulator stamps it. */
  function Generated(cfg: Config, k: nat): Pod {
    Copy(cfg.template, k)
  }

  /** Sets the scheduler and writes the provisioner annotation; writing into a nil map panics. */
  function Stamp(cfg: Config, pod: Pod): Option<Pod> {
    if pod.annotations.None? then None
    else Some(pod.(
                schedulerName := cfg.scheduler,
                annotations := Some(pod.annotations.value[PROVISIONER := cfg.scheduler])))
  }

  /** The k-th pod as it is put into the store. */
  function Made(cfg: Config, k: nat): Pod {
    Stamp(cfg, Generated(cfg, k)).value
  }

  /** The k-th pod as it is recorded once bound. */
  function Recorded(cfg: Config, k: nat, node: string): Pod {
    Made(cfg, k).(nodeName := node, phase := RUNNING)
  }

  lemma KeysDiffer(cfg: Config, j: nat, k: nat)
    requires TemplateKey(cfg, j) == TemplateKey(cfg, k)
    ensures j == k
  {
    var prefix := cfg.template.name + "-";
    assert TemplateName(cfg, j)[|prefix|..] == Decimal.Print(j);
    assert TemplateName(cfg, k)[|prefix|..] == Decimal.Print(k);
    Decimal.PrintInjective(j, k);
  }

  /** Every name ever generated is new, and every generated pod can be stamped. */
  lemma GeneratedPods(cfg: Config, k: nat)
    ensures Stamp(cfg, Generated(cfg, k)).Some?
    ensures KeyOf(Made(cfg, k)) == TemplateKey(cfg, k)
    ensures Made(cfg, k).nodeName == "" && Provisioned(Made(cfg, k))
    ensures Made(cfg, k).requests == cfg.template.requests && Made(cfg, k).schedulerName == cfg.scheduler
    ensures Made(cfg, k).conditions == cfg.template.conditions
    ensures forall j: nat :: TemplateKey(cfg, j) == TemplateKey(cfg, k) ==> j == k
  {
    forall j: nat | TemplateKey(cfg, j) == TemplateKey(cfg, k)
      ensures j == k
    {
      KeysDiffer(cfg, j, k);
    }
  }

  /** What a generated pod is: the template under a new name, unbound, for the simulated scheduler, and with
      the provisioner annotation added to the annotations it had. The name ends in the decimal numeral of
      its index. */
  lemma MadeFromTemplate(cfg: Config, k: nat, numeral: string)
    requires Decimal.IsNumeral(numeral) && Decimal.Read(numeral) == k
    ensures var noted := if cfg.template.annotations.Some? then cfg.template.annotations.value else map[];
            Made(cfg, k) == cfg.template.(
                 name := cfg.template.name + "-" + numeral,
                 nodeName := "",
                 schedulerName := cfg.scheduler,
                 annotations := Some(noted["cc.kubernetes.io/provisioned-by" := cfg.scheduler]))
  {
    Decimal.PrintIsTheNumeral(k, numeral);
    hide Decimal.Print;
  }

  // ---------------------------------------------------------------- creating the next pod

  function CreateNextPod(cfg: Config, d: Data): (Data, bool) {
    var pod := Made(cfg, d.counter);
    var next := d.(counter := d.counter + 1, simulated := d.simulated + 1, last := Some(pod));
    if KeyOf(pod) in d.store then (next, false)
    else (next.(store := d.store[KeyOf(pod) := pod]), true)
  }

  // ---------------------------------------------------------------- binding

  predicate LimitReached(cfg: Config, d: Data) {
    cfg.maxSimulated > 0 && d.simulated >= cfg.maxSimulated
  }

  function LimitReason(cfg: Config): string {
    "LimitReached: Maximum number of pods simulated: " + Decimal.PrintInt(cfg.maxSimulated)
  }

  function Place(pod: Pod, node: string): Pod {
    pod.(nodeName := node, phase := RUNNING)
  }

  /** How a hook ends: it offers the stop token, it created another pod, or creating it failed. */
  datatype HookResult = OffersStop | Continues | Fails

  function PostBindHook(cfg: Config, d: Data, pod: Pod): (Data, HookResult) {
    var appended := d.(pods := d.pods + [pod]);
    if LimitReached(cfg, appended) then
      (appended.(stopReason := LimitReason(cfg), closed := true), OffersStop)
    else
      var (next, ok) := CreateNextPod(cfg, appended);
      (next, if ok then Continues else Fails)
  }

  /** The binder plugin: the stored pod is fetched, placed and written back, then the hook runs. */
  function Bind(cfg: Config, d: Data, key: Key, node: string): (Data, HookResult) {
    if key !in d.store then (d, Fails)
    else
      var placed := Place(d.store[key], node);
      if KeyOf(placed) !in d.store then (d, Fails)
      else PostBindHook(cfg, d.(store := d.store[KeyOf(placed) := placed]), placed)
  }

  /** What the watchers are told about a binding: the placed pod, if it is written back. */
  function Announced(d: Data, key: Key, node: string): seq<Pod> {
    if key in d.store && KeyOf(d.store[key]) in d.store then [Place(d.store[key], node)] else []
  }

  // ---------------------------------------------------------------- the informer's callback

  predicate IsRefusal(c: Condition) {
    c.kind == POD_SCHEDULED && c.status == "False" && c.reason == UNSCHEDULABLE
  }

  function Refusal(message: string): Condition {
    Condition(POD_SCHEDULED, "False", UNSCHEDULABLE, message)
  }

  /** How many of the conditions are refusals. */
  function Refusals(conditions: seq<Condition>): nat {
    if conditions == [] then 0
    else Refusals(conditions[1..]) + if IsRefusal(conditions[0]) then 1 else 0
  }

  /** The scheduling condition that a new verdict replaces: the first one. */
  function Verdict(conditions: seq<Condition>): Option<Condition> {
    if conditions == [] then None
    else if conditions[0].kind == POD_SCHEDULED then Some(conditions[0])
    else Verdict(conditions[1..])
  }

  /** The scheduler's verdict replaces the first scheduling condition, or is appended if there is none. */
  function Marked(conditions: seq<Condition>, verdict: Condition): seq<Condition> {
    if conditions == [] then [verdict]
    else if conditions[0].kind == POD_SCHEDULED then [verdict] + conditions[1..]
    else [conditions[0]] + Marked(conditions[1..], verdict)
  }

  /** Copies of the template do not carry a refusal from an earlier life of the template. */
  predicate Calm(cfg: Config) {
    forall c | c in cfg.template.conditions :: !IsRefusal(c)
  }

  lemma {:induction false} NoRefusals(conditions: seq<Condition>)
    ensures Refusals(conditions) == 0 <==> forall c | c in conditions :: !IsRefusal(c)
  {
    if conditions != [] {
      NoRefusals(conditions[1..]);
      assert conditions == [conditions[0]] + conditions[1..];
    }
  }

  /** Marking a pod adds one refusal, or replaces one; it changes nothing exactly if the pod already
      carries the very same verdict. */
  lemma {:induction false} MarkedRefusals(conditions: seq<Condition>, message: string)
    ensures var marked := Marked(conditions, Refusal(message));
            && Refusals(marked) == Refusals(conditions)
                 + (if Verdict(conditions).Some? && IsRefusal(Verdict(conditions).value) then 0 else 1)
            && (marked == conditions <==> Verdict(conditions) == Some(Refusal(message)))
            && Refusals(marked) > 0
    ensures Verdict(conditions).Some? && IsRefusal(Verdict(conditions).value) ==> Refusals(conditions) > 0
  {
    if conditions != [] {
      var head, rest := conditions[0], conditions[1..];
      var marked := Marked(conditions, Refusal(message));
      assert conditions == [head] + rest;
      if head.kind == POD_SCHEDULED {
        assert marked[1..] == rest;
        assert marked[0] == Refusal(message);
      } else {
        MarkedRefusals(rest, message);
        assert marked[1..] == Marked(rest, Refusal(message));
      }
    }
  }

  predicate StopsRun(pod: Pod, c: Condition) {
    IsRefusal(c) && Provisioned(pod)
  }

  function RefusalReason(c: Condition): string {
    c.reason + ": " + c.message
  }

  /** The new data, and whether the callback goes on to offer the stop token. */
  function Update(d: Data, pod: Pod, c: Condition): (Data, bool) {
    if StopsRun(pod, c) then (d.(stopReason := RefusalReason(c), closed := true, stopped := true), true)
    else (d, false)
  }

  /** The callback acts on one kind of condition and one kind of pod only, and then writes the condition's
      message behind a fixed text, closes, and goes on to offer the token. */
  lemma UpdateActsOn(d: Data, pod: Pod, c: Condition)
    ensures Update(d, pod, c).1
       <==> c.kind == "PodScheduled" && c.status == "False" && c.reason == "Unschedulable"
            && pod.annotations.Some? && "cc.kubernetes.io/provisioned-by" in pod.annotations.value
    ensures Update(d, pod, c).0
         == if Update(d, pod, c).1
            then d.(stopReason := "Unschedulable: " + c.message, closed := true, stopped := true)
            else d
  {
    assert UNSCHEDULABLE + ": " + c.message == "Unschedulable: " + c.message;
  }

  /** The handler of an updated pod: the callback for each of its scheduling conditions in turn, and how
      many stop tokens are offered on the way. */
  function UpdateAll(d: Data, pod: Pod, conditions: seq<Condition>): (Data, nat)
    decreases |conditions|
  {
    if conditions == [] then (d, 0)
    else
      var (next, offered) := Update(d, pod, conditions[0]);
      var (last, offers) := UpdateAll(next, pod, conditions[1..]);
      (last, offers + if offered then 1 else 0)
  }

  /** One token is offered for every refusal that an annotated pod carries, and none for other pods. */
  lemma {:induction false} UpdateAllOffers(d: Data, pod: Pod, conditions: seq<Condition>)
    ensures var (next, offers) := UpdateAll(d, pod, conditions);
            && offers == (if Provisioned(pod) then Refusals(conditions) else 0)
            && (offers == 0 ==> next == d)
            && (offers > 0 ==> next.closed && next.stopped)
            && next == d.(stopReason := next.stopReason, closed := next.closed, stopped := next.stopped)
    decreases |conditions|
  {
    if conditions != [] {
      var (next, _) := Update(d, pod, conditions[0]);
      UpdateAllOffers(next, pod, conditions[1..]);
    }
  }

  // ---------------------------------------------------------------- the snapshot

  /** A run starts on an empty record over the store copied from the cluster. */
  function Fresh(store: Store): Data {
    Data(store, 0, 0, None, [], "", false, false)
  }
}
