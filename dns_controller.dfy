/**
 * The CoreDNS plugin's controller (coredns-plugin/controller.go): on every
 * update of its store of gateway Services it signals readiness once and
 * hands the complete list of rewrite rules, one per annotated Service, to
 * the plugin; `Stop` shuts it down once.
 */
module DnsController {
  import opened Wrappers
  import opened RewriteRule

  const DnsNameAnnotation := "egress.monzo.com/dns-name"
  const HijackLabel := "egress.monzo.com/hijack-dns"
  const AppLabel := "app"
  const GatewayApp := "egress-gateway"
  const StopAction := "stop"
  const NameRuleType := "name"
  const ShutdownInProgress := "shutdown already in progress"

  /** The parts of a Kubernetes Service the controller reads. */
  datatype ServiceItem = ServiceItem(
    name: string,
    namespace: string,
    labels: map<string, string>,
    annotations: map<string, string>)

  /**
   * The library functions the rules depend on: name normalisation (lower
   * case, closing dot) and whether a text compiles as a regular expression.
   */
  datatype DnsLibrary = DnsLibrary(normalize: string -> string, compiles: string -> bool)

  /** The in-cluster name a gateway Service answers to, before normalisation. */
  function ServiceTarget(svc: ServiceItem, zone: string): (r: string) {
    svc.name + "." + svc.namespace + ".svc." + zone
  }

  /**
   * The rule for one item of the store: none for a nil item, for a Service
   * without the dns-name annotation, or when the target does not compile
   * as a pattern.
   */
  function RuleFor(item: Option<ServiceItem>, zone: string, lib: DnsLibrary): (r: Option<ExactNameRule>) {
    if item.None? || DnsNameAnnotation !in item.value.annotations then None
    else
      var from := lib.normalize(item.value.annotations[DnsNameAnnotation]);
      var to := lib.normalize(ServiceTarget(item.value, zone));
      if !lib.compiles(to) then None
      else Some(ExactNameRule(StopAction, from, to, ResponseRule(true, NameRuleType, Pattern(to), from)))
  }

  function RuleList(item: Option<ServiceItem>, zone: string, lib: DnsLibrary): (r: seq<ExactNameRule>) {
    if RuleFor(item, zone, lib).Some? then [RuleFor(item, zone, lib).value] else []
  }

  /** The rules of a list of items, in the order of the items. */
  function RulesFor(items: seq<Option<ServiceItem>>, zone: string, lib: DnsLibrary): (rules: seq<ExactNameRule>)
    ensures |rules| <= |items|
  {
    if |items| == 0 then []
    else RulesFor(items[..|items| - 1], zone, lib) + RuleList(items[|items| - 1], zone, lib)
  }

  /** The rules of two lists of items are the rules of each, in order. */
  lemma {:induction false} RulesForAppend(a: seq<Option<ServiceItem>>, b: seq<Option<ServiceItem>>, zone: string, lib: DnsLibrary)
    ensures RulesFor(a + b, zone, lib) == RulesFor(a, zone, lib) + RulesFor(b, zone, lib)
    decreases |b|
  {
    if |b| == 0 {
      assert a + b == a;
    } else {
      var b' := b[..|b| - 1];
      assert (a + b)[..|a + b| - 1] == a + b';
      RulesForAppend(a, b', zone, lib);
    }
  }

  /**
   * An item that yields no rule (nil, unannotated, or whose pattern fails to
   * compile) is dropped without changing the rules of the others.
   */
  lemma SkippedItemDropsOnlyItself(a: seq<Option<ServiceItem>>, item: Option<ServiceItem>, b: seq<Option<ServiceItem>>,
                                   zone: string, lib: DnsLibrary)
    requires RuleFor(item, zone, lib).None?
    ensures RulesFor(a + [item] + b, zone, lib) == RulesFor(a, zone, lib) + RulesFor(b, zone, lib)
  {
    RulesForAppend(a + [item], b, zone, lib);
    RulesForAppend(a, [item], zone, lib);
    RulesForSingle(item, zone, lib);
  }

  lemma RulesForSingle(item: Option<ServiceItem>, zone: string, lib: DnsLibrary)
    ensures RulesFor([item], zone, lib) == RuleList(item, zone, lib)
  {
    assert [item][..0] == [];
  }

  /**
   * An annotated Service yields a rule exactly when its target compiles; the
   * rule stops rewriting, maps the normalised dns-name to the normalised
   * in-cluster name, and answers are renamed back by a pattern on that name.
   */
  lemma RuleForService(svc: ServiceItem, zone: string, lib: DnsLibrary)
    ensures RuleFor(Some(svc), zone, lib).Some? <==>
      DnsNameAnnotation in svc.annotations && lib.compiles(lib.normalize(ServiceTarget(svc, zone)))
    ensures RuleFor(Some(svc), zone, lib).Some? ==>
      var rule := RuleFor(Some(svc), zone, lib).value;
      && rule.Mode() == StopAction
      && rule.from == lib.normalize(svc.annotations[DnsNameAnnotation])
      && rule.to == lib.normalize(ServiceTarget(svc, zone))
      && rule.GetResponseRule() == ResponseRule(true, NameRuleType, Pattern(rule.to), rule.from)
  {
  }

  /**
   * A query for an annotated Service's dns-name is rewritten to the
   * Service's in-cluster name, and its answers carry a response rule that
   * renames that name back.
   */
  lemma QueryReachesGateway(svc: ServiceItem, zone: string, lib: DnsLibrary, questions: seq<Question>,
                            requestName: string -> string)
    requires RuleFor(Some(svc), zone, lib).Some? && |questions| > 0
    requires requestName(questions[0].name) == lib.normalize(svc.annotations[DnsNameAnnotation])
    ensures var rule := RuleFor(Some(svc), zone, lib).value;
      var (q, r) := Rewritten(rule, questions, requestName(questions[0].name));
      && r == RewriteDone
      && q[0].name == lib.normalize(ServiceTarget(svc, zone))
      && rule.GetResponseRule().pattern.expr == q[0].name
      && rule.GetResponseRule().replacement == requestName(questions[0].name)
  {
  }

  /**
   * The store's members: the Services of the watched namespace labelled
   * app=egress-gateway. Nothing else, the hijack-dns label included, is
   * consulted.
   */
  function Members(services: seq<ServiceItem>, namespace: string): (items: seq<Option<ServiceItem>>)
    ensures forall i | 0 <= i < |items| :: items[i].Some?
    ensures forall i | 0 <= i < |items| :: items[i].value in services && IsMember(items[i].value, namespace)
    ensures forall s | s in services && IsMember(s, namespace) :: Some(s) in items
  {
    if |services| == 0 then []
    else
      var s := services[|services| - 1];
      var rest := Members(services[..|services| - 1], namespace);
      assert services == services[..|services| - 1] + [s];
      if IsMember(s, namespace) then rest + [Some(s)]
      else rest
  }

  /** Whether the watch selects a Service: its namespace and its app label. */
  predicate IsMember(s: ServiceItem, namespace: string) {
    s.namespace == namespace && AppLabel in s.labels && s.labels[AppLabel] == GatewayApp
  }

  /** A Service with its hijack-dns label set to `value`. */
  function WithHijackLabel(s: ServiceItem, value: string): (r: ServiceItem) {
    s.(labels := s.labels[HijackLabel := value])
  }

  function AllWithHijackLabel(services: seq<ServiceItem>, value: string): (r: seq<ServiceItem>)
    ensures |r| == |services|
    ensures forall i | 0 <= i < |r| :: r[i] == WithHijackLabel(services[i], value)
  {
    seq(|services|, i requires 0 <= i < |services| => WithHijackLabel(services[i], value))
  }

  /**
   * The rules do not depend on the hijack-dns label: relabelling every
   * Service, to "false" say, leaves the rules as they were.
   */
  lemma RulesIgnoreHijackLabel(services: seq<ServiceItem>, namespace: string, value: string,
                               zone: string, lib: DnsLibrary)
    ensures RulesFor(Members(AllWithHijackLabel(services, value), namespace), zone, lib)
         == RulesFor(Members(services, namespace), zone, lib)
  {
    MembersIgnoreHijackLabel(services, namespace, value);
    RulesForPointwise(Members(AllWithHijackLabel(services, value), namespace), Members(services, namespace), zone, lib);
  }

  lemma HijackIsNotApp()
    ensures HijackLabel != AppLabel
  {
    assert HijackLabel[0] != AppLabel[0];
  }

  /** Relabelling maps the members one for one, in order. */
  lemma {:induction false} MembersIgnoreHijackLabel(services: seq<ServiceItem>, namespace: string, value: string)
    ensures var items := Members(services, namespace);
      var items' := Members(AllWithHijackLabel(services, value), namespace);
      && |items'| == |items|
      && forall i | 0 <= i < |items| :: items'[i] == Some(WithHijackLabel(items[i].value, value))
    decreases |services|
  {
    if |services| > 0 {
      var n := |services| - 1;
      var relabelled := AllWithHijackLabel(services, value);
      assert relabelled[..n] == AllWithHijackLabel(services[..n], value);
      HijackIsNotApp();
      assert IsMember(relabelled[n], namespace) <==> IsMember(services[n], namespace);
      MembersIgnoreHijackLabel(services[..n], namespace, value);
    }
  }

  /** Lists of items that agree up to their labels have the same rules. */
  lemma {:induction false} RulesForPointwise(a: seq<Option<ServiceItem>>, b: seq<Option<ServiceItem>>,
                                             zone: string, lib: DnsLibrary)
    requires |a| == |b|
    requires forall i | 0 <= i < |a| :: a[i].Some? && b[i].Some? && a[i].value.(labels := b[i].value.labels) == b[i].value
    ensures RulesFor(a, zone, lib) == RulesFor(b, zone, lib)
    decreases |a|
  {
    if |a| > 0 {
      var n := |a| - 1;
      RulesForPointwise(a[..n], b[..n], zone, lib);
    }
  }

  /**
   * The controller's state: whether it has shut down and how often its stop
   * channel was closed; whether the ready signal's once-guard has run and
   * how often the ready channel was closed; and the rule lists handed to
   * the plugin so far.
   */
  class DnsControl {
    const namespace: string
    const zone: string
    const lib: DnsLibrary
    var shutdown: bool
    var stopClosed: nat
    var readyOnceDone: bool
    var readyClosed: nat
    var delivered: seq<seq<ExactNameRule>>

    /** Each channel is closed at most once, exactly when its guard has run. */
    ghost predicate Valid()
      reads this
    {
      && stopClosed == (if shutdown then 1 else 0)
      && readyClosed == (if readyOnceDone then 1 else 0)
    }

    /** newdnsController: open channels, nothing delivered. */
    constructor (namespace: string, zone: string, lib: DnsLibrary)
      ensures Valid()
      ensures this.namespace == namespace && this.zone == zone && this.lib == lib
      ensures !shutdown && !readyOnceDone && delivered == []
    {
      this.namespace := namespace;
      this.zone := zone;
      this.lib := lib;
      shutdown := false;
      stopClosed := 0;
      readyOnceDone := false;
      readyClosed := 0;
      delivered := [];
    }

    /**
     * The store's callback: close the ready channel on the first update
     * only, build one rule per item that yields one, in order, and hand the
     * complete list (possibly empty) to the plugin.
     */
    method OnStoreUpdate(items: seq<Option<ServiceItem>>)
      requires Valid()
      modifies this
      ensures Valid()
      ensures readyOnceDone && readyClosed == 1
      ensures delivered == old(delivered) + [RulesFor(items, zone, lib)]
      ensures shutdown == old(shutdown) && stopClosed == old(stopClosed)
    {
      if !readyOnceDone {
        readyOnceDone := true;
        readyClosed := readyClosed + 1;
      }
      var rules: seq<ExactNameRule> := [];
      for i := 0 to |items|
        invariant rules == RulesFor(items[..i], zone, lib)
      {
        assert items[..i + 1][..i] == items[..i];
        var item := items[i];
        if item.None? {
          continue;
        }
        var svc := item.value;
        if DnsNameAnnotation !in svc.annotations {
          continue;
        }
        var from := lib.normalize(svc.annotations[DnsNameAnnotation]);
        var to := lib.normalize(svc.name + "." + svc.namespace + ".svc." + zone);
        if !lib.compiles(to) {
          continue;
        }
        rules := rules + [ExactNameRule(StopAction, from, to, ResponseRule(true, NameRuleType, Pattern(to), from))];
      }
      assert items[..|items|] == items;
      delivered := delivered + [rules];
    }

    /**
     * Stop: the first call closes the stop channel, marks the controller
     * shut down and succeeds; every later call fails and changes nothing.
     */
    method Stop() returns (err: Option<string>)
      requires Valid()
      modifies this
      ensures Valid()
      ensures !old(shutdown) ==> err.None? && shutdown && stopClosed == 1
      ensures old(shutdown) ==> err == Some(ShutdownInProgress) && shutdown && stopClosed == old(stopClosed)
      ensures readyOnceDone == old(readyOnceDone) && readyClosed == old(readyClosed) && delivered == old(delivered)
    {
      if !shutdown {
        stopClosed := stopClosed + 1;
        shutdown := true;
        return None;
      }
      return Some(ShutdownInProgress);
    }
  }

  /** Stopping twice: the second call reports the shutdown in progress and closes nothing. */
  method StopTwice(dns: DnsControl) returns (first: Option<string>, second: Option<string>)
    requires dns.Valid() && !dns.shutdown
    modifies dns
    ensures first.None? && second == Some(ShutdownInProgress)
    ensures dns.Valid() && dns.shutdown && dns.stopClosed == 1
  {
    first := dns.Stop();
    second := dns.Stop();
  }

  /** Any sequence of updates closes the ready channel once and delivers one rule list per update. */
  method UpdateTwice(dns: DnsControl, a: seq<Option<ServiceItem>>, b: seq<Option<ServiceItem>>)
    requires dns.Valid()
    modifies dns
    ensures dns.Valid() && dns.readyClosed == 1
    ensures dns.delivered == old(dns.delivered) + [RulesFor(a, dns.zone, dns.lib), RulesFor(b, dns.zone, dns.lib)]
  {
    dns.OnStoreUpdate(a);
    dns.OnStoreUpdate(b);
  }
}
