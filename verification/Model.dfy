/** The entities of the controller: pods, mapping rules, mapping objects and targets. */
module Model {

  datatype Option<+T> = None | Some(value: T)

  type Labels = map<string, string>

  /** A pod IP with the prefix `toCIDR` turns it into. Carrying both makes every statement
      hold for any conversion, including one that sends two spellings of an IP to one prefix. */
  datatype Address = Address(ip: string, cidr: string)

  datatype PodId = PodId(namespace: string, name: string, uid: string)

  /** `address` is `None` while the pod has no IP. */
  datatype Pod = Pod(id: PodId, labels: Labels, address: Option<Address>)

  /** A compiled selector: equality on every listed label (none listed selects everything),
      or a selector that did not compile and is skipped. */
  datatype Selector = MatchLabels(labels: Labels) | Uncompilable

  /** An address prefix set inside one application security group. `resource` is the resource
      ID as spelled, `key` its normalised identity; Azure only distinguishes keys. */
  datatype Target = Target(resource: string, key: string)

  /** A reference of a rule, after parsing its resource ID. */
  datatype AsgRef = Asg(target: Target) | Malformed

  datatype Rule = Rule(selector: Selector, refs: seq<AsgRef>)

  datatype Key = Key(namespace: string, name: string)

  /** A PodASGMapping object at one generation. */
  datatype Mapping = Mapping(key: Key, uid: string, generation: int, rules: seq<Rule>)

  predicate Selects(selector: Selector, labels: Labels) {
    selector.MatchLabels? &&
    forall name :: name in selector.labels ==> name in labels && labels[name] == selector.labels[name]
  }

  /** A selector accepts the label sets that include it; one that did not compile accepts none. */
  lemma {:induction false} SelectsIsInclusion(selector: Selector, labels: Labels)
    ensures Selects(selector, labels) <==> selector.MatchLabels? && selector.labels.Items <= labels.Items
  {
    if selector.MatchLabels? && selector.labels.Items <= labels.Items {
      forall name | name in selector.labels ensures name in labels && labels[name] == selector.labels[name] {
        assert (name, selector.labels[name]) in selector.labels.Items;
      }
    }
    if Selects(selector, labels) {
      forall item | item in selector.labels.Items ensures item in labels.Items {}
    }
  }

  function Elems<T>(s: seq<T>): set<T> {
    set x | x in s
  }

  function KeysOf(targets: set<Target>): set<string> {
    set t | t in targets :: t.key
  }

  lemma {:induction false} ElemsPrefix<T>(s: seq<T>, k: nat)
    requires k < |s|
    ensures Elems(s[..k + 1]) == Elems(s[..k]) + {s[k]}
  {
    assert s[..k + 1] == s[..k] + [s[k]];
  }

  lemma {:induction false} ElemsWhole<T>(s: seq<T>)
    ensures Elems(s[..|s|]) == Elems(s)
  {
    assert s[..|s|] == s;
  }

  function TargetsOf(rule: Rule): set<Target> {
    set ref | ref in rule.refs && ref.Asg? :: ref.target
  }

  /** The targets of rule `i`; none when there is no such rule. */
  function RuleTargets(m: Mapping, i: nat): set<Target> {
    if i < |m.rules| then TargetsOf(m.rules[i]) else {}
  }

  /** The rules whose selector accepts `labels`. */
  function MatchSet(m: Mapping, labels: Labels): (r: set<nat>)
    ensures forall i :: i in r ==> i < |m.rules|
  {
    set i: nat | i < |m.rules| && Selects(m.rules[i].selector, labels)
  }

  /** The rules a pod contributes to: a mapping only sees pods of its own namespace. */
  function RulesOf(m: Mapping, pod: Pod): (r: set<nat>)
    ensures forall i :: i in r ==> i < |m.rules|
  {
    if pod.id.namespace == m.key.namespace then MatchSet(m, pod.labels) else {}
  }

  function TargetsOfRules(m: Mapping, rules: set<nat>): set<Target> {
    set i, t | i in rules && t in RuleTargets(m, i) :: t
  }

  function KeysOfRules(m: Mapping, rules: set<nat>): set<string> {
    KeysOf(TargetsOfRules(m, rules))
  }

  function AllTargets(m: Mapping): set<Target> {
    set i: nat, t | i < |m.rules| && t in RuleTargets(m, i) :: t
  }

  /** No two spellings of one target occur in the mapping. */
  ghost predicate OneSpelling(m: Mapping) {
    forall t, u :: t in AllTargets(m) && u in AllTargets(m) && t.key == u.key ==> t == u
  }

  /** No target is reached by two different rules of the mapping. */
  ghost predicate RulesSeparated(m: Mapping) {
    forall i: nat, j: nat, t :: t in RuleTargets(m, i) && t in RuleTargets(m, j) ==> i == j
  }

  /** Every resource ID of the mapping parses. */
  predicate WellFormedRefs(m: Mapping) {
    forall rule :: rule in m.rules ==> Malformed !in rule.refs
  }

  lemma {:induction false} TargetsOfRulesUnion(m: Mapping, a: set<nat>, b: set<nat>)
    ensures TargetsOfRules(m, a + b) == TargetsOfRules(m, a) + TargetsOfRules(m, b)
    ensures KeysOfRules(m, a + b) == KeysOfRules(m, a) + KeysOfRules(m, b)
  {
    assert TargetsOfRules(m, a + b) == TargetsOfRules(m, a) + TargetsOfRules(m, b);
  }

  lemma {:induction false} TargetsOfOneRule(m: Mapping, i: nat)
    ensures TargetsOfRules(m, {i}) == RuleTargets(m, i)
    ensures KeysOfRules(m, {i}) == KeysOf(RuleTargets(m, i))
  {
  }
}
