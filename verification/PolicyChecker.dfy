/**
 scripts/check_k8s_policies.py: a syntactic test over (subject, peer, port) triples, against what the
 policies mean.
 */
module PolicyChecker {
  import opened Options
  import opened NetworkPolicies

  datatype PortSpec = AnyPort | OnPort(protocol: string, port: Option<string>)

  datatype Triple = Triple(subject: Labels, peer: Labels, port: PortSpec)

  predicate Covers(spec: PortSpec, protocol: string, port: string) {
    spec.AnyPort? || (spec.protocol == protocol && (spec.port.Some? ==> spec.port.value == port))
  }

  function SpecOf(entry: PortEntry): PortSpec {
    OnPort(if entry.protocol.Some? then entry.protocol.value else "TCP", entry.port)
  }

  /** `ports_of` */
  function PortsOf(ports: seq<PortEntry>): seq<PortSpec> {
    if ports == [] then [AnyPort] else seq(|ports|, i requires 0 <= i < |ports| => SpecOf(ports[i]))
  }

  /** `peers_of` */
  function PeersOf(peers: seq<Peer>): (selectors: seq<Labels>)
    ensures forall selector :: selector in selectors <==> Pods(selector) in peers
  {
    if peers == [] then []
    else if peers[0].Pods? then [peers[0].selector] + PeersOf(peers[1..])
    else PeersOf(peers[1..])
  }

  function Row(subject: Labels, peer: Labels, ports: seq<PortSpec>): seq<Triple> {
    seq(|ports|, i requires 0 <= i < |ports| => Triple(subject, peer, ports[i]))
  }

  function Product(subject: Labels, peers: seq<Labels>, ports: seq<PortSpec>): seq<Triple> {
    if peers == [] then [] else Product(subject, peers[..|peers| - 1], ports) + Row(subject, peers[|peers| - 1], ports)
  }

  function TriplesOf(subject: Labels, rules: seq<Rule>): seq<Triple> {
    if rules == [] then []
    else
      var rule := rules[|rules| - 1];
      TriplesOf(subject, rules[..|rules| - 1]) + Product(subject, PeersOf(rule.peers), PortsOf(rule.ports))
  }

  function IngressTriples(policies: seq<Policy>): seq<Triple> {
    if policies == [] then []
    else
      var p := policies[|policies| - 1];
      IngressTriples(policies[..|policies| - 1]) + if "Ingress" in p.kinds then TriplesOf(p.subject, p.ingress) else []
  }

  function EgressTriples(policies: seq<Policy>): seq<Triple> {
    if policies == [] then []
    else
      var p := policies[|policies| - 1];
      EgressTriples(policies[..|policies| - 1]) + if "Egress" in p.kinds then TriplesOf(p.subject, p.egress) else []
  }

  function Protected(policies: seq<Policy>): set<Labels> {
    set p | p in policies && "Ingress" in p.kinds :: p.subject
  }

  /** The test one egress triple has to pass. */
  predicate HasHalf(policies: seq<Policy>, t: Triple) {
    || t.peer !in Protected(policies)
    || Triple(t.peer, t.subject, t.port) in IngressTriples(policies)
    || Triple(t.peer, t.subject, AnyPort) in IngressTriples(policies)
  }

  function Failing(policies: seq<Policy>, ts: seq<Triple>): (problems: seq<Triple>)
    ensures forall t :: t in problems <==> t in ts && !HasHalf(policies, t)
  {
    if ts == [] then []
    else
      var last := ts[|ts| - 1];
      assert ts == ts[..|ts| - 1] + [last];
      Failing(policies, ts[..|ts| - 1]) + if HasHalf(policies, last) then [] else [last]
  }

  lemma RowStep(subject: Labels, peer: Labels, ports: seq<PortSpec>, k: nat)
    requires k < |ports|
    ensures Row(subject, peer, ports[..k + 1]) == Row(subject, peer, ports[..k]) + [Triple(subject, peer, ports[k])]
  {
  }

  lemma ProductStep(subject: Labels, peers: seq<Labels>, ports: seq<PortSpec>, j: nat)
    requires j < |peers|
    ensures Product(subject, peers[..j + 1], ports)
            == Product(subject, peers[..j], ports) + Row(subject, peers[j], ports)
  {
    assert peers[..j + 1][..j] == peers[..j];
  }

  lemma TriplesStep(subject: Labels, rules: seq<Rule>, i: nat)
    requires i < |rules|
    ensures TriplesOf(subject, rules[..i + 1])
         == TriplesOf(subject, rules[..i]) + Product(subject, PeersOf(rules[i].peers), PortsOf(rules[i].ports))
  {
    assert rules[..i + 1][..i] == rules[..i];
  }

  /** One rule: every peer it names, on every port. */
  method CollectRule(subject: Labels, peers: seq<Labels>, ports: seq<PortSpec>) returns (triples: seq<Triple>)
    ensures triples == Product(subject, peers, ports)
  {
    triples := [];
    for j := 0 to |peers|
      invariant triples == Product(subject, peers[..j], ports)
    {
      ghost var before := triples;
      for k := 0 to |ports|
        invariant triples == before + Row(subject, peers[j], ports[..k])
      {
        RowStep(subject, peers[j], ports, k);
        triples := triples + [Triple(subject, peers[j], ports[k])];
      }
      assert ports[..|ports|] == ports;
      ProductStep(subject, peers, ports, j);
    }
    assert peers[..|peers|] == peers;
  }

  /** The inner loops of `main`: every rule, every peer, every port. */
  method Collect(subject: Labels, rules: seq<Rule>) returns (triples: seq<Triple>)
    ensures triples == TriplesOf(subject, rules)
  {
    triples := [];
    for i := 0 to |rules|
      invariant triples == TriplesOf(subject, rules[..i])
    {
      var more := CollectRule(subject, PeersOf(rules[i].peers), PortsOf(rules[i].ports));
      TriplesStep(subject, rules, i);
      triples := triples + more;
    }
    assert rules[..|rules|] == rules;
  }

  lemma PoliciesStep(policies: seq<Policy>, i: nat)
    requires i < |policies|
    ensures var p := policies[i];
            && Protected(policies[..i + 1])
               == Protected(policies[..i]) + (if "Ingress" in p.kinds then {p.subject} else {})
            && IngressTriples(policies[..i + 1])
               == IngressTriples(policies[..i]) + (if "Ingress" in p.kinds then TriplesOf(p.subject, p.ingress) else [])
            && EgressTriples(policies[..i + 1])
               == EgressTriples(policies[..i]) + (if "Egress" in p.kinds then TriplesOf(p.subject, p.egress) else [])
  {
    assert policies[..i + 1][..i] == policies[..i];
    assert policies[..i + 1] == policies[..i] + [policies[i]];
  }

  lemma FailingStep(policies: seq<Policy>, ts: seq<Triple>, i: nat)
    requires i < |ts|
    ensures Failing(policies, ts[..i + 1])
         == Failing(policies, ts[..i]) + if HasHalf(policies, ts[i]) then [] else [ts[i]]
  {
    assert ts[..i + 1][..i] == ts[..i];
  }

  /** The first half of `main`: what ingress protects and allows, and what egress asks for. */
  method Gather(policies: seq<Policy>) returns (protected: set<Labels>, allowed: set<Triple>, egress: seq<Triple>)
    ensures protected == Protected(policies)
    ensures forall t :: t in allowed <==> t in IngressTriples(policies)
    ensures egress == EgressTriples(policies)
  {
    protected, allowed, egress := {}, {}, [];
    for i := 0 to |policies|
      invariant protected == Protected(policies[..i])
      invariant forall t :: t in allowed <==> t in IngressTriples(policies[..i])
      invariant egress == EgressTriples(policies[..i])
    {
      hide Protected, IngressTriples, EgressTriples, TriplesOf;
      var p := policies[i];
      PoliciesStep(policies, i);
      if "Ingress" in p.kinds {
        protected := protected + {p.subject};
        var triples := Collect(p.subject, p.ingress);
        allowed := allowed + set t | t in triples;
      }
      if "Egress" in p.kinds {
        var triples := Collect(p.subject, p.egress);
        egress := egress + triples;
      }
    }
    assert policies[..|policies|] == policies;
  }

  /** `main`, once the manifests are parsed: the exit code and the reported pairs. */
  method Check(policies: seq<Policy>) returns (code: int, problems: seq<Triple>)
    ensures problems == Failing(policies, EgressTriples(policies))
    ensures forall t :: t in problems <==> Unanswered(policies, t)
    ensures code == if exists t :: Unanswered(policies, t) then 1 else 0
    ensures code == 0 <==> forall t | t in EgressTriples(policies) :: HasHalf(policies, t)
  {
    hide Unanswered;
    var protected, allowed, egress := Gather(policies);
    problems := [];
    for i := 0 to |egress|
      invariant problems == Failing(policies, egress[..i])
    {
      var t := egress[i];
      FailingStep(policies, egress, i);
      if t.peer !in protected || Triple(t.peer, t.subject, t.port) in allowed
          || Triple(t.peer, t.subject, AnyPort) in allowed {
        continue;
      }
      problems := problems + [t];
    }
    assert egress[..|egress|] == egress;
    code := if problems != [] then 1 else 0;
    forall t ensures t in problems <==> Unanswered(policies, t) { ReportedIff(policies, t); }
    if problems != [] { assert problems[0] in problems; }
  }

  /*************************** Triples and what they stand for ***************************/

  lemma InPortsOf(ports: seq<PortEntry>, protocol: string, port: string)
    ensures PortsMatch(ports, protocol, port) <==> exists spec :: spec in PortsOf(ports) && Covers(spec, protocol, port)
  {
    var specs := PortsOf(ports);
    if ports == [] {
      assert AnyPort in specs && Covers(AnyPort, protocol, port);
    } else {
      if entry :| entry in ports && EntryCovers(entry, protocol, port) {
        var i :| 0 <= i < |ports| && ports[i] == entry;
        assert specs[i] in specs && Covers(specs[i], protocol, port);
      }
      if spec :| spec in specs && Covers(spec, protocol, port) {
        var i :| 0 <= i < |specs| && specs[i] == spec;
        assert ports[i] in ports && EntryCovers(ports[i], protocol, port);
      }
    }
  }

  lemma InRow(subject: Labels, peer: Labels, ports: seq<PortSpec>, t: Triple)
    ensures t in Row(subject, peer, ports) <==> t.subject == subject && t.peer == peer && t.port in ports
  {
    var row := Row(subject, peer, ports);
    if t in row {
      var i :| 0 <= i < |row| && row[i] == t;
    }
    if t.subject == subject && t.peer == peer && t.port in ports {
      var i :| 0 <= i < |ports| && ports[i] == t.port;
      assert row[i] == t;
    }
  }

  lemma {:induction false} InProduct(subject: Labels, peers: seq<Labels>, ports: seq<PortSpec>, t: Triple)
    ensures t in Product(subject, peers, ports) <==> t.subject == subject && t.peer in peers && t.port in ports
  {
    hide Row;
    if peers != [] {
      var n := |peers| - 1;
      InProduct(subject, peers[..n], ports, t);
      InRow(subject, peers[n], ports, t);
      assert peers == peers[..n] + [peers[n]];
    }
  }

  /** The rule spells this triple out. */
  ghost predicate Spells(rule: Rule, peer: Labels, port: PortSpec) {
    Pods(peer) in rule.peers && port in PortsOf(rule.ports)
  }

  lemma InOneRule(subject: Labels, rule: Rule, t: Triple)
    ensures t in Product(subject, PeersOf(rule.peers), PortsOf(rule.ports))
       <==> t.subject == subject && Spells(rule, t.peer, t.port)
  {
    hide Product, PortsOf;
    InProduct(subject, PeersOf(rule.peers), PortsOf(rule.ports), t);
  }

  lemma {:induction false} InTriplesOf(subject: Labels, rules: seq<Rule>, t: Triple)
    ensures t in TriplesOf(subject, rules)
       <==> t.subject == subject && exists rule :: rule in rules && Spells(rule, t.peer, t.port)
  {
    hide Product, PeersOf, PortsOf, Spells;
    if rules != [] {
      var n := |rules| - 1;
      InTriplesOf(subject, rules[..n], t);
      InOneRule(subject, rules[n], t);
      assert rules == rules[..n] + [rules[n]];
    }
  }

  /** An ingress triple is collected if and only if some ingress policy's rule spells it out. */
  lemma {:induction false} IngressTriplesIff(policies: seq<Policy>, t: Triple)
    ensures t in IngressTriples(policies)
       <==> exists p, rule :: p in policies && "Ingress" in p.kinds && p.subject == t.subject && rule in p.ingress
                              && Spells(rule, t.peer, t.port)
  {
    hide TriplesOf, Spells;
    if policies != [] {
      var n := |policies| - 1;
      IngressTriplesIff(policies[..n], t);
      InTriplesOf(policies[n].subject, policies[n].ingress, t);
      assert policies == policies[..n] + [policies[n]];
    }
  }

  lemma {:induction false} EgressTriplesIff(policies: seq<Policy>, t: Triple)
    ensures t in EgressTriples(policies)
       <==> exists p, rule :: p in policies && "Egress" in p.kinds && p.subject == t.subject && rule in p.egress
                              && Spells(rule, t.peer, t.port)
  {
    hide TriplesOf, Spells;
    if policies != [] {
      var n := |policies| - 1;
      EgressTriplesIff(policies[..n], t);
      InTriplesOf(policies[n].subject, policies[n].egress, t);
      assert policies == policies[..n] + [policies[n]];
    }
  }

  /*************************** Which pairs are reported ***************************/

  /** The list of ports reads as this one: no list is any port, and no protocol is TCP. */
  predicate ReadsAs(ports: seq<PortEntry>, spec: PortSpec) {
    if ports == [] then spec == AnyPort
    else
      exists entry :: entry in ports && spec.OnPort? && spec.port == entry.port
                      && spec.protocol == match entry.protocol { case None => "TCP" case Some(name) => name }
  }

  lemma PortsOfReads(ports: seq<PortEntry>, spec: PortSpec)
    ensures spec in PortsOf(ports) <==> ReadsAs(ports, spec)
  {
    var specs := PortsOf(ports);
    if ports != [] {
      if spec in specs {
        var i :| 0 <= i < |specs| && specs[i] == spec;
        assert ports[i] in ports;
      }
      if ReadsAs(ports, spec) {
        var entry :| entry in ports && spec.OnPort? && spec.port == entry.port
                     && spec.protocol == match entry.protocol { case None => "TCP" case Some(name) => name };
        var i :| 0 <= i < |ports| && ports[i] == entry;
        assert specs[i] == spec;
      }
    }
  }

  /** Some typed ingress policy is for exactly this selector. */
  ghost predicate NamedByIngress(policies: seq<Policy>, peer: Labels) {
    exists p :: p in policies && "Ingress" in p.kinds && p.subject == peer
  }

  /** A rule of such a policy names exactly this source, on every port or on exactly this one. */
  ghost predicate AnsweredByName(policies: seq<Policy>, peer: Labels, subject: Labels, port: PortSpec) {
    exists p, rule :: p in policies && "Ingress" in p.kinds && p.subject == peer && rule in p.ingress
                      && Pods(subject) in rule.peers && (rule.ports == [] || ReadsAs(rule.ports, port))
  }

  /** A rule of a typed egress policy for exactly this selector names exactly this peer and port. */
  ghost predicate AskedByName(policies: seq<Policy>, t: Triple) {
    exists p, rule :: p in policies && "Egress" in p.kinds && p.subject == t.subject && rule in p.egress
                      && Pods(t.peer) in rule.peers && ReadsAs(rule.ports, t.port)
  }

  /** Asked for, to a destination ingress names, where no rule names the source on every port or on this one. */
  ghost predicate Unanswered(policies: seq<Policy>, t: Triple) {
    && AskedByName(policies, t)
    && NamedByIngress(policies, t.peer)
    && !AnsweredByName(policies, t.peer, t.subject, t.port)
  }

  lemma AskedIff(policies: seq<Policy>, t: Triple)
    ensures t in EgressTriples(policies) <==> AskedByName(policies, t)
  {
    EgressTriplesIff(policies, t);
    hide EgressTriples, ReadsAs, PortsOf;
    if t in EgressTriples(policies) {
      var p, rule :| p in policies && "Egress" in p.kinds && p.subject == t.subject && rule in p.egress
                     && Spells(rule, t.peer, t.port);
      PortsOfReads(rule.ports, t.port);
    }
    if AskedByName(policies, t) {
      var p, rule :| p in policies && "Egress" in p.kinds && p.subject == t.subject && rule in p.egress
                     && Pods(t.peer) in rule.peers && ReadsAs(rule.ports, t.port);
      PortsOfReads(rule.ports, t.port);
      assert Spells(rule, t.peer, t.port);
    }
  }

  /** The reported pairs are exactly the unanswered ones. */
  lemma ReportedIff(policies: seq<Policy>, t: Triple)
    ensures t in Failing(policies, EgressTriples(policies)) <==> Unanswered(policies, t)
  {
    AskedIff(policies, t);
    HasHalfIff(policies, t);
    hide HasHalf, NamedByIngress, AnsweredByName, AskedByName;
  }

  lemma HasHalfIff(policies: seq<Policy>, t: Triple)
    ensures HasHalf(policies, t)
       <==> !NamedByIngress(policies, t.peer) || AnsweredByName(policies, t.peer, t.subject, t.port)
  {
    var exact, any := Triple(t.peer, t.subject, t.port), Triple(t.peer, t.subject, AnyPort);
    IngressTriplesIff(policies, exact);
    IngressTriplesIff(policies, any);
    hide IngressTriples, ReadsAs, PortsOf;
    assert t.peer in Protected(policies) <==> NamedByIngress(policies, t.peer);
    if exact in IngressTriples(policies) {
      var p, rule :| p in policies && "Ingress" in p.kinds && p.subject == t.peer && rule in p.ingress
                     && Spells(rule, t.subject, t.port);
      PortsOfReads(rule.ports, t.port);
    }
    if any in IngressTriples(policies) {
      var p, rule :| p in policies && "Ingress" in p.kinds && p.subject == t.peer && rule in p.ingress
                     && Spells(rule, t.subject, AnyPort);
      PortsOfReads(rule.ports, AnyPort);
      NoListIsAny(rule.ports);
    }
    if AnsweredByName(policies, t.peer, t.subject, t.port) {
      var p, rule :| p in policies && "Ingress" in p.kinds && p.subject == t.peer && rule in p.ingress
                     && Pods(t.subject) in rule.peers && (rule.ports == [] || ReadsAs(rule.ports, t.port));
      PortsOfReads(rule.ports, t.port);
      PortsOfReads(rule.ports, AnyPort);
      NoListIsAny(rule.ports);
      assert Spells(rule, t.subject, t.port) || Spells(rule, t.subject, AnyPort);
    }
  }

  lemma NoListIsAny(ports: seq<PortEntry>)
    ensures ReadsAs(ports, AnyPort) <==> ports == []
  {
  }

  /** What the script looks at: a typed egress policy's rule, a pod peer, and a port the rule covers. */
  ghost predicate Collects(policies: seq<Policy>, subject: Labels, peer: Labels, protocol: string, port: string) {
    exists p, rule :: p in policies && "Egress" in p.kinds && p.subject == subject && rule in p.egress
                      && Pods(peer) in rule.peers && PortsMatch(rule.ports, protocol, port)
  }

  /** Each such pair and port is covered by a collected triple, and nothing else is. */
  lemma CollectedAreTriples(policies: seq<Policy>, subject: Labels, peer: Labels, protocol: string, port: string)
    ensures Collects(policies, subject, peer, protocol, port)
       <==> exists spec :: Triple(subject, peer, spec) in EgressTriples(policies) && Covers(spec, protocol, port)
  {
    if Collects(policies, subject, peer, protocol, port) {
      var p, rule :| p in policies && "Egress" in p.kinds && p.subject == subject && rule in p.egress
                     && Pods(peer) in rule.peers && PortsMatch(rule.ports, protocol, port);
      InPortsOf(rule.ports, protocol, port);
      var spec :| spec in PortsOf(rule.ports) && Covers(spec, protocol, port);
      assert Spells(rule, peer, spec);
      EgressTriplesIff(policies, Triple(subject, peer, spec));
    }
    if spec :| Triple(subject, peer, spec) in EgressTriples(policies) && Covers(spec, protocol, port) {
      EgressTriplesIff(policies, Triple(subject, peer, spec));
      var p, rule :| p in policies && "Egress" in p.kinds && p.subject == subject && rule in p.egress
          && Spells(rule, peer, spec);
      InPortsOf(rule.ports, protocol, port);
    }
  }

  lemma IngressTripleAdmits(home: Labels, policies: seq<Policy>, t: Triple, source: Labels, target: Labels,
                            protocol: string, port: string)
    requires t in IngressTriples(policies) && Covers(t.port, protocol, port)
    requires Selects(t.peer, source) && Selects(t.subject, target)
    ensures Admitted(home, policies, source, target, protocol, port)
  {
    IngressTriplesIff(policies, t);
    var p, rule :| p in policies && "Ingress" in p.kinds && p.subject == t.subject && rule in p.ingress
        && Spells(rule, t.peer, t.port);
    InPortsOf(rule.ports, protocol, port);
    assert PeerMatches(home, Pods(t.peer), source);
    assert RuleAllows(home, rule, source, protocol, port);
  }

  /*************************** What egress policies grant ***************************/

  /** The rule names this selector among the pods of the namespace: outright, through its namespace, or as everyone. */
  ghost predicate Names(home: Labels, rule: Rule, peer: Labels) {
    || (rule.peers == [] && peer == map[])
    || Pods(peer) in rule.peers
    || exists namespaces :: Namespaces(namespaces, peer) in rule.peers && Selects(namespaces, home)
  }

  /** An egress policy, typed or not, lets the subject's pods reach the peer's on this port. */
  ghost predicate Grants(home: Labels, policies: seq<Policy>, subject: Labels, peer: Labels, protocol: string,
                         port: string) {
    exists p, rule :: p in policies && GovernsEgress(p) && p.subject == subject && rule in p.egress
                      && Names(home, rule, peer) && PortsMatch(rule.ports, protocol, port)
  }

  lemma PeersMatchIffNamed(home: Labels, rule: Rule, pod: Labels)
    ensures PeersMatch(home, rule.peers, pod) <==> exists peer :: Names(home, rule, peer) && Selects(peer, pod)
  {
    if PeersMatch(home, rule.peers, pod) {
      if rule.peers == [] {
        assert Names(home, rule, map[]) && Selects(map[], pod);
      } else {
        var peer :| peer in rule.peers && PeerMatches(home, peer, pod);
        var selector := if peer.Pods? then peer.selector else peer.pods;
        assert Names(home, rule, selector) && Selects(selector, pod);
      }
    }
    if selector :| Names(home, rule, selector) && Selects(selector, pod) {
      if rule.peers != [] && Pods(selector) !in rule.peers {
        var namespaces :| Namespaces(namespaces, selector) in rule.peers && Selects(namespaces, home);
        assert PeerMatches(home, Namespaces(namespaces, selector), pod);
      } else if rule.peers != [] {
        assert PeerMatches(home, Pods(selector), pod);
      }
    }
  }

  /** A governed pod may open exactly the connections some granted pair covers. */
  lemma EgressIsGranted(home: Labels, policies: seq<Policy>, source: Labels, target: Labels, protocol: string,
                        port: string)
    requires exists p :: p in policies && GovernsEgress(p) && Selects(p.subject, source)
    ensures EgressAllows(home, policies, source, target, protocol, port)
       <==> exists subject, peer :: Grants(home, policies, subject, peer, protocol, port)
                                    && Selects(subject, source) && Selects(peer, target)
  {
    hide Names, PeersMatch, PortsMatch, GovernsEgress, Selects;
    if EgressAllows(home, policies, source, target, protocol, port) {
      var p, rule :| p in policies && GovernsEgress(p) && Selects(p.subject, source) && rule in p.egress
                     && RuleAllows(home, rule, target, protocol, port);
      PeersMatchIffNamed(home, rule, target);
      var peer :| Names(home, rule, peer) && Selects(peer, target);
      assert Grants(home, policies, p.subject, peer, protocol, port);
    }
    if subject, peer :| Grants(home, policies, subject, peer, protocol, port) && Selects(subject, source)
                        && Selects(peer, target) {
      GrantAllows(home, policies, subject, peer, source, target, protocol, port);
    }
  }

  lemma GrantAllows(home: Labels, policies: seq<Policy>, subject: Labels, peer: Labels, source: Labels, target: Labels,
                    protocol: string, port: string)
    requires Grants(home, policies, subject, peer, protocol, port) && Selects(subject, source) && Selects(peer, target)
    ensures EgressAllows(home, policies, source, target, protocol, port)
  {
    hide Names, PeersMatch, PortsMatch, GovernsEgress, Selects;
    var p, rule :| p in policies && GovernsEgress(p) && p.subject == subject && rule in p.egress
                   && Names(home, rule, peer) && PortsMatch(rule.ports, protocol, port);
    PeersMatchIffNamed(home, rule, target);
    assert RuleAllows(home, rule, target, protocol, port);
  }

  /** Whatever the script looks at is granted; untyped policies and the other peers it passes over. */
  lemma CollectedIsGranted(home: Labels, policies: seq<Policy>, subject: Labels, peer: Labels, protocol: string,
                           port: string)
    requires Collects(policies, subject, peer, protocol, port)
    ensures Grants(home, policies, subject, peer, protocol, port)
  {
    var p, rule :| p in policies && "Egress" in p.kinds && p.subject == subject && rule in p.egress
                   && Pods(peer) in rule.peers && PortsMatch(rule.ports, protocol, port);
    assert GovernsEgress(p) && Names(home, rule, peer);
  }

  /*************************** What the exit code means ***************************/

  /** Soundness, pair by pair: a matched egress pair works, for every pod on both sides and every port it covers. */
  lemma MatchedPairsConnect(home: Labels, policies: seq<Policy>, t: Triple, protocol: string, port: string)
    requires t in EgressTriples(policies) && Covers(t.port, protocol, port)
    requires t.peer in Protected(policies) && HasHalf(policies, t)
    ensures Reachable(home, policies, t.subject, t.peer, protocol, port)
  {
    var spec := if Triple(t.peer, t.subject, t.port) in IngressTriples(policies) then t.port else AnyPort;
    assert Triple(t.subject, t.peer, t.port) == t;
    CollectedAreTriples(policies, t.subject, t.peer, protocol, port);
    CollectedIsGranted(home, policies, t.subject, t.peer, protocol, port);
    forall from, to | Selects(t.subject, from) && Selects(t.peer, to)
      ensures Connects(home, policies, from, to, protocol, port)
    {
      GrantAllows(home, policies, t.subject, t.peer, from, to, protocol, port);
      IngressTripleAdmits(home, policies, Triple(t.peer, t.subject, spec), from, to, protocol, port);
    }
  }

  /** What would justify a granted pair, on any pair of selectors, protected or not. */
  lemma ReachableIffAnswered(home: Labels, policies: seq<Policy>, subject: Labels, peer: Labels, protocol: string,
                             port: string)
    requires Grants(home, policies, subject, peer, protocol, port)
    ensures Reachable(home, policies, subject, peer, protocol, port)
            <==> IngressAnswered(home, policies, subject, peer, protocol, port)
  {
    IngressOpenIffAnswered(home, policies, subject, peer, protocol, port);
    forall from, to | Selects(subject, from) && Selects(peer, to)
      ensures EgressAllows(home, policies, from, to, protocol, port)
    {
      GrantAllows(home, policies, subject, peer, from, to, protocol, port);
    }
  }

  /** Every pair the egress policies grant works. */
  ghost predicate AllPairsConnect(home: Labels, policies: seq<Policy>) {
    forall subject, peer, protocol, port | Grants(home, policies, subject, peer, protocol, port) ::
      Reachable(home, policies, subject, peer, protocol, port)
  }

  /** The script compares this pair with the ingress rules, rather than passing over it. */
  ghost predicate Compared(policies: seq<Policy>, subject: Labels, peer: Labels, protocol: string, port: string) {
    peer in Protected(policies) && Collects(policies, subject, peer, protocol, port)
  }

  /** The granted pairs the script passes over are answered by every ingress policy that can meet them. */
  ghost predicate SkippedPairsAnswered(home: Labels, policies: seq<Policy>) {
    forall subject, peer, protocol, port
      | Grants(home, policies, subject, peer, protocol, port) && !Compared(policies, subject, peer, protocol, port) ::
      IngressAnswered(home, policies, subject, peer, protocol, port)
  }

  lemma ComparedPairConnects(home: Labels, policies: seq<Policy>, subject: Labels, peer: Labels, protocol: string,
                             port: string)
    requires forall t | t in EgressTriples(policies) :: HasHalf(policies, t)
    requires Compared(policies, subject, peer, protocol, port)
    ensures Reachable(home, policies, subject, peer, protocol, port)
  {
    hide Reachable, HasHalf, Protected, Collects;
    CollectedAreTriples(policies, subject, peer, protocol, port);
    var spec :| Triple(subject, peer, spec) in EgressTriples(policies) && Covers(spec, protocol, port);
    MatchedPairsConnect(home, policies, Triple(subject, peer, spec), protocol, port);
  }

  /**
   Exit 0 means that everything the egress policies grant within the namespace works, exactly when the
   pairs the script passes over are answered too.
   */
  lemma ExitZeroMeansConnected(home: Labels, policies: seq<Policy>)
    requires forall t | t in EgressTriples(policies) :: HasHalf(policies, t)
    ensures AllPairsConnect(home, policies) <==> SkippedPairsAnswered(home, policies)
  {
    hide Reachable, IngressAnswered, HasHalf, EgressTriples, Compared, Grants;
    forall subject, peer, protocol, port | Grants(home, policies, subject, peer, protocol, port)
      ensures Reachable(home, policies, subject, peer, protocol, port)
              <==> IngressAnswered(home, policies, subject, peer, protocol, port)
      ensures Compared(policies, subject, peer, protocol, port)
              ==> Reachable(home, policies, subject, peer, protocol, port)
    {
      ReachableIffAnswered(home, policies, subject, peer, protocol, port);
      if Compared(policies, subject, peer, protocol, port) {
        ComparedPairConnects(home, policies, subject, peer, protocol, port);
      }
    }
  }

  const WORKER: Labels := map["app" := "worker"]
  const DB: Labels := map["app" := "db"]
  const POSTGRES: PortEntry := PortEntry(None, Some("5432"))
  const WORKER_TO_DB: Policy := Policy(WORKER, ["Egress"], [], [Rule([Pods(DB)], [POSTGRES])])
  const DENY_ALL: Policy := Policy(map[], ["Ingress", "Egress"], [], [])
  const REQUEST: Triple := Triple(WORKER, DB, OnPort("TCP", Some("5432")))

  lemma OneRule(subject: Labels, peer: Labels, entry: PortEntry)
    ensures TriplesOf(subject, [Rule([Pods(peer)], [entry])]) == [Triple(subject, peer, SpecOf(entry))]
  {
    var rule := Rule([Pods(peer)], [entry]);
    assert [rule][..0] == [] && rule.peers[1..] == [] && [peer][..0] == [];
    assert PeersOf(rule.peers) == [peer];
    assert Product(subject, [peer], PortsOf(rule.ports)) == Row(subject, peer, PortsOf(rule.ports));
  }

  lemma NoPolicies()
    ensures IngressTriples([]) == [] && EgressTriples([]) == []
  {
  }

  lemma NoRules(subject: Labels)
    ensures TriplesOf(subject, []) == []
  {
  }

  lemma TwoPolicies(a: Policy, b: Policy)
    ensures IngressTriples([a, b])
         == (if "Ingress" in a.kinds then TriplesOf(a.subject, a.ingress) else [])
             + (if "Ingress" in b.kinds then TriplesOf(b.subject, b.ingress) else [])
    ensures EgressTriples([a, b])
         == (if "Egress" in a.kinds then TriplesOf(a.subject, a.egress) else [])
             + (if "Egress" in b.kinds then TriplesOf(b.subject, b.egress) else [])
  {
    hide TriplesOf, IngressTriples, EgressTriples, Protected;
    var policies := [a, b];
    PoliciesStep(policies, 0);
    PoliciesStep(policies, 1);
    assert policies[..0] == [] && policies[..2] == policies && policies[0] == a && policies[1] == b;
    NoPolicies();
    assert IngressTriples(policies[..1]) == if "Ingress" in a.kinds then TriplesOf(a.subject, a.ingress) else [];
    assert EgressTriples(policies[..1]) == if "Egress" in a.kinds then TriplesOf(a.subject, a.egress) else [];
  }

  lemma DifferentLabels()
    ensures WORKER != DB && WORKER != map[] && DB != map[] && !Selects(WORKER, DB) && !Selects(DB, WORKER)
    ensures "Ingress" != "Egress"
  {
    assert WORKER["app"] == "worker" && DB["app"] == "db";
    assert "worker"[0] == 'w' && "db"[0] == 'd' && "Ingress"[0] == 'I' && "Egress"[0] == 'E';
    assert "app" in WORKER && "app" in DB;
  }

  /**
   Without that condition exit 0 proves too little: a namespace-wide default-deny isolates a
   destination that no ingress policy names by exactly its selector, and the checker skips it.
   */
  lemma DefaultDenyIsSkipped(home: Labels) returns (policies: seq<Policy>)
    ensures forall t | t in EgressTriples(policies) :: HasHalf(policies, t)
    ensures REQUEST in EgressTriples(policies) && Grants(home, policies, WORKER, DB, "TCP", "5432")
    ensures Selects(WORKER, WORKER) && Selects(DB, DB) && !Connects(home, policies, WORKER, DB, "TCP", "5432")
  {
    hide TriplesOf, IngressTriples, EgressTriples, Collects, Grants, Connects;
    policies := [DENY_ALL, WORKER_TO_DB];
    DifferentLabels();
    TwoPolicies(DENY_ALL, WORKER_TO_DB);
    OneRule(WORKER, DB, POSTGRES);
    NoRules(map[]);
    assert EgressTriples(policies) == [REQUEST];
    assert DB !in Protected(policies);
    assert Covers(REQUEST.port, "TCP", "5432");
    CollectedAreTriples(policies, WORKER, DB, "TCP", "5432");
    CollectedIsGranted(home, policies, WORKER, DB, "TCP", "5432");
    DenyAllBlocks(home);
  }

  lemma DenyAllBlocks(home: Labels)
    ensures !Connects(home, [DENY_ALL, WORKER_TO_DB], WORKER, DB, "TCP", "5432")
  {
    hide EgressAllows, RuleAllows;
    assert DENY_ALL in [DENY_ALL, WORKER_TO_DB] && GovernsIngress(DENY_ALL) && Selects(DENY_ALL.subject, DB);
  }

  /** Three egress policies from the worker to the database that collect no triple. */
  datatype PassedOver = Untyped | ByNamespace | ToEveryone {

    function Egress(home: Labels): Policy {
      match this
      case Untyped => Policy(WORKER, [], [], [Rule([Pods(DB)], [POSTGRES])])
      case ByNamespace => Policy(WORKER, ["Egress"], [], [Rule([Namespaces(home, DB)], [POSTGRES])])
      case ToEveryone => Policy(WORKER, ["Egress"], [], [Rule([], [POSTGRES])])
    }
  }

  const CLOSED_DB: Policy := Policy(DB, ["Ingress"], [], [])

  /**
   The script passes over more than unprotected destinations. With no policy types, a namespace peer
   that selects this very namespace, or no peers at all, nothing is collected: exit is 0 although the
   destination is protected by name and lets nobody in.
   */
  lemma EgressPassedOver(home: Labels, kind: PassedOver)
    ensures var policies := [kind.Egress(home), CLOSED_DB];
            && (forall t | t in EgressTriples(policies) :: HasHalf(policies, t))
            && (exists peer :: Grants(home, policies, WORKER, peer, "TCP", "5432") && Selects(peer, DB))
            && DB in Protected(policies) && EgressAllows(home, policies, WORKER, DB, "TCP", "5432")
            && !Connects(home, policies, WORKER, DB, "TCP", "5432")
  {
    var p := kind.Egress(home);
    var policies := [p, CLOSED_DB];
    DifferentLabels();
    NothingCollected(home, kind);
    assert p in policies && CLOSED_DB in policies && p.egress[0] in p.egress;
    GrantedAnyway(home, kind);
    var peer := if kind.ToEveryone? then map[] else DB;
    GrantAllows(home, policies, WORKER, peer, WORKER, DB, "TCP", "5432");
    ClosedBlocks(home, kind);
  }

  lemma NothingCollected(home: Labels, kind: PassedOver)
    ensures EgressTriples([kind.Egress(home), CLOSED_DB]) == []
  {
    hide IngressTriples, EgressTriples;
    DifferentLabels();
    TwoPolicies(kind.Egress(home), CLOSED_DB);
    if !kind.Untyped? {
      var rules := kind.Egress(home).egress;
      assert rules[..0] == [] && PeersOf(rules[0].peers) == [];
    }
  }

  lemma GrantedAnyway(home: Labels, kind: PassedOver)
    ensures Grants(home, [kind.Egress(home), CLOSED_DB], WORKER, if kind.ToEveryone? then map[] else DB, "TCP", "5432")
  {
    var p := kind.Egress(home);
    var rule := p.egress[0];
    assert p in [p, CLOSED_DB] && GovernsEgress(p) && rule in p.egress;
    assert POSTGRES in rule.ports && EntryCovers(POSTGRES, "TCP", "5432");
    assert kind.ByNamespace? ==> Namespaces(home, DB) in rule.peers && Selects(home, home);
  }

  lemma ClosedBlocks(home: Labels, kind: PassedOver)
    ensures !Connects(home, [kind.Egress(home), CLOSED_DB], WORKER, DB, "TCP", "5432")
  {
    hide EgressAllows, RuleAllows;
    assert CLOSED_DB in [kind.Egress(home), CLOSED_DB] && GovernsIngress(CLOSED_DB) && Selects(CLOSED_DB.subject, DB);
  }

  const OPEN_DB: Policy := Policy(DB, ["Ingress"], [Rule([Pods(map[])], [POSTGRES])], [])

  /**
   And a reported pair need not be broken: an ingress rule for all pods admits a source the checker
   misses by name.
   */
  lemma ReportedButConnected(home: Labels)
    ensures REQUEST in Failing([WORKER_TO_DB, OPEN_DB], EgressTriples([WORKER_TO_DB, OPEN_DB]))
    ensures forall protocol, port | Covers(REQUEST.port, protocol, port) ::
              Reachable(home, [WORKER_TO_DB, OPEN_DB], REQUEST.subject, REQUEST.peer, protocol, port)
  {
    hide TriplesOf, IngressTriples, EgressTriples;
    var policies := [WORKER_TO_DB, OPEN_DB];
    DifferentLabels();
    TwoPolicies(WORKER_TO_DB, OPEN_DB);
    OneRule(WORKER, DB, POSTGRES);
    OneRule(DB, map[], POSTGRES);
    var open := Triple(DB, map[], OnPort("TCP", Some("5432")));
    assert EgressTriples(policies) == [REQUEST] && IngressTriples(policies) == [open];
    assert OPEN_DB in policies && DB in Protected(policies);
    forall protocol, port | Covers(REQUEST.port, protocol, port)
      ensures Reachable(home, policies, WORKER, DB, protocol, port)
    {
      hide Protected;
      CollectedAreTriples(policies, WORKER, DB, protocol, port);
      CollectedIsGranted(home, policies, WORKER, DB, protocol, port);
      forall from, to | Selects(WORKER, from) && Selects(DB, to)
        ensures Connects(home, policies, from, to, protocol, port)
      {
        GrantAllows(home, policies, WORKER, DB, from, to, protocol, port);
        IngressTripleAdmits(home, policies, open, from, to, protocol, port);
      }
    }
  }
}
