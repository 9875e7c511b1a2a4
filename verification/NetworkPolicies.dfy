/** What NetworkPolicies mean: which pods of the namespace may open a connection to which others. */
module NetworkPolicies {
  import opened Options

  type Labels = map<string, string>

  /**
   Pods of this namespace, pods of every namespace with certain labels, or an ipBlock, which names
   addresses, not pods.
   */
  datatype Peer = Pods(selector: Labels) | Namespaces(namespaces: Labels, pods: Labels) | Addresses

  datatype PortEntry = PortEntry(protocol: Option<string>, port: Option<string>)

  /** No peers at all means every peer, and no ports at all means every port. */
  datatype Rule = Rule(peers: seq<Peer>, ports: seq<PortEntry>)

  datatype Policy = Policy(subject: Labels, kinds: seq<string>, ingress: seq<Rule>, egress: seq<Rule>)

  /** A selector picks every pod that carries all of its labels. */
  predicate Selects(selector: Labels, pod: Labels) {
    forall k | k in selector :: k in pod && pod[k] == selector[k]
  }

  predicate EntryCovers(entry: PortEntry, protocol: string, port: string) {
    && protocol == (if entry.protocol.Some? then entry.protocol.value else "TCP")
    && (entry.port.Some? ==> entry.port.value == port)
  }

  /** A pod of the namespace labelled `home`. */
  predicate PeerMatches(home: Labels, peer: Peer, pod: Labels) {
    match peer
    case Pods(selector) => Selects(selector, pod)
    case Namespaces(namespaces, pods) => Selects(namespaces, home) && Selects(pods, pod)
    case Addresses => false
  }

  predicate PeersMatch(home: Labels, peers: seq<Peer>, pod: Labels) {
    peers == [] || exists peer :: peer in peers && PeerMatches(home, peer, pod)
  }

  predicate PortsMatch(ports: seq<PortEntry>, protocol: string, port: string) {
    ports == [] || exists entry :: entry in ports && EntryCovers(entry, protocol, port)
  }

  predicate RuleAllows(home: Labels, rule: Rule, other: Labels, protocol: string, port: string) {
    PeersMatch(home, rule.peers, other) && PortsMatch(rule.ports, protocol, port)
  }

  /** Without policy types a policy governs ingress, and egress too if it has egress rules. */
  predicate GovernsIngress(p: Policy) {
    "Ingress" in p.kinds || p.kinds == []
  }

  predicate GovernsEgress(p: Policy) {
    "Egress" in p.kinds || (p.kinds == [] && p.egress != [])
  }

  /** Some ingress rule on the target lets the source in. */
  ghost predicate Admitted(home: Labels, policies: seq<Policy>, source: Labels, target: Labels, protocol: string,
                           port: string) {
    exists p, rule :: p in policies && GovernsIngress(p) && Selects(p.subject, target) && rule in p.ingress
                      && RuleAllows(home, rule, source, protocol, port)
  }

  /** A pod no ingress policy selects is not default-deny. */
  ghost predicate IngressAllows(home: Labels, policies: seq<Policy>, source: Labels, target: Labels, protocol: string,
                                port: string) {
    (forall p | p in policies && GovernsIngress(p) :: !Selects(p.subject, target))
        || Admitted(home, policies, source, target, protocol, port)
  }

  ghost predicate EgressAllows(home: Labels, policies: seq<Policy>, source: Labels, target: Labels, protocol: string,
                               port: string) {
    || (forall p | p in policies && GovernsEgress(p) :: !Selects(p.subject, source))
    || (exists p, rule :: p in policies && GovernsEgress(p) && Selects(p.subject, source) && rule in p.egress
                          && RuleAllows(home, rule, target, protocol, port))
  }

  /** Both sides must permit a connection. */
  ghost predicate Connects(home: Labels, policies: seq<Policy>, source: Labels, target: Labels, protocol: string,
                           port: string) {
    EgressAllows(home, policies, source, target, protocol, port)
        && IngressAllows(home, policies, source, target, protocol, port)
  }

  /** Two selectors are compatible when some pod satisfies both; the join is the smallest such pod. */
  predicate Compatible(a: Labels, b: Labels) {
    forall k | k in a && k in b :: a[k] == b[k]
  }

  lemma JoinIsLeast(a: Labels, b: Labels)
    ensures Compatible(a, b) <==> exists pod: Labels :: Selects(a, pod) && Selects(b, pod)
    ensures Compatible(a, b) ==> Selects(a, a + b) && Selects(b, a + b)
    ensures forall pod | Selects(a, pod) && Selects(b, pod) :: Selects(a + b, pod)
  {
    if Compatible(a, b) {
      assert Selects(a, a + b) && Selects(b, a + b);
    }
  }

  lemma SelectsTransitive(a: Labels, b: Labels, pod: Labels)
    requires Selects(a, b) && Selects(b, pod)
    ensures Selects(a, pod)
  {
  }

  /** A pod with more labels is admitted wherever one with fewer was, and to wherever it was. */
  lemma AdmittedMonotone(home: Labels, policies: seq<Policy>, source: Labels, target: Labels, more: Labels,
                         moreTarget: Labels, protocol: string, port: string)
    requires Admitted(home, policies, source, target, protocol, port) && Selects(source, more)
             && Selects(target, moreTarget)
    ensures Admitted(home, policies, more, moreTarget, protocol, port)
  {
    var p, rule :| p in policies && GovernsIngress(p) && Selects(p.subject, target) && rule in p.ingress
                   && RuleAllows(home, rule, source, protocol, port);
    SelectsTransitive(p.subject, target, moreTarget);
    if rule.peers != [] {
      var peer :| peer in rule.peers && PeerMatches(home, peer, source);
      match peer {
        case Pods(selector) => SelectsTransitive(selector, source, more);
        case Namespaces(_, pods) => SelectsTransitive(pods, source, more);
        case Addresses => assert false;
      }
      assert PeerMatches(home, peer, more);
    }
    assert RuleAllows(home, rule, more, protocol, port);
  }

  /** Every pair of pods matching the two selectors may connect. */
  ghost predicate Reachable(home: Labels, policies: seq<Policy>, source: Labels, target: Labels, protocol: string,
                            port: string) {
    forall from, to | Selects(source, from) && Selects(target, to) :: Connects(home, policies, from, to, protocol, port)
  }

  /** Every ingress policy that can meet the target selector is answered by a rule for the smallest pod in both. */
  ghost predicate IngressAnswered(home: Labels, policies: seq<Policy>, source: Labels, target: Labels, protocol: string,
                                  port: string) {
    forall p | p in policies && GovernsIngress(p) && Compatible(p.subject, target) ::
      Admitted(home, policies, source, p.subject + target, protocol, port)
  }

  ghost predicate IngressOpen(home: Labels, policies: seq<Policy>, source: Labels, target: Labels, protocol: string,
                              port: string) {
    forall from, to | Selects(source, from) && Selects(target, to) ::
          IngressAllows(home, policies, from, to, protocol, port)
  }

  /**
   Quantifying over all pods comes down to finitely many: one pod with exactly the source labels,
   and for each ingress policy one pod with exactly its labels and the target's.
   */
  lemma IngressOpenIffAnswered(home: Labels, policies: seq<Policy>, source: Labels, target: Labels, protocol: string,
                               port: string)
    ensures IngressOpen(home, policies, source, target, protocol, port)
            <==> IngressAnswered(home, policies, source, target, protocol, port)
  {
    hide Admitted;
    if IngressOpen(home, policies, source, target, protocol, port) {
      forall p | p in policies && GovernsIngress(p) && Compatible(p.subject, target)
        ensures Admitted(home, policies, source, p.subject + target, protocol, port)
      {
        JoinIsLeast(p.subject, target);
        assert Selects(source, source);
        assert IngressAllows(home, policies, source, p.subject + target, protocol, port);
      }
    }
    if IngressAnswered(home, policies, source, target, protocol, port) {
      forall from, to | Selects(source, from) && Selects(target, to)
        ensures IngressAllows(home, policies, from, to, protocol, port)
      {
        if p :| p in policies && GovernsIngress(p) && Selects(p.subject, to) {
          JoinIsLeast(p.subject, target);
          AdmittedMonotone(home, policies, source, p.subject + target, from, to, protocol, port);
        }
      }
    }
  }
}
