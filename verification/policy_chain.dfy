/** The packet filter chain a policy compiles to, as a list of rules evaluated first match first. */
module PolicyChain {
  import opened Common
  import opened Policy

  datatype Protocol = Udp | Tcp | OtherProtocol
  datatype Packet = Packet(loopback: bool, reply: bool, dst: Addr, protocol: Protocol, port: int)

  datatype Match =
    | OutLoopback
    | ReplyDirection
    | DnsTo(server: Addr, protocol: Protocol)
    | AnyDns(protocol: Protocol)
    | Destination(prefix: Prefix)
    | InLearned(six: bool)
    | Always

  datatype ChainRule = ChainRule(when: Match, accept: bool)

  const DNS_PORT: int := 53

  predicate Matches(m: Match, pkt: Packet, learned: set<Addr>) {
    match m
    case OutLoopback => pkt.loopback
    case ReplyDirection => pkt.reply
    case DnsTo(server, protocol) => pkt.dst == server && pkt.protocol == protocol && pkt.port == DNS_PORT
    case AnyDns(protocol) => pkt.protocol == protocol && pkt.port == DNS_PORT
    case Destination(prefix) => Contains(prefix, pkt.dst)
    case InLearned(six) => pkt.dst.six == six && pkt.dst in learned
    case Always => true
  }

  /** The chain's verdict: its first matching rule, or the chain's policy, which is to drop. */
  function FirstMatch(chain: seq<ChainRule>, pkt: Packet, learned: set<Addr>): bool {
    if chain == [] then false
    else if Matches(chain[0].when, pkt, learned) then chain[0].accept
    else FirstMatch(chain[1..], pkt, learned)
  }

  /** The prefix rules of one action, in the policy's order. */
  function PrefixRules(net: Net, rules: seq<Rule>, action: string): seq<ChainRule> {
    if rules == [] then []
    else
      (if net.range(rules[0].target).Some? && rules[0].action == action
       then [ChainRule(Destination(net.range(rules[0].target).value), action == "allow")] else [])
      + PrefixRules(net, rules[1..], action)
  }

  function Preamble(gateway: Addr): seq<ChainRule> {
    [ChainRule(OutLoopback, true), ChainRule(ReplyDirection, true),
     ChainRule(DnsTo(gateway, Udp), true), ChainRule(DnsTo(gateway, Tcp), true),
     ChainRule(AnyDns(Udp), false), ChainRule(AnyDns(Tcp), false)]
  }

  function Tail(p: Policy): seq<ChainRule> {
    [ChainRule(InLearned(false), true), ChainRule(InLearned(true), true)]
    + if p.defaultAction == "allow" then [ChainRule(Always, true)] else []
  }

  function Chain(net: Net, p: Policy, gateway: Addr): seq<ChainRule> {
    Preamble(gateway) + (PrefixRules(net, p.egress, "deny") + (PrefixRules(net, p.egress, "allow") + Tail(p)))
  }

  // ---------------------------------------------------------------- the declared meaning

  /** A rule of the policy with this action covers the address. */
  predicate Covers(net: Net, r: Rule, action: string, a: Addr) {
    r.action == action && net.range(r.target).Some? && Contains(net.range(r.target).value, a)
  }

  ghost predicate Covered(net: Net, p: Policy, action: string, a: Addr) {
    exists r :: r in p.egress && Covers(net, r, action, a)
  }

  /**
  Loopback and replies pass; DNS passes to the gateway only; then a denied prefix beats an allowed
  prefix beats a learned address beats the default.
  */
  ghost predicate Accepted(net: Net, p: Policy, gateway: Addr, pkt: Packet, learned: set<Addr>) {
    if pkt.loopback || pkt.reply then true
    else if pkt.port == DNS_PORT && !pkt.protocol.OtherProtocol? then pkt.dst == gateway
    else if Covered(net, p, "deny", pkt.dst) then false
    else if Covered(net, p, "allow", pkt.dst) then true
    else pkt.dst in learned || p.defaultAction == "allow"
  }

  // ---------------------------------------------------------------- the chain means the policy

  ghost predicate CoveredBy(net: Net, rules: seq<Rule>, action: string, a: Addr) {
    exists i :: 0 <= i < |rules| && Covers(net, rules[i], action, a)
  }

  lemma CoveredIsCoveredBy(net: Net, p: Policy, action: string, a: Addr)
    ensures Covered(net, p, action, a) == CoveredBy(net, p.egress, action, a)
  {
  }

  /** The prefix rules of one action decide a packet they cover and pass on any other. */
  lemma {:induction false} PrefixRulesDecide(net: Net, rules: seq<Rule>, action: string, rest: seq<ChainRule>,
      pkt: Packet, learned: set<Addr>)
    ensures FirstMatch(PrefixRules(net, rules, action) + rest, pkt, learned) ==
            if CoveredBy(net, rules, action, pkt.dst) then action == "allow" else FirstMatch(rest, pkt, learned)
  {
    if rules == [] {
      assert PrefixRules(net, rules, action) + rest == rest;
    } else {
      var tail := PrefixRules(net, rules[1..], action) + rest;
      PrefixRulesDecide(net, rules[1..], action, rest, pkt, learned);
      CoveredSplit(net, rules, action, pkt.dst);
      if net.range(rules[0].target).Some? && rules[0].action == action {
        var first := ChainRule(Destination(net.range(rules[0].target).value), action == "allow");
        assert PrefixRules(net, rules, action) + rest == [first] + tail;
        assert ([first] + tail)[1..] == tail;
      } else {
        assert PrefixRules(net, rules, action) + rest == tail;
      }
    }
  }

  lemma CoveredSplit(net: Net, rules: seq<Rule>, action: string, a: Addr)
    requires rules != []
    ensures CoveredBy(net, rules, action, a) <==> Covers(net, rules[0], action, a) || CoveredBy(net, rules[1..],
        action, a)
  {
  }

  lemma Unmatched(r: ChainRule, rest: seq<ChainRule>, pkt: Packet, learned: set<Addr>)
    ensures FirstMatch([r] + rest, pkt, learned) == if Matches(r.when, pkt, learned) then r.accept
        else FirstMatch(rest, pkt, learned)
  {
  }

  lemma PreambleDecides(gateway: Addr, rest: seq<ChainRule>, pkt: Packet, learned: set<Addr>)
    ensures FirstMatch(Preamble(gateway) + rest, pkt, learned) ==
            if pkt.loopback || pkt.reply then true
            else if pkt.port == DNS_PORT && !pkt.protocol.OtherProtocol? then pkt.dst == gateway
            else FirstMatch(rest, pkt, learned)
  {
    hide FirstMatch;
    var p := Preamble(gateway);
    var r5 := [p[5]] + rest;
    var r4 := [p[4]] + r5;
    var r3 := [p[3]] + r4;
    var r2 := [p[2]] + r3;
    var r1 := [p[1]] + r2;
    Unmatched(p[5], rest, pkt, learned);
    Unmatched(p[4], r5, pkt, learned);
    Unmatched(p[3], r4, pkt, learned);
    Unmatched(p[2], r3, pkt, learned);
    Unmatched(p[1], r2, pkt, learned);
    Unmatched(p[0], r1, pkt, learned);
    assert p + rest == [p[0]] + r1;
  }

  lemma TailDecides(p: Policy, pkt: Packet, learned: set<Addr>)
    ensures FirstMatch(Tail(p), pkt, learned) == (pkt.dst in learned || p.defaultAction == "allow")
  {
    var v4, v6 := ChainRule(InLearned(false), true), ChainRule(InLearned(true), true);
    var last := if p.defaultAction == "allow" then [ChainRule(Always, true)] else [];
    Unmatched(v6, last, pkt, learned);
    Unmatched(v4, [v6] + last, pkt, learned);
    assert Tail(p) == [v4] + ([v6] + last);
  }

  /** For every policy and every packet, first-match evaluation of the chain is the declared verdict. */
  lemma ChainMeansPolicy(net: Net, p: Policy, gateway: Addr, pkt: Packet, learned: set<Addr>)
    ensures FirstMatch(Chain(net, p, gateway), pkt, learned) == Accepted(net, p, gateway, pkt, learned)
  {
    hide FirstMatch, PrefixRules, Tail, Preamble;
    var allow := PrefixRules(net, p.egress, "allow") + Tail(p);
    var deny := PrefixRules(net, p.egress, "deny") + allow;
    PreambleDecides(gateway, deny, pkt, learned);
    PrefixRulesDecide(net, p.egress, "deny", allow, pkt, learned);
    PrefixRulesDecide(net, p.egress, "allow", Tail(p), pkt, learned);
    TailDecides(p, pkt, learned);
    CoveredIsCoveredBy(net, p, "deny", pkt.dst);
    CoveredIsCoveredBy(net, p, "allow", pkt.dst);
  }

  /** The verdict depends on which rules there are, not on their order or repetition. */
  lemma VerdictIgnoresOrder(net: Net, p: Policy, q: Policy, gateway: Addr, pkt: Packet, learned: set<Addr>)
    requires p.defaultAction == q.defaultAction
    requires forall r :: r in p.egress <==> r in q.egress
    ensures FirstMatch(Chain(net, p, gateway), pkt, learned) == FirstMatch(Chain(net, q, gateway), pkt, learned)
  {
    hide FirstMatch, Chain;
    ChainMeansPolicy(net, p, gateway, pkt, learned);
    ChainMeansPolicy(net, q, gateway, pkt, learned);
  }

  // ---------------------------------------------------------------- rendering

  lemma {:induction false} PrefixRulesSnoc(net: Net, rules: seq<Rule>, r: Rule, action: string)
    ensures PrefixRules(net, rules + [r], action) ==
            PrefixRules(net, rules, action) + PrefixRules(net, [r], action)
  {
    if rules == [] {
      assert rules + [r] == [r];
    } else {
      var first := if net.range(rules[0].target).Some? && rules[0].action == action
                   then [ChainRule(Destination(net.range(rules[0].target).value), action == "allow")] else [];
      assert (rules + [r])[0] == rules[0] && (rules + [r])[1..] == rules[1..] + [r];
      PrefixRulesSnoc(net, rules[1..], r, action);
      assert first + (PrefixRules(net, rules[1..], action) + PrefixRules(net, [r], action)) ==
             (first + PrefixRules(net, rules[1..], action)) + PrefixRules(net, [r], action);
    }
  }

  /** The loop over the rules, for one action. */
  method RenderPrefixes(net: Net, rules: seq<Rule>, action: string) returns (out: seq<ChainRule>)
    ensures out == PrefixRules(net, rules, action)
  {
    out := [];
    for i := 0 to |rules|
      invariant out == PrefixRules(net, rules[..i], action)
    {
      var range := net.range(rules[i].target);
      PrefixRulesSnoc(net, rules[..i], rules[i], action);
      assert rules[..i + 1] == rules[..i] + [rules[i]];
      assert [rules[i]][1..] == [];
      if range.Some? && rules[i].action == action {
        out := out + [ChainRule(Destination(range.value), action == "allow")];
      }
    }
    assert rules[..|rules|] == rules;
  }

  method RenderPolicy(net: Net, p: Policy, gateway: Addr) returns (out: seq<ChainRule>)
    ensures out == Chain(net, p, gateway)
    ensures forall pkt, learned :: FirstMatch(out, pkt, learned) == Accepted(net, p, gateway, pkt, learned)
  {
    hide PrefixRules, Preamble, FirstMatch, Accepted;
    out := Preamble(gateway);
    var actions := ["deny", "allow"];
    var deny := RenderPrefixes(net, p.egress, actions[0]);
    var allow := RenderPrefixes(net, p.egress, actions[1]);
    out := out + deny + allow + [ChainRule(InLearned(false), true), ChainRule(InLearned(true), true)];
    if p.defaultAction == "allow" {
      out := out + [ChainRule(Always, true)];
    }
    assert out == Chain(net, p, gateway);
    forall pkt, learned ensures FirstMatch(out, pkt, learned) == Accepted(net, p, gateway, pkt, learned) {
      ChainMeansPolicy(net, p, gateway, pkt, learned);
    }
  }
}
