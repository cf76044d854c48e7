/** Mutation of a policy: replacement, merge by target, removal. */
module PolicyMutation {
  import opened Common
  import opened Policy

  datatype Mutation = Mutation(replace: Option<Policy>, merge: Option<seq<Rule>>, remove: Option<seq<string>>)

  // ---------------------------------------------------------------- merging one rule after another

  function Without(rules: seq<Rule>, target: string): seq<Rule> {
    if rules == [] then []
    else (if rules[0].target != target then [rules[0]] else []) + Without(rules[1..], target)
  }

  function WithoutAll(rules: seq<Rule>, targets: set<string>): seq<Rule> {
    if rules == [] then []
    else (if rules[0].target !in targets then [rules[0]] else []) + WithoutAll(rules[1..], targets)
  }

  /** The merge as the code runs it: each rule drops the rules of its target and goes to the end. */
  function MergeAll(rules: seq<Rule>, merged: seq<Rule>): seq<Rule>
    decreases |merged|
  {
    if merged == [] then rules else MergeAll(Without(rules, merged[0].target) + [merged[0]], merged[1..])
  }

  function Targets(rules: seq<Rule>): set<string> {
    set i | 0 <= i < |rules| :: rules[i].target
  }

  /** The merged rules that no later one of the same target replaces. */
  function LastPerTarget(merged: seq<Rule>): seq<Rule> {
    if merged == [] then []
    else (if merged[0].target in Targets(merged[1..]) then [] else [merged[0]]) + LastPerTarget(merged[1..])
  }

  function Count(rules: seq<Rule>, target: string): nat {
    if rules == [] then 0 else (if rules[0].target == target then 1 else 0) + Count(rules[1..], target)
  }

  lemma {:induction false} WithoutAllConcat(a: seq<Rule>, b: seq<Rule>, ts: set<string>)
    ensures WithoutAll(a + b, ts) == WithoutAll(a, ts) + WithoutAll(b, ts)
  {
    if a == [] {
      assert a + b == b;
    } else {
      assert (a + b)[1..] == a[1..] + b;
      WithoutAllConcat(a[1..], b, ts);
    }
  }

  lemma {:induction false} WithoutThenAll(rules: seq<Rule>, t: string, ts: set<string>)
    ensures WithoutAll(Without(rules, t), ts) == WithoutAll(rules, ts + {t})
  {
    if rules != [] {
      WithoutThenAll(rules[1..], t, ts);
      WithoutAllConcat(if rules[0].target != t then [rules[0]] else [], Without(rules[1..], t), ts);
    }
  }

  lemma {:induction false} WithoutNone(rules: seq<Rule>)
    ensures WithoutAll(rules, {}) == rules
  {
    if rules != [] { WithoutNone(rules[1..]); }
  }

  lemma TargetsSplit(merged: seq<Rule>)
    requires merged != []
    ensures Targets(merged) == Targets(merged[1..]) + {merged[0].target}
  {
  }

  lemma WithoutAllOne(r: Rule, ts: set<string>)
    ensures WithoutAll([r], ts) == if r.target in ts then [] else [r]
  {
  }

  /** A merge keeps the other rules in their order, then gives each merged target its last rule. */
  lemma {:induction false} MergeForm(rules: seq<Rule>, merged: seq<Rule>)
    ensures MergeAll(rules, merged) == WithoutAll(rules, Targets(merged)) + LastPerTarget(merged)
    decreases |merged|
  {
    if merged == [] {
      assert Targets(merged) == {};
      WithoutNone(rules);
    } else {
      hide Without, WithoutAll, Targets;
      var head, rest := merged[0], merged[1..];
      var kept := Without(rules, head.target);
      var ts := Targets(rest);
      MergeForm(kept + [head], rest);
      WithoutAllConcat(kept, [head], ts);
      WithoutAllOne(head, ts);
      WithoutThenAll(rules, head.target, ts);
      TargetsSplit(merged);
      assert (WithoutAll(kept, ts) + WithoutAll([head], ts)) + LastPerTarget(rest) ==
             WithoutAll(kept, ts) + (WithoutAll([head], ts) + LastPerTarget(rest));
    }
  }

  // ---------------------------------------------------------------- one rule per merged target

  lemma {:induction false} CountConcat(a: seq<Rule>, b: seq<Rule>, t: string)
    ensures Count(a + b, t) == Count(a, t) + Count(b, t)
  {
    if a == [] {
      assert a + b == b;
    } else {
      assert (a + b)[1..] == a[1..] + b;
      CountConcat(a[1..], b, t);
    }
  }

  lemma {:induction false} NoneLeft(rules: seq<Rule>, ts: set<string>, t: string)
    requires t in ts
    ensures Count(WithoutAll(rules, ts), t) == 0
  {
    if rules != [] {
      NoneLeft(rules[1..], ts, t);
      CountConcat(if rules[0].target !in ts then [rules[0]] else [], WithoutAll(rules[1..], ts), t);
    }
  }

  /** The last merged rule of a target. */
  function LastRule(merged: seq<Rule>, t: string): Rule
    requires t in Targets(merged)
  {
    if merged[|merged| - 1].target == t then merged[|merged| - 1]
    else InitTargets(merged, t); LastRule(merged[..|merged| - 1], t)
  }

  lemma InitTargets(merged: seq<Rule>, t: string)
    requires merged != [] && t in Targets(merged) && merged[|merged| - 1].target != t
    ensures t in Targets(merged[..|merged| - 1])
  {
  }

  lemma {:induction false} LastIsUnique(merged: seq<Rule>, t: string)
    ensures Count(LastPerTarget(merged), t) == if t in Targets(merged) then 1 else 0
  {
    if merged != [] {
      var here := if merged[0].target in Targets(merged[1..]) then [] else [merged[0]];
      LastIsUnique(merged[1..], t);
      CountConcat(here, LastPerTarget(merged[1..]), t);
      TargetsSplit(merged);
    }
  }

  lemma {:induction false} LastRuleOfTail(merged: seq<Rule>, t: string)
    requires merged != [] && t in Targets(merged[1..])
    ensures t in Targets(merged) && LastRule(merged, t) == LastRule(merged[1..], t)
    decreases |merged|
  {
    TargetsSplit(merged);
    var rest := merged[1..];
    if merged[|merged| - 1].target != t {
      InitTargets(rest, t);
      assert merged[..|merged| - 1][1..] == rest[..|rest| - 1];
      LastRuleOfTail(merged[..|merged| - 1], t);
    }
  }

  lemma {:induction false} LastRuleOfHead(merged: seq<Rule>)
    requires merged != [] && merged[0].target !in Targets(merged[1..])
    ensures merged[0].target in Targets(merged) && LastRule(merged, merged[0].target) == merged[0]
    decreases |merged|
  {
    TargetsSplit(merged);
    if |merged| > 1 {
      var init := merged[..|merged| - 1];
      assert merged[1..][|merged| - 2].target in Targets(merged[1..]);
      forall i | 0 <= i < |init| - 1 ensures init[1..][i].target != merged[0].target {
        assert merged[1..][i] == init[1..][i];
      }
      LastRuleOfHead(init);
    }
  }

  lemma {:induction false} LastRuleIsKept(merged: seq<Rule>, t: string)
    requires t in Targets(merged)
    ensures LastRule(merged, t) in LastPerTarget(merged)
  {
    TargetsSplit(merged);
    if t in Targets(merged[1..]) {
      LastRuleIsKept(merged[1..], t);
      LastRuleOfTail(merged, t);
    } else {
      LastRuleOfHead(merged);
    }
  }

  /** A merge yields exactly one rule per merged target, the last one given. */
  lemma OneRulePerMergedTarget(rules: seq<Rule>, merged: seq<Rule>, t: string)
    requires t in Targets(merged)
    ensures Count(MergeAll(rules, merged), t) == 1
    ensures LastRule(merged, t) in MergeAll(rules, merged)
  {
    MergeForm(rules, merged);
    NoneLeft(rules, Targets(merged), t);
    LastIsUnique(merged, t);
    LastRuleIsKept(merged, t);
    CountConcat(WithoutAll(rules, Targets(merged)), LastPerTarget(merged), t);
  }

  // ---------------------------------------------------------------- the whole mutation

  ghost predicate AllNormalizable(net: Net, targets: seq<string>) {
    forall i :: 0 <= i < |targets| ==> Normalize(net, targets[i]).Some?
  }

  function TargetSeq(rules: seq<Rule>): seq<string> {
    seq(|rules|, i requires 0 <= i < |rules| => rules[i].target)
  }

  ghost function NormalTargets(net: Net, targets: seq<string>): set<string> {
    set i | 0 <= i < |targets| && Normalize(net, targets[i]).Some? :: Normalize(net, targets[i]).value
  }

  function Base(current: Policy, m: Mutation): Policy {
    if m.replace.Some? then m.replace.value else current
  }

  /** A removal starts again from the current rules: a merge or replacement beside it only lends the default action. */
  ghost function MutatedRules(net: Net, current: Policy, m: Mutation): seq<Rule> {
    if m.remove.Some? then WithoutAll(current.egress, NormalTargets(net, m.remove.value))
    else if m.merge.Some? then MergeAll(Base(current, m).egress, NormalRules(net, m.merge.value))
    else Base(current, m).egress
  }

  ghost function Mutated(net: Net, current: Policy, m: Mutation): Option<Policy> {
    if m.merge.Some? && !AllNormalizable(net, TargetSeq(m.merge.value)) then None
    else if m.remove.Some? && !AllNormalizable(net, m.remove.value) then None
    else Normalized(net, Policy(Base(current, m).defaultAction, MutatedRules(net, current, m)))
  }

  lemma {:induction false} WithoutAllNormal(net: Net, rules: seq<Rule>, ts: set<string>)
    requires forall i :: 0 <= i < |rules| ==> Normalize(net, rules[i].target) == Some(rules[i].target)
    ensures forall i :: 0 <= i < |WithoutAll(rules, ts)| ==>
              Normalize(net, WithoutAll(rules, ts)[i].target) == Some(WithoutAll(rules, ts)[i].target)
  {
    hide Normalize;
    if rules != [] { WithoutAllNormal(net, rules[1..], ts); }
  }

  lemma {:induction false} LastPerTargetNormal(net: Net, rules: seq<Rule>)
    requires forall i :: 0 <= i < |rules| ==> Normalize(net, rules[i].target) == Some(rules[i].target)
    ensures forall i :: 0 <= i < |LastPerTarget(rules)| ==>
              Normalize(net, LastPerTarget(rules)[i].target) == Some(LastPerTarget(rules)[i].target)
  {
    hide Normalize;
    if rules != [] { LastPerTargetNormal(net, rules[1..]); }
  }

  lemma MergedAreNormal(net: Net, merge: seq<Rule>)
    requires Lawful(net) && AllNormalizable(net, TargetSeq(merge))
    ensures var ms := NormalRules(net, merge);
            forall i :: 0 <= i < |ms| ==> Normalize(net, ms[i].target) == Some(ms[i].target)
  {
    hide Normalize, Lawful;
    var ms := NormalRules(net, merge);
    forall i | 0 <= i < |ms| ensures Normalize(net, ms[i].target) == Some(ms[i].target) {
      assert Normalize(net, TargetSeq(merge)[i]).Some?;
      NormalizeIsIdempotent(net, merge[i].target);
    }
  }

  /**
  Merging into the installed policy: an accepted merge leaves the default action and the other rules
  in their order, followed by the last rule given for each merged target.
  */
  lemma MergeIntoInstalled(net: Net, current: Policy, merge: seq<Rule>)
    requires Lawful(net) && Normal(net, current)
    ensures var r := Mutated(net, current, Mutation(None, Some(merge), None)); var ms := NormalRules(net, merge);
            r.Some? ==> r.value == Policy(current.defaultAction,
                WithoutAll(current.egress, Targets(ms)) + LastPerTarget(ms))
  {
    hide Normalize, Lawful, WithoutAll, LastPerTarget, MergeAll, Targets;
    var ms := NormalRules(net, merge);
    var m := Mutation(None, Some(merge), None);
    MergeForm(current.egress, ms);
    if Mutated(net, current, m).Some? {
      MergedAreNormal(net, merge);
      WithoutAllNormal(net, current.egress, Targets(ms));
      LastPerTargetNormal(net, ms);
      var rules := WithoutAll(current.egress, Targets(ms)) + LastPerTarget(ms);
      assert NormalRules(net, rules) == rules;
    }
  }

  // ---------------------------------------------------------------- removal

  lemma {:induction false} WithoutAllHolds(rules: seq<Rule>, ts: set<string>, r: Rule)
    ensures r in WithoutAll(rules, ts) <==> r in rules && r.target !in ts
  {
    if rules != [] {
      WithoutAllHolds(rules[1..], ts, r);
      assert r in rules <==> r == rules[0] || r in rules[1..];
    }
  }

  /** One of the targets to remove, in whatever spelling. */
  ghost predicate Removes(net: Net, remove: seq<string>, target: string) {
    exists i :: 0 <= i < |remove| && Normalize(net, remove[i]) == Some(target)
  }

  /**
  A removal leaves exactly the installed rules whose targets it does not name, in their order, whatever
  replacement or merge comes with it; the default action is the replacement's, if there is one.
  */
  lemma RemovalKeepsTheOthers(net: Net, current: Policy, m: Mutation)
    requires Lawful(net) && Normal(net, current) && m.remove.Some? && Mutated(net, current, m).Some?
    ensures var after := Mutated(net, current, m).value;
            && (forall r :: r in after.egress <==> r in current.egress && !Removes(net, m.remove.value, r.target))
            && after.egress == WithoutAll(current.egress, Targets(current.egress) - Targets(after.egress))
            && after.defaultAction == DefaultAction(Policy(if m.replace.Some? then m.replace.value.defaultAction
                                                           else current.defaultAction, after.egress))
  {
    hide Normalize, Lawful, WithoutAll, AllNormalizable;
    var ts := NormalTargets(net, m.remove.value);
    var rules := WithoutAll(current.egress, ts);
    RemovedIsNormal(net, current, ts);
    forall r ensures r in rules <==> r in current.egress && !Removes(net, m.remove.value, r.target) {
      WithoutAllHolds(current.egress, ts, r);
      RemovesIsIn(net, m, r.target);
    }
    SameRemoval(current.egress, ts);
  }

  lemma RemovedIsNormal(net: Net, current: Policy, ts: set<string>)
    requires Normal(net, current)
    ensures NormalRules(net, WithoutAll(current.egress, ts)) == WithoutAll(current.egress, ts)
  {
    hide Normalize;
    WithoutAllNormal(net, current.egress, ts);
  }

  lemma RemovesIsIn(net: Net, m: Mutation, t: string)
    requires m.remove.Some? && AllNormalizable(net, m.remove.value)
    ensures t in NormalTargets(net, m.remove.value) <==> Removes(net, m.remove.value, t)
  {
    hide Normalize;
  }

  /** Only the targets that occur matter. */
  lemma SameRemoval(rules: seq<Rule>, ts: set<string>)
    ensures WithoutAll(rules, ts) == WithoutAll(rules, Targets(rules) - Targets(WithoutAll(rules, ts)))
  {
    hide WithoutAll;
    var us := Targets(rules) - Targets(WithoutAll(rules, ts));
    forall i | 0 <= i < |rules| ensures rules[i].target in ts <==> rules[i].target in us {
      WithoutAllHolds(rules, ts, rules[i]);
      if rules[i].target in ts && rules[i].target in Targets(WithoutAll(rules, ts)) {
        var j :| 0 <= j < |WithoutAll(rules, ts)| && WithoutAll(rules, ts)[j].target == rules[i].target;
        WithoutAllHolds(rules, ts, WithoutAll(rules, ts)[j]);
      }
    }
    SameTargets(rules, ts, us);
  }

  lemma {:induction false} SameTargets(rules: seq<Rule>, ts: set<string>, us: set<string>)
    requires forall i :: 0 <= i < |rules| ==> (rules[i].target in ts <==> rules[i].target in us)
    ensures WithoutAll(rules, ts) == WithoutAll(rules, us)
  {
    if rules != [] {
      forall i | 0 <= i < |rules[1..]| ensures rules[1..][i].target in ts <==> rules[1..][i].target in us {
        assert rules[1..][i] == rules[i + 1];
      }
      SameTargets(rules[1..], ts, us);
    }
  }

  // ---------------------------------------------------------------- replacing and merging together

  /** A rule of the replacement whose target is not written in normal form and collides with a merged one. */
  ghost predicate Escapes(net: Net, r: Rule, ts: set<string>) {
    r.target !in ts && NormalRule(net, r).target in ts
  }

  lemma {:induction false} NormalCountZero(net: Net, rules: seq<Rule>, ts: set<string>, t: string)
    requires t in ts
    requires forall i :: 0 <= i < |rules| ==> !Escapes(net, rules[i], ts)
    ensures Count(NormalRules(net, WithoutAll(rules, ts)), t) == 0
  {
    hide Normalize;
    if rules != [] {
      NormalCountZero(net, rules[1..], ts, t);
      var here := if rules[0].target !in ts then [rules[0]] else [];
      var rest := WithoutAll(rules[1..], ts);
      assert NormalRules(net, here + rest) == NormalRules(net, here) + NormalRules(net, rest);
      CountConcat(NormalRules(net, here), NormalRules(net, rest), t);
    }
  }

  lemma {:induction false} NormalCountPositive(net: Net, rules: seq<Rule>, ts: set<string>, i: int)
    requires 0 <= i < |rules| && Escapes(net, rules[i], ts)
    ensures Count(NormalRules(net, WithoutAll(rules, ts)), NormalRule(net, rules[i]).target) > 0
  {
    hide Normalize;
    var t := NormalRule(net, rules[i]).target;
    var here := if rules[0].target !in ts then [rules[0]] else [];
    var rest := WithoutAll(rules[1..], ts);
    assert NormalRules(net, here + rest) == NormalRules(net, here) + NormalRules(net, rest);
    CountConcat(NormalRules(net, here), NormalRules(net, rest), t);
    if i > 0 { NormalCountPositive(net, rules[1..], ts, i - 1); }
  }

  /** What a replacement with a merge leaves of one merged target: its last rule, and the rules that escaped. */
  lemma MergedCount(net: Net, current: Policy, replace: Policy, merge: seq<Rule>, t: string)
    requires Lawful(net)
    requires Mutated(net, current, Mutation(Some(replace), Some(merge), None)).Some?
    requires t in Targets(NormalRules(net, merge))
    ensures Count(Mutated(net, current, Mutation(Some(replace), Some(merge), None)).value.egress, t) ==
            Count(NormalRules(net, WithoutAll(replace.egress, Targets(NormalRules(net, merge)))), t) + 1
  {
    hide Normalize, Lawful, Count, WithoutAll, LastPerTarget, MergeAll, Targets;
    var ms := NormalRules(net, merge);
    var kept, last := WithoutAll(replace.egress, Targets(ms)), LastPerTarget(ms);
    MergeForm(replace.egress, ms);
    MergedAreNormal(net, merge);
    LastPerTargetNormal(net, ms);
    assert NormalRules(net, last) == last;
    assert NormalRules(net, kept + last) == NormalRules(net, kept) + last;
    CountConcat(NormalRules(net, kept), last, t);
    LastIsUnique(ms, t);
  }

  /**
  When a replacement and a merge come together, the merge matches the replacement's targets as they
  are written. Each merged target ends with exactly one rule if and only if no rule of the replacement
  escapes that match.
  */
  lemma MergeIsUniqueExactly(net: Net, current: Policy, replace: Policy, merge: seq<Rule>)
    requires Lawful(net)
    requires Mutated(net, current, Mutation(Some(replace), Some(merge), None)).Some?
    ensures var r := Mutated(net, current, Mutation(Some(replace), Some(merge), None)).value;
            var ts := Targets(NormalRules(net, merge));
            (forall t :: t in ts ==> Count(r.egress, t) == 1) <==>
            (forall i :: 0 <= i < |replace.egress| ==> !Escapes(net, replace.egress[i], ts))
  {
    hide Mutated, WithoutAll, Targets, Normalize, Lawful, Count;
    var ts := Targets(NormalRules(net, merge));
    var r := Mutated(net, current, Mutation(Some(replace), Some(merge), None)).value;
    if i :| 0 <= i < |replace.egress| && Escapes(net, replace.egress[i], ts) {
      var t := NormalRule(net, replace.egress[i]).target;
      NormalCountPositive(net, replace.egress, ts, i);
      MergedCount(net, current, replace, merge, t);
      assert t in ts && Count(r.egress, t) != 1;
    } else {
      forall t | t in ts ensures Count(r.egress, t) == 1 {
        NormalCountZero(net, replace.egress, ts, t);
        MergedCount(net, current, replace, merge, t);
      }
    }
  }

  /** A library that takes no text for an address. */
  const NO_ADDRESSES: Net := Net(_ => None, _ => None, _ => None)

  lemma OneLetterIsValid()
    ensures ValidName("a")
  {
  }

  lemma CapitalIsLowered()
    ensures Lawful(NO_ADDRESSES)
    ensures Normalize(NO_ADDRESSES, "A") == Some("a") && Normalize(NO_ADDRESSES, "a") == Some("a")
  {
    OneLetterIsValid();
    CleanIsIdentity("a");
    assert TrimRight(TrimLeft("A")) == "A";
    assert ToLower("A") == "a";
  }

  /** A replacement written in capitals keeps its own rule beside the merged one. */
  lemma ReplacementCanEscape(current: Policy) returns (net: Net, replace: Policy, merge: seq<Rule>)
    ensures Lawful(net)
    ensures Mutated(net, current, Mutation(Some(replace), Some(merge), None)) ==
            Some(Policy("deny", [Rule("deny", "a"), Rule("allow", "a")]))
  {
    hide Normalize, Lawful;
    net := NO_ADDRESSES;
    replace := Policy("deny", [Rule("deny", "A")]);
    merge := [Rule("allow", "a")];
    CapitalIsLowered();
    assert NormalRules(net, merge) == merge && TargetSeq(merge) == ["a"];
    var out := [Rule("deny", "A"), Rule("allow", "a")];
    assert MergeAll(replace.egress, merge) == out by {
      assert Without(replace.egress, "a") == replace.egress;
    }
    assert NormalRules(net, out) == [Rule("deny", "a"), Rule("allow", "a")];
  }

  // ---------------------------------------------------------------- the code's loops

  /** One merged rule, compacted in place over a private copy of the rules. */
  method MergeRule(buf: array<Rule>, n: nat, rule: Rule) returns (m: nat)
    requires n < buf.Length
    modifies buf
    ensures m <= n + 1 && buf[..m] == Without(old(buf[..n]), rule.target) + [rule]
  {
    ghost var was := buf[..n];
    m := 0;
    for i := 0 to n
      invariant m <= i
      invariant buf[..m] == Without(was[..i], rule.target)
      invariant forall k :: i <= k < n ==> buf[k] == was[k]
    {
      WithoutSnoc(was[..i], was[i], rule.target);
      assert was[..i + 1] == was[..i] + [was[i]];
      if buf[i].target != rule.target {
        buf[m] := buf[i];
        m := m + 1;
      }
    }
    assert was[..n] == was;
    buf[m] := rule;
    m := m + 1;
  }

  lemma {:induction false} WithoutSnoc(rules: seq<Rule>, r: Rule, t: string)
    ensures Without(rules + [r], t) == Without(rules, t) + if r.target != t then [r] else []
  {
    var last := if r.target != t then [r] else [];
    if rules == [] {
      assert rules + [r] == [r];
    } else {
      var first := if rules[0].target != t then [rules[0]] else [];
      assert (rules + [r])[0] == rules[0] && (rules + [r])[1..] == rules[1..] + [r];
      WithoutSnoc(rules[1..], r, t);
      assert first + (Without(rules[1..], t) + last) == (first + Without(rules[1..], t)) + last;
    }
  }

  lemma {:induction false} WithoutAllSnoc(rules: seq<Rule>, r: Rule, ts: set<string>)
    ensures WithoutAll(rules + [r], ts) == WithoutAll(rules, ts) + if r.target !in ts then [r] else []
  {
    WithoutAllConcat(rules, [r], ts);
  }

  lemma {:induction false} MergeSnoc(rules: seq<Rule>, merged: seq<Rule>, r: Rule)
    ensures MergeAll(rules, merged + [r]) == Without(MergeAll(rules, merged), r.target) + [r]
    decreases |merged|
  {
    if merged == [] {
      assert merged + [r] == [r];
      assert MergeAll(rules, [r]) == MergeAll(Without(rules, r.target) + [r], []);
    } else {
      assert (merged + [r])[0] == merged[0] && (merged + [r])[1..] == merged[1..] + [r];
      MergeSnoc(Without(rules, merged[0].target) + [merged[0]], merged[1..], r);
    }
  }

  lemma MergeNothing(rules: seq<Rule>)
    ensures MergeAll(rules, []) == rules
  {
  }

  lemma NormalRulesSnoc(net: Net, rules: seq<Rule>, i: nat)
    requires i < |rules|
    ensures NormalRules(net, rules[..i + 1]) == NormalRules(net, rules[..i]) + [NormalRule(net, rules[i])]
  {
    hide Normalize;
  }

  method MergeRules(net: Net, rules: seq<Rule>, merge: seq<Rule>) returns (r: Option<seq<Rule>>)
    ensures r.Some? <==> AllNormalizable(net, TargetSeq(merge))
    ensures r.Some? ==> r.value == MergeAll(rules, NormalRules(net, merge))
  {
    hide Normalize, MergeAll, Without;
    var buf := new Rule[|rules| + |merge| + 1](_ => Rule("", ""));
    forall i | 0 <= i < |rules| { buf[i] := rules[i]; }
    var n: nat := |rules|;
    assert buf[..n] == rules == MergeAll(rules, NormalRules(net, merge[..0])) by { MergeNothing(rules); }
    for i := 0 to |merge|
      invariant n <= |rules| + i
      invariant forall k :: 0 <= k < i ==> Normalize(net, TargetSeq(merge)[k]).Some?
      invariant buf[..n] == MergeAll(rules, NormalRules(net, merge[..i]))
    {
      var target := NormalizeTarget(net, merge[i].target);
      assert merge[i].target == TargetSeq(merge)[i];
      if target.None? {
        return None;
      }
      var rule := merge[i].(target := target.value);
      NormalRulesSnoc(net, merge, i);
      MergeSnoc(rules, NormalRules(net, merge[..i]), rule);
      n := MergeRule(buf, n, rule);
    }
    assert merge[..|merge|] == merge;
    r := Some(buf[..n]);
  }

  method RemoveRules(net: Net, rules: seq<Rule>, remove: seq<string>) returns (r: Option<seq<Rule>>)
    ensures r.Some? <==> AllNormalizable(net, remove)
    ensures r.Some? ==> r.value == WithoutAll(rules, NormalTargets(net, remove))
  {
    hide Normalize;
    var gone: set<string> := {};
    for i := 0 to |remove|
      invariant AllNormalizable(net, remove[..i])
      invariant gone == NormalTargets(net, remove[..i])
    {
      var target := NormalizeTarget(net, remove[i]);
      if target.None? {
        return None;
      }
      NormalTargetsSnoc(net, remove, i);
      gone := gone + {target.value};
    }
    assert remove[..|remove|] == remove;
    var kept: seq<Rule> := [];
    for i := 0 to |rules|
      invariant kept == WithoutAll(rules[..i], gone)
    {
      WithoutAllSnoc(rules[..i], rules[i], gone);
      assert rules[..i + 1] == rules[..i] + [rules[i]];
      if rules[i].target !in gone {
        kept := kept + [rules[i]];
      }
    }
    assert rules[..|rules|] == rules;
    r := Some(kept);
  }

  lemma NormalTargetsSnoc(net: Net, targets: seq<string>, i: nat)
    requires i < |targets| && Normalize(net, targets[i]).Some?
    ensures NormalTargets(net, targets[..i + 1]) == NormalTargets(net, targets[..i]) + {Normalize(net,
        targets[i]).value}
  {
  }

  /** The current rules are read through `current` and never written. */
  method ApplyMutation(net: Net, defaultAction: string, current: array<Rule>, m: Mutation) returns (r: Option<Policy>)
    ensures r == Mutated(net, Policy(defaultAction, current[..]), m)
  {
    var next := if m.replace.Some? then m.replace.value else Policy(defaultAction, current[..]);
    if m.merge.Some? {
      var merged := MergeRules(net, next.egress, m.merge.value);
      if merged.None? {
        return None;
      }
      next := next.(egress := merged.value);
    }
    if m.remove.Some? {
      var kept := RemoveRules(net, current[..], m.remove.value);
      if kept.None? {
        return None;
      }
      next := next.(egress := kept.value);
    }
    r := NormalizePolicy(net, next);
  }
}
