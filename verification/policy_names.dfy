/** What a policy says of a name, rule by rule, without suffix tests. */
module PolicyNames {
  import opened Common
  import opened Policy
  import opened PolicyDns

  /** The name lies under the domain: it ends in a dot and the domain. */
  ghost predicate Under(domain: string, name: string) {
    exists x: string :: name == x + "." + domain
  }

  /** The target is a wildcard over the domain. */
  predicate WildcardOf(target: string, domain: string) {
    target == "*." + domain
  }

  /** A wildcard target stands for the names under its domain, any other target for itself. */
  ghost predicate StandsFor(target: string, name: string) {
    if exists d :: WildcardOf(target, d) then exists d :: WildcardOf(target, d) && Under(d, name)
    else name == target
  }

  lemma SuffixIsTail(name: string, suffix: string)
    ensures HasSuffix(name, suffix) <==> exists x: string :: name == x + suffix
  {
    if HasSuffix(name, suffix) {
      assert name == name[..|name| - |suffix|] + suffix;
    }
  }

  lemma WildcardIsUnique(d: string, e: string)
    requires "*." + d == "*." + e
    ensures d == e
  {
    assert ("*." + d)[2..] == d && ("*." + e)[2..] == e;
  }

  /** A wildcard rule matches exactly the names under its domain; the domain itself is not one of them. */
  lemma WildcardMatchesUnder(net: Net, action: string, d: string, name: string)
    ensures RuleMatches(net, Rule(action, "*." + d), name) <==> net.range("*." + d).None? && Under(d, name)
    ensures !RuleMatches(net, Rule(action, "*." + d), d)
  {
    var target := "*." + d;
    assert target[..2] == "*." && target[1..] == "." + d;
    SuffixIsTail(name, "." + d);
    assert forall x: string :: x + ("." + d) == x + "." + d;
    if HasSuffix(name, "." + d) {
      var x: string :| name == x + ("." + d);
      assert name == x + "." + d;
    }
    assert |"." + d| > |d|;
  }

  /** Any other rule matches exactly its own target. */
  lemma PlainMatchesItself(net: Net, action: string, target: string, name: string)
    requires forall d :: target != "*." + d
    ensures RuleMatches(net, Rule(action, target), name) <==> net.range(target).None? && name == target
  {
    if |target| >= 2 { assert target[..2] + target[2..] == target != "*." + target[2..]; }
  }

  lemma RuleMatchesWhatItStandsFor(net: Net, r: Rule, name: string)
    ensures RuleMatches(net, r, name) <==> net.range(r.target).None? && StandsFor(r.target, name)
  {
    if d :| WildcardOf(r.target, d) {
      WildcardMatchesUnder(net, r.action, d, name);
      assert r == Rule(r.action, "*." + d);
      forall e | WildcardOf(r.target, e) ensures e == d { WildcardIsUnique(d, e); }
    } else {
      forall d ensures r.target != "*." + d { assert !WildcardOf(r.target, d); }
      PlainMatchesItself(net, r.action, r.target, name);
    }
  }

  ghost predicate SpeaksOf(net: Net, r: Rule, name: string, denies: bool) {
    net.range(r.target).None? && StandsFor(r.target, name) && (r.action == "deny") == denies
  }

  /** A name rule with this effect speaks of the name. */
  ghost predicate Speaks(net: Net, p: Policy, name: string, denies: bool) {
    exists r :: r in p.egress && SpeaksOf(net, r, name, denies)
  }

  lemma CoveredIsSpoken(net: Net, p: Policy, name: string, denies: bool)
    ensures NameCovered(net, p, name, denies) <==> Speaks(net, p, name, denies)
  {
    if NameCovered(net, p, name, denies) {
      var i :| 0 <= i < |p.egress| && RuleMatches(net, p.egress[i], name) && (p.egress[i].action == "deny") == denies;
      RuleMatchesWhatItStandsFor(net, p.egress[i], name);
      assert p.egress[i] in p.egress && SpeaksOf(net, p.egress[i], name, denies);
    }
    if Speaks(net, p, name, denies) {
      var r :| r in p.egress && SpeaksOf(net, r, name, denies);
      var i :| 0 <= i < |p.egress| && p.egress[i] == r;
      RuleMatchesWhatItStandsFor(net, r, name);
    }
  }

  /**
  The verdict on a name, in terms of the rules' targets: a deny rule that stands for it wins, then an allow
  rule, then the default.
  */
  lemma VerdictIsByTargets(net: Net, p: Policy, name: string)
    ensures NameVerdict(net, p, name) ==
            if Speaks(net, p, CleanName(name), true) then "deny"
            else if Speaks(net, p, CleanName(name), false) then "allow"
            else p.defaultAction
  {
    CoveredIsSpoken(net, p, CleanName(name), true);
    CoveredIsSpoken(net, p, CleanName(name), false);
  }

  /** Neither the case of a name nor its closing dot changes the verdict. */
  lemma SpellingsGetOneVerdict(net: Net, p: Policy, s: string, t: string)
    requires SameLetters(s, t) && (s != [] ==> s[|s| - 1] != '.')
    ensures CleanName(s) == CleanName(s + ".") == ToLower(s)
    ensures NameVerdict(net, p, s) == NameVerdict(net, p, s + ".") == NameVerdict(net, p, t)
  {
    assert (s + ".")[..|s|] == s;
    LettersDecide(s, t);
    if s != [] {
      var x, y := s[|s| - 1], t[|t| - 1];
      assert SameLetter(x, y) || SameLetter(y, x) || x == y;
    }
  }
}
