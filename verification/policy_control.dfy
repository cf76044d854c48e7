/** One endpoint's policy control: its policy, revision and learned addresses, updated in place. */
module PolicyControl {
  import opened Common
  import opened Policy
  import opened PolicyChain
  import opened PolicyDns
  import opened PolicyLearning
  import opened PolicyNames
  import opened PolicyMutation

  class Control {
    const net: Net
    var defaultAction: string
    var egress: array<Rule>
    var revision: int
    var closed: bool
    var learned: map<Addr, Entry>
    ghost var kernel: map<Addr, Origin>

    ghost function Current(): Policy
      reads this, egress
    {
      Policy(defaultAction, egress[..])
    }

    /** The machine's state, without the exchanges under way. */
    ghost function View(): State
      reads this, egress
    {
      State(Current(), revision, closed, learned, kernel, map[])
    }

    ghost predicate Valid()
      reads this, egress
    {
      Inv(net, View())
    }

    constructor (net: Net)
      ensures Valid() && fresh(egress) && this.net == net && View() == INITIAL
    {
      this.net := net;
      defaultAction, revision, closed, learned, kernel := "allow", 0, false, map[], map[];
      egress := new Rule[0];
      new;
      assert egress[..] == [];
    }

    /**
    update. `commit` is what the kernel does with the new table. A rejected mutation changes nothing; a
    failed commit changes neither the policy, nor the revision, nor what has been learned.
    */
    method Update(m: Mutation, commit: Commit) returns (ok: bool)
      requires Valid()
      modifies this
      ensures Valid() && (egress == old(egress) || fresh(egress))
      ensures closed == old(closed)
      ensures !ok ==> Current() == old(Current()) && revision == old(revision) && learned == old(learned)
      ensures var changes := m.replace.Some? || m.merge.Some? || m.remove.Some?;
              ok <==> !closed && (changes ==> Mutated(net, old(Current()), m).Some? && commit.Applied?)
      ensures ok && (m.replace.Some? || m.merge.Some? || m.remove.Some?) ==>
                View() == Updated(old(View()), Mutated(net, old(Current()), m).value, Applied)
      ensures ok && m.replace.None? && m.merge.None? && m.remove.None? ==> View() == old(View())
    {
      hide Inv, Mutated;
      if closed {
        return false;
      }
      ghost var s := View();
      if m.replace.Some? || m.merge.Some? || m.remove.Some? {
        var next := ApplyMutation(net, defaultAction, egress, m);
        if next.None? {
          return false;
        }
        UpdateKeeps(net, s, next.value, commit);
        if !commit.Rejected? {
          kernel := map[];
        }
        if !commit.Applied? {
          return false;
        }
        Install(next.value);
      }
      ok := true;
    }

    /** The policy the kernel has accepted becomes current, under a new revision. */
    method Install(next: Policy)
      modifies this
      ensures fresh(egress) && Current() == next
      ensures revision == old(revision) + 1 && learned == map[]
      ensures closed == old(closed) && kernel == old(kernel)
    {
      var rules := next.egress;
      defaultAction := next.defaultAction;
      egress := new Rule[|rules|](i requires 0 <= i < |rules| => rules[i]);
      assert egress[..] == rules;
      revision := revision + 1;
      learned := map[];
    }

    /** The first section of an exchange: the revision to answer under, if the name may be asked. */
    method Ask(name: string) returns (r: Option<int>)
      ensures r == if !closed && NameVerdict(net, Current(), name) == "allow" then Some(revision) else None
    {
      var action := DomainAction(net, Policy(defaultAction, egress[..]), name);
      r := if !closed && action == "allow" then Some(revision) else None;
    }

    /** Whether a rule of the current policy refuses the reply. */
    method Judge(answers: seq<Record>) returns (refused: bool)
      ensures refused <==> Refuses(net, Current(), answers)
    {
      var p := Policy(defaultAction, egress[..]);
      for i := 0 to |answers|
        invariant forall k :: 0 <= k < i ==> !Offends(net, p, answers[k])
      {
        match answers[i] {
          case Cname(name) =>
            var action := DomainAction(net, p, name);
            if action == "deny" {
              var explicit := DomainAction(net, p.(defaultAction := "allow"), name);
              SameRules(net, p, name);
              if explicit == "deny" {
                assert Offends(net, p, answers[i]);
                return true;
              }
            }
          case Address(ip, _) =>
            var denied := DeniesAddress(net, p, ip);
            if denied {
              assert Offends(net, p, answers[i]);
              return true;
            }
          case OtherRecord =>
        }
      }
      refused := false;
    }

    /** The learned addresses that have not expired, with the reply's added. */
    method Gather(answers: seq<Record>, now: Time, ghost origin: Origin, name: string,
        asked: int) returns (m: map<Addr, Entry>)
      requires origin == Origin(name, asked)
      ensures m == Candidate(learned, answers, now, origin)
      ensures Kept(learned, answers, now, m) && Renewed(answers, now, origin, m)
    {
      m := map[];
      var rest := learned.Keys;
      while rest != {}
        invariant rest <= learned.Keys
        invariant m == map ip | ip in learned && ip !in rest && learned[ip].expires > now :: learned[ip]
      {
        var ip :| ip in rest;
        rest := rest - {ip};
        if learned[ip].expires > now {
          m := m[ip := learned[ip]];
        }
      }
      assert m == Unexpired(learned, now);
      for i := 0 to |answers|
        invariant m == Learn(Unexpired(learned, now), answers[..i], now, origin)
      {
        assert answers[..i + 1][..i] == answers[..i];
        if answers[i].Address? {
          m := m[answers[i].ip := Entry(now + Ttl(answers[i].ttl) * SECOND, Origin(name, asked))];
        }
      }
      assert answers[..|answers|] == answers;
      CandidateKeeps(learned, answers, now, origin);
    }

    /** Publishes the gathered addresses in the kernel, then remembers them. */
    method Teach(name: string, asked: int, answers: seq<Record>, now: Time, commit: Commit) returns (ok: bool)
      modifies this`learned, this`kernel
      ensures var taught := Candidate(old(learned), answers, now, Origin(name, asked));
              && ok == (|taught| <= MAX_LEARNED && commit.Applied?)
              && learned == (if ok then taught else old(learned))
              && kernel == (if |taught| <= MAX_LEARNED && !commit.Rejected? then Origins(taught) else old(kernel))
      ensures ok ==> Kept(old(learned), answers, now, learned) && Renewed(answers, now, Origin(name, asked), learned)
      ensures ok ==> kernel.Keys == learned.Keys && |learned| <= 4096
      ensures !ok ==> learned == old(learned)
    {
      hide Candidate, Origins;
      var taught := Gather(answers, now, Origin(name, asked), name, asked);
      if |taught| > MAX_LEARNED {
        return false;
      }
      if !commit.Rejected? {
        kernel := Origins(taught);
      }
      if !commit.Applied? {
        return false;
      }
      learned := taught;
      ok := true;
      OriginsKeys(taught);
    }

    /** A deny rule stands for the alias, or a denied prefix holds the address. */
    ghost predicate Denied(r: Record)
      reads this, egress
    {
      match r
      case Cname(name) => Speaks(net, Current(), CleanName(name), true)
      case Address(ip, _) => exists rule :: rule in egress[..] && rule.action == "deny"
                               && net.range(rule.target).Some? && Contains(net.range(rule.target).value, ip)
      case OtherRecord => false
    }

    lemma RefusesDenied(answers: seq<Record>)
      ensures Refuses(net, Current(), answers) <==> exists i :: 0 <= i < |answers| && Denied(answers[i])
    {
      forall i | 0 <= i < |answers| ensures Offends(net, Current(), answers[i]) <==> Denied(answers[i]) {
        if answers[i].Cname? { CoveredIsSpoken(net, Current(), CleanName(answers[i].name), true); }
        if answers[i].Address? { AddressIsDenied(answers[i].ip); }
      }
    }

    lemma AddressIsDenied(ip: Addr)
      ensures Covered(net, Current(), "deny", ip) <==>
              exists rule :: rule in egress[..] && rule.action == "deny"
                && net.range(rule.target).Some? && Contains(net.range(rule.target).value, ip)
    {
      if Covered(net, Current(), "deny", ip) {
        var r :| r in Current().egress && Covers(net, r, "deny", ip);
        assert r in egress[..];
      }
      if rule :| rule in egress[..] && rule.action == "deny"
                 && net.range(rule.target).Some? && Contains(net.range(rule.target).value, ip) {
        assert rule in Current().egress && Covers(net, rule, "deny", ip);
      }
    }

    /** The second section of an exchange, for a query asked under revision `asked`. */
    method Finish(name: string, asked: int, answers: seq<Record>, now: Time, commit: Commit) returns (r: Reply)
      requires Valid() && (asked == revision ==> NameVerdict(net, Current(), name) == "allow")
      modifies this`learned, this`kernel
      ensures Valid()
      ensures View() == Answered(net, old(View()), Flight(name, asked), answers, now, commit)
      ensures r.Refused? <==> !Passes(net, old(View()), asked, answers)
      ensures r.Forwarded? && defaultAction == "deny" && Addresses(answers) != {} ==>
                && Kept(old(learned), answers, now, learned) && Renewed(answers, now, Origin(name, asked), learned)
                && kernel.Keys == learned.Keys
      ensures !(r.Forwarded? && defaultAction == "deny" && Addresses(answers) != {}) ==> learned == old(learned)
      ensures r.Refused? <==> closed || asked != revision || exists i :: 0 <= i < |answers| && Denied(answers[i])
    {
      hide Inv, NameVerdict, Covered, Refuses, Candidate, Origins, Addresses, Kept, Renewed;
      ghost var s := View();
      RefusesDenied(answers);
      AnswerKeeps(net, s, Flight(name, asked), answers, now, commit);
      if closed || revision != asked {
        return Refused;
      }
      var refused := Judge(answers);
      if refused {
        return Refused;
      }
      if defaultAction == "deny" && Addresses(answers) != {} {
        var ok := Teach(name, asked, answers, now, commit);
        assert View() == Answered(net, s, Flight(name, asked), answers, now, commit);
        return if ok then Forwarded else Failure;
      }
      assert !Teaches(net, s, Flight(name, asked), answers, now);
      r := Forwarded;
    }
  }

  lemma OriginsKeys(learned: map<Addr, Entry>)
    ensures Origins(learned).Keys == learned.Keys
  {
  }

  /** Only a rule can deny once the default is to allow. */
  lemma SameRules(net: Net, p: Policy, name: string)
    ensures NameVerdict(net, p.(defaultAction := "allow"), name) == "deny" <==> NameCovered(net, p, CleanName(name),
        true)
    ensures NameCovered(net, p, CleanName(name), true) ==> NameVerdict(net, p, name) == "deny"
  {
  }
}
