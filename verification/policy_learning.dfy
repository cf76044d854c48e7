/** What the control has learned, read off the replies of a run. */
module PolicyLearning {
  import opened Common
  import opened Policy
  import opened PolicyChain
  import opened PolicyDns

  /** The record is the last one of the reply with its address. */
  predicate LastOf(answers: seq<Record>, i: int, ip: Addr) {
    && 0 <= i < |answers| && answers[i].Address? && answers[i].ip == ip
    && (forall j :: i < j < |answers| && answers[j].Address? ==> answers[j].ip != ip)
  }

  /** When an address of the reply expires: by its last record's TTL. */
  function ExpiryOf(answers: seq<Record>, now: Time, ip: Addr): Option<Time> {
    if answers == [] then None
    else
      var last := answers[|answers| - 1];
      if last.Address? && last.ip == ip then Some(now + Ttl(last.ttl) * SECOND)
      else ExpiryOf(answers[..|answers| - 1], now, ip)
  }

  lemma {:induction false} ExpiryCoversReply(answers: seq<Record>, now: Time, ip: Addr)
    ensures ExpiryOf(answers, now, ip).Some? <==> ip in Addresses(answers)
  {
    hide Ttl;
    if answers != [] {
      var last := |answers| - 1;
      ExpiryCoversReply(answers[..last], now, ip);
      if answers[last].Address? && answers[last].ip == ip {
        assert ip in Addresses(answers);
      } else {
        SameAddress(answers, ip);
      }
    }
  }

  lemma {:induction false} ExpiryIsByLastRecord(answers: seq<Record>, now: Time, ip: Addr, i: int)
    requires LastOf(answers, i, ip)
    ensures ExpiryOf(answers, now, ip) == Some(now + Ttl(answers[i].ttl) * SECOND)
  {
    hide Ttl;
    var last := |answers| - 1;
    if i < last {
      var rest := answers[..last];
      assert forall j :: 0 <= j < last ==> rest[j] == answers[j];
      assert LastOf(rest, i, ip);
      ExpiryIsByLastRecord(rest, now, ip, i);
    }
  }

  lemma SameAddress(answers: seq<Record>, ip: Addr)
    requires answers != []
    requires var last := answers[|answers| - 1]; !(last.Address? && last.ip == ip)
    ensures ip in Addresses(answers) <==> ip in Addresses(answers[..|answers| - 1])
  {
    var rest := answers[..|answers| - 1];
    if ip in Addresses(answers) {
      var i :| 0 <= i < |answers| && answers[i].Address? && answers[i].ip == ip;
      assert rest[i] == answers[i];
    }
    if ip in Addresses(rest) {
      var i :| 0 <= i < |rest| && rest[i].Address? && rest[i].ip == ip;
      assert answers[i] == rest[i];
    }
  }

  /** What becomes of one address: the reply's own expiry, or the old one while it lasts. */
  function KeptUntil(before: Option<Time>, answers: seq<Record>, now: Time, ip: Addr): Option<Time> {
    var own := ExpiryOf(answers, now, ip);
    if own.Some? then own else if before.Some? && before.value > now then before else None
  }

  function Until(learned: map<Addr, Entry>, ip: Addr): Option<Time> {
    if ip in learned then Some(learned[ip].expires) else None
  }

  lemma {:induction false} LearnIs(learned: map<Addr, Entry>, answers: seq<Record>, now: Time, origin: Origin, ip: Addr)
    ensures var after := Learn(learned, answers, now, origin);
            var own := ExpiryOf(answers, now, ip);
            && Until(after, ip) == (if own.Some? then own else Until(learned, ip))
            && (own.Some? ==> after[ip].origin == origin)
            && (own.None? && ip in learned ==> after[ip] == learned[ip])
  {
    if answers != [] { LearnIs(learned, answers[..|answers| - 1], now, origin, ip); }
  }

  /** A reply keeps every earlier address that has not expired, drops the others and adds its own. */
  lemma CandidateIs(learned: map<Addr, Entry>, answers: seq<Record>, now: Time, origin: Origin, ip: Addr)
    ensures var after := Candidate(learned, answers, now, origin);
            && Until(after, ip) == KeptUntil(Until(learned, ip), answers, now, ip)
            && (ip in after <==> ip in Addresses(answers) || (ip in learned && learned[ip].expires > now))
            && (ip in Addresses(answers) ==> after[ip].origin == origin)
            && (ip in after && ip !in Addresses(answers) ==> after[ip] == learned[ip])
  {
    LearnIs(Unexpired(learned, now), answers, now, origin, ip);
    ExpiryCoversReply(answers, now, ip);
  }

  /** A reply keeps the earlier entries that have not expired and only those; its own addresses are beside them. */
  ghost predicate Kept(before: map<Addr, Entry>, answers: seq<Record>, now: Time, after: map<Addr, Entry>) {
    && (forall ip :: ip in after <==> ip in Addresses(answers) || (ip in before && before[ip].expires > now))
    && (forall ip :: ip in after && ip !in Addresses(answers) ==> after[ip] == before[ip])
  }

  /** Each address of the reply expires by its last record, and comes from the reply's query. */
  ghost predicate Renewed(answers: seq<Record>, now: Time, origin: Origin, after: map<Addr, Entry>) {
    forall i, ip :: LastOf(answers, i, ip) ==>
      Lookup(after, ip) == Some(Entry(now + Ttl(answers[i].ttl) * 1_000_000_000, origin))
  }

  lemma CandidateKeeps(learned: map<Addr, Entry>, answers: seq<Record>, now: Time, origin: Origin)
    ensures Kept(learned, answers, now, Candidate(learned, answers, now, origin))
    ensures Renewed(answers, now, origin, Candidate(learned, answers, now, origin))
  {
    hide Candidate, KeptUntil;
    var after := Candidate(learned, answers, now, origin);
    forall ip ensures ip in after <==> ip in Addresses(answers) || (ip in learned && learned[ip].expires > now)
              ensures ip in after && ip !in Addresses(answers) ==> after[ip] == learned[ip] {
      CandidateIs(learned, answers, now, origin, ip);
    }
    forall i, ip | LastOf(answers, i, ip)
      ensures Lookup(after, ip) == Some(Entry(now + Ttl(answers[i].ttl) * SECOND, origin))
    {
      LastIsRenewed(learned, answers, now, origin, i, ip);
    }
  }

  lemma LastIsRenewed(learned: map<Addr, Entry>, answers: seq<Record>, now: Time, origin: Origin, i: int, ip: Addr)
    requires LastOf(answers, i, ip)
    ensures Lookup(Candidate(learned, answers, now, origin), ip) ==
            Some(Entry(now + Ttl(answers[i].ttl) * SECOND, origin))
  {
    hide Ttl, Candidate;
    assert ip in Addresses(answers);
    CandidateIs(learned, answers, now, origin, ip);
    ExpiryIsByLastRecord(answers, now, ip, i);
  }

  /** The addresses a reply would leave in the set. */
  function Held(learned: map<Addr, Entry>, answers: seq<Record>, now: Time): set<Addr> {
    Addresses(answers) + set ip | ip in learned && learned[ip].expires > now
  }

  lemma CandidateHolds(learned: map<Addr, Entry>, answers: seq<Record>, now: Time, origin: Origin)
    ensures Candidate(learned, answers, now, origin).Keys == Held(learned, answers, now)
    ensures |Candidate(learned, answers, now, origin)| == |Held(learned, answers, now)|
  {
    forall ip ensures ip in Candidate(learned, answers, now, origin).Keys <==> ip in Held(learned, answers, now) {
      CandidateIs(learned, answers, now, origin, ip);
    }
    assert |Candidate(learned, answers, now, origin).Keys| == |Candidate(learned, answers, now, origin)|;
  }

  // ---------------------------------------------------------------- over a run

  /** The last step of the run was a reply that the policy let teach, and the kernel confirmed it. */
  ghost predicate Taught(net: Net, tr: Trace) {
    && tr.Then? && tr.t.Answer? && tr.t.commit.Applied? && tr.t.id in tr.before.s.flights
    && !tr.before.s.closed && tr.before.s.flights[tr.t.id].revision == tr.before.s.revision
    && tr.before.s.policy.defaultAction == "deny" && Addresses(tr.t.answers) != {}
    && (forall i :: 0 <= i < |tr.t.answers| ==> !Offends(net, tr.before.s.policy, tr.t.answers[i]))
    && |Held(tr.before.s.learned, tr.t.answers, tr.t.now)| <= 4096
  }

  /** Until when the run's replies keep an address: since the last update, and by the last reply that had it. */
  ghost function TaughtUntil(net: Net, tr: Trace, ip: Addr): Option<Time> {
    if tr.Start? then None
    else if tr.t.Update? && tr.t.commit.Applied? then None
    else if Taught(net, tr) then KeptUntil(TaughtUntil(net, tr.before, ip), tr.t.answers, tr.t.now, ip)
    else TaughtUntil(net, tr.before, ip)
  }

  lemma TaughtIsTeaching(net: Net, tr: Trace)
    requires tr.Then? && tr.t.Answer? && tr.t.id in tr.before.s.flights
    ensures Taught(net, tr) <==>
            tr.t.commit.Applied? && Teaches(net, tr.before.s, tr.before.s.flights[tr.t.id], tr.t.answers, tr.t.now)
  {
    var f := tr.before.s.flights[tr.t.id];
    CandidateHolds(tr.before.s.learned, tr.t.answers, tr.t.now, Origin(f.name, f.revision));
  }

  /**
  In every run the control remembers exactly the addresses its replies have taught it: each until its last
  reply's TTL has passed at a later reply, and none beyond an update of the policy.
  */
  lemma {:induction false} LearnedIsTaught(net: Net, tr: Trace, ip: Addr)
    requires Valid(net, tr)
    ensures Until(tr.s.learned, ip) == TaughtUntil(net, tr, ip)
  {
    hide Taught, Teaches, Candidate, Origins, NameVerdict, KeptUntil;
    match tr
    case Start(_) =>
    case Then(before, t, s) =>
      LearnedIsTaught(net, before, ip);
      if t.Answer? {
        var f := before.s.flights[t.id];
        TaughtIsTeaching(net, tr);
        CandidateIs(before.s.learned, t.answers, t.now, Origin(f.name, f.revision), ip);
      } else {
        NotTaught(net, tr);
      }
  }

  lemma NotTaught(net: Net, tr: Trace)
    requires tr.Then? && !tr.t.Answer?
    ensures !Taught(net, tr)
  {
  }

  /** In particular an address stays until it has expired, the policy is replaced, or its own name is asked again. */
  lemma TaughtAddressesStay(net: Net, tr: Trace, ip: Addr)
    requires Valid(net, tr) && tr.Then? && ip in tr.before.s.learned
    requires !(tr.t.Update? && tr.t.commit.Applied?)
    requires tr.t.Answer? ==> tr.before.s.learned[ip].expires > tr.t.now
    ensures ip in tr.s.learned
    ensures !(tr.t.Answer? && ip in Addresses(tr.t.answers)) ==>
              tr.s.learned[ip].expires == tr.before.s.learned[ip].expires
  {
    hide Candidate, Taught, Teaches, Origins, NameVerdict;
    LearnedIsTaught(net, tr, ip);
    LearnedIsTaught(net, tr.before, ip);
    if tr.t.Answer? { ExpiryCoversReply(tr.t.answers, tr.t.now, ip); }
  }

  // ---------------------------------------------------------------- the kernel's set

  /** After a confirmed reply the kernel has exactly what the control remembers. */
  lemma KernelFollowsReplies(net: Net, tr: Trace)
    requires Valid(net, tr) && Taught(net, tr)
    ensures tr.s.kernel.Keys == tr.s.learned.Keys && Addresses(tr.t.answers) <= tr.s.kernel.Keys
    ensures forall ip :: ip in tr.s.learned ==> tr.s.kernel[ip] == tr.s.learned[ip].origin
  {
    TaughtIsTeaching(net, tr);
    var f := tr.before.s.flights[tr.t.id];
    CandidateHolds(tr.before.s.learned, tr.t.answers, tr.t.now, Origin(f.name, f.revision));
  }

  // ---------------------------------------------------------------- policies and queries

  /** The last update that the kernel confirmed. */
  function Installed(tr: Trace): Policy {
    if tr.Start? then Policy("allow", [])
    else if tr.t.Update? && tr.t.commit.Applied? then tr.t.next
    else Installed(tr.before)
  }

  function Updates(tr: Trace): nat {
    if tr.Start? then 0 else Updates(tr.before) + if tr.t.Update? && tr.t.commit.Applied? then 1 else 0
  }

  predicate WasClosed(tr: Trace) {
    tr.Then? && (tr.t.Close? || WasClosed(tr.before))
  }

  /** The query of an exchange under way, and the revision it was asked under. */
  function Asked(tr: Trace, id: int): Option<Flight> {
    if tr.Start? then None
    else match tr.t
      case Ask(x, name) => if x == id then Some(Flight(name, Updates(tr.before))) else Asked(tr.before, id)
      case Answer(x, _, _, _) => if x == id then None else Asked(tr.before, id)
      case Abandon(x) => if x == id then None else Asked(tr.before, id)
      case _ => Asked(tr.before, id)
  }

  /** In every run the control's policy, revision, queries and end are what the history says. */
  lemma {:induction false} ControlFollowsHistory(net: Net, tr: Trace, id: int)
    requires Valid(net, tr)
    ensures tr.s.policy == Installed(tr) && tr.s.revision == Updates(tr) && tr.s.closed == WasClosed(tr)
    ensures Lookup(tr.s.flights, id) == Asked(tr, id)
  {
    hide Teaches, Candidate, Origins, NameVerdict;
    match tr
    case Start(_) =>
    case Then(before, t, s) => ControlFollowsHistory(net, before, id);
  }

  lemma Follow(net: Net, tr: Trace, t: Step) returns (tr': Trace)
    requires Valid(net, tr) && Enabled(net, tr.s, t)
    ensures Valid(net, tr') && tr' == Then(tr, t, Apply(net, tr.s, t))
  {
    tr' := Then(tr, t, Apply(net, tr.s, t));
  }

  /**
  From every state of an open control a name that its policy allows can be asked and answered; under a default
  of deny, with room in the set and nothing in the reply denied, its addresses are then let through.
  */
  lemma QueriesCanBeAnswered(net: Net, tr: Trace, name: string, answers: seq<Record>, now: Time) returns (tr': Trace)
    requires Valid(net, tr) && !WasClosed(tr) && NameVerdict(net, Installed(tr), name) == "allow"
    requires Installed(tr).defaultAction == "deny" && |Held(tr.s.learned, answers, now)| <= 4096
    requires forall i :: 0 <= i < |answers| ==> !Offends(net, Installed(tr), answers[i])
    ensures Valid(net, tr') && Installed(tr') == Installed(tr)
    ensures forall ip :: ip in Addresses(answers) ==> ip in tr'.s.kernel && ip in tr'.s.learned
  {
    hide NameVerdict, Teaches, Candidate, Origins, Offends;
    ControlFollowsHistory(net, tr, 0);
    var id := FreshInt(tr.s.flights.Keys);
    tr' := Follow(net, tr, Ask(id, name));
    tr' := Follow(net, tr', Answer(id, answers, now, Applied));
    if Addresses(answers) != {} { KernelFollowsReplies(net, tr'); }
  }

  /** And any policy with an action by default can be installed, which empties what was learned. */
  lemma PoliciesCanBeInstalled(net: Net, tr: Trace, next: Policy) returns (tr': Trace)
    requires Valid(net, tr) && !WasClosed(tr) && IsAction(next.defaultAction)
    ensures Valid(net, tr') && Installed(tr') == next && tr'.s.learned == map[] && tr'.s.kernel == map[]
  {
    hide NameVerdict, Teaches, Candidate, Origins;
    ControlFollowsHistory(net, tr, 0);
    tr' := Follow(net, tr, Update(next, Applied));
  }
}
