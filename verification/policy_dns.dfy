/**
Learning of addresses from DNS replies, fenced by the policy's revision.

A step is one section under the policy's lock. An exchange asks in one section and answers in a later
one; between them the policy may be replaced. The kernel may also apply a transaction whose success is
not reported, and it drops expired addresses by itself.
*/
module PolicyDns {
  import opened Common
  import opened Policy
  import opened PolicyChain

  type Time = int

  datatype Record = Cname(name: string) | Address(ip: Addr, ttl: nat) | OtherRecord

  /** The query an address was learned from, and the revision that query was asked under. */
  datatype Origin = Origin(name: string, revision: int)

  /** A learned address. The code keeps only the expiry; the origin is what the claims are about. */
  datatype Entry = Entry(expires: Time, origin: Origin)

  datatype Commit = Applied | Rejected | Unreported

  datatype Reply = Refused | Failure | Forwarded

  const MAX_LEARNED: nat := 4096
  const MAX_TTL: nat := 300
  const SECOND: int := 1_000_000_000

  // ---------------------------------------------------------------- what a policy says of a name

  function CleanName(name: string): string {
    ToLower(TrimDot(name))
  }

  predicate HasSuffix(s: string, suffix: string) {
    |suffix| <= |s| && s[|s| - |suffix|..] == suffix
  }

  predicate IsWildcard(target: string) {
    |target| >= 2 && target[..2] == "*."
  }

  /** A name rule matches its own name, or every name under a wildcard. */
  predicate RuleMatches(net: Net, r: Rule, name: string) {
    && net.range(r.target).None?
    && if IsWildcard(r.target) then HasSuffix(name, r.target[1..]) else r.target == name
  }

  ghost predicate NameCovered(net: Net, p: Policy, name: string, denied: bool) {
    exists i :: 0 <= i < |p.egress| && RuleMatches(net, p.egress[i], name) && (p.egress[i].action == "deny") == denied
  }

  /** Any deny beats any allow beats the default, in whatever order the rules come. */
  ghost function NameVerdict(net: Net, p: Policy, name: string): string {
    if NameCovered(net, p, CleanName(name), true) then "deny"
    else if NameCovered(net, p, CleanName(name), false) then "allow"
    else p.defaultAction
  }

  method DomainAction(net: Net, p: Policy, name: string) returns (action: string)
    ensures action == NameVerdict(net, p, name)
  {
    var clean := CleanName(name);
    action := p.defaultAction;
    ghost var allowed := false;
    for i := 0 to |p.egress|
      invariant forall k :: 0 <= k < i ==> RuleMatches(net, p.egress[k], clean) ==> p.egress[k].action != "deny"
      invariant allowed <==> exists k :: 0 <= k < i && RuleMatches(net, p.egress[k], clean)
      invariant action == if allowed then "allow" else p.defaultAction
    {
      var rule := p.egress[i];
      if net.range(rule.target).None? {
        var matched := rule.target == clean;
        if IsWildcard(rule.target) {
          matched := HasSuffix(clean, rule.target[1..]);
        }
        if matched {
          assert RuleMatches(net, p.egress[i], clean);
          if rule.action == "deny" {
            return "deny";
          }
          action := "allow";
          allowed := true;
        }
      }
    }
  }

  method DeniesAddress(net: Net, p: Policy, ip: Addr) returns (denied: bool)
    ensures denied <==> Covered(net, p, "deny", ip)
  {
    for i := 0 to |p.egress|
      invariant forall k :: 0 <= k < i ==> !Covers(net, p.egress[k], "deny", ip)
    {
      var range := net.range(p.egress[i].target);
      if range.Some? && p.egress[i].action == "deny" && Contains(range.value, ip) {
        assert p.egress[i] in p.egress && Covers(net, p.egress[i], "deny", ip);
        return true;
      }
    }
    denied := false;
  }

  // ---------------------------------------------------------------- a reply

  /** How long an address is kept, in seconds: as the record says, but at least one and at most 300. */
  function Ttl(ttl: nat): (r: nat)
    ensures 1 <= r <= 300
    ensures 1 <= ttl <= 300 ==> r == ttl
    ensures ttl == 0 ==> r == 1
    ensures ttl > 300 ==> r == 300
  {
    if ttl == 0 then 1 else if ttl > MAX_TTL then MAX_TTL else ttl
  }

  /** An alias that a rule denies outright, or an address that a prefix denies. */
  ghost predicate Offends(net: Net, p: Policy, r: Record) {
    match r
    case Cname(name) => NameCovered(net, p, CleanName(name), true)
    case Address(ip, _) => Covered(net, p, "deny", ip)
    case OtherRecord => false
  }

  ghost predicate Refuses(net: Net, p: Policy, answers: seq<Record>) {
    exists i :: 0 <= i < |answers| && Offends(net, p, answers[i])
  }

  function Addresses(answers: seq<Record>): set<Addr> {
    set i | 0 <= i < |answers| && answers[i].Address? :: answers[i].ip
  }

  function Unexpired(learned: map<Addr, Entry>, now: Time): map<Addr, Entry> {
    map ip | ip in learned && learned[ip].expires > now :: learned[ip]
  }

  /** The reply's addresses, later records overwriting earlier ones. */
  function Learn(learned: map<Addr, Entry>, answers: seq<Record>, now: Time, origin: Origin): map<Addr, Entry> {
    if answers == [] then learned
    else
      var before := Learn(learned, answers[..|answers| - 1], now, origin);
      match answers[|answers| - 1]
      case Address(ip, ttl) => before[ip := Entry(now + Ttl(ttl) * SECOND, origin)]
      case _ => before
  }

  function Candidate(learned: map<Addr, Entry>, answers: seq<Record>, now: Time, origin: Origin): map<Addr, Entry> {
    Learn(Unexpired(learned, now), answers, now, origin)
  }

  function Origins(learned: map<Addr, Entry>): map<Addr, Origin> {
    map ip | ip in learned :: learned[ip].origin
  }

  // ---------------------------------------------------------------- the machine

  datatype Flight = Flight(name: string, revision: int)

  datatype State = State(
    policy: Policy,
    revision: int,
    closed: bool,
    learned: map<Addr, Entry>,
    kernel: map<Addr, Origin>,
    flights: map<int, Flight>)

  datatype Step =
    | Ask(id: int, name: string)
    | Answer(id: int, answers: seq<Record>, now: Time, commit: Commit)
    | Abandon(id: int)
    | Update(next: Policy, commit: Commit)
    | Expire(ip: Addr)
    | Close

  /** The installed policy is in normal form; here only its default action matters. */
  ghost predicate Enabled(net: Net, s: State, t: Step) {
    match t
    case Ask(id, name) => !s.closed && id !in s.flights && NameVerdict(net, s.policy, name) == "allow"
    case Answer(id, _, _, _) => id in s.flights
    case Abandon(id) => id in s.flights
    case Update(next, _) => !s.closed && IsAction(next.defaultAction)
    case Expire(ip) => ip in s.kernel
    case Close => true
  }

  /** A current reply that no rule refuses. */
  ghost predicate Passes(net: Net, s: State, revision: int, answers: seq<Record>) {
    !s.closed && s.revision == revision && !Refuses(net, s.policy, answers)
  }

  /** A reply teaches only under a default of deny, and only while the set has room. */
  ghost predicate Teaches(net: Net, s: State, f: Flight, answers: seq<Record>, now: Time) {
    && Passes(net, s, f.revision, answers)
    && s.policy.defaultAction == "deny" && Addresses(answers) != {}
    && |Candidate(s.learned, answers, now, Origin(f.name, f.revision))| <= MAX_LEARNED
  }

  ghost function Answered(net: Net, s: State, f: Flight, answers: seq<Record>, now: Time, commit: Commit): State {
    var taught := Candidate(s.learned, answers, now, Origin(f.name, f.revision));
    if Teaches(net, s, f, answers, now) && !commit.Rejected? then
      s.(kernel := Origins(taught), learned := if commit.Applied? then taught else s.learned)
    else s
  }

  /** Replacing the table empties both sets; only a reported success changes the policy. */
  function Updated(s: State, next: Policy, commit: Commit): State {
    match commit
    case Applied => s.(policy := next, revision := s.revision + 1, learned := map[], kernel := map[])
    case Rejected => s
    case Unreported => s.(kernel := map[])
  }

  ghost function Apply(net: Net, s: State, t: Step): State
    requires Enabled(net, s, t)
  {
    match t
    case Ask(id, name) => s.(flights := s.flights[id := Flight(name, s.revision)])
    case Answer(id, answers, now, commit) =>
      Answered(net, s, s.flights[id], answers, now, commit).(flights := s.flights - {id})
    case Abandon(id) => s.(flights := s.flights - {id})
    case Update(next, commit) => Updated(s, next, commit)
    case Expire(ip) => s.(kernel := s.kernel - {ip})
    case Close => s.(closed := true)
  }

  const INITIAL: State := State(Policy("allow", []), 0, false, map[], map[], map[])

  /** A run of the policy control and the state it has reached. */
  datatype Trace = Start(s: State) | Then(before: Trace, t: Step, s: State)

  ghost predicate Valid(net: Net, tr: Trace) {
    match tr
    case Start(s) => s == INITIAL
    case Then(before, t, s) => Valid(net, before) && Enabled(net, before.s, t) && s == Apply(net, before.s, t)
  }

  // ---------------------------------------------------------------- what is in the kernel's set

  /** The origin is a query the current policy allows, asked under the current revision. */
  ghost predicate Legitimate(net: Net, s: State, ip: Addr, o: Origin) {
    && o.revision == s.revision
    && NameVerdict(net, s.policy, o.name) == "allow"
    && !Covered(net, s.policy, "deny", ip)
  }

  ghost predicate AddressOk(net: Net, s: State, ip: Addr) {
    && (ip in s.learned ==> Legitimate(net, s, ip, s.learned[ip].origin))
    && (ip in s.kernel ==> Legitimate(net, s, ip, s.kernel[ip]))
  }

  /** An exchange under way belongs to a past revision, or to the current one and an allowed name. */
  ghost predicate FlightOk(net: Net, s: State, id: int) {
    id in s.flights ==>
      && s.flights[id].revision <= s.revision
      && (s.flights[id].revision == s.revision ==> NameVerdict(net, s.policy, s.flights[id].name) == "allow")
  }

  ghost predicate Inv(net: Net, s: State) {
    && (forall ip {:trigger AddressOk(net, s, ip)} :: AddressOk(net, s, ip))
    && (forall id {:trigger FlightOk(net, s, id)} :: FlightOk(net, s, id))
    && |s.learned| <= MAX_LEARNED && |s.kernel| <= MAX_LEARNED
    && (s.policy.defaultAction == "allow" ==> s.learned == map[] && s.kernel == map[])
  }

  /** Everything a reply would put in the set is either from the reply or already learned. */
  lemma {:induction false} LearnFrom(learned: map<Addr, Entry>, answers: seq<Record>, now: Time, origin: Origin,
      ip: Addr)
    requires ip in Learn(learned, answers, now, origin)
    ensures (ip in Addresses(answers) && Learn(learned, answers, now, origin)[ip].origin == origin)
         || (ip in learned && Learn(learned, answers, now, origin)[ip] == learned[ip])
  {
    if answers != [] {
      var last := |answers| - 1;
      if answers[last].Address? && answers[last].ip == ip {
        assert ip in Addresses(answers);
      } else {
        LearnFrom(learned, answers[..last], now, origin, ip);
        assert Addresses(answers[..last]) <= Addresses(answers) by {
          forall x | x in Addresses(answers[..last]) ensures x in Addresses(answers) {
            var i :| 0 <= i < last && answers[..last][i].Address? && answers[..last][i].ip == x;
            assert answers[i].Address? && answers[i].ip == x;
          }
        }
      }
    }
  }

  lemma AddressesPass(net: Net, p: Policy, answers: seq<Record>, ip: Addr)
    requires !Refuses(net, p, answers) && ip in Addresses(answers)
    ensures !Covered(net, p, "deny", ip)
  {
    var i :| 0 <= i < |answers| && answers[i].Address? && answers[i].ip == ip;
    assert !Offends(net, p, answers[i]);
  }

  lemma CandidateIsLegitimate(net: Net, s: State, f: Flight, answers: seq<Record>, now: Time, ip: Addr)
    requires Inv(net, s) && Teaches(net, s, f, answers, now)
    requires NameVerdict(net, s.policy, f.name) == "allow"
    requires ip in Candidate(s.learned, answers, now, Origin(f.name, f.revision))
    ensures Legitimate(net, s, ip, Candidate(s.learned, answers, now, Origin(f.name, f.revision))[ip].origin)
  {
    hide NameVerdict, Covered;
    var origin := Origin(f.name, f.revision);
    assert AddressOk(net, s, ip);
    LearnFrom(Unexpired(s.learned, now), answers, now, origin, ip);
    if ip in Addresses(answers) { AddressesPass(net, s.policy, answers, ip); }
  }

  lemma OriginsCount(learned: map<Addr, Entry>)
    ensures |Origins(learned)| == |learned|
  {
    assert Origins(learned).Keys == learned.Keys;
  }

  lemma AnswerKeeps(net: Net, s: State, f: Flight, answers: seq<Record>, now: Time, commit: Commit)
    requires Inv(net, s) && (f.revision == s.revision ==> NameVerdict(net, s.policy, f.name) == "allow")
    ensures Inv(net, Answered(net, s, f, answers, now, commit))
  {
    hide NameVerdict, Covered, Candidate;
    if Teaches(net, s, f, answers, now) && !commit.Rejected? {
      var taught := Candidate(s.learned, answers, now, Origin(f.name, f.revision));
      OriginsCount(taught);
      forall ip | ip in taught ensures Legitimate(net, s, ip, taught[ip].origin) {
        CandidateIsLegitimate(net, s, f, answers, now, ip);
      }
      TaughtKeeps(net, s, taught, commit);
    }
  }

  lemma TaughtKeeps(net: Net, s: State, taught: map<Addr, Entry>, commit: Commit)
    requires Inv(net, s) && s.policy.defaultAction == "deny" && |Origins(taught)| == |taught| <= MAX_LEARNED
    requires forall ip :: ip in taught ==> Legitimate(net, s, ip, taught[ip].origin)
    ensures Inv(net, s.(kernel := Origins(taught), learned := if commit.Applied? then taught else s.learned))
  {
    hide NameVerdict, Covered;
    var s' := s.(kernel := Origins(taught), learned := if commit.Applied? then taught else s.learned);
    forall ip ensures AddressOk(net, s', ip) { assert AddressOk(net, s, ip); }
    forall id ensures FlightOk(net, s', id) { assert FlightOk(net, s, id); }
  }

  /** Dropping addresses and flights, or closing, under the same policy and revision. */
  lemma LessKeeps(net: Net, s: State, s': State)
    requires Inv(net, s) && s'.policy == s.policy && s'.revision == s.revision
    requires s'.learned == s.learned && s'.kernel.Keys <= s.kernel.Keys && s'.flights.Keys <= s.flights.Keys
    requires forall ip :: ip in s'.kernel ==> s'.kernel[ip] == s.kernel[ip]
    requires forall id :: id in s'.flights ==> s'.flights[id] == s.flights[id]
    ensures Inv(net, s')
  {
    hide NameVerdict, Covered;
    FewerKeys(s'.kernel, s.kernel);
    forall ip ensures AddressOk(net, s', ip) { assert AddressOk(net, s, ip); }
    forall id ensures FlightOk(net, s', id) { assert FlightOk(net, s, id); }
  }

  lemma AskKeeps(net: Net, s: State, id: int, name: string)
    requires Inv(net, s) && NameVerdict(net, s.policy, name) == "allow"
    ensures Inv(net, s.(flights := s.flights[id := Flight(name, s.revision)]))
  {
    hide NameVerdict, Covered;
    var s' := s.(flights := s.flights[id := Flight(name, s.revision)]);
    forall ip ensures AddressOk(net, s', ip) { assert AddressOk(net, s, ip); }
    forall x ensures FlightOk(net, s', x) { assert FlightOk(net, s, x); }
  }

  /** Replacing the policy leaves every exchange under way in a past revision. */
  lemma UpdateKeeps(net: Net, s: State, next: Policy, commit: Commit)
    requires Inv(net, s)
    ensures Inv(net, Updated(s, next, commit))
  {
    hide NameVerdict, Covered;
    var s' := Updated(s, next, commit);
    forall ip ensures AddressOk(net, s', ip) { assert AddressOk(net, s, ip); }
    forall id ensures FlightOk(net, s', id) { assert FlightOk(net, s, id); }
  }

  lemma StepKeeps(net: Net, s: State, t: Step)
    requires Inv(net, s) && Enabled(net, s, t)
    ensures Inv(net, Apply(net, s, t))
  {
    hide NameVerdict, Covered, Inv, Answered, Updated;
    match t
    case Ask(id, name) => AskKeeps(net, s, id, name);
    case Answer(id, answers, now, commit) =>
      assert FlightOk(net, s, id) by { FlightIsOk(net, s, id); }
      AnswerKeeps(net, s, s.flights[id], answers, now, commit);
      AnswerKeepsFlights(net, s, s.flights[id], answers, now, commit);
      LessKeeps(net, Answered(net, s, s.flights[id], answers, now, commit), Apply(net, s, t));
    case Update(next, commit) => UpdateKeeps(net, s, next, commit);
    case _ => LessKeeps(net, s, Apply(net, s, t));
  }

  lemma FlightIsOk(net: Net, s: State, id: int)
    requires Inv(net, s)
    ensures FlightOk(net, s, id)
  {
  }

  lemma AnswerKeepsFlights(net: Net, s: State, f: Flight, answers: seq<Record>, now: Time, commit: Commit)
    ensures Answered(net, s, f, answers, now, commit).flights == s.flights
  {
  }

  lemma {:induction false} ReachableInv(net: Net, tr: Trace)
    requires Valid(net, tr)
    ensures Inv(net, tr.s)
  {
    hide Apply, Enabled;
    match tr
    case Start(s) =>
    case Then(before, t, _) =>
      ReachableInv(net, before);
      StepKeeps(net, before.s, t);
  }

  // ---------------------------------------------------------------- where each address came from

  /** A step of the run was a reply with the address, to the origin's query, while its revision was current. */
  ghost predicate Taught(net: Net, tr: Trace, ip: Addr, o: Origin) {
    tr.Then? && (Taught(net, tr.before, ip, o) || TeachesNow(net, tr.before.s, tr.t, ip, o))
  }

  ghost predicate TeachesNow(net: Net, s: State, t: Step, ip: Addr, o: Origin) {
    && t.Answer? && t.id in s.flights
    && o == Origin(s.flights[t.id].name, s.flights[t.id].revision)
    && Passes(net, s, o.revision, t.answers)
    && ip in Addresses(t.answers)
  }

  /** What a step adds to either set, it adds from such a reply or from what was already learned. */
  lemma StepTeaches(net: Net, s: State, t: Step, ip: Addr)
    requires Enabled(net, s, t)
    ensures var s' := Apply(net, s, t);
            && (ip in s'.learned ==>
                  || (ip in s.learned && s'.learned[ip].origin == s.learned[ip].origin)
                  || TeachesNow(net, s, t, ip, s'.learned[ip].origin))
            && (ip in s'.kernel ==>
                  || (ip in s.kernel && s'.kernel[ip] == s.kernel[ip])
                  || (ip in s.learned && s'.kernel[ip] == s.learned[ip].origin)
                  || TeachesNow(net, s, t, ip, s'.kernel[ip]))
  {
    hide NameVerdict, Refuses, Learn;
    if t.Answer? {
      var f := s.flights[t.id];
      var origin := Origin(f.name, f.revision);
      if ip in Learn(Unexpired(s.learned, t.now), t.answers, t.now, origin) {
        LearnFrom(Unexpired(s.learned, t.now), t.answers, t.now, origin, ip);
      }
    }
  }

  lemma {:induction false} EveryAddressWasTaught(net: Net, tr: Trace, ip: Addr)
    requires Valid(net, tr)
    ensures ip in tr.s.learned ==> Taught(net, tr, ip, tr.s.learned[ip].origin)
    ensures ip in tr.s.kernel ==> Taught(net, tr, ip, tr.s.kernel[ip])
  {
    hide Apply, Enabled, TeachesNow;
    match tr
    case Start(s) =>
    case Then(before, t, _) =>
      EveryAddressWasTaught(net, before, ip);
      StepTeaches(net, before.s, t, ip);
  }

  /**
  In every interleaving, each address in the kernel's set came in a reply to a query that the current
  policy allows and that was asked and answered under the current revision, so no late reply to an earlier
  one ever enters; no rule of the current policy denies the address, and the set is bounded.
  */
  lemma KernelSetIsCurrent(net: Net, tr: Trace, ip: Addr)
    requires Valid(net, tr) && ip in tr.s.kernel
    ensures NameVerdict(net, tr.s.policy, tr.s.kernel[ip].name) == "allow"
    ensures tr.s.kernel[ip].revision == tr.s.revision
    ensures Taught(net, tr, ip, tr.s.kernel[ip])
    ensures !Covered(net, tr.s.policy, "deny", ip)
    ensures tr.s.policy.defaultAction != "allow"
    ensures |tr.s.kernel| <= MAX_LEARNED
  {
    hide Apply, Enabled, NameVerdict, Covered, Taught;
    ReachableInv(net, tr);
    assert AddressOk(net, tr.s, ip);
    EveryAddressWasTaught(net, tr, ip);
  }
}
