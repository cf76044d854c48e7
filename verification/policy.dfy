/**
Egress policies: canonical targets, normalization and mutation.

Parsing of addresses and prefixes belongs to the platform's address library and is a parameter here;
texts are ASCII.
*/
module Policy {
  import opened Common

  datatype Addr = Addr(six: bool, value: int)

  /** A prefix covers one interval of one family. */
  datatype Prefix = Prefix(six: bool, low: int, high: int)

  predicate Contains(p: Prefix, a: Addr) {
    p.six == a.six && p.low <= a.value <= p.high
  }

  /** The address library: canonical text of an address or a prefix, and the range a target denotes. */
  datatype Net = Net(addr: string -> Option<string>, prefix: string -> Option<string>, range: string -> Option<Prefix>)

  datatype Rule = Rule(action: string, target: string)
  datatype Policy = Policy(defaultAction: string, egress: seq<Rule>)

  const MAX_RULES: nat := 1024
  const MAX_NAME: nat := 253
  const MAX_LABEL: nat := 63

  predicate IsAction(a: string) {
    a == "allow" || a == "deny"
  }

  // ---------------------------------------------------------------- canonical text

  /** The ASCII spaces: blank, tab, line feed, vertical tab, form feed, carriage return. */
  predicate IsSpace(c: char)
    ensures IsSpace(c) <==> c as int in {32, 9, 10, 11, 12, 13}
  {
    c == ' ' || '\t' <= c <= '\r'
  }

  function Lower(c: char): (r: char)
    ensures !('A' <= r <= 'Z')
    ensures 'A' <= c <= 'Z' ==> r as int == c as int + 32
    ensures !('A' <= c <= 'Z') ==> r == c
  {
    if 'A' <= c <= 'Z' then (c as int + 32) as char else c
  }

  function TrimLeft(s: string): string {
    if s != [] && IsSpace(s[0]) then TrimLeft(s[1..]) else s
  }

  function TrimRight(s: string): string {
    if s != [] && IsSpace(s[|s| - 1]) then TrimRight(s[..|s| - 1]) else s
  }

  function TrimDot(s: string): string {
    if s != [] && s[|s| - 1] == '.' then s[..|s| - 1] else s
  }

  function ToLower(s: string): string {
    seq(|s|, i requires 0 <= i < |s| => Lower(s[i]))
  }

  function Clean(s: string): string {
    ToLower(TrimDot(TrimRight(TrimLeft(s))))
  }

  /** The name of a wildcard target is what follows `*.`. */
  function BareName(target: string): string {
    if |target| >= 2 && target[..2] == "*." then target[2..] else target
  }

  predicate LabelChar(c: char) {
    'a' <= c <= 'z' || '0' <= c <= '9' || c == '-'
  }

  /** `s[i..j]` is one of the labels of a dotted name. */
  predicate IsLabel(s: string, i: int, j: int) {
    && 0 <= i <= j <= |s|
    && (i == 0 || s[i - 1] == '.')
    && (j == |s| || s[j] == '.')
    && (forall k :: i <= k < j ==> s[k] != '.')
  }

  predicate GoodLabel(s: string, i: int, j: int)
    requires 0 <= i <= j <= |s|
  {
    && 1 <= j - i <= MAX_LABEL
    && s[i] != '-' && s[j - 1] != '-'
    && (forall k :: i <= k < j ==> LabelChar(s[k]))
  }

  /** Section 2.3.4 of RFC 1035: labels of 1 to 63 octets and a bounded name; here all lower case. */
  ghost predicate ValidName(s: string) {
    && 0 < |s| <= MAX_NAME
    && (forall i, j :: IsLabel(s, i, j) ==> GoodLabel(s, i, j))
  }

  /** The canonical form of a target, or nothing when it is rejected. */
  ghost function Normalize(net: Net, target: string): Option<string> {
    var t := Clean(target);
    if net.addr(t).Some? then net.addr(t)
    else if net.prefix(t).Some? then net.prefix(t)
    else if ValidName(BareName(t)) then Some(t)
    else None
  }

  /** The canonical texts the address library prints are themselves canonical. */
  ghost predicate Lawful(net: Net) {
    && (forall t :: net.addr(t).Some? ==>
        Clean(net.addr(t).value) == net.addr(t).value && net.addr(net.addr(t).value) == net.addr(t))
    && (forall t :: net.prefix(t).Some? ==>
          && Clean(net.prefix(t).value) == net.prefix(t).value
          && net.addr(net.prefix(t).value).None? && net.prefix(net.prefix(t).value) == net.prefix(t))
  }

  lemma OuterDotIsInvalid(s: string)
    requires s != [] && (s[0] == '.' || s[|s| - 1] == '.')
    ensures !ValidName(s)
  {
    if s[0] == '.' {
      assert IsLabel(s, 0, 0);
    } else {
      assert IsLabel(s, |s|, |s|);
    }
  }

  /** The labels of a valid name leave no room for a space, an upper-case letter or a closing dot. */
  lemma ValidNameChars(s: string, k: int)
    requires ValidName(s) && 0 <= k < |s|
    ensures LabelChar(s[k]) || s[k] == '.'
    ensures k == |s| - 1 ==> s[k] != '.'
    ensures k == 0 ==> s[k] != '.'
  {
    if s[0] == '.' || s[|s| - 1] == '.' {
      OuterDotIsInvalid(s);
    } else if s[k] != '.' {
      var i, j := k, k + 1;
      while i > 0 && s[i - 1] != '.'
        invariant 0 <= i <= k
        invariant forall m :: i <= m <= k ==> s[m] != '.'
      {
        i := i - 1;
      }
      while j < |s| && s[j] != '.'
        invariant k < j <= |s|
        invariant forall m :: i <= m < j ==> s[m] != '.'
      {
        j := j + 1;
      }
      assert IsLabel(s, i, j);
      assert GoodLabel(s, i, j);
    }
  }

  /** Text that is already clean: no outer space, no closing dot, no upper-case letter. */
  lemma CleanIsIdentity(s: string)
    requires s != [] ==> !IsSpace(s[0]) && !IsSpace(s[|s| - 1]) && s[|s| - 1] != '.'
    requires forall k :: 0 <= k < |s| ==> !('A' <= s[k] <= 'Z')
    ensures Clean(s) == s
  {
  }

  lemma ValidTargetIsClean(t: string)
    requires ValidName(BareName(t))
    ensures Clean(t) == t
  {
    var name := BareName(t);
    forall k | 0 <= k < |t| ensures !('A' <= t[k] <= 'Z') {
      if |t| == |name| { ValidNameChars(name, k); } else if k >= 2 { ValidNameChars(name, k - 2); }
    }
    ValidNameChars(name, 0);
    ValidNameChars(name, |name| - 1);
    CleanIsIdentity(t);
  }

  /** Canonical targets are fixed points: normalizing twice is normalizing once. */
  lemma NormalizeIsIdempotent(net: Net, target: string)
    requires Lawful(net) && Normalize(net, target).Some?
    ensures Normalize(net, Normalize(net, target).value) == Normalize(net, target)
  {
    var t := Clean(target);
    if net.addr(t).None? && net.prefix(t).None? {
      ValidTargetIsClean(t);
    }
  }

  /** The label-by-label test of normalizeTarget decides exactly the valid names. */
  method ValidateName(s: string) returns (ok: bool)
    ensures ok <==> ValidName(s)
  {
    if s == "" || |s| > MAX_NAME {
      return false;
    }
    var i := 0;
    while i <= |s|
      invariant 0 <= i <= |s| + 1
      invariant i == 0 || (i <= |s| && s[i - 1] == '.') || i == |s| + 1
      invariant forall a, b :: IsLabel(s, a, b) && a < i ==> GoodLabel(s, a, b)
      decreases |s| + 1 - i
    {
      var j := i;
      while j < |s| && s[j] != '.'
        invariant i <= j <= |s|
        invariant forall k :: i <= k < j ==> s[k] != '.'
      {
        j := j + 1;
      }
      assert IsLabel(s, i, j);
      if j == i || j - i > MAX_LABEL || s[i] == '-' || s[j - 1] == '-' {
        return false;
      }
      var k := i;
      while k < j
        invariant i <= k <= j
        invariant forall m :: i <= m < k ==> LabelChar(s[m])
      {
        if !LabelChar(s[k]) {
          return false;
        }
        k := k + 1;
      }
      forall a, b | IsLabel(s, a, b) && i <= a <= j ensures GoodLabel(s, a, b) {
        LabelsStartAfterDots(s, i, j, a, b);
      }
      i := j + 1;
    }
    ok := true;
  }

  lemma LabelsStartAfterDots(s: string, i: int, j: int, a: int, b: int)
    requires IsLabel(s, i, j) && IsLabel(s, a, b) && i <= a <= j
    ensures a == i && b == j
  {
  }

  method NormalizeTarget(net: Net, target: string) returns (r: Option<string>)
    ensures r == Normalize(net, target)
  {
    var t := Clean(target);
    if net.addr(t).Some? {
      return net.addr(t);
    }
    if net.prefix(t).Some? {
      return net.prefix(t);
    }
    var ok := ValidateName(BareName(t));
    r := if ok then Some(t) else None;
  }

  /** A prefix holds its first and its last address and what lies between, in its own family only. */
  lemma PrefixHoldsItsInterval(six: bool, low: int, high: int, step: nat)
    requires low + step <= high
    ensures var p := Prefix(six, low, high);
            && Contains(p, Addr(six, low + step)) && Contains(p, Addr(six, high - step))
            && !Contains(p, Addr(six, low - 1 - step)) && !Contains(p, Addr(six, high + 1 + step))
            && !Contains(p, Addr(!six, low + step))
  {
  }

  predicate InAlphabet(c: char) { c in "abcdefghijklm" || c in "nopqrstuvwxyz" || c in "0123456789-" }

  lemma LabelCharsAre(c: char)
    ensures LabelChar(c) <==> InAlphabet(c)
  {
    if 'a' <= c <= 'm' {
      assert "abcdefghijklm"[c as int - 'a' as int] == c;
    } else if 'n' <= c <= 'z' {
      assert "nopqrstuvwxyz"[c as int - 'n' as int] == c;
    } else if '0' <= c <= '9' {
      assert "0123456789-"[c as int - '0' as int] == c;
    } else if c == '-' {
      assert "0123456789-"[10] == c;
    }
  }

  /** A name of one label, or a label before the rest of a name, spelled out. */
  ghost predicate Label(s: string) {
    && 1 <= |s| <= 63 && s[0] != '-' && s[|s| - 1] != '-'
    && forall k :: 0 <= k < |s| ==> InAlphabet(s[k])
  }

  lemma LabelIsGood(s: string, i: int, j: int)
    requires 0 <= i <= j <= |s|
    ensures GoodLabel(s, i, j) <==> Label(s[i..j])
  {
    hide LabelChar, InAlphabet;
    var l := s[i..j];
    assert forall k :: 0 <= k < j - i ==> l[k] == s[i + k];
    forall c ensures LabelChar(c) <==> InAlphabet(c) { LabelCharsAre(c); }
    if Label(l) {
      forall k | i <= k < j ensures LabelChar(s[k]) { assert l[k - i] == s[k]; }
    }
  }

  /** A name without a dot is valid exactly if it is a label. */
  lemma OneLabelIsName(s: string)
    requires '.' !in s
    ensures ValidName(s) <==> Label(s)
  {
    assert s[0..|s|] == s;
    LabelIsGood(s, 0, |s|);
    assert IsLabel(s, 0, |s|);
    assert forall k :: 0 <= k < |s| ==> s[k] in s;
    assert forall i, j :: IsLabel(s, i, j) ==> i == 0 && j == |s|;
  }

  /** And a longer name exactly if it starts with a label, goes on with a valid name and has at most 253 letters. */
  lemma LabelsMakeNames(first: string, rest: string)
    requires '.' !in first
    ensures ValidName(first + "." + rest) <==> Label(first) && ValidName(rest) && |first| + 1 + |rest| <= 253
  {
    var s, n := first + "." + rest, |first| + 1;
    assert s[0..|first|] == first && s[n..] == rest && s[|first|] == '.';
    LabelIsGood(s, 0, |first|);
    assert forall k :: 0 <= k < |first| ==> s[k] == first[k];
    assert IsLabel(s, 0, |first|);
    if ValidName(s) {
      RestIsName(first, rest);
    }
    if Label(first) && ValidName(rest) && n + |rest| <= 253 {
      forall i, j | IsLabel(s, i, j) ensures GoodLabel(s, i, j) { LabelOfEither(first, rest, i, j); }
    }
  }

  lemma RestIsName(first: string, rest: string)
    requires ValidName(first + "." + rest)
    ensures ValidName(rest)
  {
    var s, n := first + "." + rest, |first| + 1;
    assert forall k :: 0 <= k < |rest| ==> s[n + k] == rest[k];
    if rest == [] {
      assert IsLabel(s, |s|, |s|);
    }
    forall i, j | IsLabel(rest, i, j) ensures GoodLabel(rest, i, j) {
      assert IsLabel(s, n + i, n + j);
      assert s[n..] == rest;
      assert s[n + i..n + j] == s[n..][i..j];
      LabelIsGood(s, n + i, n + j);
      LabelIsGood(rest, i, j);
    }
  }

  /** A label of the longer name is the first one or a label of the rest. */
  lemma LabelsOfBoth(first: string, rest: string, i: int, j: int)
    requires '.' !in first && IsLabel(first + "." + rest, i, j)
    ensures (i == 0 && j == |first|) || (i > |first| && IsLabel(rest, i - |first| - 1, j - |first| - 1))
  {
    var s, n := first + "." + rest, |first| + 1;
    assert s[|first|] == '.';
    assert forall k :: 0 <= k < |first| ==> s[k] == first[k] && first[k] in first;
    assert forall k :: 0 <= k < |rest| ==> s[n + k] == rest[k];
    if i >= n {
      assert i > n ==> s[i - 1] == rest[i - 1 - n];
      assert j < |s| ==> s[j] == rest[j - n];
    }
  }

  lemma LabelOfEither(first: string, rest: string, i: int, j: int)
    requires '.' !in first && Label(first) && ValidName(rest) && IsLabel(first + "." + rest, i, j)
    ensures GoodLabel(first + "." + rest, i, j)
  {
    hide GoodLabel, Label;
    var s, n := first + "." + rest, |first| + 1;
    LabelsOfBoth(first, rest, i, j);
    LabelIsGood(s, i, j);
    if i < n {
      assert s[0..|first|] == first;
    } else {
      assert s[n..] == rest;
      assert s[i..j] == s[n..][i - n..j - n];
      LabelIsGood(rest, i - n, j - n);
    }
  }

  predicate AllSpaces(s: string) {
    forall i :: 0 <= i < |s| ==> IsSpace(s[i])
  }

  lemma {:induction false} TrimLeftDrops(pad: string, s: string)
    requires AllSpaces(pad) && (s != [] ==> !IsSpace(s[0]))
    ensures TrimLeft(pad + s) == s
  {
    if pad == [] {
      assert pad + s == s;
    } else {
      assert (pad + s)[1..] == pad[1..] + s;
      TrimLeftDrops(pad[1..], s);
    }
  }

  lemma {:induction false} TrimRightDrops(s: string, pad: string)
    requires AllSpaces(pad) && (s != [] ==> !IsSpace(s[|s| - 1]))
    ensures TrimRight(s + pad) == s
  {
    if pad == [] {
      assert s + pad == s;
    } else {
      var last := |pad| - 1;
      assert (s + pad)[..|s + pad| - 1] == s + pad[..last];
      TrimRightDrops(s, pad[..last]);
    }
  }

  /** Letter for letter the same, but for case. */
  predicate SameLetters(s: string, t: string) {
    |s| == |t| && forall i :: 0 <= i < |s| ==> s[i] == t[i] || SameLetter(s[i], t[i]) || SameLetter(t[i], s[i])
  }

  predicate SameLetter(upper: char, lower: char) {
    'A' <= upper <= 'Z' && lower as int - 'a' as int == upper as int - 'A' as int
  }

  lemma LettersDecide(s: string, t: string)
    ensures ToLower(s) == ToLower(t) <==> SameLetters(s, t)
  {
    if ToLower(s) == ToLower(t) {
      assert |ToLower(s)| == |s| && |ToLower(t)| == |t|;
      forall i | 0 <= i < |s| ensures s[i] == t[i] || SameLetter(s[i], t[i]) || SameLetter(t[i], s[i]) {
        assert ToLower(s)[i] == ToLower(t)[i];
      }
    }
  }

  /** A target's outer spaces, one closing dot and the case of its letters do not matter; nothing else is dropped. */
  lemma SpellingsAgree(net: Net, left: string, s: string, right: string, t: string)
    requires AllSpaces(left) && AllSpaces(right) && SameLetters(s, t)
    requires s != [] && !IsSpace(s[0]) && !IsSpace(s[|s| - 1]) && s[|s| - 1] != '.'
    ensures Clean(left + s + right) == Clean(left + s + "." + right) == ToLower(s)
    ensures Normalize(net, left + s + "." + right) == Normalize(net, left + s + right) == Normalize(net, t)
  {
    assert left + s + right == left + (s + right) && left + s + "." + right == left + ((s + ".") + right);
    TrimLeftDrops(left, s + right);
    TrimLeftDrops(left, (s + ".") + right);
    TrimRightDrops(s, right);
    TrimRightDrops(s + ".", right);
    assert (s + ".")[..|s|] == s;
    LettersDecide(s, t);
    assert SameLetter(s[0], t[0]) || SameLetter(t[0], s[0]) || s[0] == t[0];
    ClosedIsClean(t);
  }

  lemma ClosedIsClean(t: string)
    requires t != [] && !IsSpace(t[0]) && !IsSpace(t[|t| - 1]) && t[|t| - 1] != '.'
    ensures Clean(t) == ToLower(t)
  {
  }

  // ---------------------------------------------------------------- normalization of a policy

  function DefaultAction(p: Policy): string {
    if p.defaultAction != "" then p.defaultAction else if p.egress == [] then "allow" else "deny"
  }

  ghost predicate Accepts(net: Net, p: Policy) {
    && IsAction(DefaultAction(p))
    && |p.egress| <= MAX_RULES
    && (forall i :: 0 <= i < |p.egress| ==> IsAction(p.egress[i].action) && Normalize(net, p.egress[i].target).Some?)
  }

  ghost function NormalRule(net: Net, r: Rule): Rule {
    var t := Normalize(net, r.target);
    if t.Some? then r.(target := t.value) else r
  }

  ghost function NormalRules(net: Net, rules: seq<Rule>): (r: seq<Rule>)
    ensures |r| == |rules| && forall i :: 0 <= i < |rules| ==> r[i] == NormalRule(net, rules[i])
  {
    seq(|rules|, i requires 0 <= i < |rules| => NormalRule(net, rules[i]))
  }

  ghost function Normalized(net: Net, p: Policy): Option<Policy> {
    if Accepts(net, p) then Some(Policy(DefaultAction(p), NormalRules(net, p.egress))) else None
  }

  /** A policy in normal form, as every installed policy is. */
  ghost predicate Normal(net: Net, p: Policy) {
    && IsAction(p.defaultAction)
    && |p.egress| <= MAX_RULES
    && (forall i :: 0 <= i < |p.egress| ==>
          IsAction(p.egress[i].action) && Normalize(net, p.egress[i].target) == Some(p.egress[i].target))
  }

  /** Normalization reaches a normal form, and leaves normal forms alone. */
  lemma NormalizedIsNormal(net: Net, p: Policy)
    requires Lawful(net)
    ensures Normalized(net, p).Some? ==> Normal(net, Normalized(net, p).value)
    ensures Normal(net, p) ==> Normalized(net, p) == Some(p)
  {
    if Accepts(net, p) {
      var q := Normalized(net, p).value;
      forall i | 0 <= i < |q.egress|
        ensures IsAction(q.egress[i].action) && Normalize(net, q.egress[i].target) == Some(q.egress[i].target)
      {
        NormalizeIsIdempotent(net, p.egress[i].target);
      }
    }
    if Normal(net, p) {
      assert NormalRules(net, p.egress) == p.egress;
    }
  }

  /** NormalizePolicy: a default that is not given denies exactly when there are rules to allow something. */
  method NormalizePolicy(net: Net, p: Policy) returns (r: Option<Policy>)
    ensures r == Normalized(net, p)
    ensures r.Some? ==> |r.value.egress| == |p.egress| && r.value.defaultAction in {"allow", "deny"}
    ensures r.Some? ==> forall i :: 0 <= i < |p.egress| ==>
              r.value.egress[i].action == p.egress[i].action
              && Some(r.value.egress[i].target) == Normalize(net, p.egress[i].target)
    ensures r.Some? && p.defaultAction != "" ==> r.value.defaultAction == p.defaultAction
    ensures r.Some? && p.defaultAction == "" ==> (r.value.defaultAction == "deny" <==> p.egress != [])
    ensures r.None? <==>
            || p.defaultAction !in {"", "allow", "deny"} || |p.egress| > 1024
            || exists r :: r in p.egress && (r.action !in {"allow", "deny"} || Normalize(net, r.target).None?)
  {
    var action := p.defaultAction;
    if action == "" {
      action := "deny";
      if |p.egress| == 0 {
        action := "allow";
      }
    }
    if action != "allow" && action != "deny" {
      return None;
    }
    if |p.egress| > MAX_RULES {
      return None;
    }
    var egress: seq<Rule> := [];
    for i := 0 to |p.egress|
      invariant |egress| == i
      invariant forall k :: 0 <= k < i ==>
        IsAction(p.egress[k].action) && Normalize(net, p.egress[k].target).Some?
            && egress[k] == NormalRule(net, p.egress[k])
    {
      var rule := p.egress[i];
      if !IsAction(rule.action) {
        return None;
      }
      var target := NormalizeTarget(net, rule.target);
      if target.None? {
        return None;
      }
      egress := egress + [rule.(target := target.value)];
    }
    assert egress == NormalRules(net, p.egress);
    r := Some(Policy(action, egress));
  }
}
