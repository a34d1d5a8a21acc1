/** The ingress list rewrite (`with_zacks_rule` in scripts/configure_zacks_tunnel.py). Rules are
    tried in order, so where the rule for the business path goes matters. */
module Ingress {
  import opened Effects

  const PATH_PATTERN := "^/zacks-api/.*"

  /** A rule; `extra` is everything else in the mapping. */
  datatype Rule = Rule(hostname: Option<string>, path: Option<string>, service: Option<string>,
                       extra: map<string, string>)

  function Desired(hostname: string, service: string): Rule {
    Rule(Some(hostname), Some(PATH_PATTERN), Some(service), map[])
  }

  predicate Matches(r: Rule, hostname: string) {
    r.hostname == Some(hostname) && r.path == Some(PATH_PATTERN)
  }

  /** The rules the insertion stays ahead of: a pathless rule of the host, and a status rule. */
  predicate Catches(r: Rule, hostname: string) {
    || (r.hostname == Some(hostname) && (r.path == None || r.path == Some("")))
    || (r.service.Some? && "http_status:" <= r.service.value)
  }

  predicate Unmatched(rules: seq<Rule>, hostname: string) {
    forall i :: 0 <= i < |rules| ==> !Matches(rules[i], hostname)
  }

  function Others(rules: seq<Rule>, hostname: string): seq<Rule> {
    if rules == [] then []
    else if Matches(rules[0], hostname) then Others(rules[1..], hostname)
    else [rules[0]] + Others(rules[1..], hostname)
  }

  function FirstMatch(rules: seq<Rule>, hostname: string): (k: nat)
    ensures k <= |rules| && (k < |rules| ==> Matches(rules[k], hostname))
    ensures forall i :: 0 <= i < k ==> !Matches(rules[i], hostname)
  {
    if rules == [] || Matches(rules[0], hostname) then 0 else 1 + FirstMatch(rules[1..], hostname)
  }

  function FirstCatch(rules: seq<Rule>, hostname: string): (k: nat)
    ensures k <= |rules| && (k < |rules| ==> Catches(rules[k], hostname))
    ensures forall i :: 0 <= i < k ==> !Catches(rules[i], hostname)
  {
    if rules == [] || Catches(rules[0], hostname) then 0 else 1 + FirstCatch(rules[1..], hostname)
  }

  /** The rewritten list: the first matching rule replaced and the rest dropped, or the rule
      inserted before the first pathless rule of the host or status rule. */
  function Rewritten(rules: seq<Rule>, hostname: string, service: string): seq<Rule> {
    var k := FirstMatch(rules, hostname);
    if k < |rules| then rules[..k] + [Desired(hostname, service)] + Others(rules[k + 1..], hostname)
    else
      var j := FirstCatch(rules, hostname);
      rules[..j] + [Desired(hostname, service)] + rules[j..]
  }

  // ----- Facts about the filter -----

  lemma {:induction false} OthersConcat(a: seq<Rule>, b: seq<Rule>, hostname: string)
    ensures Others(a + b, hostname) == Others(a, hostname) + Others(b, hostname)
  {
    if a == [] {
      assert a + b == b;
    } else {
      OthersConcat(a[1..], b, hostname);
      assert (a + b)[1..] == a[1..] + b;
    }
  }

  lemma {:induction false} OthersAll(a: seq<Rule>, hostname: string)
    requires Unmatched(a, hostname)
    ensures Others(a, hostname) == a
  {
    if a != [] { OthersAll(a[1..], hostname); }
  }

  lemma {:induction false} OthersNone(a: seq<Rule>, hostname: string)
    ensures Unmatched(Others(a, hostname), hostname)
    ensures |Others(a, hostname)| <= |a|
    ensures |Others(a, hostname)| == |a| ==> Others(a, hostname) == a
  {
    if a != [] { OthersNone(a[1..], hostname); }
  }

  /** Replacing the first match and dropping the later ones keeps the others. */
  lemma ReplaceKeeps(front: seq<Rule>, m: Rule, rest: seq<Rule>, d: Rule, hostname: string)
    requires Matches(m, hostname) && Matches(d, hostname)
    ensures Others(front + [d] + Others(rest, hostname), hostname) == Others(front + [m] + rest, hostname)
  {
    OthersNone(rest, hostname);
    OthersAll(Others(rest, hostname), hostname);
    OthersConcat(front + [d], Others(rest, hostname), hostname);
    OthersConcat(front, [d], hostname);
    OthersConcat(front + [m], rest, hostname);
    OthersConcat(front, [m], hostname);
  }

  lemma InsertKeeps(front: seq<Rule>, rest: seq<Rule>, d: Rule, hostname: string)
    requires Matches(d, hostname)
    ensures Others(front + [d] + rest, hostname) == Others(front + rest, hostname)
  {
    OthersConcat(front + [d], rest, hostname);
    OthersConcat(front, [d], hostname);
    OthersConcat(front, rest, hostname);
  }

  /** Replacing and dropping leaves a list as it was exactly if there was nothing to do. */
  lemma ReplaceUnchanged(front: seq<Rule>, m: Rule, rest: seq<Rule>, d: Rule, hostname: string)
    ensures front + [d] + Others(rest, hostname) == front + [m] + rest
       <==> m == d && Unmatched(rest, hostname)
  {
    var k := |front|;
    var a, b := front + [d] + Others(rest, hostname), front + [m] + rest;
    OthersNone(rest, hostname);
    assert a[k] == d && b[k] == m && a[k + 1..] == Others(rest, hostname) && b[k + 1..] == rest;
    if Unmatched(rest, hostname) {
      OthersAll(rest, hostname);
    }
  }

  // ----- What the rewrite guarantees -----

  /** Position of the business rule in the result. */
  function Place(rules: seq<Rule>, hostname: string): (k: nat)
    ensures k <= |rules|
  {
    if FirstMatch(rules, hostname) < |rules| then FirstMatch(rules, hostname) else FirstCatch(rules, hostname)
  }

  /** Exactly one rule for the host and path, and it is the wanted one. */
  lemma OneRule(rules: seq<Rule>, hostname: string, service: string)
    ensures var out := Rewritten(rules, hostname, service); var k := Place(rules, hostname);
      && k < |out| && out[k] == Rule(Some(hostname), Some("^/zacks-api/.*"), Some(service), map[])
      && (forall i :: 0 <= i < |out| && i != k ==>
            !(out[i].hostname == Some(hostname) && out[i].path == Some("^/zacks-api/.*")))
  {
    var k := FirstMatch(rules, hostname);
    if k < |rules| { OthersNone(rules[k + 1..], hostname); }
  }

  /** Every other rule is kept, in order. */
  lemma OthersKept(rules: seq<Rule>, hostname: string, service: string)
    ensures Others(Rewritten(rules, hostname, service), hostname) == Others(rules, hostname)
  {
    var d := Desired(hostname, service);
    var k := FirstMatch(rules, hostname);
    if k < |rules| {
      assert rules == rules[..k] + [rules[k]] + rules[k + 1..];
      ReplaceKeeps(rules[..k], rules[k], rules[k + 1..], d, hostname);
    } else {
      var j := FirstCatch(rules, hostname);
      assert rules == rules[..j] + rules[j..];
      InsertKeeps(rules[..j], rules[j..], d, hostname);
    }
  }

  /** A newly inserted rule comes before the first pathless rule of the host and the first status
      rule. */
  lemma InsertedInFront(rules: seq<Rule>, hostname: string, service: string, i: nat)
    requires FirstMatch(rules, hostname) == |rules|
    ensures var out := Rewritten(rules, hostname, service); var k := Place(rules, hostname);
            i < |out| && i != k ==>
              (|| (out[i].hostname == Some(hostname) && (out[i].path == None || out[i].path == Some("")))
               || (out[i].service.Some? && "http_status:" <= out[i].service.value)) ==> i > k
  {}

  /** The list is unchanged exactly when it already had one rule for host and path and that was the
      wanted one. */
  lemma UnchangedIff(rules: seq<Rule>, hostname: string, service: string)
    ensures var k := FirstMatch(rules, hostname);
      Rewritten(rules, hostname, service) == rules <==>
        k < |rules| && rules[k] == Desired(hostname, service) && Unmatched(rules[k + 1..], hostname)
  {
    var k := FirstMatch(rules, hostname);
    if k < |rules| {
      ReplaceUnchanged(rules[..k], rules[k], rules[k + 1..], Desired(hostname, service), hostname);
      assert rules[..k] + [rules[k]] + rules[k + 1..] == rules;
    } else {
      assert |Rewritten(rules, hostname, service)| == |rules| + 1;
    }
  }

  /** A second application changes nothing. */
  lemma RewriteIdempotent(rules: seq<Rule>, hostname: string, service: string)
    ensures var out := Rewritten(rules, hostname, service); Rewritten(out, hostname, service) == out
  {
    var out := Rewritten(rules, hostname, service);
    var k := Place(rules, hostname);
    OneRule(rules, hostname, service);
    assert Matches(out[k], hostname);
    assert FirstMatch(out, hostname) == k;
    UnchangedIff(out, hostname, service);
  }

  // ----- The rewrite as the program runs it -----

  lemma PopFromPrefix(base: seq<Rule>, e: nat, b: nat, tail: seq<Rule>)
    requires e < b <= |base|
    ensures var list := base[..b] + tail; list[..e] + list[e + 1..] == base[..e] + (base[e + 1..b] + tail)
  {
    var list := base[..b] + tail;
    assert list[..e] == base[..e];
    assert list[e + 1..] == base[e + 1..b] + tail;
  }

  /** Popping the match `existing[t]` extends the finished tail down to it. */
  lemma PopOne(rules: seq<Rule>, existing: seq<nat>, hostname: string, t: nat, bound: nat, list: seq<Rule>)
    requires t < |existing| && MatchIndices(rules, existing, hostname)
    requires bound == if t + 1 < |existing| then existing[t + 1] else |rules|
    requires bound <= |rules| && list == rules[..bound] + Others(rules[bound..], hostname)
    ensures existing[t] < bound <= |list|
    ensures list[..existing[t]] + list[existing[t] + 1..]
         == rules[..existing[t]] + Others(rules[existing[t]..], hostname)
  {
    BetweenMatches(rules, existing, hostname, t, bound);
    PopFromPrefix(rules, existing[t], bound, Others(rules[bound..], hostname));
  }

  /** When all but the first match are popped, what follows it is the filtered rest. */
  lemma AllPopped(rules: seq<Rule>, existing: seq<nat>, hostname: string, bound: nat, list: seq<Rule>)
    requires existing != [] && MatchIndices(rules, existing, hostname)
    requires bound == if 1 < |existing| then existing[1] else |rules|
    requires bound <= |rules| && list == rules[..bound] + Others(rules[bound..], hostname)
    ensures list == rules[..existing[0] + 1] + Others(rules[existing[0] + 1..], hostname)
  {
    GapHasNoMatch(rules, existing, hostname, 0, bound);
    RegroupTail(rules, existing[0] + 1, bound, Others(rules[bound..], hostname));
  }

  /** Removes the duplicate matches from the back. */
  method DropDuplicates(rules: seq<Rule>, existing: seq<nat>, hostname: string) returns (out: seq<Rule>)
    requires existing != [] && MatchIndices(rules, existing, hostname)
    ensures out == rules[..existing[0] + 1] + Others(rules[existing[0] + 1..], hostname)
  {
    out := rules;
    var t := |existing|;
    ghost var bound: nat := |rules|;
    assert rules[..|rules|] + Others(rules[|rules|..], hostname) == rules;
    while t > 1
      invariant 1 <= t <= |existing|
      invariant bound == if t < |existing| then existing[t] else |rules|
      invariant bound <= |rules| && out == rules[..bound] + Others(rules[bound..], hostname)
      decreases t
    {
      t := t - 1;
      PopOne(rules, existing, hostname, t, bound, out);
      out := out[..existing[t]] + out[existing[t] + 1..];
      bound := existing[t];
    }
    AllPopped(rules, existing, hostname, bound, out);
  }

  lemma RegroupTail(base: seq<Rule>, a: nat, b: nat, tail: seq<Rule>)
    requires a <= b <= |base|
    ensures base[..b] + tail == base[..a] + (base[a..b] + tail)
  {
    assert base[..b] == base[..a] + base[a..b];
  }

  /** The positions of all matching rules, in order. */
  predicate MatchIndices(rules: seq<Rule>, existing: seq<nat>, hostname: string) {
    && (forall t :: 0 <= t < |existing| ==> existing[t] < |rules|)
    && (forall s, t :: 0 <= s < t < |existing| ==> existing[s] < existing[t])
    && (forall i :: 0 <= i < |rules| ==> (Matches(rules[i], hostname) <==> i in existing))
  }

  /** Between two neighbouring matches the filter keeps everything. */
  lemma GapHasNoMatch(rules: seq<Rule>, existing: seq<nat>, hostname: string, t: nat, bound: nat)
    requires t < |existing| && MatchIndices(rules, existing, hostname)
    requires bound == if t + 1 < |existing| then existing[t + 1] else |rules|
    ensures existing[t] < bound
    ensures Others(rules[existing[t] + 1..], hostname)
         == rules[existing[t] + 1..bound] + Others(rules[bound..], hostname)
  {
    var e := existing[t];
    var gap := rules[e + 1..bound];
    forall i | 0 <= i < |gap| ensures !Matches(gap[i], hostname) {
      assert gap[i] == rules[e + 1 + i];
    }
    OthersAll(gap, hostname);
    OthersConcat(gap, rules[bound..], hostname);
    assert rules[e + 1..] == gap + rules[bound..];
  }

  lemma BetweenMatches(rules: seq<Rule>, existing: seq<nat>, hostname: string, t: nat, bound: nat)
    requires t < |existing| && MatchIndices(rules, existing, hostname)
    requires bound == if t + 1 < |existing| then existing[t + 1] else |rules|
    ensures existing[t] < bound
    ensures Others(rules[existing[t]..], hostname) == rules[existing[t] + 1..bound] + Others(rules[bound..], hostname)
  {
    GapHasNoMatch(rules, existing, hostname, t, bound);
    assert rules[existing[t]] == rules[existing[t]..][0] && rules[existing[t]..][1..] == rules[existing[t] + 1..];
    assert existing[t] in existing;
  }

  method FindExisting(rules: seq<Rule>, hostname: string) returns (existing: seq<nat>)
    ensures MatchIndices(rules, existing, hostname)
    ensures existing == [] ==> FirstMatch(rules, hostname) == |rules|
    ensures existing != [] ==> existing[0] == FirstMatch(rules, hostname)
    ensures existing != [] ==> (|existing| > 1 <==> !Unmatched(rules[existing[0] + 1..], hostname))
  {
    existing := [];
    for i := 0 to |rules|
      invariant forall t :: 0 <= t < |existing| ==> existing[t] < i
      invariant forall s, t :: 0 <= s < t < |existing| ==> existing[s] < existing[t]
      invariant forall k :: 0 <= k < i ==> (Matches(rules[k], hostname) <==> k in existing)
      invariant existing != [] ==> existing[0] == FirstMatch(rules, hostname)
    {
      if Matches(rules[i], hostname) {
        existing := existing + [i];
      }
    }
    if |existing| > 1 {
      assert existing[1] in existing && rules[existing[1]] == rules[existing[0] + 1..][existing[1] - existing[0] - 1];
    }
  }

  method FindInsertion(rules: seq<Rule>, hostname: string) returns (insertion: nat)
    ensures insertion == FirstCatch(rules, hostname)
  {
    for i := 0 to |rules|
      invariant forall k :: 0 <= k < i ==> !Catches(rules[k], hostname)
    {
      if Catches(rules[i], hostname) { return i; }
    }
    return |rules|;
  }

  /** The wanted rule matches too, so replacing the first match moves no position. */
  lemma ReplacedIndices(rules: seq<Rule>, existing: seq<nat>, hostname: string, service: string)
    requires existing != [] && MatchIndices(rules, existing, hostname)
    ensures MatchIndices(rules[existing[0] := Desired(hostname, service)], existing, hostname)
  {}

  lemma ReplacedIsRewritten(rules: seq<Rule>, first: nat, hostname: string, service: string)
    requires first == FirstMatch(rules, hostname) < |rules|
    ensures var replaced := rules[first := Desired(hostname, service)];
            replaced[..first + 1] + Others(replaced[first + 1..], hostname) == Rewritten(rules, hostname, service)
  {
    var replaced := rules[first := Desired(hostname, service)];
    assert replaced[..first + 1] == rules[..first] + [Desired(hostname, service)];
    assert replaced[first + 1..] == rules[first + 1..];
  }

  /** The first match becomes the wanted rule, the others go. */
  method ReplaceExisting(rules: seq<Rule>, existing: seq<nat>, hostname: string, service: string)
    returns (out: seq<Rule>, changed: bool)
    requires existing != [] && MatchIndices(rules, existing, hostname)
    requires existing[0] == FirstMatch(rules, hostname)
    ensures out == Rewritten(rules, hostname, service)
    ensures changed <==> rules[existing[0]] != Desired(hostname, service) || |existing| > 1
  {
    var first := existing[0];
    changed := rules[first] != Desired(hostname, service) || |existing| > 1;
    var replaced := rules[first := Desired(hostname, service)];
    ReplacedIndices(rules, existing, hostname, service);
    ReplacedIsRewritten(rules, first, hostname, service);
    out := DropDuplicates(replaced, existing, hostname);
  }

  /** `with_zacks_rule` on the copied list. */
  method WithZacksRule(rules: seq<Rule>, hostname: string, service: string) returns (out: seq<Rule>, changed: bool)
    ensures out == Rewritten(rules, hostname, service)
    ensures changed <==> out != rules
  {
    UnchangedIff(rules, hostname, service);
    var existing := FindExisting(rules, hostname);
    if existing != [] {
      out, changed := ReplaceExisting(rules, existing, hostname, service);
    } else {
      var insertion := FindInsertion(rules, hostname);
      out, changed := rules[..insertion] + [Desired(hostname, service)] + rules[insertion..], true;
    }
  }
}
