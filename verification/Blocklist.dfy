/** Text helpers shared by the blocklist matcher and its parser. */
module Text {
  import opened Messages

  predicate IsSpace(c: char) {
    '\t' <= c <= '\r' || c == ' ' || c == '\U{0085}' || c == '\U{00A0}' || c == '\U{1680}'
    || '\U{2000}' <= c <= '\U{200A}' || c == '\U{2028}' || c == '\U{2029}' || c == '\U{202F}'
    || c == '\U{205F}' || c == '\U{3000}'
  }

  predicate AllSpace(s: string) {
    forall i :: 0 <= i < |s| ==> IsSpace(s[i])
  }

  function TrimStart(s: string): string {
    if s != "" && IsSpace(s[0]) then TrimStart(s[1..]) else s
  }

  function TrimEnd(s: string): string {
    if s != "" && IsSpace(s[|s| - 1]) then TrimEnd(s[..|s| - 1]) else s
  }

  function Trim(s: string): string {
    TrimEnd(TrimStart(s))
  }

  function Normalize(domain: string): string {
    Lower(Trim(domain))
  }

  predicate StartsWith(s: string, t: string) {
    |t| <= |s| && s[..|t|] == t
  }

  predicate EndsWith(s: string, t: string) {
    |t| <= |s| && s[|s| - |t|..] == t
  }

  predicate Contains(s: string, t: string) {
    exists i :: 0 <= i <= |s| && StartsWith(s[i..], t)
  }

  lemma {:induction false} TrimStartLower(s: string)
    ensures TrimStart(Lower(s)) == Lower(TrimStart(s))
  {
    if s != "" && IsSpace(s[0]) {
      assert Lower(s)[1..] == Lower(s[1..]);
      TrimStartLower(s[1..]);
    }
  }

  lemma {:induction false} TrimEndLower(s: string)
    ensures TrimEnd(Lower(s)) == Lower(TrimEnd(s))
  {
    if s != "" && IsSpace(s[|s| - 1]) {
      assert Lower(s)[..|s| - 1] == Lower(s[..|s| - 1]);
      TrimEndLower(s[..|s| - 1]);
    }
  }

  /** Normalising forgets ASCII case. */
  lemma NormalizeIgnoresCase(s: string, t: string)
    requires Lower(s) == Lower(t)
    ensures Normalize(s) == Normalize(t)
  {
    TrimStartLower(s);
    TrimStartLower(t);
    TrimEndLower(TrimStart(s));
    TrimEndLower(TrimStart(t));
  }
}

/** The matcher: which domains a set of rules covers. */
module Blocklist {
  import opened Messages
  import opened Text

  datatype BlockDecision = Allow | Block | Exception

  datatype Rules = Rules(blocks: set<string>, exceptions: set<string>)

  /** The documented meaning of a rule: the domain itself and everything below it. */
  predicate Covers(rule: string, domain: string) {
    rule != "" && (domain == rule || EndsWith(domain, "." + rule))
  }

  predicate Matches(rules: set<string>, domain: string) {
    exists r :: r in rules && Covers(r, domain)
  }

  /** Exceptions override blocks. */
  function Decide(rules: Rules, domain: string): BlockDecision {
    var d := Normalize(domain);
    if Matches(rules.exceptions, d) then Exception
    else if Matches(rules.blocks, d) then Block
    else Allow
  }

  lemma DecideIgnoresCase(rules: Rules, d1: string, d2: string)
    requires Lower(d1) == Lower(d2)
    ensures Decide(rules, d1) == Decide(rules, d2)
  {
    NormalizeIgnoresCase(d1, d2);
  }

  /** The position just after the next dot, or the end of the string. */
  method NextLabel(domain: string, start: nat) returns (next: nat)
    requires start < |domain|
    ensures start < next <= |domain|
    ensures next == |domain| || domain[next - 1] == '.'
    ensures forall i :: start <= i < next - 1 ==> domain[i] != '.'
  {
    var i := start;
    while i < |domain| && domain[i] != '.'
      invariant start <= i <= |domain|
      invariant forall j :: start <= j < i ==> domain[j] != '.'
    {
      i := i + 1;
    }
    next := if i < |domain| then i + 1 else |domain|;
  }

  predicate IsLabelStart(domain: string, i: nat) {
    i < |domain| && (i == 0 || domain[i - 1] == '.')
  }

  lemma CoversIsSuffixAtLabel(rule: string, domain: string)
    ensures Covers(rule, domain) <==>
              exists i: nat :: IsLabelStart(domain, i) && domain[i..] == rule
  {
    if Covers(rule, domain) {
      var i := |domain| - |rule|;
      if domain == rule {
        assert IsLabelStart(domain, 0) && domain[0..] == rule;
      } else {
        assert domain[i - 1..] == "." + rule;
        assert domain[i - 1] == domain[i - 1..][0] == '.';
        assert domain[i..] == domain[i - 1..][1..] == rule;
        assert IsLabelStart(domain, i);
      }
    }
    if i: nat :| IsLabelStart(domain, i) && domain[i..] == rule {
      if i > 0 {
        assert domain[i - 1..] == [domain[i - 1]] + domain[i..] == "." + rule;
      }
    }
  }

  /** Walks the suffixes of `domain` from each label on, looking each one up. */
  method RuleMatches(rules: set<string>, domain: string) returns (found: bool)
    ensures found == Matches(rules, domain)
  {
    var start := 0;
    while start < |domain|
      invariant 0 <= start <= |domain|
      invariant start < |domain| ==> IsLabelStart(domain, start)
      invariant forall i: nat :: i < start && IsLabelStart(domain, i) ==> domain[i..] !in rules
    {
      var suffix := domain[start..];
      if suffix in rules {
        CoversIsSuffixAtLabel(suffix, domain);
        return true;
      }
      start := NextLabel(domain, start);
    }
    forall r | r in rules ensures !Covers(r, domain) {
      CoversIsSuffixAtLabel(r, domain);
    }
    return false;
  }
}
