/** From a line of a list to a blocked query: when listing a domain has its effect. */
module ListedDomains {
  import opened Wrappers
  import opened Messages
  import opened Text
  import opened Resolver
  import Blocklist
  import Engines = BlocklistEngines
  import Parser = BlocklistParser

  predicate NoSpaces(name: Name) {
    forall i :: 0 <= i < |name| ==> !IsSpace(name[i])
  }

  /** The query is for `d` or a name below it, with or without the root dot on either of them. */
  predicate AsksFor(query: Message, d: string) {
    query.questions != [] &&
    NoSpaces(query.questions[0].name) &&
    var n := Lower(StripDots(query.questions[0].name));
    n == StripDots(d) || EndsWith(n, "." + StripDots(d))
  }

  predicate EndsInDot(d: string) {
    d != "" && d[|d| - 1] == '.'
  }

  lemma {:induction false} StripDotsShape(name: string)
    ensures StripDots(name) <= name && !EndsInDot(StripDots(name))
  {
    if EndsInDot(name) { StripDotsShape(name[..|name| - 1]); }
  }

  /** What the matcher looks up for a name without whitespace. */
  lemma LookedUpName(name: Name)
    requires NoSpaces(name)
    ensures Normalize(StripDots(name)) == Lower(StripDots(name))
    ensures !EndsInDot(Lower(StripDots(name)))
  {
    StripDotsShape(name);
    var s := StripDots(name);
    assert s == name[..|s|];
    assert TrimStart(s) == s && TrimEnd(s) == s;
  }

  /** A rule written with the root dot covers nothing that is ever looked up. */
  lemma DottedCoversNothing(d: string, name: Name)
    requires EndsInDot(d) && NoSpaces(name)
    ensures !Blocklist.Covers(d, Normalize(StripDots(name)))
  {
    LookedUpName(name);
    var n := Normalize(StripDots(name));
    if EndsWith(n, "." + d) { SameEnd(n, "." + d); }
  }

  lemma SameEnd(s: string, t: string)
    requires t != "" && EndsWith(s, t)
    ensures EndsInDot(s) <==> EndsInDot(t)
  {
    assert s[|s| - 1] == s[|s| - |t|..][|t| - 1];
  }

  /** So it never matters, whatever other rules there are. */
  lemma DottedRuleIsDead(cfg: Config, d: string, query: Message)
    requires EndsInDot(d) && query.questions != [] && NoSpaces(query.questions[0].name)
    ensures var rules := Blocklist.Rules(cfg.rules.blocks + {d}, cfg.rules.exceptions);
            QueryBlocked(cfg.(rules := rules), query) == QueryBlocked(cfg, query)
  {
    var name := query.questions[0].name;
    DottedCoversNothing(d, name);
    var n := Normalize(StripDots(name));
    var blocks := cfg.rules.blocks;
    assert Blocklist.Matches(blocks + {d}, n) <==> Blocklist.Matches(blocks, n) by {
      if r :| r in blocks && Blocklist.Covers(r, n) { assert r in blocks + {d}; }
      if r :| r in blocks + {d} && Blocklist.Covers(r, n) { assert r in blocks; }
    }
  }

  lemma AskedIsCovered(d: string, query: Message)
    requires d != "" && !EndsInDot(d) && AsksFor(query, d)
    ensures var n := Normalize(StripDots(query.questions[0].name));
            n == d || EndsWith(n, "." + d)
  {
    assert StripDots(d) == d;
    LookedUpName(query.questions[0].name);
  }

  /**
   * From the list to the client: a domain without the root dot, written in any supported
   * syntax on a line of a block source, blocks every query for itself or a name below it,
   * unless an exception covers the name asked for.
   */
  lemma ListedDomainBlocksQueries(cfg: Config, blockSources: seq<Engines.Source>, allowSources: seq<Engines.Source>,
                                  indent: string, style: Parser.Style, d: string, gap: string,
                                  comment: Option<string>, query: Message)
    requires Parser.CleanDomain(d) && Parser.StyleOk(style) && AllSpace(indent) && AllSpace(gap)
    requires comment.Some? ==> Parser.Plain(comment.value)
    requires Parser.PrintLine(indent, false, style, d, gap, comment) in Engines.SourceLines(blockSources)
    requires cfg.rules == Engines.Meaning(blockSources, allowSources)
    requires !EndsInDot(d) && AsksFor(query, d)
    ensures QueryBlocked(cfg, query) <==>
              !Blocklist.Matches(cfg.rules.exceptions, Normalize(StripDots(query.questions[0].name)))
  {
    assert d != "";
    AskedIsCovered(d, query);
    Engines.ListedDomainIsBlocked(blockSources, allowSources, indent, style, d, gap, comment,
                                  StripDots(query.questions[0].name));
  }

  /** Listing one domain blocks every query for it and below it if and only if it is listed without the root dot. */
  lemma ListedDomainWorksIff(cfg: Config, d: string)
    requires Parser.CleanDomain(d) && cfg.rules == Blocklist.Rules({d}, {})
    ensures (forall query :: AsksFor(query, d) ==> QueryBlocked(cfg, query)) <==> !EndsInDot(d)
  {
    if EndsInDot(d) {
      var query := Message(0, false, 0, 0, false, [], [Question(d, 1, 1)], [], [], [], None);
      StripDotsShape(d);
      StripDotsOfClean(d);
      assert AsksFor(query, d);
      DottedCoversNothing(d, d);
      assert !QueryBlocked(cfg, query);
    } else {
      forall query | AsksFor(query, d) ensures QueryBlocked(cfg, query) {
        AskedIsCovered(d, query);
        assert Blocklist.Covers(d, Normalize(StripDots(query.questions[0].name)));
      }
    }
  }

  lemma StripDotsOfClean(d: string)
    requires forall i :: 0 <= i < |d| ==> Parser.CleanChar(d[i])
    ensures NoSpaces(d) && Lower(StripDots(d)) == StripDots(d)
  {
    StripDotsShape(d);
    var s := StripDots(d);
    forall i | 0 <= i < |s| ensures LowerChar(s[i]) == s[i] { assert s[i] == d[i] && Parser.CleanChar(d[i]); }
    forall i | 0 <= i < |d| ensures !IsSpace(d[i]) { assert Parser.CleanChar(d[i]); }
  }

  lemma OneLineMeaning(d: string)
    ensures Engines.Meaning([Engines.Readable([Some(d)])], [])
            == Engines.Added(Blocklist.Rules({}, {}), Engines.ToBlock, {Parser.ParseLine(d)})
  {
    var source := Engines.Readable([Some(d)]);
    assert Some(d) in source.lines && source in [source];
    assert Engines.SourceLines([source]) == {d} && Engines.SourceLines([]) == {};
    assert Engines.Parsed({d}) == {Parser.ParseLine(d)} && Engines.Parsed({}) == {};
    AddedNothing(Engines.Added(Blocklist.Rules({}, {}), Engines.ToBlock, {Parser.ParseLine(d)}));
  }

  lemma AddedNothing(rules: Blocklist.Rules)
    ensures Engines.Added(rules, Engines.ToAllow, {}) == rules
  {
  }

  lemma OneRule(d: string)
    ensures Engines.Added(Blocklist.Rules({}, {}), Engines.ToBlock, {Parser.Block(d)}) == Blocklist.Rules({d}, {})
  {
    assert Parser.Block(d) in {Parser.Block(d)};
    assert d in Engines.BlockRules(Engines.ToBlock, {Parser.Block(d)});
  }

  /**
   * A block list of one line, a domain with the root dot: it parses without complaint and is
   * the one rule, and blocks no query whose name is without whitespace.
   */
  lemma DottedLineBlocksNothing(cfg: Config, d: string, query: Message)
    requires Parser.CleanDomain(d) && EndsInDot(d)
    requires cfg.rules == Engines.Meaning([Engines.Readable([Some(d)])], [])
    requires query.questions != [] && NoSpaces(query.questions[0].name)
    ensures Parser.ParseLine(d) == Parser.Block(d) && cfg.rules == Blocklist.Rules({d}, {})
    ensures !QueryBlocked(cfg, query)
  {
    assert Parser.PrintLine("", false, Parser.Bare, d, "", None) == d;
    Parser.ParserInvertsPrinter("", false, Parser.Bare, d, "", None);
    OneLineMeaning(d);
    OneRule(d);
    DottedCoversNothing(d, query.questions[0].name);
  }

  lemma DottedLineExample() returns (d: string)
    ensures d == "example.com." && Parser.CleanDomain(d) && EndsInDot(d)
  {
    d := "example.com.";
  }
}
