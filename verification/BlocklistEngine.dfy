/** Loading rule sources into an engine, and swapping engines on reload. */
module BlocklistEngines {
  import opened Wrappers
  import opened Text
  import opened Blocklist
  import Parser = BlocklistParser

  datatype RuleTarget = ToBlock | ToAllow

  /** A file that does not open, or its lines; a line that cannot be read is `None`. */
  datatype Source = Unreadable | Readable(lines: seq<Option<string>>)

  datatype LoadError = IoError

  datatype ParseReport = ParseReport(total: nat, unsupported: nat)

  predicate LinesOk(lines: seq<Option<string>>) {
    forall i :: 0 <= i < |lines| ==> lines[i].Some?
  }

  predicate SourceOk(source: Source) {
    source.Readable? && LinesOk(source.lines)
  }

  predicate AllOk(sources: seq<Source>) {
    forall i :: 0 <= i < |sources| ==> SourceOk(sources[i])
  }

  /** The lines of the sources, as a set: order and repetition forgotten. */
  function LineSet(lines: seq<Option<string>>): set<string> {
    set l | l in lines && l.Some? :: l.value
  }

  function SourceLines(sources: seq<Source>): set<string> {
    set s, l | s in sources && s.Readable? && l in s.lines && l.Some? :: l.value
  }

  /** What the lines parse to. */
  function Parsed(lines: set<string>): set<Parser.ParsedLine> {
    set l | l in lines :: Parser.ParseLine(l)
  }

  function BlockRules(target: RuleTarget, parsed: set<Parser.ParsedLine>): set<string> {
    set p | p in parsed && target.ToBlock? && p.Block? :: p.rule
  }

  function ExceptionRules(target: RuleTarget, parsed: set<Parser.ParsedLine>): set<string> {
    set p | p in parsed && (p.Exception? || (target.ToAllow? && p.Block?)) :: p.rule
  }

  function Added(rules: Rules, target: RuleTarget, parsed: set<Parser.ParsedLine>): Rules {
    Rules(rules.blocks + BlockRules(target, parsed), rules.exceptions + ExceptionRules(target, parsed))
  }

  /** The rules that block and allow sources stand for. */
  function Meaning(blockSources: seq<Source>, allowSources: seq<Source>): Rules {
    Added(Added(Rules({}, {}), ToBlock, Parsed(SourceLines(blockSources))), ToAllow, Parsed(SourceLines(allowSources)))
  }

  // ---- the same, line by line in file order ----

  function AfterLine(rules: Rules, target: RuleTarget, parsed: Parser.ParsedLine): Rules {
    match parsed
    case Block(rule) =>
      if target.ToBlock? then rules.(blocks := rules.blocks + {rule})
      else rules.(exceptions := rules.exceptions + {rule})
    case Exception(rule) => rules.(exceptions := rules.exceptions + {rule})
    case _ => rules
  }

  function AfterLines(rules: Rules, target: RuleTarget, parsed: seq<Parser.ParsedLine>): Rules {
    if parsed == [] then rules
    else AfterLine(AfterLines(rules, target, parsed[..|parsed| - 1]), target, parsed[|parsed| - 1])
  }

  function ParseAll(lines: seq<Option<string>>): (parsed: seq<Parser.ParsedLine>)
    requires LinesOk(lines)
    ensures |parsed| == |lines|
  {
    seq(|lines|, i requires 0 <= i < |lines| => Parser.ParseLine(lines[i].value))
  }

  function AfterSources(rules: Rules, target: RuleTarget, sources: seq<Source>): Rules
    requires AllOk(sources)
  {
    if sources == [] then rules
    else
      AfterLines(AfterSources(rules, target, sources[..|sources| - 1]), target, ParseAll(sources[|sources| - 1].lines))
  }

  lemma AddedTwice(rules: Rules, target: RuleTarget, parsed1: set<Parser.ParsedLine>, parsed2: set<Parser.ParsedLine>)
    ensures Added(Added(rules, target, parsed1), target, parsed2) == Added(rules, target, parsed1 + parsed2)
  {
  }

  lemma AddedOneMore(rules: Rules, target: RuleTarget, parsed: set<Parser.ParsedLine>, p: Parser.ParsedLine)
    ensures AfterLine(Added(rules, target, parsed), target, p) == Added(rules, target, parsed + {p})
  {
  }

  /** Line order and repetition do not matter. */
  lemma {:induction false} AfterLinesIs(rules: Rules, target: RuleTarget, parsed: seq<Parser.ParsedLine>)
    ensures AfterLines(rules, target, parsed) == Added(rules, target, set p | p in parsed)
  {
    if parsed != [] {
      var before, last := parsed[..|parsed| - 1], parsed[|parsed| - 1];
      AfterLinesIs(rules, target, before);
      assert parsed == before + [last];
      assert (set p | p in parsed) == (set p | p in before) + {last};
      AddedOneMore(rules, target, (set p | p in before), last);
    }
  }

  lemma ParsedLines(lines: seq<Option<string>>)
    requires LinesOk(lines)
    ensures (set p | p in ParseAll(lines)) == Parsed(LineSet(lines))
  {
    forall l | l in LineSet(lines) ensures Parser.ParseLine(l) in ParseAll(lines) {
      var i :| 0 <= i < |lines| && lines[i] == Some(l);
      assert ParseAll(lines)[i] == Parser.ParseLine(l);
    }
    forall p | p in ParseAll(lines) ensures p in Parsed(LineSet(lines)) {
      var i :| 0 <= i < |lines| && ParseAll(lines)[i] == p;
      assert lines[i].value in LineSet(lines);
    }
  }

  lemma SourceLinesPush(sources: seq<Source>, last: Source)
    requires last.Readable?
    ensures Parsed(SourceLines(sources + [last])) == Parsed(SourceLines(sources)) + Parsed(LineSet(last.lines))
  {
    assert SourceLines(sources + [last]) == SourceLines(sources) + LineSet(last.lines);
  }

  /** Nor does the order or grouping of the sources. */
  lemma {:induction false} AfterSourcesIs(rules: Rules, target: RuleTarget, sources: seq<Source>)
    requires AllOk(sources)
    ensures AfterSources(rules, target, sources) == Added(rules, target, Parsed(SourceLines(sources)))
  {
    if sources != [] {
      var before, last := sources[..|sources| - 1], sources[|sources| - 1];
      AfterSourcesIs(rules, target, before);
      assert sources == before + [last] && SourceOk(last);
      SourceLinesPush(before, last);
      AfterLinesIs(AfterSources(rules, target, before), target, ParseAll(last.lines));
      ParsedLines(last.lines);
      AddedTwice(rules, target, Parsed(SourceLines(before)), Parsed(LineSet(last.lines)));
    }
  }

  /** The rules after loading every line in file order, block sources first. */
  function Loaded(blockSources: seq<Source>, allowSources: seq<Source>): Rules
    requires AllOk(blockSources) && AllOk(allowSources)
  {
    AfterSources(AfterSources(Rules({}, {}), ToBlock, blockSources), ToAllow, allowSources)
  }

  lemma LoadedIs(blockSources: seq<Source>, allowSources: seq<Source>)
    requires AllOk(blockSources) && AllOk(allowSources)
    ensures Loaded(blockSources, allowSources) == Meaning(blockSources, allowSources)
  {
    AfterSourcesIs(Rules({}, {}), ToBlock, blockSources);
    AfterSourcesIs(AfterSources(Rules({}, {}), ToBlock, blockSources), ToAllow, allowSources);
  }

  /** The report after one more line. */
  function Tallied(report: ParseReport, parsed: Parser.ParsedLine): ParseReport {
    ParseReport(report.total + 1, report.unsupported + if parsed.Unsupported? then 1 else 0)
  }

  function Tally(report: ParseReport, parsed: seq<Parser.ParsedLine>): ParseReport {
    if parsed == [] then report else Tallied(Tally(report, parsed[..|parsed| - 1]), parsed[|parsed| - 1])
  }

  function TallyAll(report: ParseReport, sources: seq<Source>): ParseReport
    requires AllOk(sources)
  {
    if sources == [] then report
    else Tally(TallyAll(report, sources[..|sources| - 1]), ParseAll(sources[|sources| - 1].lines))
  }

  /** The report counts every line, and of them those that were not understood. */
  lemma {:induction false} TallyCounts(report: ParseReport, parsed: seq<Parser.ParsedLine>)
    ensures Tally(report, parsed).total == report.total + |parsed|
    ensures Tally(report, parsed).unsupported == report.unsupported + multiset(parsed)[Parser.Unsupported]
  {
    if parsed != [] {
      TallyCounts(report, parsed[..|parsed| - 1]);
      assert parsed == parsed[..|parsed| - 1] + [parsed[|parsed| - 1]];
    }
  }

  lemma OneLineMore(rules: Rules, target: RuleTarget, report: ParseReport, lines: seq<Option<string>>, i: nat)
    requires i < |lines| && lines[i].Some? && LinesOk(lines[..i])
    ensures LinesOk(lines[..i + 1])
    ensures AfterLines(rules, target, ParseAll(lines[..i + 1]))
            == AfterLine(AfterLines(rules, target, ParseAll(lines[..i])), target, Parser.ParseLine(lines[i].value))
    ensures Tally(report, ParseAll(lines[..i + 1]))
            == Tallied(Tally(report, ParseAll(lines[..i])), Parser.ParseLine(lines[i].value))
  {
    assert lines[..i + 1] == lines[..i] + [lines[i]];
    var parsed := ParseAll(lines[..i + 1]);
    assert parsed[..i] == ParseAll(lines[..i]) && parsed[i] == Parser.ParseLine(lines[i].value);
  }

  lemma OneSourceMore(rules: Rules, target: RuleTarget, report: ParseReport, sources: seq<Source>, i: nat)
    requires i < |sources| && SourceOk(sources[i]) && AllOk(sources[..i])
    ensures AllOk(sources[..i + 1])
    ensures AfterSources(rules, target, sources[..i + 1])
            == AfterLines(AfterSources(rules, target, sources[..i]), target, ParseAll(sources[i].lines))
    ensures TallyAll(report, sources[..i + 1]) == Tally(TallyAll(report, sources[..i]), ParseAll(sources[i].lines))
  {
    assert sources[..i + 1] == sources[..i] + [sources[i]];
    assert sources[..i + 1][..i] == sources[..i];
  }

  class BlocklistEngine {
    var blocks: set<string>
    var exceptions: set<string>

    function Model(): Rules
      reads this
    {
      Rules(blocks, exceptions)
    }

    constructor ()
      ensures Model() == Rules({}, {})
    {
      blocks, exceptions := {}, {};
    }

    method InsertRule(rule: string, target: RuleTarget)
      modifies this
      ensures blocks == if target.ToBlock? then old(blocks) + {rule} else old(blocks)
      ensures exceptions == if target.ToAllow? then old(exceptions) + {rule} else old(exceptions)
    {
      match target
      case ToBlock => blocks := blocks + {rule};
      case ToAllow => exceptions := exceptions + {rule};
    }

    method LoadLine(line: string, target: RuleTarget, report: ParseReport) returns (report': ParseReport)
      modifies this
      ensures Model() == AfterLine(old(Model()), target, Parser.ParseLine(line))
      ensures report' == Tallied(report, Parser.ParseLine(line))
    {
      report' := report.(total := report.total + 1);
      match Parser.ParseLine(line)
      case Skip =>
      case Block(rule) => InsertRule(rule, target);
      case Exception(rule) => exceptions := exceptions + {rule};
      case Unsupported => report' := report'.(unsupported := report'.unsupported + 1);
    }

    method LoadLines(lines: seq<Option<string>>, target: RuleTarget, report: ParseReport)
      returns (result: Result<ParseReport, LoadError>)
      modifies this
      ensures result.Ok? <==> LinesOk(lines)
      ensures result.Ok? ==> Model() == AfterLines(old(Model()), target, ParseAll(lines))
      ensures result.Ok? ==> result.value == Tally(report, ParseAll(lines))
    {
      var report' := report;
      for i := 0 to |lines|
        invariant LinesOk(lines[..i])
        invariant Model() == AfterLines(old(Model()), target, ParseAll(lines[..i]))
        invariant report' == Tally(report, ParseAll(lines[..i]))
      {
        if lines[i].None? {
          return Err(IoError);
        }
        report' := LoadLine(lines[i].value, target, report');
        OneLineMore(old(Model()), target, report, lines, i);
      }
      assert lines[..|lines|] == lines;
      return Ok(report');
    }

    method LoadPaths(sources: seq<Source>, target: RuleTarget, report: ParseReport)
      returns (result: Result<ParseReport, LoadError>)
      modifies this
      ensures result.Ok? <==> AllOk(sources)
      ensures result.Ok? ==> Model() == AfterSources(old(Model()), target, sources)
      ensures result.Ok? ==> result.value == TallyAll(report, sources)
    {
      var report' := report;
      for i := 0 to |sources|
        invariant AllOk(sources[..i])
        invariant Model() == AfterSources(old(Model()), target, sources[..i])
        invariant report' == TallyAll(report, sources[..i])
      {
        if sources[i].Unreadable? {
          assert !SourceOk(sources[i]);
          return Err(IoError);
        }
        var loaded := LoadLines(sources[i].lines, target, report');
        if loaded.Err? {
          assert !SourceOk(sources[i]);
          return loaded;
        }
        report' := loaded.value;
        OneSourceMore(old(Model()), target, report, sources, i);
      }
      assert sources[..|sources|] == sources;
      return Ok(report');
    }

    method Decide(domain: string) returns (decision: BlockDecision)
      ensures decision == Blocklist.Decide(Model(), domain)
    {
      var normalized := Normalize(domain);
      var excepted := RuleMatches(exceptions, normalized);
      if excepted { return BlockDecision.Exception; }
      var blocked := RuleMatches(blocks, normalized);
      if blocked { return BlockDecision.Block; }
      return Allow;
    }
  }

  method FromSources(blockSources: seq<Source>, allowSources: seq<Source>)
    returns (engine: BlocklistEngine, result: Result<ParseReport, LoadError>)
    ensures fresh(engine)
    ensures result.Ok? <==> AllOk(blockSources) && AllOk(allowSources)
    ensures result.Ok? ==> engine.Model() == Meaning(blockSources, allowSources)
    ensures result.Ok? ==> result.value == TallyAll(TallyAll(ParseReport(0, 0), blockSources), allowSources)
  {
    engine := new BlocklistEngine();
    result := engine.LoadPaths(blockSources, ToBlock, ParseReport(0, 0));
    if result.Err? { return; }
    result := engine.LoadPaths(allowSources, ToAllow, result.value);
    if result.Err? { return; }
    LoadedIs(blockSources, allowSources);
  }

  class ReloadableBlocklist {
    var engine: BlocklistEngine

    constructor (engine: BlocklistEngine)
      ensures this.engine == engine
    {
      this.engine := engine;
    }

    /** A reload that fails, even halfway through a file, leaves the old rules in force. */
    method Reload(blockSources: seq<Source>, allowSources: seq<Source>)
      returns (result: Result<ParseReport, LoadError>)
      modifies this
      ensures result.Ok? <==> AllOk(blockSources) && AllOk(allowSources)
      ensures result.Ok? ==> engine.Model() == Meaning(blockSources, allowSources)
      ensures result.Err? ==> engine == old(engine) && engine.Model() == old(engine.Model())
    {
      var next, loaded := FromSources(blockSources, allowSources);
      result := loaded;
      if loaded.Ok? { engine := next; }
    }
  }

  /** Decisions depend on the lines of each source set, not on their order, grouping or repetition. */
  lemma OrderIsIrrelevant(blocks1: seq<Source>, allows1: seq<Source>, blocks2: seq<Source>, allows2: seq<Source>,
                          domain: string)
    requires AllOk(blocks1) && AllOk(allows1) && AllOk(blocks2) && AllOk(allows2)
    requires SourceLines(blocks1) == SourceLines(blocks2) && SourceLines(allows1) == SourceLines(allows2)
    ensures Blocklist.Decide(Loaded(blocks1, allows1), domain) == Blocklist.Decide(Loaded(blocks2, allows2), domain)
  {
    LoadedIs(blocks1, allows1);
    LoadedIs(blocks2, allows2);
  }

  /** Reordering the sources keeps their lines. */
  lemma PermutedSources(sources1: seq<Source>, sources2: seq<Source>)
    requires multiset(sources1) == multiset(sources2)
    ensures SourceLines(sources1) == SourceLines(sources2)
  {
    forall s ensures s in sources1 <==> s in sources2 {
      assert s in sources1 <==> s in multiset(sources1);
      assert s in sources2 <==> s in multiset(sources2);
    }
  }

  /**
   * From file to decision: a domain printed in any supported syntax on a line of a block
   * source blocks itself and everything below it, in any letter case, unless some exception
   * covers the name asked for.
   */
  lemma ListedDomainIsBlocked(blockSources: seq<Source>, allowSources: seq<Source>, indent: string,
                              style: Parser.Style, d: string, gap: string, comment: Option<string>, name: string)
    requires Parser.CleanDomain(d) && Parser.StyleOk(style) && AllSpace(indent) && AllSpace(gap)
    requires comment.Some? ==> Parser.Plain(comment.value)
    requires Parser.PrintLine(indent, false, style, d, gap, comment) in SourceLines(blockSources)
    requires Normalize(name) == d || EndsWith(Normalize(name), "." + d)
    ensures Blocklist.Decide(Meaning(blockSources, allowSources), name) ==
            if Matches(Meaning(blockSources, allowSources).exceptions, Normalize(name)) then BlockDecision.Exception
            else BlockDecision.Block
  {
    var line := Parser.PrintLine(indent, false, style, d, gap, comment);
    Parser.ParserInvertsPrinter(indent, false, style, d, gap, comment);
    assert Parser.ParseLine(line) == Parser.Block(d);
    assert Parser.Block(d) in Parsed(SourceLines(blockSources));
    assert d in BlockRules(ToBlock, Parsed(SourceLines(blockSources)));
    assert d in Meaning(blockSources, allowSources).blocks;
    assert d != "";
    assert Covers(d, Normalize(name));
  }

  /** An exception printed in either source set, or any rule of an allow source, overrides every block rule. */
  lemma ExceptionPrevails(blockSources: seq<Source>, allowSources: seq<Source>, indent: string, isException: bool,
                          style: Parser.Style, d: string, gap: string, comment: Option<string>, name: string)
    requires Parser.CleanDomain(d) && Parser.StyleOk(style) && AllSpace(indent) && AllSpace(gap)
    requires comment.Some? ==> Parser.Plain(comment.value)
    requires var line := Parser.PrintLine(indent, isException, style, d, gap, comment);
             line in SourceLines(allowSources) || (isException && line in SourceLines(blockSources))
    requires Normalize(name) == d || EndsWith(Normalize(name), "." + d)
    ensures Blocklist.Decide(Meaning(blockSources, allowSources), name) == BlockDecision.Exception
  {
    var line := Parser.PrintLine(indent, isException, style, d, gap, comment);
    Parser.ParserInvertsPrinter(indent, isException, style, d, gap, comment);
    var rules := Meaning(blockSources, allowSources);
    if line in SourceLines(allowSources) {
      assert Parser.RuleLine(isException, d) in Parsed(SourceLines(allowSources));
      assert d in ExceptionRules(ToAllow, Parsed(SourceLines(allowSources)));
    } else {
      assert Parser.RuleLine(isException, d) in Parsed(SourceLines(blockSources));
      assert d in ExceptionRules(ToBlock, Parsed(SourceLines(blockSources)));
    }
    assert d in rules.exceptions && d != "";
    assert Covers(d, Normalize(name));
  }
}
