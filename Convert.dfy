/** The top level of the converter: every stub file is parsed, then the fixed
    header and every parsed class are written to the declaration file. */
module Convert {
  import opened Common
  import opened Tokenize
  import opened Settings
  import opened Files
  import opened Methods
  import opened Scanner
  import opened ClassParsers

  /** The declarations every output starts with. */
  const Head: string :=
    "declare function loadAPI(val: number): void;\n"
    + "declare function println(s : string) : void;\n"
    + "declare function load(file: string) : void;\n"
    + "declare var host : Host;\n\n"
    + "declare enum CursorNavigationMode  {\n"
    + "\tNESTED = 0,\n"
    + "\tFLAT,\n"
    + "\tGUI,\n"
    + "}\n"

  /** One stub file: its name and its lines, each with its line break. */
  datatype StubFile = StubFile(name: string, lines: seq<string>)

  /** Every file parsed, in order; the first failing file ends the run. */
  function ParseAll(stubs: seq<StubFile>, cfg: Config): (r: Result<seq<ParsedFile>>)
    ensures r.Ok? ==> |r.value| == |stubs|
  {
    if stubs == [] then Ok([])
    else
      var init := stubs[..|stubs| - 1];
      var last := stubs[|stubs| - 1];
      match ParseAll(init, cfg)
      case Err(e) => Err(e)
      case Ok(pfs) =>
        match ScanLines(last.lines)
        case Err(e) => Err(e)
        case Ok(st) => Ok(pfs + [Parsed(last.name, st, cfg)])
  }

  /** The run gets past parsing exactly when every stub file scans. */
  lemma {:induction false} ParseAllOkIff(stubs: seq<StubFile>, cfg: Config)
    ensures ParseAll(stubs, cfg).Ok? <==> forall k :: 0 <= k < |stubs| ==> ScanLines(stubs[k].lines).Ok?
  {
    if stubs != [] {
      var init := stubs[..|stubs| - 1];
      ParseAllOkIff(init, cfg);
      assert forall k :: 0 <= k < |init| ==> init[k] == stubs[k];
    }
  }

  /** The k-th parsed file is what scanning the k-th stub file gives. */
  lemma {:induction false} ParseAllAt(stubs: seq<StubFile>, k: nat, cfg: Config)
    requires ParseAll(stubs, cfg).Ok? && k < |stubs|
    ensures ScanLines(stubs[k].lines).Ok?
    ensures ParseAll(stubs, cfg).value[k] == Parsed(stubs[k].name, ScanLines(stubs[k].lines).value, cfg)
  {
    var init := stubs[..|stubs| - 1];
    if k < |stubs| - 1 {
      ParseAllAt(init, k, cfg);
    }
  }

  /** Each parsed file's class text, in order. */
  function Rendered(pfs: seq<ParsedFile>, cfg: Config): (r: seq<string>)
    ensures |r| == |pfs|
  {
    seq(|pfs|, k requires 0 <= k < |pfs| => RenderClass(pfs[k], cfg))
  }

  /** The rendered classes, one after the other. */
  function RenderAll(pfs: seq<ParsedFile>, cfg: Config): string {
    Concat(Rendered(pfs, cfg))
  }

  /** The whole declaration file, or the failure that stops the run. */
  function ConvertFiles(stubs: seq<StubFile>, cfg: Config): Result<string> {
    match ParseAll(stubs, cfg)
    case Err(e) => Err(e)
    case Ok(pfs) => Ok(Head + RenderAll(pfs, cfg))
  }

  /** Rendering a concatenation of files is concatenating their renderings. */
  lemma RenderAllAppend(a: seq<ParsedFile>, b: seq<ParsedFile>, cfg: Config)
    ensures RenderAll(a + b, cfg) == RenderAll(a, cfg) + RenderAll(b, cfg)
  {
    assert Rendered(a + b, cfg) == Rendered(a, cfg) + Rendered(b, cfg);
    ConcatAppend(Rendered(a, cfg), Rendered(b, cfg));
  }

  lemma RenderAllSingle(pf: ParsedFile, cfg: Config)
    ensures RenderAll([pf], cfg) == RenderClass(pf, cfg)
  {
    assert Rendered([pf], cfg) == [RenderClass(pf, cfg)];
    ConcatSingle(RenderClass(pf, cfg));
  }

  /** A file that names no class leaves the output as if it were absent. */
  lemma NamelessFileIgnored(a: seq<ParsedFile>, pf: ParsedFile, b: seq<ParsedFile>, cfg: Config)
    requires !Truthy(pf.className)
    ensures RenderAll(a + [pf] + b, cfg) == RenderAll(a + b, cfg)
  {
    calc {
      RenderAll(a + [pf] + b, cfg);
      { RenderAllAppend(a + [pf], b, cfg); }
      RenderAll(a + [pf], cfg) + RenderAll(b, cfg);
      { RenderAllAppend(a, [pf], cfg); RenderAllSingle(pf, cfg); NamelessClassSilent(pf, cfg); }
      RenderAll(a, cfg) + RenderAll(b, cfg);
      { RenderAllAppend(a, b, cfg); }
      RenderAll(a + b, cfg);
    }
  }

  /** A successful run writes the fixed header first. */
  lemma OutputStartsWithHead(stubs: seq<StubFile>, cfg: Config)
    requires ConvertFiles(stubs, cfg).Ok?
    ensures StartsWith(ConvertFiles(stubs, cfg).value, Head)
  {
    var pfs := ParseAll(stubs, cfg).value;
    assert (Head + RenderAll(pfs, cfg))[..|Head|] == Head;
  }

  /** The run fails exactly when some stub file fails to scan. */
  lemma ConvertFailsIffSomeFileFails(stubs: seq<StubFile>, cfg: Config)
    ensures ConvertFiles(stubs, cfg).Err?
        <==> exists k :: 0 <= k < |stubs| && ScanLines(stubs[k].lines).Err?
  {
    ParseAllOkIff(stubs, cfg);
  }

  // ---------------------------------------------------------------- objects

  /** The parameter objects of every parser's members. */
  ghost function AllParams(ps: seq<ClassParser>): set<Parameter> {
    if ps == [] then {} else AllParams(ps[..|ps| - 1]) + Params(ps[|ps| - 1].methods)
  }

  lemma {:induction false} AllParamsAllocated(ps: seq<ClassParser>)
    ensures forall p :: p in AllParams(ps) ==> allocated(p)
  {
    if ps != [] {
      AllParamsAllocated(ps[..|ps| - 1]);
      ParamsAllocated(ps[|ps| - 1].methods);
    }
  }

  /** The values of a list of parsers. */
  ghost function ParserValues(ps: seq<ClassParser>): (r: seq<ParsedFile>)
    reads AllParams(ps)
    ensures |r| == |ps|
  {
    if ps == [] then [] else ParserValues(ps[..|ps| - 1]) + [ps[|ps| - 1].Value()]
  }

  lemma ParserValuesSnoc(ps: seq<ClassParser>, p: ClassParser)
    ensures AllParams(ps + [p]) == AllParams(ps) + Params(p.methods)
    ensures ParserValues(ps + [p]) == ParserValues(ps) + [p.Value()]
  {
    assert (ps + [p])[..|ps|] == ps;
  }

  lemma {:induction false} ParserValuesAt(ps: seq<ClassParser>, k: nat)
    requires k < |ps|
    ensures ParserValues(ps)[k] == ps[k].Value()
    ensures Params(ps[k].methods) <= AllParams(ps)
  {
    if k < |ps| - 1 {
      ParserValuesAt(ps[..|ps| - 1], k);
    }
  }

  lemma RenderAllSnoc(pfs: seq<ParsedFile>, k: nat, cfg: Config)
    requires k < |pfs|
    ensures RenderAll(pfs[..k + 1], cfg) == RenderAll(pfs[..k], cfg) + RenderClass(pfs[k], cfg)
  {
    assert pfs[..k + 1] == pfs[..k] + [pfs[k]];
    RenderAllAppend(pfs[..k], [pfs[k]], cfg);
    RenderAllSingle(pfs[k], cfg);
  }

  lemma ParseAllSnoc(stubs: seq<StubFile>, i: nat, cfg: Config)
    requires i < |stubs| && ParseAll(stubs[..i], cfg).Ok? && ScanLines(stubs[i].lines).Ok?
    ensures ParseAll(stubs[..i + 1], cfg)
         == Ok(ParseAll(stubs[..i], cfg).value + [Parsed(stubs[i].name, ScanLines(stubs[i].lines).value, cfg)])
  {
    assert stubs[..i + 1][..i] == stubs[..i];
  }

  lemma ParseAllFails(stubs: seq<StubFile>, i: nat, cfg: Config)
    requires i < |stubs| && ScanLines(stubs[i].lines).Err?
    ensures ParseAll(stubs, cfg).Err?
  {
    ParseAllOkIff(stubs, cfg);
  }

  /** The parsing loop: one parser per stub file, in order. */
  method ParseFiles(stubs: seq<StubFile>, cfg: Config) returns (ok: bool, parsers: seq<ClassParser>)
    ensures ok <==> ParseAll(stubs, cfg).Ok?
    ensures ok ==> ParserValues(parsers) == ParseAll(stubs, cfg).value
  {
    parsers := [];
    for i := 0 to |stubs|
      invariant ParseAll(stubs[..i], cfg).Ok?
      invariant ParserValues(parsers) == ParseAll(stubs[..i], cfg).value
    {
      AllParamsAllocated(parsers);
      ghost var before := ParserValues(parsers);
      var r := Parse(stubs[i].lines, stubs[i].name, cfg);
      if r.Err? {
        ParseAllFails(stubs, i, cfg);
        return false, parsers;
      }
      assert ParserValues(parsers) == before;
      ParserValuesSnoc(parsers, r.value);
      ParseAllSnoc(stubs, i, cfg);
      parsers := parsers + [r.value];
    }
    assert stubs[..|stubs|] == stubs;
    ok := true;
  }

  /** One parser of the list renders its own value, and the list's values
      stay as they were. */
  method RenderOne(file: OutputFile, parsers: seq<ClassParser>, j: nat, cfg: Config)
    requires j < |parsers|
    modifies file
    ensures ParserValues(parsers) == old(ParserValues(parsers))
    ensures file.text == old(file.text) + RenderClass(old(ParserValues(parsers))[j], cfg)
  {
    AllParamsAllocated(parsers);
    ghost var pfs := ParserValues(parsers);
    ParserValuesAt(parsers, j);
    ParamsAllocated(parsers[j].methods);
    ghost var v := parsers[j].Value();
    parsers[j].Render(file, cfg);
    assert parsers[j].Value() == v;
    assert ParserValues(parsers) == pfs;
  }

  lemma RenderAllStep(t: string, pfs: seq<ParsedFile>, j: nat, cfg: Config)
    requires j < |pfs|
    ensures t + RenderAll(pfs[..j], cfg) + RenderClass(pfs[j], cfg) == t + RenderAll(pfs[..j + 1], cfg)
  {
    RenderAllSnoc(pfs, j, cfg);
  }

  /** The rendering loop: each parser in turn. */
  method RenderParsers(file: OutputFile, parsers: seq<ClassParser>, cfg: Config)
    modifies file
    ensures ParserValues(parsers) == old(ParserValues(parsers))
    ensures file.text == old(file.text) + RenderAll(old(ParserValues(parsers)), cfg)
  {
    ghost var pfs := ParserValues(parsers);
    for j := 0 to |parsers|
      invariant ParserValues(parsers) == pfs
      invariant file.text == old(file.text) + RenderAll(pfs[..j], cfg)
    {
      RenderOne(file, parsers, j, cfg);
      RenderAllStep(old(file.text), pfs, j, cfg);
    }
    assert pfs[..|parsers|] == pfs;
  }

  /** Writing the output: the header, then every parser. */
  method WriteOutput(file: OutputFile, parsers: seq<ClassParser>, cfg: Config)
    modifies file
    ensures file.text == old(file.text) + Head + RenderAll(old(ParserValues(parsers)), cfg)
  {
    AllParamsAllocated(parsers);
    ghost var pfs := ParserValues(parsers);
    file.Write(Head);
    assert ParserValues(parsers) == pfs;
    RenderParsers(file, parsers, cfg);
  }

  /** The script: the result file is created, every stub file parsed, then
      the header and the classes written. When a file fails to parse the run
      stops with the result file created but still empty. */
  method Run(stubs: seq<StubFile>, cfg: Config) returns (resultFile: OutputFile, ok: bool)
    ensures ok <==> ConvertFiles(stubs, cfg).Ok?
    ensures resultFile.text == if ok then ConvertFiles(stubs, cfg).value else ""
  {
    resultFile := new OutputFile();
    var parsers;
    ok, parsers := ParseFiles(stubs, cfg);
    if !ok {
      return;
    }
    ghost var pfs := ParseAll(stubs, cfg).value;
    WriteOutput(resultFile, parsers, cfg);
    assert resultFile.text == "" + Head + RenderAll(pfs, cfg);
    assert "" + Head == Head;
  }
}
