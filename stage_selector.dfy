/**
 * How `_create_processors_from_description` (deploy_flow.py) turns a
 * natural-language description into processor stages: keyword rules over
 * the lower-cased text choose one source archetype, optional transform and
 * filter stages, and one destination archetype; each archetype is a fixed
 * processor type with a fixed initial configuration (the `_add_*` helpers).
 */
module StageSelector {
  import opened Common
  import opened Engine
  import opened Text

  /** The eight processor archetypes, one per `_add_*` helper. */
  datatype Archetype =
    | FileReader | Generator | HttpListener
    | Transformer | Filter
    | Logger | FileWriter | DatabaseWriter

  /** A stage: the key it is stored under ("source", "transform", "filter", "destination") and its archetype. */
  type Stage = (string, Archetype)

  const StandardPackage := "org.apache.nifi.processors.standard."

  function ProcessorType(a: Archetype): string
  {
    StandardPackage + match a
      case FileReader => "GetFile"
      case Generator => "GenerateFlowFile"
      case HttpListener => "ListenHTTP"
      case Transformer => "ReplaceText"
      case Filter => "RouteOnAttribute"
      case Logger => "LogAttribute"
      case FileWriter => "PutFile"
      case DatabaseWriter => "PutDatabaseRecord"
  }

  /** The `config` object each helper sends with its processor. */
  function ArchetypeConfig(a: Archetype): Config
  {
    match a
      case FileReader =>
        Config([("Input Directory", "/tmp/input"), ("File Filter", ".*\\.txt$"), ("Recurse Subdirectories", "true")],
               Some("1 sec"), [])
      case Generator =>
        Config([("File Size", "1KB"), ("Batch Size", "1"), ("Data Format", "Text")], Some("1 sec"), [])
      case HttpListener =>
        Config([("Listening Port", "8081"), ("Base Path", "/nifi")], None, [])
      case Transformer =>
        Config([("Replacement Value", "transformed"), ("Search Value", "original")], None, [])
      case Filter =>
        Config([("Filter Mode", "include"), ("Filter", ".*")], None, [])
      case Logger =>
        Config([("Log Level", "info"), ("Log Payload", "true")], None, ["success"])
      case FileWriter =>
        Config([("Directory", "/tmp/output"), ("Conflict Resolution Strategy", "replace")], None, [])
      case DatabaseWriter =>
        Config([("Database Connection Pooling Service", ""),
                ("SQL Statement", "INSERT INTO test_table (data) VALUES (?)")], None, [])
  }

  /** The stage key an archetype can be chosen for. */
  function RoleOf(a: Archetype): string
  {
    match a
      case FileReader | Generator | HttpListener => "source"
      case Transformer => "transform"
      case Filter => "filter"
      case Logger | FileWriter | DatabaseWriter => "destination"
  }

  /** Position of a stage key in the pipeline order. */
  function Rank(key: string): nat
  {
    if key == "source" then 0
    else if key == "transform" then 1
    else if key == "filter" then 2
    else 3
  }

  /**
   * What the helpers configure: only the two polling sources carry a scheduling period, of one second,
   * and only the logger pre-terminates a relationship, "success"; every type is a standard processor.
   */
  lemma ArchetypeSettings(a: Archetype)
    ensures ArchetypeConfig(a).schedulingPeriod.Some? <==> a == FileReader || a == Generator
    ensures ArchetypeConfig(a).schedulingPeriod.Some? ==> ArchetypeConfig(a).schedulingPeriod.value == "1 sec"
    ensures ArchetypeConfig(a).autoTerminatedRelationships == (if a == Logger then ["success"] else [])
    ensures |ArchetypeConfig(a).properties| >= 2
    ensures ProcessorType(a)[..|StandardPackage|] == StandardPackage
  {
  }

  // ---------------------------------------------------------------------
  // The keyword rules
  // ---------------------------------------------------------------------

  /** The source archetype for a lower-cased description. */
  function SourceArchetype(d: string): Archetype
  {
    if Contains(d, "file") && Contains(d, "read") then FileReader
    else if Contains(d, "generate") then Generator
    else if Contains(d, "http") then HttpListener
    else Generator
  }

  /** The destination archetype for a lower-cased description. */
  function DestinationArchetype(d: string): Archetype
  {
    if Contains(d, "log") then Logger
    else if Contains(d, "file") && Contains(d, "write") then FileWriter
    else if Contains(d, "database") then DatabaseWriter
    else Logger
  }

  predicate WantsTransform(d: string)
  {
    Contains(d, "transform") || Contains(d, "convert")
  }

  predicate WantsFilter(d: string)
  {
    Contains(d, "filter")
  }

  /** The stages for a description, in the order they are created and stored. */
  function SelectStages(description: string): (stages: seq<Stage>)
    ensures 2 <= |stages| <= 4
    ensures stages[0] == ("source", SourceArchetype(Lower(description)))
    ensures stages[|stages| - 1] == ("destination", DestinationArchetype(Lower(description)))
    ensures ("transform", Transformer) in stages <==> WantsTransform(Lower(description))
    ensures ("filter", Filter) in stages <==> WantsFilter(Lower(description))
  {
    var d := Lower(description);
    [("source", SourceArchetype(d))]
      + (if WantsTransform(d) then [("transform", Transformer)] else [])
      + (if WantsFilter(d) then [("filter", Filter)] else [])
      + [("destination", DestinationArchetype(d))]
  }

  /** Every stage holds an archetype chosen for its key. */
  lemma SelectStagesRoles(description: string)
    ensures var stages := SelectStages(description);
      forall i :: 0 <= i < |stages| ==> RoleOf(stages[i].1) == stages[i].0
  {
    var d := Lower(description);
    var src := ("source", SourceArchetype(d));
    var dst := ("destination", DestinationArchetype(d));
    assert RoleOf(src.1) == "source" && RoleOf(dst.1) == "destination";
    var stages := SelectStages(description);
    if WantsTransform(d) && WantsFilter(d) {
      assert stages == [src, ("transform", Transformer), ("filter", Filter), dst];
    } else if WantsTransform(d) {
      assert stages == [src, ("transform", Transformer), dst];
    } else if WantsFilter(d) {
      assert stages == [src, ("filter", Filter), dst];
    } else {
      assert stages == [src, dst];
    }
  }

  /** The keys come in pipeline order, each at most once: source, transform, filter, destination. */
  lemma SelectStagesOrdered(description: string)
    ensures var stages := SelectStages(description);
      forall i, j :: 0 <= i < j < |stages| ==> Rank(stages[i].0) < Rank(stages[j].0)
  {
    var d := Lower(description);
    var src := ("source", SourceArchetype(d));
    var dst := ("destination", DestinationArchetype(d));
    assert Rank("source") == 0 && Rank("transform") == 1 && Rank("filter") == 2 && Rank("destination") == 3;
    var stages := SelectStages(description);
    if WantsTransform(d) && WantsFilter(d) {
      assert stages == [src, ("transform", Transformer), ("filter", Filter), dst];
    } else if WantsTransform(d) {
      assert stages == [src, ("transform", Transformer), dst];
    } else if WantsFilter(d) {
      assert stages == [src, ("filter", Filter), dst];
    } else {
      assert stages == [src, dst];
    }
  }

  // ---------------------------------------------------------------------
  // A rule-table reading of the same choice
  // ---------------------------------------------------------------------

  /** A rule fires when every one of its keywords occurs in the text. */
  datatype Rule = Rule(keywords: seq<string>, archetype: Archetype)

  predicate Fires(d: string, r: Rule)
  {
    AllContained(d, r.keywords)
  }

  predicate AllContained(d: string, keywords: seq<string>)
  {
    |keywords| == 0 || (Contains(d, keywords[0]) && AllContained(d, keywords[1..]))
  }

  /** The archetype of the first rule that fires, else the default. */
  function FirstMatch(d: string, rules: seq<Rule>, default: Archetype): (a: Archetype)
    ensures a == default || exists i :: 0 <= i < |rules| && rules[i].archetype == a && Fires(d, rules[i])
  {
    if rules == [] then default
    else if Fires(d, rules[0]) then rules[0].archetype
    else FirstMatch(d, rules[1..], default)
  }

  const SourceRules := [Rule(["file", "read"], FileReader), Rule(["generate"], Generator), Rule(["http"], HttpListener)]
  const DestinationRules := [Rule(["log"], Logger), Rule(["file", "write"], FileWriter), Rule(["database"], DatabaseWriter)]

  lemma FiresSingle(d: string, k: string)
    ensures AllContained(d, [k]) <==> Contains(d, k)
  {
    assert [k][1..] == [];
    assert AllContained(d, []);
  }

  lemma FiresPair(d: string, k1: string, k2: string)
    ensures AllContained(d, [k1, k2]) <==> Contains(d, k1) && Contains(d, k2)
  {
    assert [k1, k2][1..] == [k2];
    FiresSingle(d, k2);
    assert AllContained(d, [k1, k2]) <==> Contains(d, k1) && AllContained(d, [k2]);
  }

  /** The source conditional is the first-match reading of its rule table, defaulting to the generator. */
  lemma SourceFollowsRules(d: string)
    ensures SourceArchetype(d) == FirstMatch(d, SourceRules, Generator)
  {
    FiresPair(d, "file", "read");
    FiresSingle(d, "generate");
    FiresSingle(d, "http");
    var r0, r1, r2 := Rule(["file", "read"], FileReader), Rule(["generate"], Generator), Rule(["http"], HttpListener);
    assert SourceRules[1..] == [r1, r2] && [r1, r2][1..] == [r2] && [r2][1..] == [];
    assert FirstMatch(d, [r2], Generator) == (if Contains(d, "http") then HttpListener else Generator);
    assert FirstMatch(d, [r1, r2], Generator)
        == (if Contains(d, "generate") then Generator else FirstMatch(d, [r2], Generator));
    assert FirstMatch(d, SourceRules, Generator)
        == (if Contains(d, "file") && Contains(d, "read") then FileReader else FirstMatch(d, [r1, r2], Generator));
  }

  /** The destination conditional is the first-match reading of its rule table, defaulting to the logger. */
  lemma DestinationFollowsRules(d: string)
    ensures DestinationArchetype(d) == FirstMatch(d, DestinationRules, Logger)
  {
    FiresSingle(d, "log");
    FiresPair(d, "file", "write");
    FiresSingle(d, "database");
    var r0, r1, r2 := Rule(["log"], Logger), Rule(["file", "write"], FileWriter), Rule(["database"], DatabaseWriter);
    assert DestinationRules[1..] == [r1, r2] && [r1, r2][1..] == [r2] && [r2][1..] == [];
    assert FirstMatch(d, [r2], Logger) == (if Contains(d, "database") then DatabaseWriter else Logger);
    assert FirstMatch(d, [r1, r2], Logger)
        == (if Contains(d, "file") && Contains(d, "write") then FileWriter else FirstMatch(d, [r2], Logger));
    assert FirstMatch(d, DestinationRules, Logger)
        == (if Contains(d, "log") then Logger else FirstMatch(d, [r1, r2], Logger));
  }

  /** "log" anywhere selects the logger, even when "file" and "write" also occur. */
  lemma LogTakesPrecedence(d: string)
    requires Contains(d, "log")
    ensures DestinationArchetype(d) == Logger
  {
  }

  /** Reading a file wins over "generate" and "http". */
  lemma FileReadTakesPrecedence(d: string)
    requires Contains(d, "file") && Contains(d, "read")
    ensures SourceArchetype(d) == FileReader
  {
  }

  /** A description with none of the keywords yields the two-stage default, generator then logger. */
  lemma DefaultStages(description: string)
    requires var d := Lower(description);
      && !Contains(d, "read") && !Contains(d, "generate") && !Contains(d, "http")
      && !Contains(d, "transform") && !Contains(d, "convert") && !Contains(d, "filter")
      && !Contains(d, "log") && !Contains(d, "write") && !Contains(d, "database")
    ensures SelectStages(description) == [("source", Generator), ("destination", Logger)]
  {
  }

  // ---------------------------------------------------------------------
  // The three example descriptions of the deploy script
  // ---------------------------------------------------------------------

  /** A keyword occurs in a lower-cased sentence iff it occurs in one of its lower-cased words. */
  lemma MentionIn(words: seq<string>, keyword: string)
    requires ' ' !in keyword && |keyword| > 0
    ensures Contains(Lower(Sentence(words)), keyword) <==> AnyContains(LowerAll(words), keyword)
  {
    LowerSentence(words);
    ContainsSentence(LowerAll(words), keyword);
    AnyContainsIff(LowerAll(words), keyword);
  }

  /** "Generate data and log it". */
  const SimpleLoggingWords := ["Generate", "data", "and", "log", "it"]

  /** "Read from file, transform data, and write to output file". */
  const FileProcessingWords := ["Read", "from", "file,", "transform", "data,", "and", "write", "to", "output", "file"]

  /** "Listen for HTTP requests, filter data, and log results". */
  const HttpDataWords := ["Listen", "for", "HTTP", "requests,", "filter", "data,", "and", "log", "results"]

  const SimpleLoggingLower := ["generate", "data", "and", "log", "it"]
  const FileProcessingLower := ["read", "from", "file,", "transform", "data,", "and", "write", "to", "output", "file"]
  const HttpDataLower := ["listen", "for", "http", "requests,", "filter", "data,", "and", "log", "results"]

  lemma SimpleLoggingLowered()
    ensures LowerAll(SimpleLoggingWords) == SimpleLoggingLower
  {
    assert Lower("Generate") == "generate";
    assert Lower("data") == "data";
    assert Lower("and") == "and";
    assert Lower("log") == "log";
    assert Lower("it") == "it";
  }

  lemma FileProcessingLowered()
    ensures LowerAll(FileProcessingWords) == FileProcessingLower
  {
    assert Lower("Read") == "read";
    assert Lower("from") == "from";
    assert Lower("file,") == "file,";
    assert Lower("transform") == "transform";
    assert Lower("data,") == "data,";
    assert Lower("and") == "and";
    assert Lower("write") == "write";
    assert Lower("to") == "to";
    assert Lower("output") == "output";
    assert Lower("file") == "file";
  }

  lemma HttpDataLowered()
    ensures LowerAll(HttpDataWords) == HttpDataLower
  {
    assert Lower("Listen") == "listen";
    assert Lower("for") == "for";
    assert Lower("HTTP") == "http";
    assert Lower("requests,") == "requests,";
    assert Lower("filter") == "filter";
    assert Lower("data,") == "data,";
    assert Lower("and") == "and";
    assert Lower("log") == "log";
    assert Lower("results") == "results";
  }

  /** Each keyword the rules test occurs in the lower-cased sentence iff it occurs in a lower-cased word. */
  lemma KeywordsIn(words: seq<string>)
    ensures var d := Lower(Sentence(words)); var l := LowerAll(words);
      && (Contains(d, "file") <==> AnyContains(l, "file"))
      && (Contains(d, "read") <==> AnyContains(l, "read"))
      && (Contains(d, "generate") <==> AnyContains(l, "generate"))
      && (Contains(d, "http") <==> AnyContains(l, "http"))
      && (Contains(d, "log") <==> AnyContains(l, "log"))
      && (Contains(d, "write") <==> AnyContains(l, "write"))
      && (Contains(d, "database") <==> AnyContains(l, "database"))
      && (Contains(d, "transform") <==> AnyContains(l, "transform"))
      && (Contains(d, "convert") <==> AnyContains(l, "convert"))
      && (Contains(d, "filter") <==> AnyContains(l, "filter"))
  {
    MentionIn(words, "file");
    MentionIn(words, "read");
    MentionIn(words, "generate");
    MentionIn(words, "http");
    MentionIn(words, "log");
    MentionIn(words, "write");
    MentionIn(words, "database");
    MentionIn(words, "transform");
    MentionIn(words, "convert");
    MentionIn(words, "filter");
  }

  /** Keywords the first example mentions. */
  lemma SimpleLoggingMentions()
    ensures AnyContains(SimpleLoggingLower, "generate")
    ensures AnyContains(SimpleLoggingLower, "log")
  {
    MentionedAt(SimpleLoggingLower, "generate", 0, 0);
    MentionedAt(SimpleLoggingLower, "log", 3, 0);
  }

  /** The first example does not mention "file". */
  lemma SimpleLoggingOmitsFile()
    ensures !AnyContains(SimpleLoggingLower, "file")
  {
    assert !AnyContainsFrom(SimpleLoggingLower, "file", 4);
    assert !AnyContainsFrom(SimpleLoggingLower, "file", 3);
    assert !AnyContainsFrom(SimpleLoggingLower, "file", 2);
    assert !AnyContainsFrom(SimpleLoggingLower, "file", 1);
  }

  /** The first example does not mention "transform". */
  lemma SimpleLoggingOmitsTransform()
    ensures !AnyContains(SimpleLoggingLower, "transform")
  {
    assert !AnyContainsFrom(SimpleLoggingLower, "transform", 4);
    assert !AnyContainsFrom(SimpleLoggingLower, "transform", 3);
    assert !AnyContainsFrom(SimpleLoggingLower, "transform", 2);
    assert !AnyContainsFrom(SimpleLoggingLower, "transform", 1);
  }

  /** The first example does not mention "convert". */
  lemma SimpleLoggingOmitsConvert()
    ensures !AnyContains(SimpleLoggingLower, "convert")
  {
    assert !AnyContainsFrom(SimpleLoggingLower, "convert", 4);
    assert !AnyContainsFrom(SimpleLoggingLower, "convert", 3);
    assert !AnyContainsFrom(SimpleLoggingLower, "convert", 2);
    assert !AnyContainsFrom(SimpleLoggingLower, "convert", 1);
  }

  /** The first example does not mention "filter". */
  lemma SimpleLoggingOmitsFilter()
    ensures !AnyContains(SimpleLoggingLower, "filter")
  {
    assert !AnyContainsFrom(SimpleLoggingLower, "filter", 4);
    assert !AnyContainsFrom(SimpleLoggingLower, "filter", 3);
    assert !AnyContainsFrom(SimpleLoggingLower, "filter", 2);
    assert !AnyContainsFrom(SimpleLoggingLower, "filter", 1);
  }

  /** The rule tests the first example passes and fails. */
  lemma SimpleLoggingTests()
    ensures var d := Lower(Sentence(SimpleLoggingWords));
      SourceArchetype(d) == Generator && !WantsTransform(d) && !WantsFilter(d) && DestinationArchetype(d) == Logger
  {
    SimpleLoggingLowered();
    SimpleLoggingMentions();
    SimpleLoggingOmitsFile();
    SimpleLoggingOmitsTransform();
    SimpleLoggingOmitsConvert();
    SimpleLoggingOmitsFilter();
    KeywordsIn(SimpleLoggingWords);
  }

  /** The first example builds a generator feeding a logger. */
  lemma SimpleLoggingExample()
    ensures SelectStages(Sentence(SimpleLoggingWords)) == [("source", Generator), ("destination", Logger)]
  {
    SimpleLoggingTests();
  }


  /** Keywords the second example mentions. */
  lemma FileProcessingMentions()
    ensures AnyContains(FileProcessingLower, "file")
    ensures AnyContains(FileProcessingLower, "read")
    ensures AnyContains(FileProcessingLower, "transform")
    ensures AnyContains(FileProcessingLower, "write")
  {
    MentionedAt(FileProcessingLower, "file", 2, 0);
    MentionedAt(FileProcessingLower, "read", 0, 0);
    MentionedAt(FileProcessingLower, "transform", 3, 0);
    MentionedAt(FileProcessingLower, "write", 6, 0);
  }

  /** The second example does not mention "filter". */
  lemma FileProcessingOmitsFilter()
    ensures !AnyContains(FileProcessingLower, "filter")
  {
    assert !AnyContainsFrom(FileProcessingLower, "filter", 9);
    assert !AnyContainsFrom(FileProcessingLower, "filter", 8);
    assert !AnyContainsFrom(FileProcessingLower, "filter", 7);
    assert !AnyContainsFrom(FileProcessingLower, "filter", 6);
    assert !AnyContainsFrom(FileProcessingLower, "filter", 5);
    assert !AnyContainsFrom(FileProcessingLower, "filter", 4);
    assert !AnyContainsFrom(FileProcessingLower, "filter", 3);
    assert !AnyContainsFrom(FileProcessingLower, "filter", 2);
    assert !AnyContainsFrom(FileProcessingLower, "filter", 1);
  }

  /** The second example does not mention "log". */
  lemma FileProcessingOmitsLog()
    ensures !AnyContains(FileProcessingLower, "log")
  {
    assert !AnyContainsFrom(FileProcessingLower, "log", 9);
    assert !AnyContainsFrom(FileProcessingLower, "log", 8);
    assert !AnyContainsFrom(FileProcessingLower, "log", 7);
    assert !AnyContainsFrom(FileProcessingLower, "log", 6);
    assert !AnyContainsFrom(FileProcessingLower, "log", 5);
    assert !AnyContainsFrom(FileProcessingLower, "log", 4);
    assert !AnyContainsFrom(FileProcessingLower, "log", 3);
    assert !AnyContainsFrom(FileProcessingLower, "log", 2);
    assert !AnyContainsFrom(FileProcessingLower, "log", 1);
  }

  /** The second example does not mention "convert". */
  lemma FileProcessingOmitsConvert()
    ensures !AnyContains(FileProcessingLower, "convert")
  {
    assert !AnyContainsFrom(FileProcessingLower, "convert", 9);
    assert !AnyContainsFrom(FileProcessingLower, "convert", 8);
    assert !AnyContainsFrom(FileProcessingLower, "convert", 7);
    assert !AnyContainsFrom(FileProcessingLower, "convert", 6);
    assert !AnyContainsFrom(FileProcessingLower, "convert", 5);
    assert !AnyContainsFrom(FileProcessingLower, "convert", 4);
    assert !AnyContainsFrom(FileProcessingLower, "convert", 3);
    assert !AnyContainsFrom(FileProcessingLower, "convert", 2);
    assert !AnyContainsFrom(FileProcessingLower, "convert", 1);
  }

  /** The rule tests the second example passes and fails. */
  lemma FileProcessingTests()
    ensures var d := Lower(Sentence(FileProcessingWords));
      SourceArchetype(d) == FileReader && WantsTransform(d) && !WantsFilter(d) && DestinationArchetype(d) == FileWriter
  {
    FileProcessingLowered();
    FileProcessingMentions();
    FileProcessingOmitsFilter();
    FileProcessingOmitsLog();
    FileProcessingOmitsConvert();
    KeywordsIn(FileProcessingWords);
  }

  /** The second example builds a file reader, a transformer and a file writer. */
  lemma FileProcessingExample()
    ensures SelectStages(Sentence(FileProcessingWords)) == [("source", FileReader), ("transform", Transformer), ("destination", FileWriter)]
  {
    FileProcessingTests();
  }


  /** Keywords the third example mentions. */
  lemma HttpDataMentions()
    ensures AnyContains(HttpDataLower, "http")
    ensures AnyContains(HttpDataLower, "filter")
    ensures AnyContains(HttpDataLower, "log")
  {
    MentionedAt(HttpDataLower, "http", 2, 0);
    MentionedAt(HttpDataLower, "filter", 4, 0);
    MentionedAt(HttpDataLower, "log", 7, 0);
  }

  /** The third example does not mention "read". */
  lemma HttpDataOmitsRead()
    ensures !AnyContains(HttpDataLower, "read")
  {
    assert !AnyContainsFrom(HttpDataLower, "read", 8);
    assert !AnyContainsFrom(HttpDataLower, "read", 7);
    assert !AnyContainsFrom(HttpDataLower, "read", 6);
    assert !AnyContainsFrom(HttpDataLower, "read", 5);
    assert !AnyContainsFrom(HttpDataLower, "read", 4);
    assert !AnyContainsFrom(HttpDataLower, "read", 3);
    assert !AnyContainsFrom(HttpDataLower, "read", 2);
    assert !AnyContainsFrom(HttpDataLower, "read", 1);
  }

  /** The third example does not mention "generate". */
  lemma HttpDataOmitsGenerate()
    ensures !AnyContains(HttpDataLower, "generate")
  {
    assert !AnyContainsFrom(HttpDataLower, "generate", 8);
    assert !AnyContainsFrom(HttpDataLower, "generate", 7);
    assert !AnyContainsFrom(HttpDataLower, "generate", 6);
    assert !AnyContainsFrom(HttpDataLower, "generate", 5);
    assert !AnyContainsFrom(HttpDataLower, "generate", 4);
    assert !AnyContainsFrom(HttpDataLower, "generate", 3);
    assert !AnyContainsFrom(HttpDataLower, "generate", 2);
    assert !AnyContainsFrom(HttpDataLower, "generate", 1);
  }

  /** The third example does not mention "transform". */
  lemma HttpDataOmitsTransform()
    ensures !AnyContains(HttpDataLower, "transform")
  {
    assert !AnyContainsFrom(HttpDataLower, "transform", 8);
    assert !AnyContainsFrom(HttpDataLower, "transform", 7);
    assert !AnyContainsFrom(HttpDataLower, "transform", 6);
    assert !AnyContainsFrom(HttpDataLower, "transform", 5);
    assert !AnyContainsFrom(HttpDataLower, "transform", 4);
    assert !AnyContainsFrom(HttpDataLower, "transform", 3);
    assert !AnyContainsFrom(HttpDataLower, "transform", 2);
    assert !AnyContainsFrom(HttpDataLower, "transform", 1);
  }

  /** The third example does not mention "convert". */
  lemma HttpDataOmitsConvert()
    ensures !AnyContains(HttpDataLower, "convert")
  {
    assert !AnyContainsFrom(HttpDataLower, "convert", 8);
    assert !AnyContainsFrom(HttpDataLower, "convert", 7);
    assert !AnyContainsFrom(HttpDataLower, "convert", 6);
    assert !AnyContainsFrom(HttpDataLower, "convert", 5);
    assert !AnyContainsFrom(HttpDataLower, "convert", 4);
    assert !AnyContainsFrom(HttpDataLower, "convert", 3);
    assert !AnyContainsFrom(HttpDataLower, "convert", 2);
    assert !AnyContainsFrom(HttpDataLower, "convert", 1);
  }

  /** The rule tests the third example passes and fails. */
  lemma HttpDataTests()
    ensures var d := Lower(Sentence(HttpDataWords));
      SourceArchetype(d) == HttpListener && !WantsTransform(d) && WantsFilter(d) && DestinationArchetype(d) == Logger
  {
    HttpDataLowered();
    HttpDataMentions();
    HttpDataOmitsRead();
    HttpDataOmitsGenerate();
    HttpDataOmitsTransform();
    HttpDataOmitsConvert();
    KeywordsIn(HttpDataWords);
  }

  /** The third example builds an HTTP listener, a filter and a logger. */
  lemma HttpDataExample()
    ensures SelectStages(Sentence(HttpDataWords)) == [("source", HttpListener), ("filter", Filter), ("destination", Logger)]
  {
    HttpDataTests();
  }
}
