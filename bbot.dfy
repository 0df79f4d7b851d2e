/** The reconnaissance scanner's two operations: each builds one bbot command line,
    runs it with the default timeout and shapes the result. */
module Bbot {
  import opened JsText
  import opened Utils

  datatype ScanOptions = ScanOptions(
    target: string, modules: Option<seq<string>>, outputFormat: Option<string>, depth: Option<int>)

  datatype SubdomainOptions = SubdomainOptions(
    domain: string, depth: Option<int>, techniques: Option<seq<string>>)

  /** `xs.map(sanitizeInput)`. */
  function SanitizeEach(xs: seq<string>): (r: seq<string>)
    ensures |r| == |xs|
    ensures forall i :: 0 <= i < |xs| ==> r[i] == SanitizeInput(xs[i])
  {
    if xs == [] then [] else [SanitizeInput(xs[0])] + SanitizeEach(xs[1..])
  }

  /** `xs?.map(sanitizeInput).join(',') || d`: an absent list, and a list whose join is
      empty, give the default. */
  function ListOrDefault(xs: Option<seq<string>>, d: string): (r: string)
    ensures xs == None ==> r == d
    ensures xs.Some? && Join(SanitizeEach(xs.value), ",") == "" ==> r == d
    ensures xs.Some? && Join(SanitizeEach(xs.value), ",") != "" ==> r == Join(SanitizeEach(xs.value), ",")
  {
    match xs
    case None => d
    case Some(ys) => OrText(Some(Join(SanitizeEach(ys), ",")), d)
  }

  /** The join of the sanitized entries is empty exactly when there are no entries, or
      one entry made only of deleted characters; so a list of two or more entries never
      falls back to the default, even when every entry sanitizes to nothing. */
  lemma {:induction false} EmptyJoinIff(xs: seq<string>)
    ensures Join(SanitizeEach(xs), ",") == ""
        <==> |xs| == 0 || (|xs| == 1 && forall i :: 0 <= i < |xs[0]| ==> IsDenied(xs[0][i]))
  {
    JoinEmptyIff(SanitizeEach(xs), ",");
    if |xs| == 1 {
      SanitizeEmptyIff(xs[0]);
    }
  }

  /** Comma-joined sanitized entries keep the sanitizer's output shape. */
  lemma {:induction false} JoinSanitized(xs: seq<string>)
    ensures IsSanitized(Join(SanitizeEach(xs), ","))
    decreases |xs|
  {
    var ys := SanitizeEach(xs);
    if |xs| == 0 {
      PlainIsSanitized("");
    } else if |xs| == 1 {
      SanitizeOutputIsSanitized(xs[0]);
    } else {
      assert SanitizeEach(xs[1..]) == ys[1..];
      JoinSanitized(xs[1..]);
      SanitizeOutputIsSanitized(xs[0]);
      assert AllPlain(",");
      PlainIsSanitized(",");
      SanitizedConcat(ys[0], ",");
      SanitizedConcat(ys[0] + ",", Join(ys[1..], ","));
    }
  }

  /** The default texts of the two builders are plain, so the sanitized list or its
      default is sanitized text either way. */
  lemma DefaultListsPlain(s: string)
    requires s in {"subdomain_enum,web_discovery", "dns,scrape", "json"}
    ensures AllPlain(s)
  {
    assert AllWordChars(s);
    WordCharsArePlain(s);
  }

  lemma ListOrDefaultSanitized(xs: Option<seq<string>>, d: string)
    requires AllPlain(d)
    ensures IsSanitized(ListOrDefault(xs, d))
  {
    PlainIsSanitized(d);
    if xs.Some? {
      JoinSanitized(xs.value);
    }
  }

  /** scanTarget's command: `bbot -t <target> -m <modules> -o <format> -d <depth> --no-color`. */
  function BuildScanTarget(o: ScanOptions): string {
    var target := SanitizeInput(o.target);
    var modules := ListOrDefault(o.modules, "subdomain_enum,web_discovery");
    var outputFormat := SanitizeInput(OrText(o.outputFormat, "json"));
    var depth := OrNumber(o.depth, 1);
    "bbot -t " + target + " -m " + modules + " -o " + outputFormat + " -d " + IntToString(depth) + " --no-color"
  }

  lemma ScanTargetTexts(s: string)
    requires s in {"bbot -t ", " -m ", " -o ", " -d ", " --no-color"}
    ensures IsSanitized(s)
  {
    assert AllWordChars(s);
    WordCharsArePlain(s);
    PlainIsSanitized(s);
  }

  lemma ScanTargetTemplate(target: string, modules: string, outputFormat: string, depth: string)
    requires IsSanitized(target) && IsSanitized(modules) && IsSanitized(outputFormat) && IsSanitized(depth)
    ensures IsSanitized("bbot -t " + target + " -m " + modules + " -o " + outputFormat + " -d " + depth + " --no-color")
  {
    ScanTargetTexts("bbot -t ");
    ScanTargetTexts(" -m ");
    ScanTargetTexts(" -o ");
    ScanTargetTexts(" -d ");
    ScanTargetTexts(" --no-color");
    var head := "bbot -t " + target + " -m " + modules + " -o " + outputFormat + " -d ";
    SanitizedFields("bbot -t ", target, " -m ", modules, " -o ", outputFormat, " -d ");
    SanitizedConcat(head, depth);
    SanitizedConcat(head + depth, " --no-color");
  }

  /** The scan command has the sanitizer's output shape, whatever the options. */
  lemma ScanTargetIsSanitized(o: ScanOptions)
    ensures IsSanitized(BuildScanTarget(o))
  {
    SanitizeOutputIsSanitized(o.target);
    DefaultListsPlain("subdomain_enum,web_discovery");
    ListOrDefaultSanitized(o.modules, "subdomain_enum,web_discovery");
    SanitizeOutputIsSanitized(OrText(o.outputFormat, "json"));
    NumberIsPlain(OrNumber(o.depth, 1));
    PlainIsSanitized(IntToString(OrNumber(o.depth, 1)));
    ScanTargetTemplate(SanitizeInput(o.target), ListOrDefault(o.modules, "subdomain_enum,web_discovery"),
      SanitizeInput(OrText(o.outputFormat, "json")), IntToString(OrNumber(o.depth, 1)));
  }

  lemma JsonUnchanged(s: string)
    requires s == "json"
    ensures SanitizeInput(s) == s
  {
    DefaultListsPlain(s);
    SanitizePlainUnchanged(s);
  }

  // Associativity step for `ScanTargetDefaults`: it only regroups concatenations.
  lemma Pairs(x: string, a: string, b: string, c: string, d: string, e: string, f: string, g: string)
    ensures x + a + b + c + d + e + f + g == x + (a + b) + (c + d) + (e + f) + g
  {
  }

  lemma ScanTargetDefaultsText()
    ensures " -m " + "subdomain_enum,web_discovery" == " -m subdomain_enum,web_discovery"
    ensures " -o " + "json" == " -o json"
    ensures " -d " + "1" == " -d 1"
  {
  }

  /** With no modules, format or depth the scan runs the subdomain and web discovery
      modules to depth 1 with JSON output. */
  lemma ScanTargetDefaults(o: ScanOptions)
    requires o.modules == None || o.modules == Some([])
    requires o.outputFormat == None || o.outputFormat == Some("")
    requires o.depth == None || o.depth == Some(0)
    ensures BuildScanTarget(o)
         == "bbot -t " + SanitizeInput(o.target) + " -m subdomain_enum,web_discovery" + " -o json" + " -d 1" + " --no-color"
  {
    JsonUnchanged("json");
    assert IntToString(1) == "1";
    ScanTargetDefaultsText();
    Pairs("bbot -t " + SanitizeInput(o.target), " -m ", "subdomain_enum,web_discovery", " -o ", "json", " -d ", "1", " --no-color");
  }

  /** enumerateSubdomains's command: the subdomain module with the given techniques and
      depth, JSON output. */
  function BuildEnumerateSubdomains(o: SubdomainOptions): string {
    var domain := SanitizeInput(o.domain);
    var depth := OrNumber(o.depth, 2);
    var techniques := ListOrDefault(o.techniques, "dns,scrape");
    "bbot -t " + domain + " -m subdomain_enum -f techniques=" + techniques + " -d " + IntToString(depth)
      + " -o json --no-color"
  }

  lemma SubdomainTexts(s: string)
    requires s in {"bbot -t ", " -d ", " -o json --no-color"}
    ensures IsSanitized(s)
  {
    assert AllWordChars(s);
    WordCharsArePlain(s);
    PlainIsSanitized(s);
  }

  lemma ModuleFlagSanitized(s: string)
    requires s == " -m subdomain_enum -f techniques="
    ensures IsSanitized(s)
  {
    assert AllWordChars(s);
    WordCharsArePlain(s);
    PlainIsSanitized(s);
  }

  /** The subdomain command has the sanitizer's output shape, whatever the options. */
  lemma EnumerateSubdomainsIsSanitized(o: SubdomainOptions)
    ensures IsSanitized(BuildEnumerateSubdomains(o))
  {
    SubdomainTexts("bbot -t ");
    ModuleFlagSanitized(" -m subdomain_enum -f techniques=");
    SubdomainTexts(" -d ");
    SubdomainTexts(" -o json --no-color");
    SanitizeOutputIsSanitized(o.domain);
    DefaultListsPlain("dns,scrape");
    ListOrDefaultSanitized(o.techniques, "dns,scrape");
    NumberIsPlain(OrNumber(o.depth, 2));
    PlainIsSanitized(IntToString(OrNumber(o.depth, 2)));
    SanitizedFields("bbot -t ", SanitizeInput(o.domain), " -m subdomain_enum -f techniques=",
      ListOrDefault(o.techniques, "dns,scrape"), " -d ", IntToString(OrNumber(o.depth, 2)), " -o json --no-color");
  }

  lemma ModuleFlagText(l: string)
    requires l == " -m subdomain_enum -f techniques="
    ensures l == " " + "-m subdomain_enum" + " -f techniques="
  {
  }

  lemma JsonFlagText(l: string)
    requires l == " -o json --no-color"
    ensures l == " " + "-o json" + " --no-color"
  {
  }

  // Associativity step for `EnumerateSubdomainsFixedModule`: it only regroups concatenations.
  lemma RegroupMiddle(x: string, a: string, t: string, b: string, c: string, d: string, e: string, f: string)
    ensures x + (a + t + b) + c + d + e + f == (x + a) + t + (b + c + d + e + f)
  {
  }

  // Associativity step for `EnumerateSubdomainsFixedModule`: it only regroups concatenations.
  lemma RegroupEnd(x: string, a: string, t: string, b: string)
    ensures x + (a + t + b) == (x + a) + t + b
  {
  }

  /** Whatever the options, the subdomain command selects the subdomain module and JSON
      output. */
  lemma EnumerateSubdomainsFixedModule(o: SubdomainOptions)
    ensures Contains(BuildEnumerateSubdomains(o), "-m subdomain_enum")
    ensures Contains(BuildEnumerateSubdomains(o), "-o json")
  {
    var domain := SanitizeInput(o.domain);
    var t := ListOrDefault(o.techniques, "dns,scrape");
    var d := IntToString(OrNumber(o.depth, 2));
    ModuleFlagText(" -m subdomain_enum -f techniques=");
    RegroupMiddle("bbot -t " + domain, " ", "-m subdomain_enum", " -f techniques=", t, " -d ", d, " -o json --no-color");
    ContainsInfix("bbot -t " + domain + " ", "-m subdomain_enum", " -f techniques=" + t + " -d " + d + " -o json --no-color");
    var head := "bbot -t " + domain + " -m subdomain_enum -f techniques=" + t + " -d " + d;
    JsonFlagText(" -o json --no-color");
    RegroupEnd(head, " ", "-o json", " --no-color");
    ContainsInfix(head + " ", "-o json", " --no-color");
  }

  lemma SubdomainDefaultsText()
    ensures " -m subdomain_enum -f techniques=" + "dns,scrape" == " -m subdomain_enum -f techniques=dns,scrape"
    ensures " -d " + "2" == " -d 2"
  {
  }

  // Associativity step for `EnumerateSubdomainsDefaults`: it only regroups concatenations.
  lemma PairsShort(x: string, a: string, b: string, c: string, d: string, e: string)
    ensures x + a + b + c + d + e == x + (a + b) + (c + d) + e
  {
  }

  /** With no techniques and no depth the enumeration uses DNS and scraping to depth 2. */
  lemma EnumerateSubdomainsDefaults(o: SubdomainOptions)
    requires o.techniques == None || o.techniques == Some([])
    requires o.depth == None || o.depth == Some(0)
    ensures BuildEnumerateSubdomains(o)
         == "bbot -t " + SanitizeInput(o.domain) + " -m subdomain_enum -f techniques=dns,scrape" + " -d 2"
            + " -o json --no-color"
  {
    assert IntToString(2) == "2";
    SubdomainDefaultsText();
    PairsShort("bbot -t " + SanitizeInput(o.domain), " -m subdomain_enum -f techniques=", "dns,scrape", " -d ", "2",
      " -o json --no-color");
  }

  /** scanTarget: one executor call with the default timeout. */
  method ScanTarget(ex: Executor, o: ScanOptions) returns (text: string)
    requires ex.Valid()
    modifies ex
    ensures ex.Valid()
    ensures OneCall(old(ex.trace), ex.trace, ex.world, BuildScanTarget(o), DefaultTimeout)
    ensures text == ShapeResult(ex.trace[|ex.trace| - 1].result)
  {
    var command := BuildScanTarget(o);
    var r := ex.Execute(command, DefaultTimeout);
    text := ShapeResult(r);
  }

  /** enumerateSubdomains: one executor call with the default timeout. */
  method EnumerateSubdomains(ex: Executor, o: SubdomainOptions) returns (text: string)
    requires ex.Valid()
    modifies ex
    ensures ex.Valid()
    ensures OneCall(old(ex.trace), ex.trace, ex.world, BuildEnumerateSubdomains(o), DefaultTimeout)
    ensures text == ShapeResult(ex.trace[|ex.trace| - 1].result)
  {
    var command := BuildEnumerateSubdomains(o);
    var r := ex.Execute(command, DefaultTimeout);
    text := ShapeResult(r);
  }
}
