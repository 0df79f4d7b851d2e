/** The network scanner's three operations: each builds one nmap command line from its
    options record, runs it with the default timeout and shapes the result. */
module Nmap {
  import opened JsText
  import opened Utils

  datatype HostDiscoveryOptions = HostDiscoveryOptions(
    target: string, technique: Option<string>, timing: Option<int>)

  datatype PortScanOptions = PortScanOptions(
    target: string, ports: Option<string>, scanType: Option<string>,
    timing: Option<int>, serviceDetection: Option<bool>)

  datatype ServiceFingerprintOptions = ServiceFingerprintOptions(
    target: string, ports: Option<string>, intensity: Option<int>)

  /** The discovery techniques nmap is passed as `-<technique>`. */
  const Techniques: set<string> := {"PE", "PP", "PM", "PS", "PA", "PU"}

  /** The `switch (technique)` of hostDiscovery: each of the six gives its own flag,
      anything else ICMP echo. */
  function TechniqueFlag(technique: string): (flag: string)
    ensures technique in Techniques ==> flag == "-" + technique
    ensures technique !in Techniques ==> flag == "-PE"
    ensures AllPlain(flag)
  {
    match technique
    case "PE" => "-PE"
    case "PP" => "-PP"
    case "PM" => "-PM"
    case "PS" => "-PS"
    case "PA" => "-PA"
    case "PU" => "-PU"
    case _ => "-PE"
  }

  /** `options.timing || 3`: absent or 0 gives 3. */
  function Timing(timing: Option<int>): (t: int)
    ensures timing == None || timing == Some(0) ==> t == 3
    ensures timing.Some? && timing.value != 0 ==> t == timing.value
  {
    OrNumber(timing, 3)
  }

  /** The timing field `-T<t>` is never `-T0`, for any timing option. */
  lemma TimingFieldNeverZero(timing: Option<int>)
    ensures "-T" + IntToString(Timing(timing)) != "-T0"
  {
    var x := IntToString(Timing(timing));
    IntToStringZero(Timing(timing));
    assert ("-T" + x)[2..] == x;
    assert "-T0"[2..] == "0";
  }

  /** hostDiscovery's command: `nmap <flag> -sn -T<t> <target> -oG -`. */
  function BuildHostDiscovery(o: HostDiscoveryOptions): string {
    var target := SanitizeInput(o.target);
    var technique := SanitizeInput(OrText(o.technique, "PE"));
    var timing := Timing(o.timing);
    "nmap " + TechniqueFlag(technique) + " -sn -T" + IntToString(timing) + " " + target + " -oG -"
  }

  lemma DefaultsPlain(s: string)
    requires s in {"PE", "top1000", "SYN", "open", "all", "UDP"}
    ensures AllPlain(s)
  {
    assert AllWordChars(s);
    WordCharsArePlain(s);
  }

  /** The default values of the three builders are left as they are by the sanitizer. */
  lemma DefaultsUnchanged(s: string)
    requires s in {"PE", "top1000", "SYN", "open", "all", "UDP"}
    ensures SanitizeInput(s) == s
  {
    DefaultsPlain(s);
    SanitizePlainUnchanged(s);
  }

  lemma HostDiscoveryTexts(s: string)
    requires s in {"nmap ", " -sn -T", " ", " -oG -"}
    ensures IsSanitized(s)
  {
    assert AllWordChars(s);
    WordCharsArePlain(s);
    PlainIsSanitized(s);
  }

  /** The host-discovery command has the sanitizer's output shape, whatever the options. */
  lemma HostDiscoveryIsSanitized(o: HostDiscoveryOptions)
    ensures IsSanitized(BuildHostDiscovery(o))
  {
    var flag := TechniqueFlag(SanitizeInput(OrText(o.technique, "PE")));
    var t := IntToString(Timing(o.timing));
    HostDiscoveryTexts("nmap ");
    HostDiscoveryTexts(" -sn -T");
    HostDiscoveryTexts(" ");
    HostDiscoveryTexts(" -oG -");
    PlainIsSanitized(flag);
    NumberIsPlain(Timing(o.timing));
    PlainIsSanitized(t);
    SanitizeOutputIsSanitized(o.target);
    SanitizedFields("nmap ", flag, " -sn -T", t, " ", SanitizeInput(o.target), " -oG -");
  }

  lemma HostDiscoveryDefaultsText()
    ensures "nmap " + "-PE" + " -sn -T" + "3" + " " == "nmap -PE -sn -T3 "
  {
  }

  /** An absent or empty technique and an absent or zero timing give ICMP echo
      discovery at timing 3. */
  lemma HostDiscoveryDefaults(o: HostDiscoveryOptions)
    requires o.technique == None || o.technique == Some("")
    requires o.timing == None || o.timing == Some(0)
    ensures BuildHostDiscovery(o) == "nmap -PE -sn -T3 " + SanitizeInput(o.target) + " -oG -"
  {
    DefaultsUnchanged("PE");
    assert IntToString(3) == "3";
    HostDiscoveryDefaultsText();
  }

  /** The scan types and the flag each selects. */
  const ScanFlags: map<string, string> :=
    map["SYN" := "-sS", "TCP" := "-sT", "UDP" := "-sU", "FIN" := "-sF", "NULL" := "-sN", "XMAS" := "-sX"]

  /** The `switch (scanType)` of portScan: each of the six gives its flag, anything else
      a SYN scan. */
  function ScanFlag(scanType: string): (flag: string)
    ensures scanType in ScanFlags ==> flag == ScanFlags[scanType]
    ensures scanType !in ScanFlags ==> flag == "-sS"
    ensures AllPlain(flag)
  {
    match scanType
    case "SYN" => "-sS"
    case "TCP" => "-sT"
    case "UDP" => "-sU"
    case "FIN" => "-sF"
    case "NULL" => "-sN"
    case "XMAS" => "-sX"
    case _ => "-sS"
  }

  /** The port selection of portScan for a sanitized ports value: `top1000` is the top
      1000 ports, `all` every port, and anything else, even empty, a `-p` list. */
  function PortFlag(ports: string): (flag: string)
    ensures ports == "top1000" ==> flag == "--top-ports 1000"
    ensures ports == "all" ==> flag == "-p-"
    ensures ports != "top1000" && ports != "all" ==> flag == "-p " + ports
  {
    if ports == "top1000" then "--top-ports 1000"
    else if ports == "all" then "-p-"
    else "-p " + ports
  }

  /** The port selection of sanitized text is sanitized text. */
  lemma PortFlagIsSanitized(ports: string)
    requires IsSanitized(ports)
    ensures IsSanitized(PortFlag(ports))
  {
    if ports == "top1000" {
      FlagTexts("--top-ports 1000");
    } else if ports == "all" {
      FlagTexts("-p-");
    } else {
      FlagTexts("-p ");
      SanitizedConcat("-p ", ports);
    }
  }

  lemma FlagTexts(s: string)
    requires s in {"--top-ports 1000", "-p-", "-p ", "-sV", ""}
    ensures IsSanitized(s)
  {
    assert AllWordChars(s);
    WordCharsArePlain(s);
    PlainIsSanitized(s);
  }

  /** `options.serviceDetection !== false`: only an explicit `false` turns it off. */
  function ServiceFlag(serviceDetection: Option<bool>): (flag: string)
    ensures flag == "-sV" <==> serviceDetection != Some(false)
    ensures flag != "-sV" ==> flag == ""
  {
    if serviceDetection != Some(false) then "-sV" else ""
  }

  /** portScan's command: `nmap <scan> <ports> <service> -T<t> <target> -oN -`; with
      version detection off the service slot is empty, leaving two spaces. */
  function BuildPortScan(o: PortScanOptions): string {
    var target := SanitizeInput(o.target);
    var ports := SanitizeInput(OrText(o.ports, "top1000"));
    var scanType := SanitizeInput(OrText(o.scanType, "SYN"));
    var timing := Timing(o.timing);
    "nmap " + ScanFlag(scanType) + " " + PortFlag(ports) + " "
      + ServiceFlag(o.serviceDetection) + " -T" + IntToString(timing) + " " + target + " -oN -"
  }

  lemma PortScanTexts(s: string)
    requires s in {"nmap ", " ", " -T", " -oN -"}
    ensures IsSanitized(s)
  {
    assert AllWordChars(s);
    WordCharsArePlain(s);
    PlainIsSanitized(s);
  }

  lemma PortScanTemplate(scan: string, portFlag: string, service: string, t: string, target: string)
    requires IsSanitized(scan) && IsSanitized(portFlag) && IsSanitized(service)
    requires IsSanitized(t) && IsSanitized(target)
    ensures IsSanitized("nmap " + scan + " " + portFlag + " " + service + " -T" + t + " " + target + " -oN -")
  {
    PortScanTexts("nmap ");
    PortScanTexts(" ");
    PortScanTexts(" -T");
    PortScanTexts(" -oN -");
    var head := "nmap " + scan + " " + portFlag + " " + service + " -T";
    SanitizedFields("nmap ", scan, " ", portFlag, " ", service, " -T");
    SanitizedConcat(head, t);
    SanitizedConcat(head + t, " ");
    SanitizedConcat(head + t + " ", target);
    SanitizedConcat(head + t + " " + target, " -oN -");
  }

  lemma PortScanFlagsSanitized(o: PortScanOptions)
    ensures IsSanitized(ScanFlag(SanitizeInput(OrText(o.scanType, "SYN"))))
    ensures IsSanitized(PortFlag(SanitizeInput(OrText(o.ports, "top1000"))))
    ensures IsSanitized(ServiceFlag(o.serviceDetection))
  {
    var scan := ScanFlag(SanitizeInput(OrText(o.scanType, "SYN")));
    PlainIsSanitized(scan);
    var ports := SanitizeInput(OrText(o.ports, "top1000"));
    SanitizeOutputIsSanitized(OrText(o.ports, "top1000"));
    PortFlagIsSanitized(ports);
    var service := ServiceFlag(o.serviceDetection);
    FlagTexts(service);
  }

  /** The port-scan command has the sanitizer's output shape, whatever the options. */
  lemma PortScanIsSanitized(o: PortScanOptions)
    ensures IsSanitized(BuildPortScan(o))
  {
    PortScanFlagsSanitized(o);
    NumberIsPlain(Timing(o.timing));
    PlainIsSanitized(IntToString(Timing(o.timing)));
    SanitizeOutputIsSanitized(o.target);
    PortScanTemplate(ScanFlag(SanitizeInput(OrText(o.scanType, "SYN"))),
      PortFlag(SanitizeInput(OrText(o.ports, "top1000"))), ServiceFlag(o.serviceDetection),
      IntToString(Timing(o.timing)), SanitizeInput(o.target));
  }

  lemma PortScanDefaultsText()
    ensures "nmap " + "-sS" + " " + "--top-ports 1000" + " " + "-sV" + " -T" + "3" + " "
         == "nmap -sS --top-ports 1000 -sV -T3 "
  {
  }

  /** The defaults of portScan, written out: a SYN scan of the top 1000 ports with
      version detection at timing 3. */
  lemma PortScanDefaults(o: PortScanOptions)
    requires o.ports == None || o.ports == Some("")
    requires o.scanType == None || o.scanType == Some("")
    requires o.timing == None || o.timing == Some(0)
    requires o.serviceDetection == None
    ensures BuildPortScan(o) == "nmap -sS --top-ports 1000 -sV -T3 " + SanitizeInput(o.target) + " -oN -"
  {
    DefaultsUnchanged("top1000");
    DefaultsUnchanged("SYN");
    assert IntToString(3) == "3";
    PortScanDefaultsText();
  }

  // Associativity step for `PortScanNoServiceDetection`: it only regroups concatenations and drops an empty text.
  lemma NoServiceCombine(scan: string, portFlag: string, t: string, target: string)
    ensures "nmap " + scan + " " + portFlag + " " + "" + " -T" + t + " " + target + " -oN -"
         == "nmap " + scan + " " + portFlag + "  -T" + t + " " + target + " -oN -"
  {
  }

  /** Turning version detection off leaves an empty field: two spaces before `-T`,
      whatever the other options. */
  lemma PortScanNoServiceDetection(o: PortScanOptions)
    requires o.serviceDetection == Some(false)
    ensures BuildPortScan(o)
         == "nmap " + ScanFlag(SanitizeInput(OrText(o.scanType, "SYN"))) + " "
            + PortFlag(SanitizeInput(OrText(o.ports, "top1000"))) + "  -T"
            + IntToString(Timing(o.timing)) + " " + SanitizeInput(o.target) + " -oN -"
  {
    assert ServiceFlag(o.serviceDetection) == "";
    NoServiceCombine(ScanFlag(SanitizeInput(OrText(o.scanType, "SYN"))),
      PortFlag(SanitizeInput(OrText(o.ports, "top1000"))),
      IntToString(Timing(o.timing)), SanitizeInput(o.target));
  }

  // Associativity step for `PortScanEmptiedPorts`: it only regroups concatenations and drops an empty text.
  lemma EmptiedCombine(scan: string, service: string, t: string, target: string)
    ensures "nmap " + scan + " " + ("-p " + "") + " " + service + " -T" + t + " " + target + " -oN -"
         == "nmap " + scan + " -p  " + service + " -T" + t + " " + target + " -oN -"
  {
  }

  /** A non-empty ports value made only of characters the sanitizer drops is not
      replaced by the default: it selects `-p` with an empty list. */
  lemma PortScanEmptiedPorts(o: PortScanOptions)
    requires o.ports.Some? && o.ports.value != ""
    requires forall i :: 0 <= i < |o.ports.value| ==> IsDenied(o.ports.value[i])
    ensures PortFlag(SanitizeInput(OrText(o.ports, "top1000"))) == "-p "
    ensures BuildPortScan(o)
         == "nmap " + ScanFlag(SanitizeInput(OrText(o.scanType, "SYN"))) + " -p  "
            + ServiceFlag(o.serviceDetection) + " -T" + IntToString(Timing(o.timing)) + " "
            + SanitizeInput(o.target) + " -oN -"
  {
    SanitizeEmptyIff(o.ports.value);
    assert SanitizeInput(OrText(o.ports, "top1000")) == "";
    EmptiedCombine(ScanFlag(SanitizeInput(OrText(o.scanType, "SYN"))), ServiceFlag(o.serviceDetection),
      IntToString(Timing(o.timing)), SanitizeInput(o.target));
  }

  /** `options.intensity || 7`. */
  function Intensity(intensity: Option<int>): (i: int)
    ensures intensity == None || intensity == Some(0) ==> i == 7
    ensures intensity.Some? && intensity.value != 0 ==> i == intensity.value
  {
    OrNumber(intensity, 7)
  }

  /** serviceFingerprint's command: `nmap -sV --version-intensity <i> -p <ports> <target> -oN -`. */
  function BuildServiceFingerprint(o: ServiceFingerprintOptions): string {
    var target := SanitizeInput(o.target);
    var ports := SanitizeInput(OrText(o.ports, "open"));
    var intensity := Intensity(o.intensity);
    "nmap -sV --version-intensity " + IntToString(intensity) + " -p " + ports + " " + target + " -oN -"
  }

  lemma ServiceFingerprintTexts(s: string)
    requires s in {"nmap -sV --version-intensity ", " -p ", " ", " -oN -"}
    ensures IsSanitized(s)
  {
    assert AllWordChars(s);
    WordCharsArePlain(s);
    PlainIsSanitized(s);
  }

  /** The fingerprint command has the sanitizer's output shape, whatever the options. */
  lemma ServiceFingerprintIsSanitized(o: ServiceFingerprintOptions)
    ensures IsSanitized(BuildServiceFingerprint(o))
  {
    var i := IntToString(Intensity(o.intensity));
    var ports := SanitizeInput(OrText(o.ports, "open"));
    var target := SanitizeInput(o.target);
    ServiceFingerprintTexts("nmap -sV --version-intensity ");
    ServiceFingerprintTexts(" -p ");
    ServiceFingerprintTexts(" ");
    ServiceFingerprintTexts(" -oN -");
    NumberIsPlain(Intensity(o.intensity));
    PlainIsSanitized(i);
    SanitizeOutputIsSanitized(OrText(o.ports, "open"));
    SanitizeOutputIsSanitized(o.target);
    SanitizedFields("nmap -sV --version-intensity ", i, " -p ", ports, " ", target, " -oN -");
  }

  lemma ServiceFingerprintDefaultsText()
    ensures "nmap -sV --version-intensity " + "7" + " -p " + "open" + " "
         == "nmap -sV --version-intensity 7 -p open "
  {
  }

  /** Absent or empty ports probe the open ports; absent or zero intensity is 7. */
  lemma ServiceFingerprintDefaults(o: ServiceFingerprintOptions)
    requires o.ports == None || o.ports == Some("")
    requires o.intensity == None || o.intensity == Some(0)
    ensures BuildServiceFingerprint(o)
         == "nmap -sV --version-intensity 7 -p open " + SanitizeInput(o.target) + " -oN -"
  {
    DefaultsUnchanged("open");
    assert IntToString(7) == "7";
    ServiceFingerprintDefaultsText();
  }

  /** hostDiscovery: one executor call with the default timeout. */
  method HostDiscovery(ex: Executor, o: HostDiscoveryOptions) returns (text: string)
    requires ex.Valid()
    modifies ex
    ensures ex.Valid()
    ensures OneCall(old(ex.trace), ex.trace, ex.world, BuildHostDiscovery(o), DefaultTimeout)
    ensures text == ShapeResult(ex.trace[|ex.trace| - 1].result)
  {
    var command := BuildHostDiscovery(o);
    var r := ex.Execute(command, DefaultTimeout);
    text := ShapeResult(r);
  }

  /** portScan: one executor call with the default timeout. */
  method PortScan(ex: Executor, o: PortScanOptions) returns (text: string)
    requires ex.Valid()
    modifies ex
    ensures ex.Valid()
    ensures OneCall(old(ex.trace), ex.trace, ex.world, BuildPortScan(o), DefaultTimeout)
    ensures text == ShapeResult(ex.trace[|ex.trace| - 1].result)
  {
    var command := BuildPortScan(o);
    var r := ex.Execute(command, DefaultTimeout);
    text := ShapeResult(r);
  }

  /** serviceFingerprint: one executor call with the default timeout. */
  method ServiceFingerprint(ex: Executor, o: ServiceFingerprintOptions) returns (text: string)
    requires ex.Valid()
    modifies ex
    ensures ex.Valid()
    ensures OneCall(old(ex.trace), ex.trace, ex.world, BuildServiceFingerprint(o), DefaultTimeout)
    ensures text == ShapeResult(ex.trace[|ex.trace| - 1].result)
  {
    var command := BuildServiceFingerprint(o);
    var r := ex.Execute(command, DefaultTimeout);
    text := ShapeResult(r);
  }
}
