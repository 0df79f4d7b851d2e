/** The payload generator's two operations. generatePayload looks the payload up in a
    per-platform table and then grows the command line step by step; encodePayload is a
    single template. Each runs its command once with the default timeout. */
module MsfVenom {
  import opened JsText
  import opened Utils

  datatype PayloadOptions = PayloadOptions(
    payloadType: string, platform: string, format: string,
    ip: Option<string>, port: Option<int>, encoder: Option<string>, iterations: Option<int>,
    options: seq<(string, string)>)

  datatype EncodingOptions = EncodingOptions(
    payloadFile: string, encoder: string, iterations: Option<int>, outputFormat: Option<string>)

  // ---------------------------------------------------------------------------
  // The payload table
  // ---------------------------------------------------------------------------

  const DefaultPayload: string := "windows/meterpreter/reverse_tcp"

  /** Reference table: every (platform, payload type) pair the lookup names explicitly. */
  const PayloadTable: map<(string, string), string> := map[
    ("windows", "reverse_tcp") := "windows/meterpreter/reverse_tcp",
    ("windows", "reverse_https") := "windows/meterpreter/reverse_https",
    ("windows", "bind_tcp") := "windows/meterpreter/bind_tcp",
    ("linux", "reverse_tcp") := "linux/x86/meterpreter/reverse_tcp",
    ("linux", "reverse_https") := "linux/x86/meterpreter/reverse_https",
    ("linux", "bind_tcp") := "linux/x86/meterpreter/bind_tcp",
    ("mac", "reverse_tcp") := "osx/x86/shell_reverse_tcp",
    ("mac", "bind_tcp") := "osx/x86/shell_bind_tcp",
    ("android", "reverse_tcp") := "android/meterpreter/reverse_tcp",
    ("android", "reverse_https") := "android/meterpreter/reverse_https",
    ("web", "jsp") := "java/jsp_shell_reverse_tcp",
    ("web", "php") := "php/meterpreter/reverse_tcp",
    ("web", "asp") := "windows/meterpreter/reverse_tcp"]

  /** Reference table: what each known platform falls back to for any other type. */
  const PlatformFallback: map<string, string> := map[
    "windows" := "windows/meterpreter/reverse_tcp",
    "linux" := "linux/x86/meterpreter/reverse_tcp",
    "mac" := "osx/x86/shell_reverse_tcp",
    "android" := "android/meterpreter/reverse_tcp",
    "web" := "php/meterpreter/reverse_tcp"]

  /** The if/switch chain of generatePayload, over the sanitized platform and type. */
  function ResolvePayload(platform: string, payloadType: string): string {
    if platform == "windows" then
      match payloadType
      case "reverse_tcp" => "windows/meterpreter/reverse_tcp"
      case "reverse_https" => "windows/meterpreter/reverse_https"
      case "bind_tcp" => "windows/meterpreter/bind_tcp"
      case _ => "windows/meterpreter/reverse_tcp"
    else if platform == "linux" then
      match payloadType
      case "reverse_tcp" => "linux/x86/meterpreter/reverse_tcp"
      case "reverse_https" => "linux/x86/meterpreter/reverse_https"
      case "bind_tcp" => "linux/x86/meterpreter/bind_tcp"
      case _ => "linux/x86/meterpreter/reverse_tcp"
    else if platform == "mac" then
      match payloadType
      case "reverse_tcp" => "osx/x86/shell_reverse_tcp"
      case "bind_tcp" => "osx/x86/shell_bind_tcp"
      case _ => "osx/x86/shell_reverse_tcp"
    else if platform == "android" then
      match payloadType
      case "reverse_tcp" => "android/meterpreter/reverse_tcp"
      case "reverse_https" => "android/meterpreter/reverse_https"
      case _ => "android/meterpreter/reverse_tcp"
    else if platform == "web" then
      match payloadType
      case "jsp" => "java/jsp_shell_reverse_tcp"
      case "php" => "php/meterpreter/reverse_tcp"
      case "asp" => "windows/meterpreter/reverse_tcp"
      case _ => "php/meterpreter/reverse_tcp"
    else
      DefaultPayload
  }

  /** The lookup agrees with the two reference tables: an explicit entry wins, then the
      platform's own fallback, and an unknown platform gets the Windows reverse shell. */
  lemma ResolveMatchesTable(platform: string, payloadType: string)
    ensures (platform, payloadType) in PayloadTable
        ==> ResolvePayload(platform, payloadType) == PayloadTable[(platform, payloadType)]
    ensures (platform, payloadType) !in PayloadTable && platform in PlatformFallback
        ==> ResolvePayload(platform, payloadType) == PlatformFallback[platform]
    ensures platform !in PlatformFallback ==> ResolvePayload(platform, payloadType) == DefaultPayload
  {
  }

  // ---------------------------------------------------------------------------
  // What each payload name says about its connection
  // ---------------------------------------------------------------------------

  /** A payload that connects back: its name contains `reverse` and not `bind`. */
  predicate IsReverse(payload: string) {
    Contains(payload, "reverse") && !Contains(payload, "bind")
  }

  /** A payload that listens: its name contains `bind` and not `reverse`. */
  predicate IsBind(payload: string) {
    Contains(payload, "bind") && !Contains(payload, "reverse")
  }

  lemma ReverseName(p: string, k: nat)
    requires k + 7 <= |p| && p[k..k + 7] == "reverse" && 'b' !in p && AllWordChars(p)
    ensures IsReverse(p) && AllPlain(p)
  {
    assert OccursAt(p, "reverse", k);
    NotContainsMissingChar(p, "bind", 'b');
    WordCharsArePlain(p);
  }

  lemma BindName(p: string, k: nat)
    requires k + 4 <= |p| && p[k..k + 4] == "bind" && 'v' !in p && AllWordChars(p)
    ensures IsBind(p) && AllPlain(p)
  {
    assert OccursAt(p, "bind", k);
    NotContainsMissingChar(p, "reverse", 'v');
    WordCharsArePlain(p);
  }

  lemma WindowsReverseTcp(p: string)
    requires p == "windows/meterpreter/reverse_tcp"
    ensures IsReverse(p) && AllPlain(p)
  {
    assert p[20..27] == "reverse";
    ReverseName(p, 20);
  }

  lemma WindowsReverseHttps(p: string)
    requires p == "windows/meterpreter/reverse_https"
    ensures IsReverse(p) && AllPlain(p)
  {
    assert p[20..27] == "reverse";
    ReverseName(p, 20);
  }

  lemma WindowsBindTcp(p: string)
    requires p == "windows/meterpreter/bind_tcp"
    ensures IsBind(p) && AllPlain(p)
  {
    assert p[20..24] == "bind";
    BindName(p, 20);
  }

  lemma LinuxReverseTcp(p: string)
    requires p == "linux/x86/meterpreter/reverse_tcp"
    ensures IsReverse(p) && AllPlain(p)
  {
    assert p[22..29] == "reverse";
    ReverseName(p, 22);
  }

  lemma LinuxReverseHttps(p: string)
    requires p == "linux/x86/meterpreter/reverse_https"
    ensures IsReverse(p) && AllPlain(p)
  {
    assert p[22..29] == "reverse";
    ReverseName(p, 22);
  }

  lemma LinuxBindTcp(p: string)
    requires p == "linux/x86/meterpreter/bind_tcp"
    ensures IsBind(p) && AllPlain(p)
  {
    assert p[22..26] == "bind";
    BindName(p, 22);
  }

  lemma OsxReverseTcp(p: string)
    requires p == "osx/x86/shell_reverse_tcp"
    ensures IsReverse(p) && AllPlain(p)
  {
    assert p[14..21] == "reverse";
    ReverseName(p, 14);
  }

  lemma OsxBindTcp(p: string)
    requires p == "osx/x86/shell_bind_tcp"
    ensures IsBind(p) && AllPlain(p)
  {
    assert p[14..18] == "bind";
    BindName(p, 14);
  }

  lemma AndroidReverseTcp(p: string)
    requires p == "android/meterpreter/reverse_tcp"
    ensures IsReverse(p) && AllPlain(p)
  {
    assert p[20..27] == "reverse";
    ReverseName(p, 20);
  }

  lemma AndroidReverseHttps(p: string)
    requires p == "android/meterpreter/reverse_https"
    ensures IsReverse(p) && AllPlain(p)
  {
    assert p[20..27] == "reverse";
    ReverseName(p, 20);
  }

  lemma JavaJspReverseTcp(p: string)
    requires p == "java/jsp_shell_reverse_tcp"
    ensures IsReverse(p) && AllPlain(p)
  {
    assert p[15..22] == "reverse";
    ReverseName(p, 15);
  }

  lemma PhpReverseTcp(p: string)
    requires p == "php/meterpreter/reverse_tcp"
    ensures IsReverse(p) && AllPlain(p)
  {
    assert p[16..23] == "reverse";
    ReverseName(p, 16);
  }

  /** A `bind_tcp` request on one of the platforms whose table has a listening payload. */
  predicate ListensFor(platform: string, payloadType: string) {
    payloadType == "bind_tcp" && (platform == "windows" || platform == "linux" || platform == "mac")
  }

  /** Every payload the lookup can give is plain text and either connects back or
      listens, never both and never neither; it listens exactly for a `bind_tcp`
      request on Windows, Linux or macOS. */
  lemma ResolvedPayloadKind(platform: string, payloadType: string)
    ensures AllPlain(ResolvePayload(platform, payloadType))
    ensures IsReverse(ResolvePayload(platform, payloadType)) != IsBind(ResolvePayload(platform, payloadType))
    ensures IsBind(ResolvePayload(platform, payloadType)) <==> ListensFor(platform, payloadType)
  {
    var p := ResolvePayload(platform, payloadType);
    if platform == "windows" {
      if payloadType == "reverse_https" { WindowsReverseHttps(p); }
      else if payloadType == "bind_tcp" { WindowsBindTcp(p); }
      else { WindowsReverseTcp(p); }
    } else if platform == "linux" {
      if payloadType == "reverse_https" { LinuxReverseHttps(p); }
      else if payloadType == "bind_tcp" { LinuxBindTcp(p); }
      else { LinuxReverseTcp(p); }
    } else if platform == "mac" {
      if payloadType == "bind_tcp" { OsxBindTcp(p); }
      else { OsxReverseTcp(p); }
    } else if platform == "android" {
      if payloadType == "reverse_https" { AndroidReverseHttps(p); }
      else { AndroidReverseTcp(p); }
    } else if platform == "web" {
      if payloadType == "jsp" { JavaJspReverseTcp(p); }
      else if payloadType == "asp" { WindowsReverseTcp(p); }
      else { PhpReverseTcp(p); }
    } else {
      WindowsReverseTcp(p);
    }
  }

  // ---------------------------------------------------------------------------
  // generatePayload
  // ---------------------------------------------------------------------------

  /** The address part: LHOST and LPORT for a payload whose name contains `reverse` when
      an address is given, else RPORT for one whose name contains `bind`, else nothing. */
  function HostPart(payload: string, ip: string, port: int): string {
    if Contains(payload, "reverse") && ip != "" then " LHOST=" + ip + " LPORT=" + IntToString(port)
    else if Contains(payload, "bind") then " RPORT=" + IntToString(port)
    else ""
  }

  /** The encoder part, present only for a non-empty encoder. */
  function EncoderPart(encoder: string, iterations: int): string {
    if encoder != "" then " -e " + encoder + " -i " + IntToString(iterations) else ""
  }

  /** What one extra option adds: ` <key>=<value>`, both sanitized. */
  function OptionEntry(entry: (string, string)): string {
    " " + SanitizeInput(entry.0) + "=" + SanitizeInput(entry.1)
  }

  /** What the extra options add, entry after entry. */
  function OptionsSuffix(entries: seq<(string, string)>): string {
    if entries == [] then "" else OptionsSuffix(entries[..|entries| - 1]) + OptionEntry(entries[|entries| - 1])
  }

  /** Each option contributes its own text, in entry order: the suffix of two runs of
      entries is the two suffixes one after the other. */
  lemma {:induction false} OptionsSuffixConcat(a: seq<(string, string)>, b: seq<(string, string)>)
    ensures OptionsSuffix(a + b) == OptionsSuffix(a) + OptionsSuffix(b)
    decreases |b|
  {
    if b == [] {
      assert a + b == a;
    } else {
      var n := |b| - 1;
      var init := b[..n];
      var last := b[n];
      assert a + b == (a + init) + [last];
      assert b == init + [last];
      OptionsSuffixSnoc(a + init, last);
      OptionsSuffixSnoc(init, last);
      OptionsSuffixConcat(a, init);
      SuffixCombine(OptionsSuffix(a + b), OptionsSuffix(a + init), OptionsSuffix(a), OptionsSuffix(init),
        OptionEntry(last), OptionsSuffix(b));
    }
  }

  // Associativity step for `OptionsSuffixConcat` and `AppendOptions`: it only regroups concatenations.
  lemma SuffixCombine(whole: string, front: string, left: string, middle: string, last: string, right: string)
    requires whole == front + last && front == left + middle && right == middle + last
    ensures whole == left + right
  {
  }

  /** One more entry adds its own text at the end. */
  lemma OptionsSuffixSnoc(entries: seq<(string, string)>, last: (string, string))
    ensures OptionsSuffix(entries + [last]) == OptionsSuffix(entries) + OptionEntry(last)
  {
    assert (entries + [last])[..|entries|] == entries;
  }

  /** The suffix of the first `i + 1` entries is that of the first `i`, then entry `i`. */
  lemma OptionsSuffixPrefixStep(entries: seq<(string, string)>, i: nat)
    requires i < |entries|
    ensures OptionsSuffix(entries[..i + 1]) == OptionsSuffix(entries[..i]) + OptionEntry(entries[i])
  {
    assert entries[..i + 1][..i] == entries[..i];
  }

  /** The command up to the extra options. */
  function PayloadHead(o: PayloadOptions): string {
    var payloadType := SanitizeInput(o.payloadType);
    var platform := SanitizeInput(o.platform);
    var format := SanitizeInput(o.format);
    var ip := OptionalField(o.ip);
    var port := OrNumber(o.port, 4444);
    var encoder := OptionalField(o.encoder);
    var iterations := OrNumber(o.iterations, 1);
    var payload := ResolvePayload(platform, payloadType);
    "msfvenom -p " + payload + HostPart(payload, ip, port) + (" -f " + format) + EncoderPart(encoder, iterations)
  }

  /** The whole generatePayload command. */
  function PayloadCommand(o: PayloadOptions): string {
    PayloadHead(o) + OptionsSuffix(o.options)
  }

  /** generatePayload's command assembly up to the extra options, step by step as the
      source does it. */
  method BuildPayloadHead(o: PayloadOptions) returns (command: string)
    ensures command == PayloadHead(o)
  {
    var payloadType := SanitizeInput(o.payloadType);
    var platform := SanitizeInput(o.platform);
    var format := SanitizeInput(o.format);
    var ip := OptionalField(o.ip);
    var port := OrNumber(o.port, 4444);
    var encoder := OptionalField(o.encoder);
    var iterations := OrNumber(o.iterations, 1);
    var payload := ResolvePayload(platform, payloadType);
    command := "msfvenom -p " + payload;
    if Contains(payload, "reverse") && ip != "" {
      command := command + (" LHOST=" + ip + " LPORT=" + IntToString(port));
    } else if Contains(payload, "bind") {
      command := command + (" RPORT=" + IntToString(port));
    }
    command := command + (" -f " + format);
    if encoder != "" {
      command := command + (" -e " + encoder + " -i " + IntToString(iterations));
    }
  }

  /** The loop over the extra options: one ` key=value` per entry, in entry order. */
  method AppendOptions(head: string, entries: seq<(string, string)>) returns (command: string)
    ensures command == head + OptionsSuffix(entries)
  {
    command := head;
    var i := 0;
    while i < |entries|
      invariant 0 <= i <= |entries|
      invariant command == head + OptionsSuffix(entries[..i])
    {
      var (key, value) := entries[i];
      ghost var before := command;
      command := command + (" " + SanitizeInput(key) + "=" + SanitizeInput(value));
      OptionsSuffixPrefixStep(entries, i);
      SuffixCombine(command, before, head, OptionsSuffix(entries[..i]), OptionEntry(entries[i]),
        OptionsSuffix(entries[..i + 1]));
      i := i + 1;
    }
    assert entries[..i] == entries;
  }

  /** generatePayload's whole command. */
  method BuildPayloadCommand(o: PayloadOptions) returns (command: string)
    ensures command == PayloadCommand(o)
  {
    var head := BuildPayloadHead(o);
    command := AppendOptions(head, o.options);
  }

  /** generatePayload: one executor call with the default timeout. */
  method GeneratePayload(ex: Executor, o: PayloadOptions) returns (text: string)
    requires ex.Valid()
    modifies ex
    ensures ex.Valid()
    ensures OneCall(old(ex.trace), ex.trace, ex.world, PayloadCommand(o), DefaultTimeout)
    ensures text == ShapeResult(ex.trace[|ex.trace| - 1].result)
  {
    var command := BuildPayloadCommand(o);
    var r := ex.Execute(command, DefaultTimeout);
    text := ShapeResult(r);
  }

  // ---------------------------------------------------------------------------
  // Properties of the generatePayload command
  // ---------------------------------------------------------------------------

  lemma HostPartByKind(payload: string, ip: string, port: int)
    requires IsReverse(payload) != IsBind(payload)
    ensures IsBind(payload) ==> HostPart(payload, ip, port) == " RPORT=" + IntToString(port)
    ensures IsReverse(payload) && ip != "" ==> HostPart(payload, ip, port) == " LHOST=" + ip + " LPORT=" + IntToString(port)
    ensures IsReverse(payload) && ip == "" ==> HostPart(payload, ip, port) == ""
  {
  }

  /** The address part of the command, in terms of the request: RPORT for a listening
      payload; LHOST and LPORT for any other when an address is given; nothing for a
      connect-back payload without an address. */
  lemma AddressPartRule(platform: string, payloadType: string, ip: string, port: int)
    ensures ListensFor(platform, payloadType)
        ==> HostPart(ResolvePayload(platform, payloadType), ip, port) == " RPORT=" + IntToString(port)
    ensures !ListensFor(platform, payloadType) && ip != ""
        ==> HostPart(ResolvePayload(platform, payloadType), ip, port) == " LHOST=" + ip + " LPORT=" + IntToString(port)
    ensures !ListensFor(platform, payloadType) && ip == ""
        ==> HostPart(ResolvePayload(platform, payloadType), ip, port) == ""
  {
    ResolvedPayloadKind(platform, payloadType);
    HostPartByKind(ResolvePayload(platform, payloadType), ip, port);
  }

  /** The format flag is always in the command, right after the address part and
      before the encoder part and the extra options. */
  lemma FormatAlwaysPresent(o: PayloadOptions)
    ensures var payload := ResolvePayload(SanitizeInput(o.platform), SanitizeInput(o.payloadType));
      PayloadCommand(o)
      == "msfvenom -p " + payload + HostPart(payload, OptionalField(o.ip), OrNumber(o.port, 4444))
         + (" -f " + SanitizeInput(o.format))
         + (EncoderPart(OptionalField(o.encoder), OrNumber(o.iterations, 1)) + OptionsSuffix(o.options))
    ensures Contains(PayloadCommand(o), " -f " + SanitizeInput(o.format))
  {
    var payload := ResolvePayload(SanitizeInput(o.platform), SanitizeInput(o.payloadType));
    var before := "msfvenom -p " + payload + HostPart(payload, OptionalField(o.ip), OrNumber(o.port, 4444));
    var flag := " -f " + SanitizeInput(o.format);
    var after := EncoderPart(OptionalField(o.encoder), OrNumber(o.iterations, 1)) + OptionsSuffix(o.options);
    FormatRegroup(PayloadCommand(o), PayloadHead(o), before, flag,
      EncoderPart(OptionalField(o.encoder), OrNumber(o.iterations, 1)), OptionsSuffix(o.options));
    ContainsInfix(before, flag, after);
  }

  // Associativity step for `FormatAlwaysPresent`: it only regroups concatenations.
  lemma FormatRegroup(whole: string, head: string, before: string, flag: string, enc: string, opts: string)
    requires head == before + flag + enc && whole == head + opts
    ensures whole == before + flag + (enc + opts)
  {
  }

  /** The encoder part is present exactly when the encoder option holds a character the
      sanitizer keeps. */
  lemma EncoderPartIff(encoder: Option<string>, iterations: int)
    ensures EncoderPart(OptionalField(encoder), iterations) != ""
        <==> encoder.Some? && exists i :: 0 <= i < |encoder.value| && !IsDenied(encoder.value[i])
  {
    SanitizeEmptyIff(OrText(encoder, ""));
  }

  lemma VenomTexts(s: string)
    requires s in {"msfvenom -p ", " LHOST=", " LPORT=", " RPORT=", " -f ", " -e ", " -i ", " ", "=", "msfvenom -i "}
    ensures IsSanitized(s)
  {
    assert AllWordChars(s);
    WordCharsArePlain(s);
    PlainIsSanitized(s);
  }

  lemma NumberSanitized(n: int)
    ensures IsSanitized(IntToString(n))
  {
    NumberIsPlain(n);
    PlainIsSanitized(IntToString(n));
  }

  lemma HostPartSanitized(payload: string, ip: string, port: int)
    requires AllPlain(payload) && IsSanitized(ip)
    ensures IsSanitized(HostPart(payload, ip, port))
  {
    VenomTexts(" LHOST=");
    VenomTexts(" LPORT=");
    VenomTexts(" RPORT=");
    NumberSanitized(port);
    PlainIsSanitized("");
    SanitizedConcat(" LHOST=", ip);
    SanitizedConcat(" LHOST=" + ip, " LPORT=");
    SanitizedConcat(" LHOST=" + ip + " LPORT=", IntToString(port));
    SanitizedConcat(" RPORT=", IntToString(port));
  }

  lemma EncoderPartSanitized(encoder: string, iterations: int)
    requires IsSanitized(encoder)
    ensures IsSanitized(EncoderPart(encoder, iterations))
  {
    VenomTexts(" -e ");
    VenomTexts(" -i ");
    NumberSanitized(iterations);
    PlainIsSanitized("");
    SanitizedConcat(" -e ", encoder);
    SanitizedConcat(" -e " + encoder, " -i ");
    SanitizedConcat(" -e " + encoder + " -i ", IntToString(iterations));
  }

  lemma OptionEntrySanitized(entry: (string, string))
    ensures IsSanitized(OptionEntry(entry))
  {
    VenomTexts(" ");
    VenomTexts("=");
    SanitizeOutputIsSanitized(entry.0);
    SanitizeOutputIsSanitized(entry.1);
    SanitizedConcat(" ", SanitizeInput(entry.0));
    SanitizedConcat(" " + SanitizeInput(entry.0), "=");
    SanitizedConcat(" " + SanitizeInput(entry.0) + "=", SanitizeInput(entry.1));
  }

  lemma {:induction false} OptionsSuffixSanitized(entries: seq<(string, string)>)
    ensures IsSanitized(OptionsSuffix(entries))
    decreases |entries|
  {
    if entries == [] {
      PlainIsSanitized("");
    } else {
      var n := |entries| - 1;
      OptionsSuffixSanitized(entries[..n]);
      OptionEntrySanitized(entries[n]);
      SanitizedConcat(OptionsSuffix(entries[..n]), OptionEntry(entries[n]));
    }
  }

  /** The generated command has the sanitizer's output shape, whatever the options. */
  lemma PayloadCommandIsSanitized(o: PayloadOptions)
    ensures IsSanitized(PayloadCommand(o))
  {
    var platform := SanitizeInput(o.platform);
    var payloadType := SanitizeInput(o.payloadType);
    var payload := ResolvePayload(platform, payloadType);
    var ip := OptionalField(o.ip);
    var encoder := OptionalField(o.encoder);
    var format := SanitizeInput(o.format);
    ResolvedPayloadKind(platform, payloadType);
    PlainIsSanitized(payload);
    SanitizeOutputIsSanitized(OrText(o.ip, ""));
    SanitizeOutputIsSanitized(OrText(o.encoder, ""));
    SanitizeOutputIsSanitized(o.format);
    VenomTexts("msfvenom -p ");
    VenomTexts(" -f ");
    var host := HostPart(payload, ip, OrNumber(o.port, 4444));
    var enc := EncoderPart(encoder, OrNumber(o.iterations, 1));
    HostPartSanitized(payload, ip, OrNumber(o.port, 4444));
    EncoderPartSanitized(encoder, OrNumber(o.iterations, 1));
    OptionsSuffixSanitized(o.options);
    SanitizedConcat(" -f ", format);
    SanitizedConcat("msfvenom -p ", payload);
    SanitizedConcat("msfvenom -p " + payload, host);
    SanitizedConcat("msfvenom -p " + payload + host, " -f " + format);
    SanitizedConcat("msfvenom -p " + payload + host + (" -f " + format), enc);
    SanitizedConcat(PayloadHead(o), OptionsSuffix(o.options));
  }

  // ---------------------------------------------------------------------------
  // encodePayload
  // ---------------------------------------------------------------------------

  /** encodePayload's command, with the input flag `-i` and the iteration flag `-i` as in
      the template: `msfvenom -i <file> -e <encoder> -i <n> -f <format>`. */
  function BuildEncodePayload(o: EncodingOptions): string {
    var payloadFile := SanitizeInput(o.payloadFile);
    var encoder := SanitizeInput(o.encoder);
    var iterations := OrNumber(o.iterations, 1);
    var outputFormat := SanitizeInput(OrText(o.outputFormat, "raw"));
    "msfvenom -i " + payloadFile + " -e " + encoder + " -i " + IntToString(iterations) + " -f " + outputFormat
  }

  /** The encode command has the sanitizer's output shape, whatever the options. */
  lemma EncodePayloadIsSanitized(o: EncodingOptions)
    ensures IsSanitized(BuildEncodePayload(o))
  {
    var file := SanitizeInput(o.payloadFile);
    var encoder := SanitizeInput(o.encoder);
    var n := IntToString(OrNumber(o.iterations, 1));
    var format := SanitizeInput(OrText(o.outputFormat, "raw"));
    SanitizeOutputIsSanitized(o.payloadFile);
    SanitizeOutputIsSanitized(o.encoder);
    SanitizeOutputIsSanitized(OrText(o.outputFormat, "raw"));
    NumberSanitized(OrNumber(o.iterations, 1));
    VenomTexts("msfvenom -i ");
    VenomTexts(" -e ");
    VenomTexts(" -i ");
    VenomTexts(" -f ");
    SanitizedFields("msfvenom -i ", file, " -e ", encoder, " -i ", n, " -f ");
    SanitizedConcat("msfvenom -i " + file + " -e " + encoder + " -i " + n + " -f ", format);
  }

  lemma RawUnchanged(s: string)
    requires s == "raw"
    ensures SanitizeInput(s) == s
  {
    assert AllWordChars(s);
    WordCharsArePlain(s);
    SanitizePlainUnchanged(s);
  }

  lemma EncodeDefaultsText()
    ensures " -i " + "1" == " -i 1"
    ensures " -f " + "raw" == " -f raw"
  {
  }

  // Associativity step for `EncodePayloadDefaults`: it only regroups concatenations.
  lemma EncodeRegroup(x: string, a: string, b: string, c: string, d: string)
    ensures x + a + b + c + d == x + (a + b) + (c + d)
  {
  }

  /** Without iterations or format the encoder runs once and writes raw output. */
  lemma EncodePayloadDefaults(o: EncodingOptions)
    requires o.iterations == None || o.iterations == Some(0)
    requires o.outputFormat == None || o.outputFormat == Some("")
    ensures BuildEncodePayload(o)
         == "msfvenom -i " + SanitizeInput(o.payloadFile) + " -e " + SanitizeInput(o.encoder) + " -i 1" + " -f raw"
  {
    RawUnchanged("raw");
    assert IntToString(1) == "1";
    EncodeDefaultsText();
    EncodeRegroup("msfvenom -i " + SanitizeInput(o.payloadFile) + " -e " + SanitizeInput(o.encoder),
      " -i ", "1", " -f ", "raw");
  }

  /** encodePayload: one executor call with the default timeout. */
  method EncodePayload(ex: Executor, o: EncodingOptions) returns (text: string)
    requires ex.Valid()
    modifies ex
    ensures ex.Valid()
    ensures OneCall(old(ex.trace), ex.trace, ex.world, BuildEncodePayload(o), DefaultTimeout)
    ensures text == ShapeResult(ex.trace[|ex.trace| - 1].result)
  {
    var command := BuildEncodePayload(o);
    var r := ex.Execute(command, DefaultTimeout);
    text := ShapeResult(r);
  }
}
