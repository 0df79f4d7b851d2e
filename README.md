# security-tools-server: command construction, in Dafny

security-tools-server is a tool server. It turns typed option records into shell command
lines for nmap, bbot, msfvenom and msfconsole, runs each command, and
returns the shaped result text. This project models the logic that decides what gets
run and what comes back:

- the input sanitizer and the output formatter every tool uses;
- the result shape of the process executor;
- every command builder of the four tools;
- the fixed write/run/remove call sequence of the Metasploit console operations.

It then proves properties of that model.

Modules, one file each:

- `JsText` (`js_text.dfy`): the JavaScript behaviour the builders depend on.
  - Optional fields and `||` defaulting, where `""` and `0` count as absent.
  - The decimal text of an integer inside a template literal, with its reader and the round trip.
  - `join`, `includes`, and text made of newline-terminated lines, with its reader `Lines`.
- `Utils` (`utils.dfy`): `sanitizeInput`, `formatOutput` and the executor.
  - `sanitizeInput` is modelled as the three chained `replace` calls it is. It is proved equal to a per-character reference map (`SanitizeCharwise`).
  - `formatOutput` is modelled as one left-to-right colour-sequence pass followed by ECMAScript `trim`.
  - The executor is the class `Executor`:
    - what the operating system does is an arbitrary function `world` of the call's position, command and timeout;
    - every call is recorded in a ghost `trace`;
    - `Execute` applies the never-throwing catch shape of `executeCommand`.
- `Nmap` (`nmap.dfy`), `Bbot` (`bbot.dfy`) and `MsfVenom` (`msfvenom.dfy`).
  - One builder per operation, and one method per operation that makes exactly one executor call and shapes its result.
  - The incremental command assembly of `generatePayload` is an imperative method with a loop over the option entries. It is proved equal to a specification function.
- `MsfConsole` (`msfconsole.dfy`): the three resource-script operations.
  - Each script is grown by a method, as the source grows it, and proved equal to the text of a list of lines.
  - Each operation then makes three executor calls on one temporary file: write, run, remove.

The timestamp `Date.now()` is a parameter `now`.

## Model

| member | source | states |
|---|---|---|
| JsText.OrText | src/tools/nmap.ts:44 | `s \|\| d` for an optional string gives `d` for an absent or empty value, else the value |
| JsText.OrNumber | src/tools/nmap.ts:45 | `n \|\| d` for an optional number gives `d` for an absent or zero value, else the value; never 0 when `d` is not 0 |
| JsText.IntToStringRoundTrip | src/tools/nmap.ts:60 | the decimal text a template literal gives an integer reads back as that integer |
| JsText.IntToStringZero | src/tools/nmap.ts:60 | the decimal text is `0` exactly for zero |
| JsText.NatToStringInjective | src/tools/msfconsole.ts:62 | different numbers have different decimal texts |
| JsText.JoinConcat | src/tools/bbot.ts:34 | joining two non-empty lists puts one separator between their joins |
| JsText.JoinEmptyIff | src/tools/bbot.ts:34 | with a non-empty separator, a join is empty exactly when the list is empty or is one empty element |
| JsText.ContainsInfix | src/tools/msfvenom.ts:92 | `includes` finds a text placed between any prefix and suffix |
| JsText.NotContainsMissingChar | src/tools/msfvenom.ts:94 | a text lacking a character of `t` does not include `t` |
| JsText.UnlinesSnoc | src/tools/msfconsole.ts:55 | appending `line\n` to a script adds one line at its end |
| JsText.UnlinesConcat | src/tools/msfconsole.ts:45-59 | the text of two runs of lines is the two texts one after the other |
| JsText.LinesUnlines | src/tools/msfconsole.ts:45-59 | splitting a script at its newlines gives back its lines, when no line holds a newline |
| Utils.SanitizeChar | src/utils.ts:36-38 | a denied character becomes nothing, a quote becomes backslash + quote, any other character stays itself |
| Utils.SanitizeIsCharwise | src/utils.ts:35-38 | the three chained `replace` calls equal the per-character map |
| Utils.SanitizeConcat | src/utils.ts:35-38 | sanitizing `a + b` gives the sanitized `a` followed by the sanitized `b` |
| Utils.SanitizeOutputIsSanitized | src/utils.ts:36-38 | no output holds any of ``; & \| ` $ ( ) { } [ ] * ? < >``; every backslash is directly followed by a quote; every quote directly follows a backslash |
| Utils.SanitizePlainUnchanged | src/utils.ts:36-38 | text made only of kept characters passes through unchanged |
| Utils.SanitizeIdempotent | src/utils.ts:36-38 | sanitizing sanitized text changes nothing |
| Utils.SanitizeCharFixed | src/utils.ts:36-38 | what one character becomes, including an escape pair, is a fixed point of the sanitizer |
| Utils.SanitizeEmptyIff | src/utils.ts:36 | the output is empty exactly when every input character is denied |
| Utils.SanitizeKeepsPlain | src/utils.ts:36-38 | a kept character occurs in the output exactly when it occurs in the input |
| Utils.SanitizeDropsBetween | src/utils.ts:36 | a denied character between two plain texts is deleted and joins them |
| Utils.SanitizePlainQuoteThen | src/utils.ts:37-38 | plain text, then a quote, then a rest: the quote gets a backslash and the rest is sanitized on its own |
| Utils.SanitizeDropsShellSeparators | test/utils.test.js:15-18 | `example.com; rm -rf /` sanitizes to `example.com rm -rf /` |
| Utils.SanitizeTestVectorMismatch | test/utils.test.js:16 | the expectation written in the test, `example.com rm -rf `, is not what the sanitizer gives |
| Utils.SanitizeEscapesQuotesAt | src/utils.ts:37-38 | plain texts between four quotes keep their text; each quote gets a backslash |
| Utils.SanitizeEscapesQuotes | test/utils.test.js:22-25 | `example.com" --option="value's"` gets a backslash before each of its four quotes and nothing else changes |
| Utils.OptionalField | src/tools/msfvenom.ts:41 | `x ? sanitizeInput(x) : ''` is the sanitized `x \|\| ''` |
| Utils.StripAnsi | src/utils.ts:49 | the colour pass never lengthens its input |
| Utils.SgrLengthOfSgr | src/utils.ts:49 | a whole `ESC [ digits m` sequence at the front is matched in full |
| Utils.StripAnsiSplitAtEsc | src/utils.ts:49 | the colour pass over a text cut just before an ESC is the two passes one after the other |
| Utils.StripAnsiNoEsc | src/utils.ts:49 | text without ESC is left as it is |
| Utils.StripAnsiRemovesSgr | src/utils.ts:49 | a complete colour sequence is removed wherever it stands, and the text around it is cleaned as if it were not there |
| Utils.StripAnsiSinglePassFor | src/utils.ts:46-51 | for any digits `d`, the colour pass turns `ESC[` + `ESC[dm` + `dm` into `ESC[dm`, and so does formatOutput; formatting that result again gives the empty text, so formatOutput is not idempotent |
| Utils.StripAnsiSinglePass | src/utils.ts:49 | the instance `ESC[ESC[1m1m`, which one pass turns into `ESC[1m` |
| Utils.TrimStart | src/utils.ts:50 | the result is the suffix of the input from its first non-whitespace character |
| Utils.TrimEnd | src/utils.ts:50 | the result is the prefix of the input up to its last non-whitespace character |
| Utils.TrimSplits | src/utils.ts:50 | `trim` cuts its input into leading whitespace, the result and trailing whitespace |
| Utils.TrimExact | src/utils.ts:50 | text with non-whitespace ends between two runs of whitespace is trimmed to itself |
| Utils.TrimUnchanged | src/utils.ts:50 | text with non-whitespace ends is left as it is by `trim` |
| Utils.FormatOutput | src/utils.ts:46-51 | the formatted text neither starts nor ends with whitespace and is no longer than its input |
| Utils.StripTwoSgr | src/utils.ts:49 | two colour sequences around ESC-free text are both removed |
| Utils.FormatRemovesColours | test/utils.test.js:32-35 | `ESC[32mSuccessESC[0m: Operation completed` formats to `Success: Operation completed` |
| Utils.FormatTrimsWhitespace | test/utils.test.js:39-42 | blanks, spaces and newlines around `Result: 42` are trimmed off |
| Utils.ExecuteResult | src/utils.ts:13-25 | a completed process gives its own output. A failure gives an empty stdout, with the error message, or the fixed text when the message is empty, as stderr |
| Utils.ShapeResult | src/tools/nmap.ts:65-69 | `Error: <stderr>` when there is error text and no output, otherwise the formatted output |
| Utils.FailureIsReported | src/utils.ts:18-24 | a failed process reaches the caller as `Error: ` followed by its message, or the fixed text |
| Utils.OutputWinsOverWarnings | src/tools/nmap.ts:65-69 | with output on stdout, stderr is ignored and the output is formatted |
| Utils.Executor.constructor | src/utils.ts:13 | an executor starts with an empty trace |
| Utils.Executor.Execute | src/utils.ts:13-26 | one call appended to the trace, with its command and timeout; its result is the catch shape of the world's outcome for that call |
| Nmap.TechniqueFlag | src/tools/nmap.ts:50-58 | PE/PP/PM/PS/PA/PU give `-PE` … `-PU`; anything else gives `-PE` |
| Nmap.Timing | src/tools/nmap.ts:45 | an absent or zero timing is 3, any other timing is kept |
| Nmap.TimingFieldNeverZero | src/tools/nmap.ts:45 | the timing field is never `-T0`, whatever the option |
| Nmap.HostDiscoveryIsSanitized | src/tools/nmap.ts:43-60 | the discovery command holds none of ``; & \| ` $ ( ) { } [ ] * ? < >``, and every backslash in it is followed by a quote |
| Nmap.HostDiscoveryDefaults | src/tools/nmap.ts:43-60 | with no technique or timing, the command is `nmap -PE -sn -T3 <target> -oG -` |
| Nmap.ScanFlag | src/tools/nmap.ts:87-95 | SYN/TCP/UDP/FIN/NULL/XMAS give `-sS/-sT/-sU/-sF/-sN/-sX`; anything else gives `-sS` |
| Nmap.PortFlag | src/tools/nmap.ts:97-104 | `top1000` gives `--top-ports 1000`, `all` gives `-p-`, anything else, even empty, gives `-p <ports>` |
| Nmap.PortFlagIsSanitized | src/tools/nmap.ts:97-104 | the port selection of sanitized text is sanitized |
| Nmap.ServiceFlag | src/tools/nmap.ts:83 | `-sV` exactly unless the option is an explicit `false`, and empty then |
| Nmap.PortScanIsSanitized | src/tools/nmap.ts:79-108 | the port-scan command holds none of ``; & \| ` $ ( ) { } [ ] * ? < >``, and every backslash in it is followed by a quote |
| Nmap.PortScanDefaults | src/tools/nmap.ts:79-108 | with all options absent, the command is `nmap -sS --top-ports 1000 -sV -T3 <target> -oN -` |
| Nmap.PortScanNoServiceDetection | src/tools/nmap.ts:106-108 | for any options with version detection `false`, the service field is empty, leaving two spaces before `-T` |
| Nmap.PortScanEmptiedPorts | src/tools/nmap.ts:97-104 | for any options whose ports value is non-empty and made only of characters the sanitizer drops, the port field is `-p ` with an empty list, not the default |
| Nmap.Intensity | src/tools/nmap.ts:129 | an absent or zero intensity is 7, any other intensity is kept |
| Nmap.ServiceFingerprintIsSanitized | src/tools/nmap.ts:127-132 | the fingerprint command holds none of ``; & \| ` $ ( ) { } [ ] * ? < >``, and every backslash in it is followed by a quote |
| Nmap.ServiceFingerprintDefaults | src/tools/nmap.ts:127-132 | with no ports or intensity, the command is `nmap -sV --version-intensity 7 -p open <target> -oN -` |
| Nmap.HostDiscovery | src/tools/nmap.ts:41-70 | exactly one executor call, of the discovery command with the default timeout, whose recorded result is the catch shape of the world's outcome for it; the text is that call's shaped result |
| Nmap.PortScan | src/tools/nmap.ts:77-118 | exactly one executor call, of the port-scan command with the default timeout, whose recorded result is the catch shape of the world's outcome for it; the text is that call's shaped result |
| Nmap.ServiceFingerprint | src/tools/nmap.ts:125-142 | exactly one executor call, of the fingerprint command with the default timeout, whose recorded result is the catch shape of the world's outcome for it; the text is that call's shaped result |
| Bbot.SanitizeEach | src/tools/bbot.ts:34 | `map(sanitizeInput)`: same length, each entry sanitized |
| Bbot.ListOrDefault | src/tools/bbot.ts:34 | the comma-join of the sanitized list, or the default when the list is absent or its join is empty |
| Bbot.EmptyJoinIff | src/tools/bbot.ts:34 | the join is empty exactly when the list is empty or is one entry that sanitizes to nothing |
| Bbot.JoinSanitized | src/tools/bbot.ts:34 | a comma-join of sanitized entries keeps the sanitizer's output shape |
| Bbot.ListOrDefaultSanitized | src/tools/bbot.ts:34 | the module or technique list, defaulted, keeps the sanitizer's output shape |
| Bbot.ScanTargetIsSanitized | src/tools/bbot.ts:33-39 | the scan command holds none of ``; & \| ` $ ( ) { } [ ] * ? < >``, and every backslash in it is followed by a quote |
| Bbot.ScanTargetDefaults | src/tools/bbot.ts:33-39 | with no modules, format or depth: `bbot -t <target> -m subdomain_enum,web_discovery -o json -d 1 --no-color` |
| Bbot.EnumerateSubdomainsIsSanitized | src/tools/bbot.ts:58-63 | the subdomain command holds none of ``; & \| ` $ ( ) { } [ ] * ? < >``, and every backslash in it is followed by a quote |
| Bbot.EnumerateSubdomainsFixedModule | src/tools/bbot.ts:63 | whatever the options, the subdomain command includes `-m subdomain_enum` and `-o json` |
| Bbot.EnumerateSubdomainsDefaults | src/tools/bbot.ts:58-63 | with no techniques or depth the techniques are `dns,scrape` and the depth is 2 |
| Bbot.ScanTarget | src/tools/bbot.ts:31-49 | exactly one executor call, of the scan command with the default timeout, whose recorded result is the catch shape of the world's outcome for it; the text is that call's shaped result |
| Bbot.EnumerateSubdomains | src/tools/bbot.ts:56-73 | exactly one executor call, of the subdomain command with the default timeout, whose recorded result is the catch shape of the world's outcome for it; the text is that call's shaped result |
| MsfVenom.ResolveMatchesTable | src/tools/msfvenom.ts:47-86 | the payload lookup agrees with the table: an explicit entry wins, then the platform's own fallback; an unknown platform gives `windows/meterpreter/reverse_tcp` |
| MsfVenom.ResolvedPayloadKind | src/tools/msfvenom.ts:47-86 | every resolved payload is plain text and either connects back or listens. It listens exactly for `bind_tcp` on windows, linux or mac |
| MsfVenom.HostPartByKind | src/tools/msfvenom.ts:92-96 | a listening payload gets ` RPORT=<port>`; a connect-back payload gets ` LHOST=<ip> LPORT=<port>` with an address, nothing without |
| MsfVenom.AddressPartRule | src/tools/msfvenom.ts:47-96 | the address part in terms of the request: RPORT for a listening request; LHOST/LPORT otherwise when an ip is given; nothing otherwise |
| MsfVenom.EncoderPartIff | src/tools/msfvenom.ts:102-104 | ` -e <enc> -i <n>` is present exactly when the encoder option holds a character the sanitizer keeps |
| MsfVenom.FormatAlwaysPresent | src/tools/msfvenom.ts:89-104 | the command is exactly `msfvenom -p <payload>`, the address part, ` -f <format>`, the encoder part and the options, in that order; so ` -f <format>` is always in it |
| MsfVenom.OptionsSuffixConcat | src/tools/msfvenom.ts:107-111 | each option entry contributes its own ` key=value`, in entry order: the suffix of two runs of entries is the two suffixes one after the other |
| MsfVenom.OptionsSuffixSnoc | src/tools/msfvenom.ts:109 | one more entry adds its own ` key=value` at the end |
| MsfVenom.BuildPayloadHead | src/tools/msfvenom.ts:38-104 | the `let payload` table and the `+=` steps give `msfvenom -p <payload>`, the address part, ` -f <format>`, then the encoder part |
| MsfVenom.AppendOptions | src/tools/msfvenom.ts:107-111 | the loop appends the options' suffix to the command built so far |
| MsfVenom.BuildPayloadCommand | src/tools/msfvenom.ts:38-111 | the whole incremental assembly gives the specified payload command |
| MsfVenom.PayloadCommandIsSanitized | src/tools/msfvenom.ts:38-111 | the payload command holds none of ``; & \| ` $ ( ) { } [ ] * ? < >``, and every backslash in it is followed by a quote |
| MsfVenom.GeneratePayload | src/tools/msfvenom.ts:36-121 | exactly one executor call, of the payload command with the default timeout, whose recorded result is the catch shape of the world's outcome for it; the text is that call's shaped result |
| MsfVenom.EncodePayloadIsSanitized | src/tools/msfvenom.ts:130-136 | the encode command holds none of ``; & \| ` $ ( ) { } [ ] * ? < >``, and every backslash in it is followed by a quote |
| MsfVenom.EncodePayloadDefaults | src/tools/msfvenom.ts:132-136 | with no iterations or format: `msfvenom -i <file> -e <enc> -i 1 -f raw`, with `-i` twice as written |
| MsfVenom.EncodePayload | src/tools/msfvenom.ts:128-146 | exactly one executor call, of the encode command with the default timeout, whose recorded result is the catch shape of the world's outcome for it; the text is that call's shaped result |
| MsfConsole.OptionLines | src/tools/msfconsole.ts:53-57 | one `set <key> <value>` line per entry, in entry order |
| MsfConsole.AppendOptionLines | src/tools/msfconsole.ts:53-57 | the loop appends one newline-terminated `set` line per entry, in order |
| MsfConsole.BuildExploitScript | src/tools/msfconsole.ts:40-59 | the script grown with `+=` is the text of the exploit lines: `use`, `set RHOSTS`, `set PAYLOAD` when there is one, the option lines, `exploit` |
| MsfConsole.BuildPostScript | src/tools/msfconsole.ts:87-101 | the script grown with `+=` is the text of the post lines: `use`, `set SESSION <id>` (not sanitized), the option lines, `run` |
| MsfConsole.CommandScript | src/tools/msfconsole.ts:129-132 | the command script is the one line of the sanitized command |
| MsfConsole.ExploitScriptLines | src/tools/msfconsole.ts:45-59 | without newlines in the inputs, the exploit script's lines are exactly the intended ones |
| MsfConsole.PostScriptLines | src/tools/msfconsole.ts:91-101 | without newlines in the inputs, the post script's lines are exactly the intended ones |
| MsfConsole.CommandScriptLines | src/tools/msfconsole.ts:129-132 | without a newline in the command, the command script is one line |
| MsfConsole.PayloadLineIff | src/tools/msfconsole.ts:42-50 | the `set PAYLOAD` line is present exactly when the payload option holds a character the sanitizer keeps; the script has 3 or 4 lines besides the options |
| MsfConsole.ExploitScriptIsSanitized | src/tools/msfconsole.ts:45-59 | the exploit script holds none of ``; & \| ` $ ( ) { } [ ] * ? < >``, and every backslash in it is followed by a quote |
| MsfConsole.PostScriptIsSanitized | src/tools/msfconsole.ts:91-101 | the post script holds none of ``; & \| ` $ ( ) { } [ ] * ? < >``, and every backslash in it is followed by a quote |
| MsfConsole.CommandScriptIsSanitized | src/tools/msfconsole.ts:129-132 | the command script holds none of ``; & \| ` $ ( ) { } [ ] * ? < >``, and every backslash in it is followed by a quote |
| MsfConsole.TempFileInjective | src/tools/msfconsole.ts:62 | runs of one kind started at different times use different files |
| MsfConsole.TempFileLabels | src/tools/msfconsole.ts:62-135 | kinds that start with different letters never share a file |
| MsfConsole.TempFilesDistinct | src/tools/msfconsole.ts:62-135 | the exploit, post and command operations never share a file, and runs of one kind share a file only when started at the same time |
| MsfConsole.TempFilePlain | src/tools/msfconsole.ts:62 | the temporary path holds only characters the sanitizer keeps |
| MsfConsole.WriteCommandQuotes | src/tools/msfconsole.ts:63 | in `echo '<script>' > <file>` for a sanitized script, the only quotes without a backslash before them are the two around the script |
| MsfConsole.WriteStepsWrappedOnce | src/tools/msfconsole.ts:63-136 | in each operation's write command the only quotes without a backslash before them are the two placed around the script, at positions 5 and 6 + its length |
| MsfConsole.RunScript | src/tools/msfconsole.ts:63-77 | three calls appended: write with the default timeout, run with the given timeout, then `rm` of the same file with the default timeout, whatever the run gives; each recorded result is the catch shape of the world's outcome for that call; the text is the run's shaped result alone |
| MsfConsole.RunExploit | src/tools/msfconsole.ts:38-78 | write, run with 120000 ms, remove, all on `/tmp/msfconsole_exploit_<now>.rc`; each recorded result is the catch shape of the world's outcome for that call; the text is the run's shaped result |
| MsfConsole.RunPostExploitation | src/tools/msfconsole.ts:85-120 | write, run with 120000 ms, remove, all on `/tmp/msfconsole_post_<now>.rc`; each recorded result is the catch shape of the world's outcome for that call; the text is the run's shaped result |
| MsfConsole.RunCommand | src/tools/msfconsole.ts:127-151 | write, run with 60000 ms, remove, all on `/tmp/msfconsole_cmd_<now>.rc`; each recorded result is the catch shape of the world's outcome for that call; the text is the run's shaped result |

## Left out

- Process execution itself is not modelled: `execAsync`, OS timeouts, signals and spawn errors. The executor is a class whose outcomes come from an arbitrary `world` function; only the catch shape of `executeCommand` (src/utils.ts:18-24) is modelled.
- The `console.error` logging in the catch branch is left out; it is output only.
- `isToolAvailable` (src/utils.ts:72-79) is left out because it is a `which` probe.
- `parseJsonOutput` (src/utils.ts:58-65) is left out because it is a wrapper around `JSON.parse`.
- src/index.ts (server setup, transport, tool listing and name-to-method dispatch) and scripts/verify-tools.js are not part of this model; they are I/O and lookup.
- The shell's reading of the generated strings is not modelled. The model states their exact shapes and which quotes carry a backslash. It does not claim that a shell given them is free of injection (for example, whether `\'` inside `echo '...'` escapes).
- Numbers are modelled as `int`: NaN, fractions and exponent forms of JavaScript numbers are left out. A port or depth is rendered by its decimal digits.
- Strings are sequences of characters. UTF-16 surrogate pairs are not distinguished from code points.
- `Object.entries` key order: option records are given as a sequence of pairs in entry order. An absent record is the empty sequence, because an object is always truthy.
- `Date.now()` is the parameter `now`.
- MsfConsole.ExploitScriptLines, MsfConsole.PostScriptLines, MsfConsole.CommandScriptLines: these require newline-free inputs. The sanitizer keeps `\n`, so an input holding a newline adds resource-script lines of its own.
- Defaults follow JavaScript `||`: `""` and `0` take the default as well as an absent option.
- A module or technique list takes its default only when its comma-join is empty, so `[";", ";"]` gives `,`.
- The sanitized shape (Utils.IsSanitized) does not constrain whitespace. The sanitizer keeps newline, tab and space (Utils.SanitizeKeepsPlain), and a newline ends a shell command, so no lemma here says that a generated command line is a single shell command.

## Findings

| source | as written | input that shows it | evidently intended | confidence | as-written member | corrected member |
|---|---|---|---|---|---|---|
| test/utils.test.js:16 | expects `sanitizeInput` to give `example.com rm -rf ` | `example.com; rm -rf /` | the sanitizer deletes only the characters of src/utils.ts:36, `/` not among them, so the expected text should end in `/` | not executed | Utils.SanitizeTestVectorMismatch | Utils.SanitizeDropsShellSeparators |
