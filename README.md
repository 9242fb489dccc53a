# ssl-certs-checker: host-list input and output formatting, in Dafny

ssl-certs-checker connects to a list of hosts over TLS and reports what it learns
about each host's certificate. This project models the two sequential parts
around that check.

**Host-list input (the `config` package).** The list of hosts comes from one of
three sources: a YAML config file, a comma-separated `--domains` string, or a
domains file read line by line. For a domains file, a `skip`/`limit` range
selects the lines to use.

Every entry is trimmed and blank entries are dropped. Each remaining entry must
pass `validateHost`, which accepts three forms:
- `host[:port]`;
- `[ipv6][:port]`;
- a bare IPv6 literal.

A port must be a decimal number in 1..65535. `AppConfig.Validate` checks how the
command-line fields fit together.

**Output formatting (the `output` package).** `render` dispatches on the format
name: `json`, `yaml`, or `table`/`""`. `formatTable` builds one seven-column row
per certificate and writes an error section to stderr. `ensureTrailingNewline`
ends every output with a newline. `FormatTo` checks its guards in a fixed order.
Then it prints the output, or writes it to a file: `writeOutputFile` writes a
temporary file, keeps the target's permissions, and renames the temporary file
over the target.

Files:
- `wrappers.dfy`: `Option`, `Result` and `Outcome`, standing in for Go's `(value, error)` and `error` returns.
- `strings.dfy`: the parts of Go's `strings` package that both packages rely on:
  - `unicode.IsSpace`;
  - `TrimSpace`, `Split`, `Join`, `Count` and `HasSuffix`;
  - decimal numbers.
- `hosts.dfy`: `validateHost`, and lemmas for each accepted or rejected form.
- `config.dfy`:
  - `ParseDomainsFromString`, and the hosts scan it shares with the file parsers;
  - the skip/limit window, both as a specification function (`SelectHosts`) and as a looping method (`ParseDomainsFromFileWithRange`);
  - `ParseDomainsFromFile`, `AppConfig.Validate` and `AppConfig.GetHosts`.
- `cert.dfy`: the `cert` records that the formatter prints.
- `output.dfy`:
  - `ensureTrailingNewline`;
  - `formatTable`, as a method proved equal to its specification functions;
  - `render`, `formatJSON` and `formatYAML`;
  - `writeOutputFile`, as a step-by-step method over scripted file-system outcomes that returns the operations it performed;
  - `FormatTo` and `Format`.
- `cases.dfy`: the host-validation cases, the `ParseDomainsFromString` error and empty-entry cases, and the `Validate` cases of `config_test.go`. The list and range cases are stated here over generic host names.
- `test_inputs.dfy`: the literal strings and file contents of the remaining `config_test.go` cases, each derived from the general lemmas:
  - the four `ParseDomainsFromString` success cases;
  - the three files of the `ParseDomainsFromFile` test;
  - the two files of the range test;
  - the file of the `GetHosts` range test.

`config.go` is not part of this model. `ParseDomainsFromString`, `validateHost`,
the range selection, `Validate` and `GetHosts` follow the cases that
`pkg/config/config_test.go` fixes. Where those cases leave a choice open, the
model chooses as follows:
- A port is one or more ASCII digits. Signs and other characters are rejected.
- Any entry that is empty or all white space is rejected as a whole (`EmptyHost`). Any white space inside an entry is rejected (`ContainsWhitespace`). White space is Go's `unicode.IsSpace`.
- Two or more colons without a leading `[` make a bare IPv6 literal. It is accepted without further address syntax checks.
- A domains-file `limit` of 0 means "no limit". So `ParseDomainsFromFile` is the range (0, 0).
- A negative skip is reported before a negative limit when both are given, in `SelectHosts` as in `Validate`.
- Range selection counts raw lines, blank lines included. An invalid line is reported with its 1-based line number in the whole file.
- `Validate` accepts the output formats `""`, `table`, `json` and `yaml`. `yaml` is included because `render` supports it.
- `Validate` checks its rules in this order:
  1. the number of host sources;
  2. a skip or limit without a domains file;
  3. a negative skip;
  4. a negative limit;
  5. the timeout;
  6. the format.
- `GetHosts` returns the hosts `LoadConfig` produced for a config file unchanged. It parses `--domains`, or selects the range of the domains file.

## Model

| member | source | states |
|---|---|---|
| Strings.TrimSpaceTrims | pkg/output/formatter.go:35 | The trimmed text has no white space at either end. It is empty exactly when the input is all white space, which is what the blank-path guard tests. |
| Strings.TrimSpaceIsMiddle | pkg/config/config_test.go:33-35 | Trimming removes only white space, and only at the two ends. What is kept is a contiguous middle of the input. |
| Strings.TrimSpaceOfPadded | pkg/config/config_test.go:32-36 | A trimmed, non-empty entry with white space added on either side trims back to that entry. |
| Strings.TrimSpaceIdempotent | pkg/config/config_test.go:33-35 | Trimming an entry twice gives the same result as trimming it once. |
| Strings.JoinSplit | pkg/config/config_test.go:22-26 | Splitting on commas yields pieces that hold no comma. Joining them back gives the original string. |
| Strings.SplitJoin | pkg/config/config_test.go:22-26 | Splitting comma-free entries that were joined with commas returns exactly those entries. |
| Strings.NatToDecimal | pkg/config/config_test.go:248-250 | The decimal spelling of a number is a run of digits without a leading zero, and it reads back as the same number. |
| Hosts.ValidatePort | pkg/config/config_test.go:271-285 | A port passes exactly when it is a decimal number in 1..65535. Otherwise the error is either "not numeric" or "out of range". |
| Hosts.ValidateHost | pkg/config/config_test.go:223-300 | An accepted host is non-empty and free of white space. The error "empty host" is returned exactly for empty or all-white-space input. |
| Hosts.PlainNameAccepted | pkg/config/config_test.go:223-234 | A non-empty name with no white space, no colon and no leading bracket is accepted. |
| Hosts.NamePortAccepted | pkg/config/config_test.go:227-230 | For a plain name and a port without a colon, `name:port` is accepted exactly when the port is valid. |
| Hosts.PortRoundTrip | pkg/config/config_test.go:247-250 | For a plain name, `name:n`, with `n` spelled in decimal, is accepted exactly when 1 <= n <= 65535. |
| Hosts.EmptyNameRejected | pkg/config/config_test.go:266-270 | A port with no host name before the colon is rejected. |
| Hosts.BareIPv6Accepted | pkg/config/config_test.go:243-246 | Two or more colons, with no brackets and no white space, are accepted as an IPv6 literal. |
| Hosts.BracketedHost | pkg/config/config_test.go:235-242 | A host that starts with `[` is judged by the bracketed rules once white space is ruled out. |
| Hosts.BracketedAccepted | pkg/config/config_test.go:239-242 | `[addr]`, for a non-empty address with no `]` and no white space, is accepted. |
| Hosts.BracketedPortAccepted | pkg/config/config_test.go:235-238 | For a non-empty address with no `]` and no white space, `[addr]:port` is accepted exactly when the port is valid. |
| Hosts.BracketedPortVerdict | pkg/config/config_test.go:235-238 | For a non-empty address with no `]`, the bracketed check of `[addr]:port` has the same verdict as the port check. |
| Hosts.BracketThenRest | pkg/config/config_test.go:235-242 | For a non-empty address with no `]`, the text after that `]` may be nothing, or `:` followed by a valid port. Anything else is an error. |
| Hosts.UnclosedBracketRejected | pkg/config/config_test.go:286-290 | A `[` with no closing `]` is rejected. |
| Hosts.EmptyBracketsRejected | pkg/config/config_test.go:291-295 | `[]` is rejected, whatever follows it. |
| Hosts.TextAfterBracketRejected | pkg/config/config_test.go:296-300 | Text after `]` that does not start with `:` is rejected. |
| Config.NonBlank | pkg/config/config_test.go:32-41 | Each entry is trimmed, blank ones are dropped, and order is kept, so the list never gets longer. Membership and order are proved in `NonBlankMembers` and `NonBlankAppend`. |
| Config.NonBlankOne | pkg/config/config_test.go:37-41 | A single entry yields its trimmed text, or nothing when that is blank. |
| Config.NonBlankOfTrimmed | pkg/config/config_test.go:32-36 | When every entry trims to a non-empty host, the result is exactly those hosts, in order. |
| Config.NonBlankTrimmed | pkg/config/config_test.go:32-36 | Every host in the list is non-empty and trimmed. |
| Config.NonBlankAppend | pkg/config/config_test.go:22-26 | Input order is kept: the hosts of a concatenation are the hosts of each part, in turn. |
| Config.NonBlankMembers | pkg/config/config_test.go:37-41 | A host is listed exactly when some entry trims to it and it is not blank. |
| Config.CollectHostsVerdict | pkg/config/config_test.go:52-56 | The scan succeeds, listing the non-blank entries, exactly when all of them are valid. On failure it names the first invalid entry, its position and the reason. |
| Config.CollectHostsFailureSticks | pkg/config/config_test.go:52-56 | Once the scan fails, adding more entries does not change the error. |
| Config.AllValidConcat | pkg/config/config_test.go:22-30 | A concatenation is all valid exactly when both parts are. |
| Config.ParseDomainsFromString | pkg/config/config_test.go:17-56 | On success, the result is the trimmed non-blank entries, in order, all valid. It fails with "no valid domains" exactly when nothing remains. Otherwise it fails with an invalid entry and that entry's reason. |
| Config.ParseTrimmedEntries | pkg/config/config_test.go:17-36 | Comma-free entries that each trim to a valid host, joined with commas, parse to exactly those hosts, in order. |
| Config.ParseJoinedEntries | pkg/config/config_test.go:17-41 | Parsing comma-free entries joined with commas gives back their non-blank entries, when those are all valid. |
| Config.WindowLines | pkg/config/config_test.go:158-185 | The window counts raw lines: it starts at line `skip` and holds `limit` lines. It holds all remaining lines when `limit` is 0 or the file ends first. |
| Config.WholeWindow | pkg/config/config_test.go:97-110 | The range (0, 0) is the whole file. |
| Config.SelectHosts | pkg/config/config_test.go:205-214 | A negative skip is refused first, then a negative limit. |
| Config.SelectHostsContract | pkg/config/config_test.go:158-190 | On success, the result is the window's non-blank lines, in order, all valid. It fails with "no domains in range" exactly when the window holds no host. Otherwise it fails at an invalid line. |
| Config.SelectHostsNamesLine | pkg/config/config_test.go:192-203 | An invalid line is reported with its 1-based number in the file. That number lies inside the range, the reported host is that line trimmed, and every line before it in the range is valid. |
| Config.RangeStopsAt | pkg/config/config_test.go:192-203 | The selection stops at the first invalid line of the window. |
| Config.RangeCompletes | pkg/config/config_test.go:158-190 | A scan that reaches the end of the window without an error yields the selected hosts. If there are none, it yields "no domains in range". |
| Config.WindowFailure | pkg/config/config_test.go:192-203 | A failure within the scanned prefix of the window is the failure of the whole window. |
| Config.ScanLine | pkg/config/config_test.go:158-203 | One loop step: it extends the scan by one line. If that line is invalid, the error names the line's file number. |
| Config.ParseDomainsFromFileWithRange | pkg/config/config_test.go:151-214 | The line loop computes exactly `SelectHosts`: the raw-line window, blank lines skipped, the file line number of the first invalid line, and the errors for a negative skip or limit. |
| Config.ParseDomainsFromFile | pkg/config/config_test.go:97-138 | The whole file is parsed: the result is `SelectHosts` with the range (0, 0). It succeeds exactly when some line holds a host and every non-blank line is valid, and then the result is those lines, trimmed, in order. An invalid line is reported by its number. |
| Config.Validate | pkg/config/config_test.go:389-514 | A configuration is accepted exactly when it has one host source, and a skip or limit only with a domains file, non-negative. It also needs a positive timeout and a known format. With no source the error is "no host source"; with any two sources it is "multiple host sources". |
| Config.GetHosts | pkg/config/config_test.go:534-568 | Dispatches to the source that is set: config-file hosts unchanged, `ParseDomainsFromString`, or the range selection. Hosts parsed here are never empty and are all valid. |
| Cases.ValidPort443 | pkg/config/config_test.go:227-230 | "443" is a valid port. |
| Cases.ValidPort8080 | pkg/config/config_test.go:235-238 | "8080" is a valid port. |
| Cases.PortBound | pkg/config/config_test.go:247-250 | "65535" is a valid port and "65536" is not. |
| Cases.PlainExampleCom | pkg/config/config_test.go:223-226 | "example.com" is a plain name. |
| Cases.HostnameAccepted | pkg/config/config_test.go:223-234 | "example.com", "www.example.com" and "google.com" are accepted. |
| Cases.HostnameWithPortAccepted | pkg/config/config_test.go:227-230 | "example.com:443" is accepted. |
| Cases.PortRangeChecked | pkg/config/config_test.go:247-250 | "example.com:65535" is accepted and "example.com:65536" is rejected. |
| Cases.NonNumericPortRejected | pkg/config/config_test.go:271-275 | "example.com:abc" is rejected. |
| Cases.PortZeroRejected | pkg/config/config_test.go:276-280 | "example.com:0" is rejected. |
| Cases.SpacesRejected | pkg/config/config_test.go:251-265 | "", "   " and "exam ple.com" are rejected. |
| Cases.EmptyHostnameRejected | pkg/config/config_test.go:266-270 | ":443" is rejected. |
| Cases.BracketedIPv6Accepted | pkg/config/config_test.go:239-242 | "[::1]" is accepted. |
| Cases.BracketedIPv6WithPortAccepted | pkg/config/config_test.go:235-238 | "[::1]:8080" is accepted. |
| Cases.BareIPv6LiteralAccepted | pkg/config/config_test.go:243-246 | "2001:db8::1" is accepted. |
| Cases.MalformedIPv6Rejected | pkg/config/config_test.go:286-300 | "[::1:8080", "[]" and "[::1]invalid" are rejected. |
| Cases.NonBlankOfFour | pkg/config/config_test.go:37-41 | Blank entries drop out of a list of four, and order is kept. |
| Cases.JoinOfFour | pkg/config/config_test.go:37-41 | Four entries, two of them empty, joined with commas. |
| Cases.ParseOfFour | pkg/config/config_test.go:37-41 | Two valid names, each followed by an empty entry, parse to just the two names, in order. |
| Cases.EmptyEntriesDropped | pkg/config/config_test.go:37-41 | "example.com,,google.com," gives exactly ["example.com", "google.com"]. |
| Cases.OnlyCommasRejected | pkg/config/config_test.go:47-51 | ",,," fails with "no valid domains". |
| Cases.EmptyStringRejected | pkg/config/config_test.go:42-46 | "" fails with "no valid domains". |
| Cases.ParseRejectsBadEntry | pkg/config/config_test.go:52-56 | One invalid entry after a valid one fails the whole list, and the error names that entry. |
| Cases.ExampleComGood | pkg/config/config_test.go:52-56 | "example.com" is a trimmed, valid, comma-free entry. |
| Cases.HostWithSpacesInvalid | pkg/config/config_test.go:52-56 | "host with spaces" is trimmed and comma-free, but invalid. |
| Cases.HostWithSpacesRejected | pkg/config/config_test.go:52-56 | "example.com,host with spaces" is rejected. |
| Cases.NonBlankOfGood | pkg/config/config_test.go:158-170 | A line holding one valid host yields that host. |
| Cases.TwoGoodLines | pkg/config/config_test.go:158-170 | Two lines each holding a valid host yield both hosts, in order, all valid. |
| Cases.RangeCountsBlankLines | pkg/config/config_test.go:158-178 | In a five-line file whose second line is blank, the range (1, 3) gives the third and fourth lines. |
| Cases.RangeTakesLastLines | pkg/config/config_test.go:180-185 | In the same file, the range (3, 2) gives the last two lines. |
| Cases.RangePastEndRejected | pkg/config/config_test.go:187-190 | A range that starts at line 100 of a shorter file selects nothing, and fails. |
| Cases.InvalidLineNumbered | pkg/config/config_test.go:192-203 | An invalid third line, read with the range (1, 2), is reported as line 3 of the file. |
| Cases.InvalidDomainLiteral | pkg/config/config_test.go:192-196 | "invalid domain", the bad line of both invalid-file tests, is trimmed and invalid. |
| Cases.RangeOfFourLines | pkg/config/config_test.go:541-568 | In a four-line file, the range (1, 2) gives the second and third lines. |
| Cases.ValidConfigsAccepted | pkg/config/config_test.go:395-427 | The four accepted configurations of the test pass `Validate`. |
| Cases.InvalidConfigsRejected | pkg/config/config_test.go:428-514 | The ten rejected configurations of the test fail `Validate`, each with the error of its own rule: no host source, multiple host sources, a range without a domains file, a negative skip, a negative limit, a zero timeout, or the unsupported format "xml". |
| TestInputs.SingleDomain | pkg/config/config_test.go:17-21 | "example.com" parses to ["example.com"]. |
| TestInputs.MultipleDomains | pkg/config/config_test.go:22-26 | "example.com,google.com,github.com" parses to the three names, in order. |
| TestInputs.DomainsWithPorts | pkg/config/config_test.go:27-31 | "example.com:443,google.com:8080" parses to both hosts with their ports. |
| TestInputs.DomainsWithSpaces | pkg/config/config_test.go:32-36 | " example.com , google.com , github.com " parses to the three names, trimmed, in order. |
| TestInputs.ParsePlainNames | pkg/config/config_test.go:17-26 | Names of lower-case letters, digits, dots and hyphens, joined with commas, parse to themselves, in order. |
| TestInputs.ParsePortedNames | pkg/config/config_test.go:27-31 | Such names with valid ports, joined with commas, parse to themselves, in order. |
| TestInputs.ParseThreeEntries | pkg/config/config_test.go:32-36 | Three comma-free entries that trim to valid hosts, joined with commas, parse to those hosts, in order. |
| TestInputs.Padded | pkg/config/config_test.go:32-36 | A valid host with one space on each side trims back to the host. |
| TestInputs.WholeFileHosts | pkg/config/config_test.go:97-110 | A file whose non-blank lines are all valid hosts yields exactly those hosts. |
| TestInputs.FileOfFiveLines | pkg/config/config_test.go:97-110 | Five lines, the second and fourth blank, the others trimming to valid hosts, yield those three hosts, in order. |
| TestInputs.DomainsFileParsed | pkg/config/config_test.go:97-116 | The file " example.com ", "", " google.com:443 ", "   ", "github.com" gives ["example.com", "google.com:443", "github.com"]. |
| TestInputs.EmptyDomainsFileRejected | pkg/config/config_test.go:118-127 | The file "\n  \n\t\r\n" is taken as the lines "", "  " and "\t", assuming the reader drops a carriage return before a line break, as a default `bufio.Scanner` does. Every line is blank, so it fails with "no domains in range". |
| TestInputs.InvalidDomainsFileRejected | pkg/config/config_test.go:129-138 | In "example.com", "invalid domain" the second line is rejected and reported as line 2. |
| TestInputs.RangeFileSelected | pkg/config/config_test.go:158-190 | In the range-test file, (1, 3) gives "second.example.com:443" and "third.example.com", (3, 2) gives "third.example.com" and "fourth.example.com", and (100, 1) fails with "no domains in range". |
| TestInputs.InvalidRangeFileRejected | pkg/config/config_test.go:192-203 | In "first.example.com", "second.example.com", "invalid domain", the range (1, 2) fails at line 3. |
| TestInputs.GetHostsRangeSelected | pkg/config/config_test.go:534-568 | The test's configuration passes `Validate`, and the range (1, 2) of its four-line file gives "beta.example.com" and "gamma.example.com". |
| TestInputs.GetHostsRangeTest | pkg/config/config_test.go:534-568 | `GetHosts` on the test's configuration and four-line file returns exactly ["beta.example.com", "gamma.example.com"]. |
| Output.EnsureTrailingNewline | pkg/output/formatter.go:133-139 | The result ends in a newline, starts with the content, and is at most one character longer. |
| Output.EnsureTrailingNewlineKeeps | pkg/output/formatter.go:134-136 | Content that already ends in a newline is returned unchanged. |
| Output.EnsureTrailingNewlineShortest | pkg/output/formatter.go:133-139 | The result is the shortest extension of the content that ends in a newline. |
| Output.EnsureTrailingNewlineIdempotent | pkg/output/formatter.go:133-139 | Applying it twice gives the same result as applying it once. |
| Output.TableRow | pkg/output/formatter.go:108-116 | A row has exactly as many cells as the header has columns. |
| Output.DnsCellEmpty | pkg/output/formatter.go:103-106 | The DNS cell is empty exactly when there are no names, or a single name that is itself empty. |
| Output.TableRowRoundTrip | pkg/output/formatter.go:102-116 | When no DNS name is empty or holds a line break, a row holds the whole certificate: reading its cells back gives the certificate, DNS names split again at the line breaks. |
| Output.TableRows | pkg/output/formatter.go:102-117 | One row per certificate, in the order of `result.Certificates`. |
| Output.ErrorLines | pkg/output/formatter.go:121-123 | One `"  host: error"` line per failed host, in order. |
| Output.ErrorSectionShape | pkg/output/formatter.go:119-125 | The error section is written exactly when some host failed. It is the heading, then one line per failure in order, then a blank line. |
| Output.FormatTable | pkg/output/formatter.go:90-131 | The row loop and the stderr loop produce exactly the rendered table of all rows, ending in a newline, and the error section. |
| Output.FormatJSON | pkg/output/formatter.go:69-77 | Fails exactly when JSON marshalling fails, with the marshaller's error after the prefix "error marshaling JSON: ". On success the marshalled text is kept whole and ends in a newline, with at most one character added. |
| Output.FormatYAML | pkg/output/formatter.go:79-87 | Fails exactly when YAML marshalling fails, with the marshaller's error after the prefix "error marshaling YAML: ". On success the marshalled text is kept whole and ends in a newline, with at most one character added. |
| Output.Render | pkg/output/formatter.go:56-67 | The switch computes exactly the specified dispatch: `json`, `yaml`, `table` or `""`, or the error for an unknown format. |
| Output.RenderingRefusesUnknown | pkg/output/formatter.go:56-87 | A format is refused with "unsupported output format: <format>" exactly when it is not known. Every other failure is a JSON or YAML marshalling error. |
| Output.RenderingEndsWithNewline | pkg/output/formatter.go:70-87 | Every successful rendering ends in a newline. |
| Output.RenderingStderr | pkg/output/formatter.go:56-67 | Only the table format writes to stderr, and only when some host failed. |
| Output.Perm | pkg/output/formatter.go:159 | `Perm` keeps the low nine permission bits: the result is below 0o1000, it differs from the mode by a multiple of 0o1000, and a mode that has only those bits is unchanged. |
| Output.WriteOutcome | pkg/output/formatter.go:141-190 | The specification of `writeOutputFile`: the steps run in order until one fails, a failure after the temporary file exists closes it (unless closing failed) and then removes it. Every trace starts by creating the temporary file. |
| Output.WriteOutcomeErrors | pkg/output/formatter.go:141-190 | Success is returned exactly when every step succeeds. The success trace is: create, stat, chmod to the chosen mode, write, sync, close, rename. Each failing step gives its own message. |
| Output.WriteOutcomeCleanup | pkg/output/formatter.go:148-163 | Once the temporary file exists, it is removed exactly on failure, as the last operation. The chmod uses the target's permission bits, or 0o644 when the target is missing. |
| Output.WriteOutcomeRenamesLast | pkg/output/formatter.go:165-186 | The rename happens only when stat, chmod, write, sync and close all succeeded, and the write, the sync and the close all come before it in the trace. A failure before the rename leaves the target untouched. |
| Output.WriteOutputFile | pkg/output/formatter.go:141-190 | The step-by-step method performs exactly the operations and returns exactly the error of `WriteOutcome`. As in the source, a `removeTmp` flag is cleared only by a completed rename, and one deferred cleanup point removes the temporary file while it is set. |
| Output.FormatTo | pkg/output/formatter.go:30-54 | The guards run in order: nil result, then a blank path, then render errors, and no output is produced before all three have passed. Output goes to stdout without a file. With a file, the operations are exactly those of `WriteOutcome`, and a write failure returns "error writing output file: " followed by `writeOutputFile`'s own error. A successful write ends with the rename over the target. |
| Output.Format | pkg/output/formatter.go:25-27 | `FormatTo` with no output file: the rendered output goes to stdout, and render errors are returned unchanged. |

## Left out

- The certificate check itself: TLS dialling, certificate extraction, the worker pool and cancellation. `pkg/cert` is not part of this model. Its records appear only as the formatter's input.
- `LoadConfig` and YAML parsing of the config file: `config.go` is not part of this model, and the parsing is library code. `GetHosts` takes the hosts `LoadConfig` would produce as a parameter.
- Reading files. `ParseDomainsFromFile` and `ParseDomainsFromFileWithRange` take the lines already read. The reader is assumed to split at line breaks and drop a carriage return before one, as a default `bufio.Scanner` does; `config.go` is not part of this model. Errors for a missing file or an empty path are not modelled.
- `json.MarshalIndent`, `yaml.Marshal` and go-pretty's table rendering are foreign library calls. They are function-valued parameters (`Serializers`), and only the logic around them is verified.
- Formatting `NotBefore`/`NotAfter` as text belongs to the table renderer. The model passes the instants through as `Time` cells.
- Output.WriteOutputFile: the file system is a script of outcomes (`FsEnv`), one per step, and the model returns the operations performed. `filepath.Dir`, the temporary-name pattern and the bytes written to disk are not modelled. The errors from the `Close` calls on failure paths and from the deferred `Remove` are ignored, as in the source.
- Output.FormatTo: printing to stdout and writing to stderr are returned as values (`stdout`, `stderr`) rather than performed.
- `New()`: it only allocates an empty formatter, which holds no state.
