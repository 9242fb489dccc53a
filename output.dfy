/**
 * The `output` package's formatter: `render` chooses a serialiser by format name,
 * `formatTable` lays the certificates out as a table and the failed hosts as an error
 * section on stderr, `writeOutputFile` replaces the output file through a temporary
 * file, and `FormatTo` chains its guards in front of all of them.
 *
 * The JSON and YAML marshallers and the table renderer are library code; they are
 * parameters here (`Serializers`). The file system is a script of step outcomes
 * (`FsEnv`), and `WriteOutputFile` returns the operations it performed.
 */
module Output {
  import opened Wrappers
  import opened Strings
  import Cert

  /** `defaultOutputFileMode`, 0o644. */
  const DefaultOutputFileMode: nat := 0x1A4

  /** The column titles of the table, in order. */
  const TableHeader: seq<string> :=
    ["Host", "Common Name", "DNS Names", "Not Before", "Not After", "PublicKeyAlgorithm", "Issuer"]

  /** The stderr line that opens the error section. */
  const ErrorsHeading := "\nErrors encountered:\n"

  const NilResultError := "result cannot be nil"
  const EmptyPathError := "output file path cannot be empty"
  const UnsupportedFormatPrefix := "unsupported output format: "
  const JsonErrorPrefix := "error marshaling JSON: "
  const YamlErrorPrefix := "error marshaling YAML: "
  const WriteErrorPrefix := "error writing output file: "
  const CreateTempErrorPrefix := "failed to create temporary output file: "
  const InspectErrorPrefix := "failed to inspect output file: "
  const ChmodErrorPrefix := "failed to set output file permissions: "
  const WriteDataErrorPrefix := "failed to write output data: "
  const SyncErrorPrefix := "failed to flush output data: "
  const CloseErrorPrefix := "failed to close output file: "
  const RenameErrorPrefix := "failed to replace output file: "

  /** A table cell: text, or a time value the table renderer formats. */
  datatype Cell = Text(text: string) | Time(instant: Cert.Instant)

  /**
   * The library calls the formatter relies on: `json.MarshalIndent`, `yaml.Marshal`
   * (each giving the text or an error message) and go-pretty's `Render` of a header
   * and rows.
   */
  datatype Serializers = Serializers(
    marshalJSON: Cert.Result -> Result<string, string>,
    marshalYAML: Cert.Result -> Result<string, string>,
    renderTable: (seq<string>, seq<seq<Cell>>) -> string)

  /** What `render` gives back: the output text or an error, and the lines it wrote to stderr. */
  datatype Rendered = Rendered(output: Result<string, string>, stderr: seq<string>)

  // ----- ensureTrailingNewline -----

  predicate EndsWithNewline(s: string) {
    HasSuffix(s, "\n")
  }

  /** `ensureTrailingNewline`: `content`, followed by "\n" unless it already ends with one. */
  function EnsureTrailingNewline(content: string): (r: string)
    ensures EndsWithNewline(r)
    ensures content <= r && |r| <= |content| + 1
  {
    if HasSuffix(content, "\n") then content else content + "\n"
  }

  /** Nothing is added to text that already ends in a newline. */
  lemma {:induction false} EnsureTrailingNewlineKeeps(content: string)
    requires EndsWithNewline(content)
    ensures EnsureTrailingNewline(content) == content
  {
  }

  /** The result is the shortest extension of `content` that ends in a newline. */
  lemma {:induction false} EnsureTrailingNewlineShortest(content: string, t: string)
    requires content <= t && EndsWithNewline(t)
    ensures |EnsureTrailingNewline(content)| <= |t|
  {
  }

  lemma {:induction false} EnsureTrailingNewlineIdempotent(content: string)
    ensures EnsureTrailingNewline(EnsureTrailingNewline(content)) == EnsureTrailingNewline(content)
  {
    EnsureTrailingNewlineKeeps(EnsureTrailingNewline(content));
  }

  // ----- formatTable -----

  /** The DNS Names cell: the names one per line, "" when there are none. */
  function DnsCell(names: seq<string>): string {
    if |names| > 0 then Join(names, '\n') else ""
  }

  /** The DNS Names cell is empty exactly when there are no names, or only one and it is empty. */
  lemma {:induction false} DnsCellEmpty(names: seq<string>)
    ensures DnsCell(names) == "" <==> names == [] || names == [""]
  {
    if |names| > 1 {
      assert |Join(names, '\n')| > 0;
    } else if |names| == 1 {
      assert names == [names[0]];
    }
  }

  /** The table row of one certificate, its cells in the order of `TableHeader`. */
  function TableRow(c: Cert.CertificateInfo): (row: seq<Cell>)
    ensures |row| == |TableHeader|
  {
    [Text(c.host), Text(c.commonName), Text(DnsCell(c.dnsNames)),
     Time(c.notBefore), Time(c.notAfter), Text(c.publicKeyAlgorithm), Text(c.issuer)]
  }

  /** Reads a certificate back from its row, column by column; the inverse of `TableRow`. */
  function RowCertificate(row: seq<Cell>): Option<Cert.CertificateInfo> {
    if |row| != |TableHeader| then None
    else if !(row[0].Text? && row[1].Text? && row[2].Text? && row[3].Time? && row[4].Time?
              && row[5].Text? && row[6].Text?) then None
    else
      var names := if row[2].text == "" then [] else Split(row[2].text, '\n');
      Some(Cert.CertificateInfo(row[0].text, row[1].text, names, row[3].instant, row[4].instant,
                                row[5].text, row[6].text))
  }

  /** DNS names as a certificate lists them: none empty, none holding a line break. */
  predicate PlainDnsNames(names: seq<string>) {
    forall i :: 0 <= i < |names| ==> names[i] != "" && '\n' !in names[i]
  }

  /**
   * A row holds the whole certificate: reading it back column by column gives the
   * certificate, provided no DNS name is empty or holds a line break.
   */
  lemma {:induction false} TableRowRoundTrip(c: Cert.CertificateInfo)
    requires PlainDnsNames(c.dnsNames)
    ensures RowCertificate(TableRow(c)) == Some(c)
  {
    var names := c.dnsNames;
    if |names| > 0 {
      SplitJoin(names, '\n');
      JoinNonEmpty(names, '\n');
    }
  }

  /** Joining a list whose first part is non-empty gives non-empty text. */
  lemma {:induction false} JoinNonEmpty(parts: seq<string>, sep: char)
    requires |parts| > 0 && parts[0] != ""
    ensures Join(parts, sep) != ""
  {
  }

  /** The rows of the table, one per certificate, in order. */
  function TableRows(certs: seq<Cert.CertificateInfo>): (rows: seq<seq<Cell>>)
    ensures |rows| == |certs|
    ensures forall i :: 0 <= i < |certs| ==> rows[i] == TableRow(certs[i])
  {
    if certs == [] then []
    else TableRows(certs[..|certs| - 1]) + [TableRow(certs[|certs| - 1])]
  }

  /** One stderr line of the error section. */
  function ErrorLine(e: Cert.ErrorInfo): string {
    "  " + e.host + ": " + e.error + "\n"
  }

  /** The error lines, one per failed host, in order. */
  function ErrorLines(errors: seq<Cert.ErrorInfo>): (lines: seq<string>)
    ensures |lines| == |errors|
    ensures forall i :: 0 <= i < |errors| ==> lines[i] == ErrorLine(errors[i])
  {
    if errors == [] then []
    else ErrorLines(errors[..|errors| - 1]) + [ErrorLine(errors[|errors| - 1])]
  }

  /** What `formatTable` writes to stderr. */
  function ErrorSection(errors: seq<Cert.ErrorInfo>): seq<string> {
    if |errors| > 0 then [ErrorsHeading] + ErrorLines(errors) + ["\n"] else []
  }

  /**
   * The error section is written only when some host failed: then it is the heading,
   * one line per failed host in order, and a blank line.
   */
  lemma {:induction false} ErrorSectionShape(errors: seq<Cert.ErrorInfo>)
    ensures ErrorSection(errors) == [] <==> errors == []
    ensures errors != [] ==>
      && |ErrorSection(errors)| == |errors| + 2
      && ErrorSection(errors)[0] == ErrorsHeading
      && (forall i :: 0 <= i < |errors| ==> ErrorSection(errors)[i + 1] == ErrorLine(errors[i]))
      && ErrorSection(errors)[|errors| + 1] == "\n"
  {
  }

  /** The table text `formatTable` returns. */
  function TableOutput(s: Serializers, result: Cert.Result): string {
    EnsureTrailingNewline(s.renderTable(TableHeader, TableRows(result.certificates)))
  }

  /** `formatTable`: append one row per certificate, write the error section, render. */
  method FormatTable(s: Serializers, result: Cert.Result) returns (output: string, stderr: seq<string>)
    ensures output == TableOutput(s, result)
    ensures stderr == ErrorSection(result.errors)
  {
    var certs := result.certificates;
    var rows: seq<seq<Cell>> := [];
    for k := 0 to |certs|
      invariant rows == TableRows(certs[..k])
    {
      var c := certs[k];
      var dnsNames := "";
      if |c.dnsNames| > 0 {
        dnsNames := Join(c.dnsNames, '\n');
      }
      assert certs[..k + 1][..k] == certs[..k];
      rows := rows + [[Text(c.host), Text(c.commonName), Text(dnsNames),
                       Time(c.notBefore), Time(c.notAfter), Text(c.publicKeyAlgorithm), Text(c.issuer)]];
    }
    assert certs[..|certs|] == certs;

    stderr := [];
    var errors := result.errors;
    if |errors| > 0 {
      stderr := stderr + [ErrorsHeading];
      for k := 0 to |errors|
        invariant stderr == [ErrorsHeading] + ErrorLines(errors[..k])
      {
        assert errors[..k + 1][..k] == errors[..k];
        stderr := stderr + ["  " + errors[k].host + ": " + errors[k].error + "\n"];
      }
      assert errors[..|errors|] == errors;
      stderr := stderr + ["\n"];
    }

    output := EnsureTrailingNewline(s.renderTable(TableHeader, rows));
  }

  // ----- render -----

  /**
   * `formatJSON`: a marshalling error is wrapped under its own prefix; marshalled text is
   * kept whole and ends in a newline.
   */
  function FormatJSON(s: Serializers, result: Cert.Result): (r: Result<string, string>)
    ensures r.Failure? <==> s.marshalJSON(result).Failure?
    ensures r.Failure? ==>
      JsonErrorPrefix <= r.error && r.error[|JsonErrorPrefix|..] == s.marshalJSON(result).error
    ensures r.Success? ==>
      && EndsWithNewline(r.value)
      && s.marshalJSON(result).value <= r.value && |r.value| <= |s.marshalJSON(result).value| + 1
  {
    match s.marshalJSON(result)
    case Failure(e) => Failure(JsonErrorPrefix + e)
    case Success(text) => Success(EnsureTrailingNewline(text))
  }

  /**
   * `formatYAML`: a marshalling error is wrapped under its own prefix; marshalled text is
   * kept whole and ends in a newline.
   */
  function FormatYAML(s: Serializers, result: Cert.Result): (r: Result<string, string>)
    ensures r.Failure? <==> s.marshalYAML(result).Failure?
    ensures r.Failure? ==>
      YamlErrorPrefix <= r.error && r.error[|YamlErrorPrefix|..] == s.marshalYAML(result).error
    ensures r.Success? ==>
      && EndsWithNewline(r.value)
      && s.marshalYAML(result).value <= r.value && |r.value| <= |s.marshalYAML(result).value| + 1
  {
    match s.marshalYAML(result)
    case Failure(e) => Failure(YamlErrorPrefix + e)
    case Success(text) => Success(EnsureTrailingNewline(text))
  }

  /** The format names `render` knows. */
  predicate KnownFormat(format: string) {
    format == "json" || format == "yaml" || format == "table" || format == ""
  }

  /** `render`: the specification of the format dispatch. */
  function Rendering(s: Serializers, result: Cert.Result, format: string): Rendered {
    if format == "json" then Rendered(FormatJSON(s, result), [])
    else if format == "yaml" then Rendered(FormatYAML(s, result), [])
    else if format == "table" || format == "" then
      Rendered(Success(TableOutput(s, result)), ErrorSection(result.errors))
    else Rendered(Failure(UnsupportedFormatPrefix + format), [])
  }

  /** `render`, calling the imperative `FormatTable` for tables. */
  method Render(s: Serializers, result: Cert.Result, format: string) returns (r: Rendered)
    ensures r == Rendering(s, result, format)
  {
    match format {
      case "json" => r := Rendered(FormatJSON(s, result), []);
      case "yaml" => r := Rendered(FormatYAML(s, result), []);
      case "table" =>
        var output, stderr := FormatTable(s, result);
        r := Rendered(Success(output), stderr);
      case "" =>
        var output, stderr := FormatTable(s, result);
        r := Rendered(Success(output), stderr);
      case _ => r := Rendered(Failure(UnsupportedFormatPrefix + format), []);
    }
  }

  /**
   * A format is refused exactly when `render` does not know it, and the refusal names
   * the format; any other failure comes from a marshaller.
   */
  lemma {:induction false} RenderingRefusesUnknown(s: Serializers, result: Cert.Result, format: string)
    ensures Rendering(s, result, format).output == Failure(UnsupportedFormatPrefix + format)
            <==> !KnownFormat(format)
    ensures Rendering(s, result, format).output.Failure? && KnownFormat(format) ==>
      || (format == "json" && JsonErrorPrefix <= Rendering(s, result, format).output.error)
      || (format == "yaml" && YamlErrorPrefix <= Rendering(s, result, format).output.error)
  {
    var out := Rendering(s, result, format).output;
    if format == "json" && out.Failure? {
      assert out.error[0] == 'e' != (UnsupportedFormatPrefix + format)[0];
    }
    if format == "yaml" && out.Failure? {
      assert out.error[0] == 'e' != (UnsupportedFormatPrefix + format)[0];
    }
  }

  /** Every rendered output ends in a newline, whatever the serialiser produced. */
  lemma {:induction false} RenderingEndsWithNewline(s: Serializers, result: Cert.Result, format: string)
    requires Rendering(s, result, format).output.Success?
    ensures EndsWithNewline(Rendering(s, result, format).output.value)
  {
  }

  /** Only the table format writes to stderr, and only when some host failed. */
  lemma {:induction false} RenderingStderr(s: Serializers, result: Cert.Result, format: string)
    ensures Rendering(s, result, format).stderr != [] <==>
      (format == "table" || format == "") && result.errors != []
  {
    ErrorSectionShape(result.errors);
  }

  // ----- writeOutputFile -----

  /** What `os.Stat` of the target reports. */
  datatype StatOutcome = Exists(mode: nat) | NotExist | StatFailed(message: string)

  /**
   * The outcomes the file system gives each step of `writeOutputFile`: the temporary
   * file's name or an error, the stat of the target, then chmod, write, sync, close and
   * rename, each passing or failing with a message.
   */
  datatype FsEnv = FsEnv(
    createTemp: Result<string, string>,
    stat: StatOutcome,
    chmod: Outcome<string>,
    write: Outcome<string>,
    sync: Outcome<string>,
    close: Outcome<string>,
    rename: Outcome<string>)

  /** The file-system operations `writeOutputFile` performs. */
  datatype FsOp =
    | CreateTemp(nextTo: string)
    | Stat(path: string)
    | Chmod(file: string, mode: nat)
    | WriteData(file: string, data: string)
    | Sync(file: string)
    | Close(file: string)
    | Rename(from: string, to: string)
    | Remove(file: string)

  /** `os.FileMode.Perm`: the nine permission bits. */
  function Perm(mode: nat): (p: nat)
    ensures p < 0x200
    ensures (mode - p) % 0x200 == 0
    ensures mode < 0x200 ==> p == mode
  {
    mode % 0x200
  }

  /** The mode the new file gets: the target's permission bits, 0o644 when it does not exist, none when stat fails. */
  function ChosenMode(stat: StatOutcome): Option<nat> {
    match stat
    case Exists(mode) => Some(Perm(mode))
    case NotExist => Some(DefaultOutputFileMode)
    case StatFailed(_) => None
  }

  /** Every step of `writeOutputFile` succeeds. */
  predicate WriteSucceeds(env: FsEnv) {
    && env.createTemp.Success?
    && !env.stat.StatFailed?
    && env.chmod.Pass? && env.write.Pass? && env.sync.Pass? && env.close.Pass? && env.rename.Pass?
  }

  /** What `writeOutputFile` returns, and the file-system operations it performed, in order. */
  datatype Written = Written(err: Option<string>, ops: seq<FsOp>)

  /**
   * The specification of `writeOutputFile`: the steps run in order until one fails; a
   * failure after the temporary file exists closes it (unless closing is what failed)
   * and the deferred cleanup then removes it.
   */
  function WriteOutcome(path: string, data: string, env: FsEnv): (w: Written)
    ensures |w.ops| > 0 && w.ops[0] == CreateTemp(path)
  {
    if env.createTemp.Failure? then
      Written(Some(CreateTempErrorPrefix + env.createTemp.error), [CreateTemp(path)])
    else
      var tmp := env.createTemp.value;
      var inspected := [CreateTemp(path)] + [Stat(path)];
      if env.stat.StatFailed? then
        Written(Some(InspectErrorPrefix + env.stat.message), inspected + [Close(tmp), Remove(tmp)])
      else
        var chmodded := inspected + [Chmod(tmp, ChosenMode(env.stat).value)];
        if env.chmod.Fail? then
          Written(Some(ChmodErrorPrefix + env.chmod.error), chmodded + [Close(tmp), Remove(tmp)])
        else
          var written := chmodded + [WriteData(tmp, data)];
          if env.write.Fail? then
            Written(Some(WriteDataErrorPrefix + env.write.error), written + [Close(tmp), Remove(tmp)])
          else
            var synced := written + [Sync(tmp)];
            if env.sync.Fail? then
              Written(Some(SyncErrorPrefix + env.sync.error), synced + [Close(tmp), Remove(tmp)])
            else
              var closed := synced + [Close(tmp)];
              if env.close.Fail? then
                Written(Some(CloseErrorPrefix + env.close.error), closed + [Remove(tmp)])
              else
                var renamed := closed + [Rename(tmp, path)];
                if env.rename.Fail? then
                  Written(Some(RenameErrorPrefix + env.rename.error), renamed + [Remove(tmp)])
                else
                  Written(None, renamed)
  }

  /**
   * The write succeeds exactly when every step does, with the full trace ending in the
   * rename; each failing step gives its own message.
   */
  lemma {:induction false} WriteOutcomeErrors(path: string, data: string, env: FsEnv)
    ensures var w := WriteOutcome(path, data, env);
      && (w.err.None? <==> WriteSucceeds(env))
      && (w.err.None? ==>
            var tmp := env.createTemp.value;
            w.ops == [CreateTemp(path), Stat(path), Chmod(tmp, ChosenMode(env.stat).value),
                      WriteData(tmp, data), Sync(tmp), Close(tmp), Rename(tmp, path)])
      && (env.createTemp.Failure? ==>
            w.err == Some(CreateTempErrorPrefix + env.createTemp.error) && w.ops == [CreateTemp(path)])
      && (env.createTemp.Success? && env.stat.StatFailed? ==>
            w.err == Some(InspectErrorPrefix + env.stat.message))
      && (env.createTemp.Success? && !env.stat.StatFailed? && env.chmod.Fail? ==>
            w.err == Some(ChmodErrorPrefix + env.chmod.error))
      && (env.createTemp.Success? && !env.stat.StatFailed? && env.chmod.Pass? && env.write.Fail? ==>
            w.err == Some(WriteDataErrorPrefix + env.write.error))
      && (env.createTemp.Success? && !env.stat.StatFailed? && env.chmod.Pass? && env.write.Pass?
          && env.sync.Fail? ==>
            w.err == Some(SyncErrorPrefix + env.sync.error))
      && (env.createTemp.Success? && !env.stat.StatFailed? && env.chmod.Pass? && env.write.Pass?
          && env.sync.Pass? && env.close.Fail? ==>
            w.err == Some(CloseErrorPrefix + env.close.error))
      && (env.createTemp.Success? && !env.stat.StatFailed? && env.chmod.Pass? && env.write.Pass?
          && env.sync.Pass? && env.close.Pass? && env.rename.Fail? ==>
            w.err == Some(RenameErrorPrefix + env.rename.error))
  {
  }

  /**
   * Once the temporary file exists, it is removed exactly when the write fails, as the
   * last operation, and any chmod gives it the chosen mode.
   */
  lemma {:induction false} WriteOutcomeCleanup(path: string, data: string, env: FsEnv)
    requires env.createTemp.Success?
    ensures var w, tmp := WriteOutcome(path, data, env), env.createTemp.value;
      && (w.err.Some? <==> Remove(tmp) in w.ops)
      && (w.err.Some? ==> w.ops[|w.ops| - 1] == Remove(tmp))
      && (forall m: nat :: Chmod(tmp, m) in w.ops ==> ChosenMode(env.stat) == Some(m))
  {
  }

  /**
   * The temporary file is renamed over the target only after the chmod, the write, the
   * sync and the close have all succeeded, and only after the data was written, flushed
   * and the file closed; a failure before that leaves the target untouched.
   */
  lemma {:induction false} WriteOutcomeRenamesLast(path: string, data: string, env: FsEnv)
    requires env.createTemp.Success?
    ensures var w, tmp := WriteOutcome(path, data, env), env.createTemp.value;
      && (Rename(tmp, path) in w.ops ==>
            !env.stat.StatFailed? && env.chmod.Pass? && env.write.Pass? && env.sync.Pass? && env.close.Pass?)
      && (forall i :: 0 <= i < |w.ops| && w.ops[i] == Rename(tmp, path) ==>
            WriteData(tmp, data) in w.ops[..i] && Sync(tmp) in w.ops[..i] && Close(tmp) in w.ops[..i])
  {
    var w, tmp := WriteOutcome(path, data, env), env.createTemp.value;
    if env.stat.StatFailed? || env.chmod.Fail? || env.write.Fail? || env.sync.Fail? || env.close.Fail? {
      assert forall i :: 0 <= i < |w.ops| ==> !w.ops[i].Rename?;
    } else {
      var closed := [CreateTemp(path), Stat(path), Chmod(tmp, ChosenMode(env.stat).value),
                     WriteData(tmp, data), Sync(tmp), Close(tmp)];
      assert w.ops[..6] == closed;
      forall i | 0 <= i < |w.ops| && w.ops[i] == Rename(tmp, path)
        ensures WriteData(tmp, data) in w.ops[..i] && Sync(tmp) in w.ops[..i] && Close(tmp) in w.ops[..i]
      {
        assert i == 6;
      }
    }
  }

  /**
   * `writeOutputFile`: write `data` to a temporary file next to `path`, give it the
   * chosen mode, flush and close it, and rename it over `path`; the deferred cleanup
   * removes the temporary file unless the rename happened.
   */
  method WriteOutputFile(path: string, data: string, env: FsEnv) returns (err: Option<string>, ops: seq<FsOp>)
    ensures Written(err, ops) == WriteOutcome(path, data, env)
  {
    ops := [CreateTemp(path)];
    if env.createTemp.Failure? {
      return Some(CreateTempErrorPrefix + env.createTemp.error), ops;
    }
    var tmpName := env.createTemp.value;
    var removeTmp := true;
    err := None;

    var fileMode := DefaultOutputFileMode;
    ops := ops + [Stat(path)];
    match env.stat {
      case Exists(mode) =>
        fileMode := Perm(mode);
      case NotExist =>
      case StatFailed(message) =>
        ops := ops + [Close(tmpName)];
        err := Some(InspectErrorPrefix + message);
    }

    if err.None? {
      ops := ops + [Chmod(tmpName, fileMode)];
      if env.chmod.Fail? {
        ops := ops + [Close(tmpName)];
        err := Some(ChmodErrorPrefix + env.chmod.error);
      }
    }
    if err.None? {
      ops := ops + [WriteData(tmpName, data)];
      if env.write.Fail? {
        ops := ops + [Close(tmpName)];
        err := Some(WriteDataErrorPrefix + env.write.error);
      }
    }
    if err.None? {
      ops := ops + [Sync(tmpName)];
      if env.sync.Fail? {
        ops := ops + [Close(tmpName)];
        err := Some(SyncErrorPrefix + env.sync.error);
      }
    }
    if err.None? {
      ops := ops + [Close(tmpName)];
      if env.close.Fail? {
        err := Some(CloseErrorPrefix + env.close.error);
      }
    }
    if err.None? {
      ops := ops + [Rename(tmpName, path)];
      if env.rename.Fail? {
        err := Some(RenameErrorPrefix + env.rename.error);
      }
    }
    if err.None? {
      removeTmp := false;
    }

    // the deferred cleanup, which every exit after creating the file reaches
    if removeTmp {
      ops := ops + [Remove(tmpName)];
    }
  }

  // ----- FormatTo and Format -----

  /**
   * `FormatTo`: refuse a missing result, then a blank output path, then render; print
   * the output when no file is named, otherwise write the file. `stdout` is what it
   * prints, `stderr` what rendering wrote there, `ops` what it did to the file system.
   */
  method FormatTo(s: Serializers, result: Option<Cert.Result>, format: string, outputFile: string, env: FsEnv)
    returns (err: Option<string>, stdout: string, stderr: seq<string>, ops: seq<FsOp>)
    ensures result.None? ==> err == Some(NilResultError) && stdout == "" && stderr == [] && ops == []
    ensures result.Some? && outputFile != "" && AllSpace(outputFile) ==>
      err == Some(EmptyPathError) && stdout == "" && stderr == [] && ops == []
    ensures result.Some? && !(outputFile != "" && AllSpace(outputFile)) ==>
      var rendered := Rendering(s, result.value, format);
      && stderr == rendered.stderr
      && (rendered.output.Failure? ==> err == Some(rendered.output.error) && stdout == "" && ops == [])
      && (rendered.output.Success? && outputFile == "" ==>
            err == None && stdout == rendered.output.value && ops == [])
      && (rendered.output.Success? && outputFile != "" ==>
            var w := WriteOutcome(outputFile, rendered.output.value, env);
            && stdout == ""
            && ops == w.ops
            && err == (if w.err.None? then None else Some(WriteErrorPrefix + w.err.value))
            && (err.None? <==> WriteSucceeds(env))
            && (err.None? ==> |ops| > 0 && ops[|ops| - 1] == Rename(env.createTemp.value, outputFile)
                              && WriteData(env.createTemp.value, rendered.output.value) in ops))
  {
    stdout, stderr, ops := "", [], [];
    if result.None? {
      return Some(NilResultError), stdout, stderr, ops;
    }
    if outputFile != "" && TrimSpace(outputFile) == "" {
      TrimSpaceTrims(outputFile);
      return Some(EmptyPathError), stdout, stderr, ops;
    }
    TrimSpaceTrims(outputFile);

    var rendered := Render(s, result.value, format);
    stderr := rendered.stderr;
    if rendered.output.Failure? {
      return Some(rendered.output.error), stdout, stderr, ops;
    }
    var output := rendered.output.value;

    if outputFile == "" {
      stdout := output;
      return None, stdout, stderr, ops;
    }

    var writeErr;
    writeErr, ops := WriteOutputFile(outputFile, output, env);
    WriteOutcomeErrors(outputFile, output, env);
    if writeErr.Some? {
      return Some(WriteErrorPrefix + writeErr.value), stdout, stderr, ops;
    }
    return None, stdout, stderr, ops;
  }

  /** `Format`: `FormatTo` with no output file, so the output goes to stdout and no file is touched. */
  method Format(s: Serializers, result: Option<Cert.Result>, format: string)
    returns (err: Option<string>, stdout: string, stderr: seq<string>)
    ensures result.None? ==> err == Some(NilResultError) && stdout == "" && stderr == []
    ensures result.Some? ==>
      var rendered := Rendering(s, result.value, format);
      && stderr == rendered.stderr
      && (rendered.output.Failure? ==> err == Some(rendered.output.error) && stdout == "")
      && (rendered.output.Success? ==> err == None && stdout == rendered.output.value)
  {
    var unused := FsEnv(Failure(""), NotExist, Pass, Pass, Pass, Pass, Pass);
    var ops;
    err, stdout, stderr, ops := FormatTo(s, result, format, "", unused);
  }
}
