/** Export and import of insights, threads and dependencies as JSON Lines:
    one JSON object per line. The JSON encoding of a record is a `Codec`,
    a pair of functions with the laws `encoding/json` gives them. */
module Jsonl {
  import opened Wrappers
  import opened Text
  import opened Types
  import opened Files

  /** `json.Marshal` and `json.Unmarshal` for one record type. Encoding
      fails for values JSON cannot hold (a NaN confidence). */
  datatype Codec<!T> = Codec(encode: T -> Option<string>, decode: string -> Option<T>)

  /** What `encoding/json` guarantees: an encoding is a non-empty single
      line (newlines inside strings are escaped) ending in a bracket, and
      decoding it gives the value back. */
  ghost predicate LawfulCodec<T(!new)>(c: Codec<T>) {
    forall x :: c.encode(x).Some? ==>
      var e := c.encode(x).value;
      e != [] && '\n' !in e && e[|e| - 1] != '\r' && c.decode(e) == Some(x)
  }

  predicate Encodable<T>(c: Codec<T>, items: seq<T>) {
    forall k :: 0 <= k < |items| ==> c.encode(items[k]).Some?
  }

  /** The text `json.Encoder` writes for `items`: each encoding followed
      by a newline. */
  function EncodeLines<T>(c: Codec<T>, items: seq<T>): string
    requires Encodable(c, items)
  {
    if items == [] then "" else c.encode(items[0]).value + "\n" + EncodeLines(c, items[1..])
  }

  /** The records of `lines`, the `before`-th line of the file being the
      one before them. Empty lines are skipped but counted; the first line
      that does not decode stops the import with its line number. */
  function DecodeLines<T>(dec: string -> Option<T>, lines: seq<string>, before: nat): (r: Result<seq<T>>)
    ensures r.Err? ==> r.error.DecodeFailed? && before < r.error.line <= before + |lines|
                       && lines[r.error.line - before - 1] != []
                       && dec(lines[r.error.line - before - 1]).None?
    ensures r.Ok? ==> |r.value| <= |lines|
    decreases |lines|
  {
    if lines == [] then Ok([])
    else if lines[0] == [] then
      var rest := DecodeLines(dec, lines[1..], before + 1);
      if rest.Err? then assert lines[1..][rest.error.line - before - 2] == lines[rest.error.line - before - 1]; rest
      else rest
    else
      match dec(lines[0])
      case None => Err(DecodeFailed(before + 1))
      case Some(x) =>
        var rest := DecodeLines(dec, lines[1..], before + 1);
        if rest.Err? then assert lines[1..][rest.error.line - before - 2] == lines[rest.error.line - before - 1]; rest
        else Ok([x] + rest.value)
  }

  /** Every non-blank line decodes. */
  predicate AllDecode<T>(dec: string -> Option<T>, lines: seq<string>) {
    forall k :: 0 <= k < |lines| && lines[k] != [] ==> dec(lines[k]).Some?
  }

  /** The decodings of the non-blank lines, in order. */
  function Decoded<T>(dec: string -> Option<T>, lines: seq<string>): seq<T>
    requires AllDecode(dec, lines)
  {
    if lines == [] then []
    else
      assert forall k :: 0 <= k < |lines| - 1 ==> lines[1..][k] == lines[k + 1];
      (if lines[0] == [] then [] else [dec(lines[0]).value]) + Decoded(dec, lines[1..])
  }

  /** Reading succeeds exactly when every non-blank line decodes, and then
      gives their decodings in order; a failure names the first non-blank
      line that does not decode. */
  lemma {:induction false} DecodeLinesExact<T>(dec: string -> Option<T>, lines: seq<string>, before: nat)
    ensures DecodeLines(dec, lines, before).Ok? <==> AllDecode(dec, lines)
    ensures DecodeLines(dec, lines, before).Ok? ==> DecodeLines(dec, lines, before).value == Decoded(dec, lines)
    ensures var r := DecodeLines(dec, lines, before);
      r.Err? ==> forall k :: 0 <= k < r.error.line - before - 1 && lines[k] != [] ==> dec(lines[k]).Some?
    decreases |lines|
  {
    if lines != [] {
      var tail := lines[1..];
      DecodeLinesExact(dec, tail, before + 1);
      assert forall k :: 0 <= k < |tail| ==> tail[k] == lines[k + 1];
      var headOk := lines[0] == [] || dec(lines[0]).Some?;
      assert AllDecode(dec, lines) <==> headOk && AllDecode(dec, tail) by {
        if headOk && AllDecode(dec, tail) {
          forall k | 0 <= k < |lines| && lines[k] != []
            ensures dec(lines[k]).Some?
          {
            if k > 0 {
              assert lines[k] == tail[k - 1];
            }
          }
        }
      }
      var r := DecodeLines(dec, lines, before);
      var rest := DecodeLines(dec, tail, before + 1);
      if headOk && rest.Err? {
        assert r == rest;
        forall k | 0 <= k < r.error.line - before - 1 && lines[k] != []
          ensures dec(lines[k]).Some?
        {
          if k > 0 {
            assert lines[k] == tail[k - 1];
          }
        }
      }
    }
  }

  /** Blank lines do not change what is imported, only the line numbers
      of errors. */
  lemma {:induction false} BlankLinesIgnored<T>(dec: string -> Option<T>, lines: seq<string>, before: nat, blanks: nat)
    ensures DecodeLines(dec, lines, before).Ok? <==> DecodeLines(dec, Blanks(blanks) + lines, before).Ok?
    ensures DecodeLines(dec, lines, before).Ok? ==> DecodeLines(dec, Blanks(blanks) + lines, before).value == DecodeLines(dec, lines, before).value
  {
    if blanks == 0 {
      assert Blanks(0) + lines == lines;
    } else {
      assert (Blanks(blanks) + lines)[1..] == Blanks(blanks - 1) + lines;
      assert (Blanks(blanks) + lines)[0] == [];
      assert DecodeLines(dec, Blanks(blanks) + lines, before) == DecodeLines(dec, Blanks(blanks - 1) + lines, before + 1);
      BlankLinesIgnored(dec, lines, before, blanks - 1);
      ShiftedLines(dec, Blanks(blanks - 1) + lines, before, before + 1);
    }
  }

  function Blanks(n: nat): (r: seq<string>)
    ensures |r| == n && forall k :: 0 <= k < n ==> r[k] == []
  {
    if n == 0 then [] else [[]] + Blanks(n - 1)
  }

  /** Where the lines start only affects the numbers in errors. */
  lemma {:induction false} ShiftedLines<T>(dec: string -> Option<T>, lines: seq<string>, b1: nat, b2: nat)
    ensures DecodeLines(dec, lines, b1).Ok? <==> DecodeLines(dec, lines, b2).Ok?
    ensures DecodeLines(dec, lines, b1).Ok? ==> DecodeLines(dec, lines, b1) == DecodeLines(dec, lines, b2)
    decreases |lines|
  {
    if lines != [] {
      ShiftedLines(dec, lines[1..], b1 + 1, b2 + 1);
    }
  }

  /** Exporting records that all encode and importing the file gives the
      same records in the same order. */
  lemma {:induction false} RoundTrip<T(!new)>(c: Codec<T>, items: seq<T>, before: nat)
    requires LawfulCodec(c) && Encodable(c, items)
    ensures DecodeLines(c.decode, ScanLines(EncodeLines(c, items)), before) == Ok(items)
    decreases |items|
  {
    if items != [] {
      var lines := ScanLines(EncodeLines(c, items));
      FirstLine(c, items);
      RoundTrip(c, items[1..], before + 1);
      assert DecodeLines(c.decode, lines[1..], before + 1) == Ok(items[1..]);
      DecodeFirst(c.decode, lines, before);
      assert items == [items[0]] + items[1..];
    }
  }

  /** A first line that decodes comes first among the records. */
  lemma DecodeFirst<T>(dec: string -> Option<T>, lines: seq<string>, before: nat)
    requires lines != [] && lines[0] != [] && dec(lines[0]).Some?
    ensures var rest := DecodeLines(dec, lines[1..], before + 1);
      rest.Ok? ==> DecodeLines(dec, lines, before) == Ok([dec(lines[0]).value] + rest.value)
  {
  }

  /** The first line of an export is the first record's encoding, which
      decodes back to it; the other lines are the export of the rest. */
  lemma FirstLine<T(!new)>(c: Codec<T>, items: seq<T>)
    requires LawfulCodec(c) && Encodable(c, items) && items != []
    ensures Encodable(c, items[1..])
    ensures var lines := ScanLines(EncodeLines(c, items));
      lines != [] && lines[0] != [] && c.decode(lines[0]) == Some(items[0]) &&
      lines[1..] == ScanLines(EncodeLines(c, items[1..]))
  {
    var e := c.encode(items[0]).value;
    var rest := EncodeLines(c, items[1..]);
    ScanLinesLine(e, rest);
    var lines := ScanLines(EncodeLines(c, items));
    assert lines == [e] + ScanLines(rest);
    assert Encodable(c, items[1..]) by {
      assert forall k :: 1 <= k < |items| ==> items[k] == items[1..][k - 1];
    }
  }

  /** What `writeJSONL` is given: one of the three record lists, or a value
      of any other type. */
  datatype Payload =
    | InsightList(insights: seq<Insight>)
    | ThreadList(threads: seq<Thread>)
    | DependencyList(deps: seq<Dependency>)
    | OtherData

  datatype Codecs = Codecs(insight: Codec<Insight>, thread: Codec<Thread>, dependency: Codec<Dependency>)

  /** The lines of `items` written before the first one that does not
      encode, and whether all of them did. */
  function EncodedPrefix<T>(c: Codec<T>, items: seq<T>): (r: (string, bool))
    ensures r.1 <==> Encodable(c, items)
    ensures r.1 ==> r.0 == EncodeLines(c, items)
  {
    if items == [] then ("", true)
    else if c.encode(items[0]).None? then ("", false)
    else
      var rest := EncodedPrefix(c, items[1..]);
      assert Encodable(c, items) <==> Encodable(c, items[1..]) by {
        assert forall k :: 1 <= k < |items| ==> items[k] == items[1..][k - 1];
      }
      (c.encode(items[0]).value + "\n" + rest.0, rest.1)
  }

  /** `writeJSONL`'s encoding loop: appends each encoding to `text` and
      stops at the first that fails. */
  method EncodeAll<T>(c: Codec<T>, items: seq<T>) returns (text: string, ok: bool)
    ensures (text, ok) == EncodedPrefix(c, items)
  {
    text := "";
    var i := 0;
    assert items[0..] == items;
    assert text + EncodedPrefix(c, items).0 == EncodedPrefix(c, items).0;
    while i < |items|
      invariant 0 <= i <= |items|
      invariant EncodedPrefix(c, items) == (text + EncodedPrefix(c, items[i..]).0, EncodedPrefix(c, items[i..]).1)
    {
      var e := c.encode(items[i]);
      EncodedStep(c, items, i, text);
      if e.None? {
        return text, false;
      }
      text := text + e.value + "\n";
      i := i + 1;
    }
    assert items[i..] == [];
    assert text + "" == text;
    return text, true;
  }

  /** One step of `EncodeAll`: a record that does not encode ends the
      export where it stands; one that does adds its line. */
  lemma EncodedStep<T>(c: Codec<T>, items: seq<T>, i: nat, text: string)
    requires i < |items|
    ensures c.encode(items[i]).None? ==> EncodedPrefix(c, items[i..]) == ("", false) && text + "" == text
    ensures c.encode(items[i]).Some? ==>
      text + EncodedPrefix(c, items[i..]).0 == (text + c.encode(items[i]).value + "\n") + EncodedPrefix(c, items[i + 1..]).0 &&
      EncodedPrefix(c, items[i..]).1 == EncodedPrefix(c, items[i + 1..]).1
  {
    assert items[i..][0] == items[i];
    if c.encode(items[i]).Some? {
      assert items[i..][1..] == items[i + 1..];
      var tail := EncodedPrefix(c, items[i + 1..]).0;
      var e := c.encode(items[i]).value;
      assert EncodedPrefix(c, items[i..]).0 == e + "\n" + tail;
      assert text + (e + "\n" + tail) == (text + e + "\n") + tail;
    }
  }

  /** `writeJSONL`: the file is created (emptied) first; then the records
      are encoded one per line. On an encoding failure the lines written
      before it stay in the file, since the deferred flush still runs. */
  method WriteJsonl(fs: FileSystem, path: string, data: Payload, codecs: Codecs) returns (err: Option<Error>)
    modifies fs
    ensures fs.dirs == old(fs.dirs)
    ensures path in fs.readOnly ==> err == Some(CreateFailed(path)) && fs.files == old(fs.files)
    ensures path !in fs.readOnly && data.OtherData? ==> err == Some(UnsupportedDataType) && fs.files == old(fs.files)[path := ""]
    ensures path !in fs.readOnly && data.InsightList? ==>
              fs.files == old(fs.files)[path := EncodedPrefix(codecs.insight, data.insights).0]
              && (err.None? <==> Encodable(codecs.insight, data.insights))
              && (err.Some? ==> err == Some(Wrapped("failed to encode insight", EncodeFailed("insight"))))
    ensures path !in fs.readOnly && data.ThreadList? ==>
              fs.files == old(fs.files)[path := EncodedPrefix(codecs.thread, data.threads).0]
              && (err.None? <==> Encodable(codecs.thread, data.threads))
    ensures path !in fs.readOnly && data.DependencyList? ==>
              fs.files == old(fs.files)[path := EncodedPrefix(codecs.dependency, data.deps).0]
              && (err.None? <==> Encodable(codecs.dependency, data.deps))
  {
    if path in fs.readOnly {
      return Some(CreateFailed(path));
    }
    fs.files := fs.files[path := ""];
    var text, ok;
    match data {
      case InsightList(items) =>
        text, ok := EncodeAll(codecs.insight, items);
        err := if ok then None else Some(Wrapped("failed to encode insight", EncodeFailed("insight")));
      case ThreadList(items) =>
        text, ok := EncodeAll(codecs.thread, items);
        err := if ok then None else Some(Wrapped("failed to encode thread", EncodeFailed("thread")));
      case DependencyList(items) =>
        text, ok := EncodeAll(codecs.dependency, items);
        err := if ok then None else Some(Wrapped("failed to encode dependency", EncodeFailed("dependency")));
      case OtherData =>
        return Some(UnsupportedDataType);
    }
    fs.files := fs.files[path := text];
  }

  function Prepend<T>(xs: seq<T>, r: Result<seq<T>>): Result<seq<T>> {
    if r.Ok? then Ok(xs + r.value) else r
  }

  /** `readJSONL`: the lines of the file as `bufio.Scanner` splits them,
      decoded in order. */
  method ReadJsonl<T>(fs: FileSystem, path: string, dec: string -> Option<T>) returns (r: Result<seq<T>>)
    ensures path !in fs.files ==> r == Err(OpenFailed(path))
    ensures path in fs.files ==> r == DecodeLines(dec, ScanLines(fs.files[path]), 0)
  {
    if path !in fs.files {
      return Err(OpenFailed(path));
    }
    var lines := ScanLines(fs.files[path]);
    var items: seq<T> := [];
    var lineNum := 0;
    assert lines[0..] == lines;
    assert Prepend(items, DecodeLines(dec, lines, 0)) == DecodeLines(dec, lines, 0) by {
      if DecodeLines(dec, lines, 0).Ok? {
        assert [] + DecodeLines(dec, lines, 0).value == DecodeLines(dec, lines, 0).value;
      }
    }
    while lineNum < |lines|
      invariant 0 <= lineNum <= |lines|
      invariant DecodeLines(dec, lines, 0) == Prepend(items, DecodeLines(dec, lines[lineNum..], lineNum))
    {
      var line := lines[lineNum];
      assert lines[lineNum..][1..] == lines[lineNum + 1..];
      lineNum := lineNum + 1;
      if line == [] {
        continue;
      }
      match dec(line) {
        case None =>
          return Err(DecodeFailed(lineNum));
        case Some(x) =>
          ghost var rest := DecodeLines(dec, lines[lineNum..], lineNum);
          if rest.Ok? {
            assert items + ([x] + rest.value) == (items + [x]) + rest.value;
          }
          items := items + [x];
      }
    }
    assert lines[lineNum..] == [];
    assert items + [] == items;
    return Ok(items);
  }

  /** `ExportInsights`, `ExportThreads`, `ExportDependencies`. */
  method ExportInsights(fs: FileSystem, path: string, insights: seq<Insight>, codecs: Codecs) returns (err: Option<Error>)
    modifies fs
    ensures path !in fs.readOnly && Encodable(codecs.insight, insights) ==>
              err.None? && fs.files == old(fs.files)[path := EncodeLines(codecs.insight, insights)]
    ensures path in fs.readOnly ==> err == Some(CreateFailed(path))
  {
    err := WriteJsonl(fs, path, InsightList(insights), codecs);
  }

  method ExportThreads(fs: FileSystem, path: string, threads: seq<Thread>, codecs: Codecs) returns (err: Option<Error>)
    modifies fs
    ensures path !in fs.readOnly && Encodable(codecs.thread, threads) ==>
              err.None? && fs.files == old(fs.files)[path := EncodeLines(codecs.thread, threads)]
    ensures path in fs.readOnly ==> err == Some(CreateFailed(path))
  {
    err := WriteJsonl(fs, path, ThreadList(threads), codecs);
  }

  method ExportDependencies(fs: FileSystem, path: string, deps: seq<Dependency>, codecs: Codecs) returns (err: Option<Error>)
    modifies fs
    ensures path !in fs.readOnly && Encodable(codecs.dependency, deps) ==>
              err.None? && fs.files == old(fs.files)[path := EncodeLines(codecs.dependency, deps)]
    ensures path in fs.readOnly ==> err == Some(CreateFailed(path))
  {
    err := WriteJsonl(fs, path, DependencyList(deps), codecs);
  }

  /** `ImportInsights`, `ImportThreads`, `ImportDependencies`: `readJSONL`
      with the error wrapped. */
  method ImportInsights(fs: FileSystem, path: string, codecs: Codecs) returns (r: Result<seq<Insight>>)
    ensures path !in fs.files ==> r == Err(Wrapped("failed to import insights", OpenFailed(path)))
    ensures path in fs.files ==> r == WrapImport("failed to import insights", DecodeLines(codecs.insight.decode, ScanLines(fs.files[path]), 0))
  {
    var items := ReadJsonl(fs, path, codecs.insight.decode);
    r := WrapImport("failed to import insights", items);
  }

  method ImportThreads(fs: FileSystem, path: string, codecs: Codecs) returns (r: Result<seq<Thread>>)
    ensures path !in fs.files ==> r == Err(Wrapped("failed to import threads", OpenFailed(path)))
    ensures path in fs.files ==> r == WrapImport("failed to import threads", DecodeLines(codecs.thread.decode, ScanLines(fs.files[path]), 0))
  {
    var items := ReadJsonl(fs, path, codecs.thread.decode);
    r := WrapImport("failed to import threads", items);
  }

  method ImportDependencies(fs: FileSystem, path: string, codecs: Codecs) returns (r: Result<seq<Dependency>>)
    ensures path !in fs.files ==> r == Err(Wrapped("failed to import dependencies", OpenFailed(path)))
    ensures path in fs.files ==> r == WrapImport("failed to import dependencies", DecodeLines(codecs.dependency.decode, ScanLines(fs.files[path]), 0))
  {
    var items := ReadJsonl(fs, path, codecs.dependency.decode);
    r := WrapImport("failed to import dependencies", items);
  }

  function WrapImport<T>(context: string, r: Result<seq<T>>): Result<seq<T>> {
    if r.Ok? then r else Err(Wrapped(context, r.error))
  }

  /** Exporting insights and importing the file gives them back, in order,
      whenever every insight encodes. */
  lemma ExportImportInsights(c: Codec<Insight>, insights: seq<Insight>)
    requires LawfulCodec(c) && Encodable(c, insights)
    ensures WrapImport("failed to import insights", DecodeLines(c.decode, ScanLines(EncodeLines(c, insights)), 0)) == Ok(insights)
  {
    RoundTrip(c, insights, 0);
  }
}
