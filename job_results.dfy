/** The results of one Seed job execution: for each output parameter the
    ids of the files it produced (`files`) or its JSON value (`json`). This
    module models the in-memory bookkeeping around them: recording file
    outputs, feeding an output into another job's input data, presenting
    the outputs in the legacy v5 shape, and grouping freshly stored output
    files by the parameter that produced them. */
module SeedJobResults {
  import opened Wrappers

  type FileId = int

  /** A JSON output value, kept opaque. */
  datatype JsonValue = JsonValue(text: string)

  /** A stored file row. */
  datatype ScaleFile = ScaleFile(id: FileId, fileName: string)

  /** An output declared by the job's interface (Seed manifest): its name
      and the rest of its declaration, copied through unchanged. */
  datatype OutputDecl = OutputDecl(name: string, attributes: map<string, string>)

  /** The `type` the v5 presentation gives an output: the strings "file",
      "files" and "property". */
  datatype OutputType = File | Files | Property

  datatype OutputValue =
    | OneFile(file: ScaleFile)
    | FileList(fileList: seq<ScaleFile>)
    | PropertyValue(json: JsonValue)

  /** A declared output with its `type` and `value` filled in. */
  datatype V5Output = V5Output(decl: OutputDecl, outputType: OutputType, value: OutputValue)

  /** The index error the v5 presentation does not catch. */
  datatype IndexError = IndexError(outputName: string)

  /** An input added to a job's input data. */
  datatype DataInput =
    | FileInput(name: string, fileId: FileId)
    | FileListInput(name: string, fileIds: seq<FileId>)

  /** A file an output parameter captured, with its local path. */
  datatype ProductFile = ProductFile(outputName: string, localPath: string, mediaType: string)

  /** The exceptions storing output files raises. */
  datatype StoreError =
    | NotAValidFile(path: string)
    | NoDataFileStore
    | UnknownStoredPath(path: string)

  /** The input data of a job, as far as results are added to it. */
  class JobData {
    var inputs: seq<DataInput>

    constructor ()
      ensures inputs == []
    {
      inputs := [];
    }

    method AddFileInput(name: string, fileId: FileId)
      modifies this
      ensures inputs == old(inputs) + [FileInput(name, fileId)]
    {
      inputs := inputs + [FileInput(name, fileId)];
    }

    method AddFileListInput(name: string, fileIds: seq<FileId>)
      modifies this
      ensures inputs == old(inputs) + [FileListInput(name, fileIds)]
    {
      inputs := inputs + [FileListInput(name, fileIds)];
    }
  }

  // ---------------------------------------------------------------------
  // The v5 presentation of the outputs.
  // ---------------------------------------------------------------------

  /** `{f.id: f for f in job_files}`: when ids repeat, the later file wins. */
  function FileMap(jobFiles: seq<ScaleFile>): map<FileId, ScaleFile>
  {
    if jobFiles == [] then map[]
    else
      var n := |jobFiles| - 1;
      FileMap(jobFiles[..n])[jobFiles[n].id := jobFiles[n]]
  }

  /** Every file's id is a key, each key maps to a file carrying that id,
      and a file no later file shares its id with is the one kept. */
  lemma {:induction false} FileMapLastWins(jobFiles: seq<ScaleFile>)
    ensures forall i :: 0 <= i < |jobFiles| ==> jobFiles[i].id in FileMap(jobFiles)
    ensures forall id :: id in FileMap(jobFiles) ==> FileMap(jobFiles)[id] in jobFiles && FileMap(jobFiles)[id].id == id
    ensures forall i :: 0 <= i < |jobFiles| && (forall j :: i < j < |jobFiles| ==> jobFiles[j].id != jobFiles[i].id) ==>
              FileMap(jobFiles)[jobFiles[i].id] == jobFiles[i]
  {
    if jobFiles != [] {
      var n := |jobFiles| - 1;
      FileMapLastWins(jobFiles[..n]);
      assert forall i :: 0 <= i < n ==> jobFiles[..n][i] == jobFiles[i];
    }
  }

  /** What happens to one declared file output. */
  datatype Conversion = Skipped | Kept(output: V5Output) | Raises

  /** A file output is skipped when the results lack its name or name a
      file outside `fileMap` (both key errors, caught); raises when the
      results list no file for it; and is kept otherwise, as `file` with
      its one file or as `files` with the list. */
  function ConvertFileOutput(files: map<string, seq<FileId>>, fileMap: map<FileId, ScaleFile>,
                             decl: OutputDecl): (c: Conversion)
    ensures c.Raises? <==> decl.name in files && files[decl.name] == []
    ensures c.Kept? <==> && decl.name in files && files[decl.name] != []
                         && forall k :: 0 <= k < |files[decl.name]| ==> files[decl.name][k] in fileMap
    ensures c.Kept? ==> c.output.decl == decl
    ensures c.Kept? && |files[decl.name]| >= 2 ==>
              && c.output.outputType == Files
              && c.output.value.FileList?
              && |c.output.value.fileList| == |files[decl.name]|
              && forall k :: 0 <= k < |files[decl.name]| ==> c.output.value.fileList[k] == fileMap[files[decl.name][k]]
    ensures c.Kept? && |files[decl.name]| == 1 ==>
              c.output.outputType == File && c.output.value == OneFile(fileMap[files[decl.name][0]])
  {
    if decl.name !in files then Skipped
    else
      var ids := files[decl.name];
      if exists k :: 0 <= k < |ids| && ids[k] !in fileMap then Skipped
      else if |ids| >= 2 then Kept(V5Output(decl, Files, FileList(seq(|ids|, k requires 0 <= k < |ids| => fileMap[ids[k]]))))
      else if |ids| == 1 then Kept(V5Output(decl, File, OneFile(fileMap[ids[0]])))
      else Raises
  }

  /** The file outputs of the v5 presentation, in declaration order, or the
      error of the first output that raises. */
  function FileOutputs(files: map<string, seq<FileId>>, fileMap: map<FileId, ScaleFile>,
                       decls: seq<OutputDecl>): (r: Result<seq<V5Output>, IndexError>)
    decreases |decls|
  {
    if decls == [] then Ok([])
    else
      var n := |decls| - 1;
      match FileOutputs(files, fileMap, decls[..n])
      case Err(e) => Err(e)
      case Ok(prev) =>
        match ConvertFileOutput(files, fileMap, decls[n])
        case Skipped => Ok(prev)
        case Kept(o) => Ok(prev + [o])
        case Raises => Err(IndexError(decls[n].name))
  }

  /** The declared file outputs that are kept, in declaration order. */
  function KeptDecls(files: map<string, seq<FileId>>, fileMap: map<FileId, ScaleFile>,
                     decls: seq<OutputDecl>): seq<OutputDecl>
  {
    Filter(decls, (d: OutputDecl) => ConvertFileOutput(files, fileMap, d).Kept?)
  }

  /** The presentation fails exactly when some declared file output is named
      in the results with no file at all. */
  lemma {:induction false} FileOutputsFails(files: map<string, seq<FileId>>, fileMap: map<FileId, ScaleFile>,
                                            decls: seq<OutputDecl>)
    ensures FileOutputs(files, fileMap, decls).Err? <==>
              exists i :: 0 <= i < |decls| && decls[i].name in files && files[decls[i].name] == []
  {
    if decls != [] {
      var n := |decls| - 1;
      var pre := decls[..n];
      FileOutputsFails(files, fileMap, pre);
      if FileOutputs(files, fileMap, pre).Err? {
        var i :| 0 <= i < n && pre[i].name in files && files[pre[i].name] == [];
        assert pre[i] == decls[i];
      } else if !ConvertFileOutput(files, fileMap, decls[n]).Raises? {
        forall i | 0 <= i < |decls| && decls[i].name in files
          ensures files[decls[i].name] != []
        {
          if i < n {
            assert pre[i] == decls[i];
          }
        }
      }
    }
  }

  /** When the presentation succeeds it is the kept declarations' outputs:
      each kept declaration contributes its own output once, in declaration
      order, and nothing else appears. */
  lemma {:induction false} FileOutputsMeaning(files: map<string, seq<FileId>>, fileMap: map<FileId, ScaleFile>,
                                              decls: seq<OutputDecl>)
    ensures FileOutputs(files, fileMap, decls).Ok? ==>
              |FileOutputs(files, fileMap, decls).value| == |KeptDecls(files, fileMap, decls)|
    ensures FileOutputs(files, fileMap, decls).Ok? ==>
              forall k :: 0 <= k < |FileOutputs(files, fileMap, decls).value| ==>
                ConvertFileOutput(files, fileMap, KeptDecls(files, fileMap, decls)[k])
                == Kept(FileOutputs(files, fileMap, decls).value[k])
  {
    if decls != [] {
      var n := |decls| - 1;
      var pre := decls[..n];
      FileOutputsMeaning(files, fileMap, pre);
      var c := ConvertFileOutput(files, fileMap, decls[n]);
      if FileOutputs(files, fileMap, pre).Ok? && !c.Raises? {
        var prev := FileOutputs(files, fileMap, pre).value;
        var outs := FileOutputs(files, fileMap, decls).value;
        KeptDeclsStep(files, fileMap, decls);
        var kept := KeptDecls(files, fileMap, decls);
        assert |outs| == |kept|;
        forall k | 0 <= k < |outs|
          ensures ConvertFileOutput(files, fileMap, kept[k]) == Kept(outs[k])
        {
          if k < |prev| {
            assert outs[k] == prev[k] && kept[k] == KeptDecls(files, fileMap, pre)[k];
          }
        }
      }
    }
  }

  /** Taking one more declaration keeps it after the earlier kept ones
      exactly when it is kept. */
  lemma KeptDeclsStep(files: map<string, seq<FileId>>, fileMap: map<FileId, ScaleFile>, decls: seq<OutputDecl>)
    requires decls != []
    ensures KeptDecls(files, fileMap, decls)
            == KeptDecls(files, fileMap, decls[..|decls| - 1])
               + (if ConvertFileOutput(files, fileMap, decls[|decls| - 1]).Kept? then [decls[|decls| - 1]] else [])
  {
    var n := |decls| - 1;
    assert decls == decls[..n] + [decls[n]];
    FilterAppend(decls[..n], [decls[n]], (d: OutputDecl) => ConvertFileOutput(files, fileMap, d).Kept?);
  }

  /** Once a prefix of the declared file outputs raises, the whole list
      raises the same error. */
  lemma {:induction false} FileOutputsErrorStays(files: map<string, seq<FileId>>, fileMap: map<FileId, ScaleFile>,
                                                 decls: seq<OutputDecl>, k: nat)
    requires k <= |decls|
    requires FileOutputs(files, fileMap, decls[..k]).Err?
    ensures FileOutputs(files, fileMap, decls) == FileOutputs(files, fileMap, decls[..k])
    decreases |decls| - k
  {
    if k < |decls| {
      var n := |decls| - 1;
      assert decls[..n][..k] == decls[..k];
      FileOutputsErrorStays(files, fileMap, decls[..n], k);
    } else {
      assert decls[..k] == decls;
    }
  }

  /** The JSON outputs of the v5 presentation: every declared JSON output
      the results hold a value for, in declaration order, as a `property`. */
  function JsonOutputs(json: map<string, JsonValue>, decls: seq<OutputDecl>): (outs: seq<V5Output>)
    ensures |outs| <= |decls|
    ensures forall k :: 0 <= k < |outs| ==>
              && outs[k].decl in decls
              && outs[k].decl.name in json
              && outs[k].outputType == Property
              && outs[k].value == PropertyValue(json[outs[k].decl.name])
    ensures forall i :: 0 <= i < |decls| && decls[i].name in json ==>
              V5Output(decls[i], Property, PropertyValue(json[decls[i].name])) in outs
    decreases |decls|
  {
    if decls == [] then []
    else
      var n := |decls| - 1;
      var prev := JsonOutputs(json, decls[..n]);
      assert forall i :: 0 <= i < n ==> decls[..n][i] == decls[i];
      if decls[n].name in json then prev + [V5Output(decls[n], Property, PropertyValue(json[decls[n].name]))]
      else prev
  }

  /** The declared JSON outputs the results hold a value for, in
      declaration order. */
  function JsonDecls(json: map<string, JsonValue>, decls: seq<OutputDecl>): seq<OutputDecl>
  {
    Filter(decls, (d: OutputDecl) => d.name in json)
  }

  /** The JSON outputs are exactly one `property` output per declaration
      with a value, in declaration order: a declaration listed twice gives
      two outputs. */
  lemma {:induction false} JsonOutputsMeaning(json: map<string, JsonValue>, decls: seq<OutputDecl>)
    ensures |JsonOutputs(json, decls)| == |JsonDecls(json, decls)|
    ensures forall k :: 0 <= k < |JsonOutputs(json, decls)| ==>
              && JsonDecls(json, decls)[k].name in json
              && JsonOutputs(json, decls)[k]
                 == V5Output(JsonDecls(json, decls)[k], Property, PropertyValue(json[JsonDecls(json, decls)[k].name]))
    decreases |decls|
  {
    if decls != [] {
      var n := |decls| - 1;
      var pre := decls[..n];
      JsonOutputsMeaning(json, pre);
      assert decls == pre + [decls[n]];
      FilterAppend(pre, [decls[n]], (d: OutputDecl) => d.name in json);
      assert JsonDecls(json, decls) == JsonDecls(json, pre) + (if decls[n].name in json then [decls[n]] else []);
      var prev := JsonOutputs(json, pre);
      var outs := JsonOutputs(json, decls);
      var kept := JsonDecls(json, decls);
      forall k | 0 <= k < |outs|
        ensures kept[k].name in json && outs[k] == V5Output(kept[k], Property, PropertyValue(json[kept[k].name]))
      {
        if k < |prev| {
          assert outs[k] == prev[k] && kept[k] == JsonDecls(json, pre)[k];
        }
      }
    }
  }

  /** The whole v5 presentation: the file outputs, then the JSON outputs. */
  function V5Outputs(files: map<string, seq<FileId>>, json: map<string, JsonValue>,
                     fileDecls: seq<OutputDecl>, jsonDecls: seq<OutputDecl>,
                     jobFiles: seq<ScaleFile>): Result<seq<V5Output>, IndexError>
  {
    match FileOutputs(files, FileMap(jobFiles), fileDecls)
    case Err(e) => Err(e)
    case Ok(fileOuts) => Ok(fileOuts + JsonOutputs(json, jsonDecls))
  }

  /** `[file_map[x] for x in ids]`: the files of `ids` in order, or None
      (a key error) when one of them is not in `fileMap`. */
  method ResolveFiles(ids: seq<FileId>, fileMap: map<FileId, ScaleFile>) returns (r: Option<seq<ScaleFile>>)
    ensures r.None? <==> exists k :: 0 <= k < |ids| && ids[k] !in fileMap
    ensures r.Some? ==> |r.value| == |ids| && forall k :: 0 <= k < |ids| ==> r.value[k] == fileMap[ids[k]]
  {
    var values: seq<ScaleFile> := [];
    for j := 0 to |ids|
      invariant |values| == j
      invariant forall k :: 0 <= k < j ==> ids[k] in fileMap && values[k] == fileMap[ids[k]]
    {
      if ids[j] !in fileMap {
        return None;
      }
      values := values + [fileMap[ids[j]]];
    }
    r := Some(values);
  }

  /** The loop over the declared file outputs: each kept output in
      declaration order, or the error of the first one that raises. */
  method PresentFileOutputs(files: map<string, seq<FileId>>, fileMap: map<FileId, ScaleFile>,
                            fileDecls: seq<OutputDecl>)
    returns (r: Result<seq<V5Output>, IndexError>)
    ensures r == FileOutputs(files, fileMap, fileDecls)
  {
    var outputs: seq<V5Output> := [];
    for i := 0 to |fileDecls|
      invariant FileOutputs(files, fileMap, fileDecls[..i]) == Ok(outputs)
    {
      assert fileDecls[..i + 1][..i] == fileDecls[..i];
      var decl := fileDecls[i];
      assert fileDecls[..i + 1][i] == decl;
      ghost var c := ConvertFileOutput(files, fileMap, decl);
      if decl.name in files {
        var resolved := ResolveFiles(files[decl.name], fileMap);
        if resolved.Some? {
          var values := resolved.value;
          if |values| >= 2 {
            assert c.Kept? && c.output.value.fileList == values;
            outputs := outputs + [V5Output(decl, Files, FileList(values))];
          } else if |values| == 1 {
            assert c == Kept(V5Output(decl, File, OneFile(values[0])));
            outputs := outputs + [V5Output(decl, File, OneFile(values[0]))];
          } else {
            assert c.Raises?;
            FileOutputsErrorStays(files, fileMap, fileDecls, i + 1);
            return Err(IndexError(decl.name));
          }
        } else {
          assert c.Skipped?;
        }
      } else {
        assert c.Skipped?;
      }
    }
    assert fileDecls[..|fileDecls|] == fileDecls;
    r := Ok(outputs);
  }

  /** The loop over the declared JSON outputs: a `property` output for each
      one the results hold a value for, in declaration order. */
  method PresentJsonOutputs(json: map<string, JsonValue>, jsonDecls: seq<OutputDecl>) returns (outputs: seq<V5Output>)
    ensures outputs == JsonOutputs(json, jsonDecls)
  {
    outputs := [];
    for i := 0 to |jsonDecls|
      invariant outputs == JsonOutputs(json, jsonDecls[..i])
    {
      assert jsonDecls[..i + 1][..i] == jsonDecls[..i];
      var decl := jsonDecls[i];
      assert jsonDecls[..i + 1][i] == decl;
      if decl.name in json {
        outputs := outputs + [V5Output(decl, Property, PropertyValue(json[decl.name]))];
      }
    }
    assert jsonDecls[..|jsonDecls|] == jsonDecls;
  }

  // ---------------------------------------------------------------------
  // Grouping stored output files by parameter.
  // ---------------------------------------------------------------------

  /** The paths of some captured files. */
  function Paths(entries: seq<ProductFile>): set<string>
  {
    set e | e in entries :: e.localPath
  }

  /** Each output workspace with the captured files of the parameters that
      write to it, visiting the parameters in `names` order. */
  function WorkspaceFilesOf(dataFiles: map<string, seq<ProductFile>>, outputWorkspaces: map<string, int>,
                            names: seq<string>): map<int, seq<ProductFile>>
    requires forall i :: 0 <= i < |names| ==> names[i] in dataFiles && names[i] in outputWorkspaces
    decreases |names|
  {
    if names == [] then map[]
    else
      var n := |names| - 1;
      var prev := WorkspaceFilesOf(dataFiles, outputWorkspaces, names[..n]);
      var ws := outputWorkspaces[names[n]];
      prev[ws := (if ws in prev then prev[ws] else []) + dataFiles[names[n]]]
  }

  /** The workspaces are exactly those of the parameters, and each holds
      exactly the files captured by the parameters writing to it. */
  lemma {:induction false} WorkspaceFilesMeaning(dataFiles: map<string, seq<ProductFile>>,
                                                 outputWorkspaces: map<string, int>, names: seq<string>)
    requires forall i :: 0 <= i < |names| ==> names[i] in dataFiles && names[i] in outputWorkspaces
    ensures forall ws :: ws in WorkspaceFilesOf(dataFiles, outputWorkspaces, names) <==>
              exists i :: 0 <= i < |names| && outputWorkspaces[names[i]] == ws
    ensures forall ws, e :: ws in WorkspaceFilesOf(dataFiles, outputWorkspaces, names)
                            && e in WorkspaceFilesOf(dataFiles, outputWorkspaces, names)[ws] ==>
              exists i :: 0 <= i < |names| && outputWorkspaces[names[i]] == ws && e in dataFiles[names[i]]
    ensures forall i :: 0 <= i < |names| ==> outputWorkspaces[names[i]] in WorkspaceFilesOf(dataFiles, outputWorkspaces, names)
    ensures forall i, e :: 0 <= i < |names| && e in dataFiles[names[i]] ==>
              && outputWorkspaces[names[i]] in WorkspaceFilesOf(dataFiles, outputWorkspaces, names)
              && e in WorkspaceFilesOf(dataFiles, outputWorkspaces, names)[outputWorkspaces[names[i]]]
  {
    if names != [] {
      var n := |names| - 1;
      var pre := names[..n];
      WorkspaceFilesMeaning(dataFiles, outputWorkspaces, pre);
      var prev := WorkspaceFilesOf(dataFiles, outputWorkspaces, pre);
      var r := WorkspaceFilesOf(dataFiles, outputWorkspaces, names);
      var ws0 := outputWorkspaces[names[n]];
      assert r == prev[ws0 := (if ws0 in prev then prev[ws0] else []) + dataFiles[names[n]]];
      forall ws | ws in r
        ensures exists i :: 0 <= i < |names| && outputWorkspaces[names[i]] == ws
      {
        if ws != ws0 {
          assert ws in prev;
          assert exists i :: 0 <= i < |pre| && outputWorkspaces[pre[i]] == ws;
          var i :| 0 <= i < |pre| && outputWorkspaces[pre[i]] == ws;
          assert pre[i] == names[i];
        }
      }
      forall ws, e | ws in r && e in r[ws]
        ensures exists i :: 0 <= i < |names| && outputWorkspaces[names[i]] == ws && e in dataFiles[names[i]]
      {
        if ws != ws0 || e !in dataFiles[names[n]] {
          assert ws in prev && e in prev[ws];
          var i :| 0 <= i < |pre| && outputWorkspaces[pre[i]] == ws && e in dataFiles[pre[i]];
          assert pre[i] == names[i];
        }
      }
      forall i | 0 <= i < |names|
        ensures outputWorkspaces[names[i]] in r
      {
        if i < n {
          assert pre[i] == names[i];
          assert outputWorkspaces[pre[i]] in prev;
        }
      }
      forall i, e | 0 <= i < |names| && e in dataFiles[names[i]]
        ensures e in r[outputWorkspaces[names[i]]]
      {
        if i < n {
          assert pre[i] == names[i];
          assert e in prev[outputWorkspaces[pre[i]]];
        }
      }
    }
  }

  /** Each captured path with the parameter that captured it; when several
      parameters captured the same path, the last one in `names` order. */
  function ParamsByPathOf(dataFiles: map<string, seq<ProductFile>>, names: seq<string>): map<string, string>
    requires forall i :: 0 <= i < |names| ==> names[i] in dataFiles
    decreases |names|
  {
    if names == [] then map[]
    else
      var n := |names| - 1;
      RecordPaths(ParamsByPathOf(dataFiles, names[..n]), dataFiles[names[n]], names[n])
  }

  /** `paramsByPath` with each path of `entries`, in order, set to `name`. */
  function RecordPaths(paramsByPath: map<string, string>, entries: seq<ProductFile>, name: string): map<string, string>
    decreases |entries|
  {
    if entries == [] then paramsByPath
    else
      var n := |entries| - 1;
      RecordPaths(paramsByPath, entries[..n], name)[entries[n].localPath := name]
  }

  /** Recording adds exactly the paths of `entries`, all under `name`, and
      keeps every other path as it was. */
  lemma {:induction false} RecordPathsMeaning(paramsByPath: map<string, string>, entries: seq<ProductFile>,
                                              name: string)
    ensures forall p :: p in RecordPaths(paramsByPath, entries, name) <==> p in paramsByPath || p in Paths(entries)
    ensures forall p :: p in Paths(entries) ==> RecordPaths(paramsByPath, entries, name)[p] == name
    ensures forall p :: p in paramsByPath && p !in Paths(entries) ==>
              RecordPaths(paramsByPath, entries, name)[p] == paramsByPath[p]
    decreases |entries|
  {
    if entries != [] {
      var n := |entries| - 1;
      RecordPathsMeaning(paramsByPath, entries[..n], name);
      assert entries == entries[..n] + [entries[n]];
      assert Paths(entries) == Paths(entries[..n]) + {entries[n].localPath};
    }
  }

  /** The paths are exactly the captured ones, and each is mapped to a
      parameter that captured it. */
  lemma {:induction false} ParamsByPathDomain(dataFiles: map<string, seq<ProductFile>>, names: seq<string>)
    requires forall i :: 0 <= i < |names| ==> names[i] in dataFiles
    ensures forall p :: p in ParamsByPathOf(dataFiles, names) <==>
              exists i :: 0 <= i < |names| && p in Paths(dataFiles[names[i]])
    ensures forall p :: p in ParamsByPathOf(dataFiles, names) ==>
              && ParamsByPathOf(dataFiles, names)[p] in dataFiles
              && p in Paths(dataFiles[ParamsByPathOf(dataFiles, names)[p]])
  {
    if names != [] {
      var n := |names| - 1;
      var pre := names[..n];
      ParamsByPathDomain(dataFiles, pre);
      var prev := ParamsByPathOf(dataFiles, pre);
      var added := Paths(dataFiles[names[n]]);
      RecordPathsMeaning(prev, dataFiles[names[n]], names[n]);
      var r := ParamsByPathOf(dataFiles, names);
      assert r == RecordPaths(prev, dataFiles[names[n]], names[n]);
      forall p | p in r
        ensures exists i :: 0 <= i < |names| && p in Paths(dataFiles[names[i]])
      {
        if p !in added {
          assert p in prev;
          var i :| 0 <= i < |pre| && p in Paths(dataFiles[pre[i]]);
          assert pre[i] == names[i];
        }
      }
      forall i, p | 0 <= i < |names| && p in Paths(dataFiles[names[i]])
        ensures p in r
      {
        if i < n {
          assert pre[i] == names[i];
          assert p in prev;
        } else {
          assert p in added;
        }
      }
    }
  }

  /** A path captured by a parameter and by none after it is mapped to that
      parameter: the last capture wins. */
  lemma {:induction false} ParamsByPathLastWins(dataFiles: map<string, seq<ProductFile>>, names: seq<string>,
                                                i: nat, p: string)
    requires forall k :: 0 <= k < |names| ==> names[k] in dataFiles
    requires i < |names| && p in Paths(dataFiles[names[i]])
    requires forall j :: i < j < |names| ==> p !in Paths(dataFiles[names[j]])
    ensures p in ParamsByPathOf(dataFiles, names) && ParamsByPathOf(dataFiles, names)[p] == names[i]
    decreases |names|
  {
    var n := |names| - 1;
    var pre := names[..n];
    var added := Paths(dataFiles[names[n]]);
    RecordPathsMeaning(ParamsByPathOf(dataFiles, pre), dataFiles[names[n]], names[n]);
    assert ParamsByPathOf(dataFiles, names) == RecordPaths(ParamsByPathOf(dataFiles, pre), dataFiles[names[n]], names[n]);
    if i < n {
      assert p !in added;
      assert pre[i] == names[i];
      forall j | i < j < |pre| ensures p !in Paths(dataFiles[pre[j]]) {
        assert pre[j] == names[j];
      }
      ParamsByPathLastWins(dataFiles, pre, i, p);
    } else {
      assert p in added;
    }
  }

  /** The ids the store returned for the paths that `name` captured, in the
      store's order. */
  function IdsUnder(storedFiles: map<string, FileId>, order: seq<string>, paramsByPath: map<string, string>,
                    name: string): seq<FileId>
    requires forall i :: 0 <= i < |order| ==> order[i] in storedFiles && order[i] in paramsByPath
    decreases |order|
  {
    if order == [] then []
    else
      var n := |order| - 1;
      IdsUnder(storedFiles, order[..n], paramsByPath, name)
      + (if paramsByPath[order[n]] == name then [storedFiles[order[n]]] else [])
  }

  /** A parameter gets ids exactly when one of the stored paths is its own,
      and every id it gets is the stored id of one of its paths. */
  lemma {:induction false} IdsUnderMeaning(storedFiles: map<string, FileId>, order: seq<string>,
                                           paramsByPath: map<string, string>, name: string)
    requires forall i :: 0 <= i < |order| ==> order[i] in storedFiles && order[i] in paramsByPath
    ensures var ids := IdsUnder(storedFiles, order, paramsByPath, name);
            && |ids| <= |order|
            && (ids == [] <==> forall i :: 0 <= i < |order| ==> paramsByPath[order[i]] != name)
            && (forall k :: 0 <= k < |ids| ==>
                  exists i :: 0 <= i < |order| && paramsByPath[order[i]] == name && storedFiles[order[i]] == ids[k])
  {
    if order != [] {
      var n := |order| - 1;
      IdsUnderMeaning(storedFiles, order[..n], paramsByPath, name);
      assert forall i :: 0 <= i < n ==> order[..n][i] == order[i];
      var prev := IdsUnder(storedFiles, order[..n], paramsByPath, name);
      var ids := IdsUnder(storedFiles, order, paramsByPath, name);
      forall k | 0 <= k < |ids|
        ensures exists i :: 0 <= i < |order| && paramsByPath[order[i]] == name && storedFiles[order[i]] == ids[k]
      {
        if k < |prev| {
          assert ids[k] == prev[k];
          var i :| 0 <= i < n && paramsByPath[order[..n][i]] == name && storedFiles[order[..n][i]] == prev[k];
          assert order[..n][i] == order[i];
        } else {
          assert paramsByPath[order[n]] == name && storedFiles[order[n]] == ids[k];
        }
      }
    }
  }

  /** Every stored path of `name` contributes its id to `name`'s list. */
  lemma {:induction false} IdsUnderComplete(storedFiles: map<string, FileId>, order: seq<string>,
                                            paramsByPath: map<string, string>, name: string)
    requires forall i :: 0 <= i < |order| ==> order[i] in storedFiles && order[i] in paramsByPath
    ensures forall i :: 0 <= i < |order| && paramsByPath[order[i]] == name ==>
              storedFiles[order[i]] in IdsUnder(storedFiles, order, paramsByPath, name)
  {
    if order != [] {
      var n := |order| - 1;
      IdsUnderComplete(storedFiles, order[..n], paramsByPath, name);
      assert forall i :: 0 <= i < n ==> order[..n][i] == order[i];
    }
  }

  /** The parameters some stored path belongs to. */
  function NamesOf(order: seq<string>, paramsByPath: map<string, string>): set<string>
    requires forall i :: 0 <= i < |order| ==> order[i] in paramsByPath
  {
    set i | 0 <= i < |order| :: paramsByPath[order[i]]
  }

  /** Each parameter with the ids stored for its files. */
  function ParamFileIds(storedFiles: map<string, FileId>, order: seq<string>,
                        paramsByPath: map<string, string>): map<string, seq<FileId>>
    requires forall i :: 0 <= i < |order| ==> order[i] in storedFiles && order[i] in paramsByPath
  {
    map name | name in NamesOf(order, paramsByPath) :: IdsUnder(storedFiles, order, paramsByPath, name)
  }

  /** Taking one more stored path appends its id to its parameter's list
      and leaves every other list alone. */
  lemma ParamFileIdsStep(storedFiles: map<string, FileId>, order: seq<string>,
                         paramsByPath: map<string, string>, k: nat)
    requires forall i :: 0 <= i < |order| ==> order[i] in storedFiles && order[i] in paramsByPath
    requires k < |order|
    ensures var before := ParamFileIds(storedFiles, order[..k], paramsByPath);
            var name := paramsByPath[order[k]];
            ParamFileIds(storedFiles, order[..k + 1], paramsByPath)
            == before[name := (if name in before then before[name] else []) + [storedFiles[order[k]]]]
  {
    var before := ParamFileIds(storedFiles, order[..k], paramsByPath);
    var after := ParamFileIds(storedFiles, order[..k + 1], paramsByPath);
    var name := paramsByPath[order[k]];
    var expected := before[name := (if name in before then before[name] else []) + [storedFiles[order[k]]]];
    assert order[..k + 1][..k] == order[..k];
    assert NamesOf(order[..k + 1], paramsByPath) == NamesOf(order[..k], paramsByPath) + {name} by {
      assert order[..k + 1][k] == order[k];
      forall x | x in NamesOf(order[..k + 1], paramsByPath)
        ensures x in NamesOf(order[..k], paramsByPath) + {name}
      {
        var i :| 0 <= i < k + 1 && paramsByPath[order[..k + 1][i]] == x;
        if i < k {
          assert order[..k + 1][i] == order[..k][i];
        }
      }
      forall x | x in NamesOf(order[..k], paramsByPath)
        ensures x in NamesOf(order[..k + 1], paramsByPath)
      {
        var i :| 0 <= i < k && paramsByPath[order[..k][i]] == x;
        assert order[..k][i] == order[..k + 1][i];
      }
    }
    assert after.Keys == expected.Keys;
    forall x | x in after ensures after[x] == expected[x] {
      if x != name && x in before {
        assert after[x] == IdsUnder(storedFiles, order[..k], paramsByPath, x);
      }
      if x == name && name !in before {
        IdsUnderMeaning(storedFiles, order[..k], paramsByPath, name);
        assert IdsUnder(storedFiles, order[..k], paramsByPath, name) == [];
      }
    }
  }

  /** Every stored path's id is in the list of the parameter that captured
      the path. */
  lemma ParamFileIdsComplete(storedFiles: map<string, FileId>, order: seq<string>,
                             paramsByPath: map<string, string>)
    requires forall i :: 0 <= i < |order| ==> order[i] in storedFiles && order[i] in paramsByPath
    ensures forall i :: 0 <= i < |order| ==>
              && paramsByPath[order[i]] in ParamFileIds(storedFiles, order, paramsByPath)
              && storedFiles[order[i]] in ParamFileIds(storedFiles, order, paramsByPath)[paramsByPath[order[i]]]
  {
    forall i | 0 <= i < |order|
      ensures paramsByPath[order[i]] in NamesOf(order, paramsByPath)
      ensures storedFiles[order[i]] in IdsUnder(storedFiles, order, paramsByPath, paramsByPath[order[i]])
    {
      IdsUnderComplete(storedFiles, order, paramsByPath, paramsByPath[order[i]]);
    }
  }

  /** Recording one more pending parameter extends the merged map by it. */
  lemma MergeStep(base: map<string, seq<FileId>>, m: map<string, seq<FileId>>, pending: set<string>, name: string)
    requires name in pending && pending <= m.Keys
    ensures (base + map n | n in m.Keys - pending :: m[n])[name := m[name]]
            == base + map n | n in m.Keys - (pending - {name}) :: m[n]
  {
  }

  // ---------------------------------------------------------------------
  // The results object.
  // ---------------------------------------------------------------------

  class JobResults {
    var files: map<string, seq<FileId>>
    var json: map<string, JsonValue>

    /** Results as read from their stored form. */
    constructor (files: map<string, seq<FileId>>, json: map<string, JsonValue>)
      ensures this.files == files && this.json == json
    {
      this.files := files;
      this.json := json;
    }

    /** Records the files of an output parameter. */
    method AddFileListParameter(name: string, fileIds: seq<FileId>)
      modifies this
      ensures files == old(files)[name := fileIds]
      ensures json == old(json)
    {
      files := files[name := fileIds];
    }

    /** Records the one file of an output parameter, as a one-element list. */
    method AddFileParameter(name: string, fileId: FileId)
      modifies this
      ensures files == old(files)[name := [fileId]]
      ensures json == old(json)
    {
      files := files[name := [fileId]];
    }

    /** Adds output `outputName` to `jobData` as input `inputName`: as a
        single file when the output has exactly one file, as a file list
        otherwise. A missing output is a key error. */
    method AddOutputToData(outputName: string, jobData: JobData, inputName: string)
      returns (r: Result<(), string>)
      modifies jobData
      ensures outputName !in files ==> r == Err(outputName) && jobData.inputs == old(jobData.inputs)
      ensures outputName in files ==>
                && r == Ok(())
                && jobData.inputs == old(jobData.inputs) +
                     [if |files[outputName]| == 1 then FileInput(inputName, files[outputName][0])
                      else FileListInput(inputName, files[outputName])]
    {
      if outputName !in files {
        return Err(outputName);
      }
      var output := files[outputName];
      if |output| == 1 {
        jobData.AddFileInput(inputName, output[0]);
      } else {
        jobData.AddFileListInput(inputName, output);
      }
      r := Ok(());
    }

    /** The declared outputs with their concrete values, for the legacy v5
        interface: the declared file outputs whose files are all among
        `jobFiles`, then the declared JSON outputs the results hold. */
    method ExtendInterfaceWithOutputsV5(fileDecls: seq<OutputDecl>, jsonDecls: seq<OutputDecl>,
                                        jobFiles: seq<ScaleFile>)
      returns (r: Result<seq<V5Output>, IndexError>)
      ensures r == V5Outputs(files, json, fileDecls, jsonDecls, jobFiles)
    {
      var fileMap := FileMap(jobFiles);
      var fileOutputs := PresentFileOutputs(files, fileMap, fileDecls);
      if fileOutputs.Err? {
        return Err(fileOutputs.error);
      }
      var jsonOutputs := PresentJsonOutputs(json, jsonDecls);
      r := Ok(fileOutputs.value + jsonOutputs);
    }

    /** Stores the captured output files and records, under each output
        parameter, the ids the store gave its files. `names` is the order
        the captured-files dictionary is visited in, `existingFiles` the
        paths that are regular files, `storeConfigured` whether a data file
        store is set up, and `storedFiles`/`storedOrder` what the store
        returns (stored path to file id) and the order it is visited in. */
    method StoreOutputDataFiles(dataFiles: map<string, seq<ProductFile>>, names: seq<string>,
                                outputWorkspaces: map<string, int>, existingFiles: set<string>,
                                storeConfigured: bool,
                                storedFiles: map<string, FileId>, storedOrder: seq<string>)
      returns (r: Result<(), StoreError>)
      requires forall i :: 0 <= i < |names| ==> names[i] in dataFiles && names[i] in outputWorkspaces
      requires forall k :: k in dataFiles ==> k in names
      requires forall i, j :: 0 <= i < j < |names| ==> names[i] != names[j]
      requires forall i :: 0 <= i < |storedOrder| ==> storedOrder[i] in storedFiles
      requires forall p :: p in storedFiles ==> p in storedOrder
      requires forall i, j :: 0 <= i < j < |storedOrder| ==> storedOrder[i] != storedOrder[j]
      modifies this
      ensures json == old(json)
      ensures r.Err? ==> files == old(files)
      ensures r.Ok? <==>
                && (forall i, e :: 0 <= i < |names| && e in dataFiles[names[i]] ==> e.localPath in existingFiles)
                && storeConfigured
                && (forall i :: 0 <= i < |storedOrder| ==> storedOrder[i] in ParamsByPathOf(dataFiles, names))
      ensures (exists i, e :: 0 <= i < |names| && e in dataFiles[names[i]] && e.localPath !in existingFiles) ==>
                r.Err? && r.error.NotAValidFile?
      ensures r.Ok? ==>
                files == old(files) + ParamFileIds(storedFiles, storedOrder, ParamsByPathOf(dataFiles, names))
      ensures r.Ok? ==>
                forall p :: p in storedFiles ==>
                  && ParamsByPathOf(dataFiles, names)[p] in files
                  && storedFiles[p] in files[ParamsByPathOf(dataFiles, names)[p]]
    {
      var organized := OrganizeDataFiles(dataFiles, names, outputWorkspaces, existingFiles);
      if organized.Err? {
        return Err(organized.error);
      }
      if !storeConfigured {
        return Err(NoDataFileStore);
      }
      var paramsByPath := organized.value.1;
      var grouped := GroupStoredFileIds(storedFiles, storedOrder, paramsByPath);
      if grouped.Err? {
        return Err(grouped.error);
      }
      ParamFileIdsComplete(storedFiles, storedOrder, paramsByPath);
      AddFileListParameters(grouped.value);
      r := Ok(());
    }

    /** Records each parameter's list of ids, visiting the parameters in
        any order. */
    method AddFileListParameters(paramFileIds: map<string, seq<FileId>>)
      modifies this
      ensures files == old(files) + paramFileIds
      ensures json == old(json)
    {
      var pending := paramFileIds.Keys;
      while pending != {}
        invariant pending <= paramFileIds.Keys
        invariant files == old(files) + map n | n in paramFileIds.Keys - pending :: paramFileIds[n]
        invariant json == old(json)
        decreases pending
      {
        var name :| name in pending;
        AddFileListParameter(name, paramFileIds[name]);
        MergeStep(old(files), paramFileIds, pending, name);
        pending := pending - {name};
      }
      assert (map n | n in paramFileIds.Keys - {} :: paramFileIds[n]) == paramFileIds;
    }
  }

  /** The first grouping of the captured files: the files per output
      workspace, and the parameter each path was captured for. Fails on the
      first captured path that is not a regular file. */
  method OrganizeDataFiles(dataFiles: map<string, seq<ProductFile>>, names: seq<string>,
                           outputWorkspaces: map<string, int>, existingFiles: set<string>)
    returns (r: Result<(map<int, seq<ProductFile>>, map<string, string>), StoreError>)
    requires forall i :: 0 <= i < |names| ==> names[i] in dataFiles && names[i] in outputWorkspaces
    ensures r.Err? <==> exists i, e :: 0 <= i < |names| && e in dataFiles[names[i]] && e.localPath !in existingFiles
    ensures r.Err? ==> r.error.NotAValidFile? && r.error.path !in existingFiles
    ensures r.Ok? ==> r.value == (WorkspaceFilesOf(dataFiles, outputWorkspaces, names), ParamsByPathOf(dataFiles, names))
  {
    var workspaceFiles: map<int, seq<ProductFile>> := map[];
    var paramsByPath: map<string, string> := map[];
    for i := 0 to |names|
      invariant workspaceFiles == WorkspaceFilesOf(dataFiles, outputWorkspaces, names[..i])
      invariant paramsByPath == ParamsByPathOf(dataFiles, names[..i])
      invariant forall k, e :: 0 <= k < i && e in dataFiles[names[k]] ==> e.localPath in existingFiles
    {
      assert names[..i + 1][..i] == names[..i];
      var name := names[i];
      assert names[..i + 1][i] == name;
      var ws := outputWorkspaces[name];
      var list := if ws in workspaceFiles then workspaceFiles[ws] else [];
      var indexed := IndexEntries(dataFiles[name], name, existingFiles, paramsByPath, list);
      if indexed.Err? {
        return Err(NotAValidFile(indexed.error));
      }
      paramsByPath := indexed.value.0;
      workspaceFiles := workspaceFiles[ws := indexed.value.1];
    }
    assert names[..|names|] == names;
    r := Ok((workspaceFiles, paramsByPath));
  }

  /** The inner loop of the first grouping, over the files one parameter
      captured: records each path under `name` and appends each file to
      its workspace's `list`, or returns the first path that is not a
      regular file. */
  method IndexEntries(entries: seq<ProductFile>, name: string, existingFiles: set<string>,
                      paramsByPath: map<string, string>, list: seq<ProductFile>)
    returns (r: Result<(map<string, string>, seq<ProductFile>), string>)
    ensures r.Err? <==> exists e :: e in entries && e.localPath !in existingFiles
    ensures r.Err? ==> r.error !in existingFiles && r.error in Paths(entries)
    ensures r.Ok? ==> r.value == (RecordPaths(paramsByPath, entries, name), list + entries)
  {
    var params := paramsByPath;
    var files := list;
    for j := 0 to |entries|
      invariant params == RecordPaths(paramsByPath, entries[..j], name)
      invariant files == list + entries[..j]
      invariant forall k :: 0 <= k < j ==> entries[k].localPath in existingFiles
    {
      var path := entries[j].localPath;
      if path !in existingFiles {
        return Err(path);
      }
      assert entries[..j + 1][..j] == entries[..j];
      params := params[path := name];
      files := files + [entries[j]];
    }
    assert entries[..|entries|] == entries;
    r := Ok((params, files));
  }

  /** The second grouping: the stored ids per output parameter, each list in
      the store's order. A stored path that no parameter captured is a key
      error. */
  method GroupStoredFileIds(storedFiles: map<string, FileId>, storedOrder: seq<string>,
                            paramsByPath: map<string, string>)
    returns (r: Result<map<string, seq<FileId>>, StoreError>)
    requires forall i :: 0 <= i < |storedOrder| ==> storedOrder[i] in storedFiles
    ensures r.Ok? <==> forall i :: 0 <= i < |storedOrder| ==> storedOrder[i] in paramsByPath
    ensures r.Err? ==> r.error.UnknownStoredPath? && r.error.path !in paramsByPath
    ensures r.Ok? ==> r.value == ParamFileIds(storedFiles, storedOrder, paramsByPath)
  {
    var paramFileIds: map<string, seq<FileId>> := map[];
    for i := 0 to |storedOrder|
      invariant forall k :: 0 <= k < i ==> storedOrder[k] in paramsByPath
      invariant paramFileIds == ParamFileIds(storedFiles, storedOrder[..i], paramsByPath)
    {
      var path := storedOrder[i];
      if path !in paramsByPath {
        return Err(UnknownStoredPath(path));
      }
      ParamFileIdsStep(storedFiles, storedOrder[..i + 1], paramsByPath, i);
      assert storedOrder[..i + 1][..i] == storedOrder[..i];
      assert storedOrder[..i + 1][..i + 1] == storedOrder[..i + 1];
      var fileId := storedFiles[path];
      var name := paramsByPath[path];
      var ids := if name in paramFileIds then paramFileIds[name] else [];
      paramFileIds := paramFileIds[name := ids + [fileId]];
    }
    assert storedOrder[..|storedOrder|] == storedOrder;
    r := Ok(paramFileIds);
  }
}
