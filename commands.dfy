/** The backend commands of src-tauri/src/lib.rs that carry logic:
    process_images, download_model and check_first_time_setup. The
    filesystem is the set of existing paths, the models directory a
    parameter, and the inference engine and the file downloader are
    arbitrary functions supplied by the caller. */
module Commands {
  import opened Common
  import Paths
  import opened Models

  datatype ProcessImageRequest = ProcessImageRequest(imagePaths: seq<string>, modelId: string, outputDir: Option<string>)

  datatype ProcessImageResult = ProcessImageResult(inputPath: string, outputPath: string, success: bool, error: Option<string>)

  /** The payload of a "processing-progress" event. */
  datatype ProcessingProgress = ProcessingProgress(current: nat, total: nat, fileName: string)

  /** What the engine (processor::process_image) or a whole download reports. */
  datatype Outcome = Done | Failed(message: string)

  /** What downloader::download_file reports for one file. The destination
      is created before the body is streamed, so a failure may leave a
      partial file behind. */
  datatype FetchOutcome = Fetched | FetchFailed(message: string, leftBehind: bool)

  const OutputSuffix: string := "_no_bg.png"
  const NoFiles: string := "Model has no files"
  const ModelFileMissing: string := "Model file not found. Please download the model first."
  const InvalidName: string := "Invalid input file name"
  const InvalidPath: string := "Invalid input file path"

  // ---------------------------------------------------------------------
  // process_images
  // ---------------------------------------------------------------------

  /** The checks process_images makes before touching any image: the model
      exists, and its first weight file is on disk. Yields that file's path. */
  function ModelPath(existing: set<string>, modelsDir: string, id: string): (r: Result<string>)
    ensures ModelById(id).None? ==> r == Err(NotFound(id))
    ensures ModelById(id).Some? ==> |ModelById(id).value.files| >= 1
    ensures ModelById(id).Some? && r.Err? ==> r == Err(ModelFileMissing)
    ensures r.Ok? <==> ModelById(id).Some? && FilePath(modelsDir, ModelById(id).value.files[0]) in existing
    ensures r.Ok? ==> r.value == FilePath(modelsDir, ModelById(id).value.files[0])
  {
    var model :- ModelById(id).OkOr(NotFound(id));
    ModelByIdHasFiles(id);
    if |model.files| == 0 then Err(NoFiles)
    else
      var path := FilePath(modelsDir, model.files[0]);
      if path !in existing then Err(ModelFileMissing) else Ok(path)
  }

  /** The output path of one input: `<stem>_no_bg.png` in the output
      directory when one is given, else beside the input. The stem is
      demanded first, the parent only when there is no output directory. */
  function OutputPath(input: string, outputDir: Option<string>): (r: Result<string>)
    ensures Paths.FileStem(input).None? ==> r == Err(InvalidName)
    ensures Paths.FileStem(input).Some? && outputDir.None? && Paths.Parent(input).None? ==> r == Err(InvalidPath)
    ensures r.Ok? <==> Paths.FileStem(input).Some? && (outputDir.Some? || Paths.Parent(input).Some?)
  {
    var stem :- Paths.FileStem(input).OkOr(InvalidName);
    var name := stem + OutputSuffix;
    match outputDir
    case Some(dir) => Ok(Paths.Join(dir, name))
    case None =>
      var parent :- Paths.Parent(input).OkOr(InvalidPath);
      Ok(Paths.Join(parent, name))
  }

  /** The file name of every output is the input's stem followed by
      `_no_bg.png`. */
  lemma OutputFileName(input: string, outputDir: Option<string>)
    requires OutputPath(input, outputDir).Ok?
    ensures Paths.FileName(OutputPath(input, outputDir).value) == Some(Paths.FileStem(input).value + OutputSuffix)
  {
    var stem := Paths.FileStem(input).value;
    var name := stem + OutputSuffix;
    assert Paths.Separator !in name by {
      StemHasNoSeparator(input);
    }
    match outputDir
    case Some(dir) =>
      assert OutputPath(input, outputDir).value == Paths.Join(dir, name);
      Paths.FileNameOfJoin(dir, name);
    case None =>
      assert OutputPath(input, outputDir).value == Paths.Join(Paths.Parent(input).value, name);
      Paths.FileNameOfJoin(Paths.Parent(input).value, name);
  }

  /** A stem, being part of a file name, holds no separator. */
  lemma StemHasNoSeparator(input: string)
    requires Paths.FileStem(input).Some?
    ensures Paths.Separator !in Paths.FileStem(input).value
  {
    var stem := Paths.FileStem(input).value;
    Paths.FileStemIsPrefix(input);
    Paths.FileNameIsLastComponent(input);
    forall i | 0 <= i < |stem| ensures stem[i] != Paths.Separator {
      assert stem[i] == Paths.FileName(input).value[i];
    }
  }

  /** A directory that Join extends with exactly one separator (or none,
      for the empty path and the root). */
  predicate PlainDir(dir: string) {
    dir == "" || dir == [Paths.Separator] || dir[|dir| - 1] != Paths.Separator
  }

  /** With an output directory, every output lands in that directory. */
  lemma OutputInOutputDir(input: string, dir: string)
    requires Paths.FileStem(input).Some? && PlainDir(dir)
    ensures OutputPath(input, Some(dir)).Ok?
    ensures Paths.Parent(OutputPath(input, Some(dir)).value) == Some(dir)
  {
    OutputFileName(input, Some(dir));
    Paths.ParentOfJoin(dir, Paths.FileStem(input).value + OutputSuffix);
  }

  /** Without one, every output lands beside its input. */
  lemma OutputBesideInput(input: string)
    requires Paths.FileStem(input).Some? && Paths.Parent(input).Some? && PlainDir(Paths.Parent(input).value)
    ensures OutputPath(input, None).Ok?
    ensures Paths.Parent(OutputPath(input, None).value) == Paths.Parent(input)
  {
    OutputFileName(input, None);
    Paths.ParentOfJoin(Paths.Parent(input).value, Paths.FileStem(input).value + OutputSuffix);
  }

  /** The record for one processed input: a success carries the output
      path and no error, a failure an empty output path and the message. */
  function ImageRecord(input: string, output: string, outcome: Outcome): (r: ProcessImageResult)
    ensures r.inputPath == input
    ensures r.success <==> outcome.Done?
    ensures r.error.None? <==> r.success
    ensures r.success ==> r.outputPath == output
    ensures !r.success ==> r.outputPath == "" && r.error == Some(outcome.message)
  {
    match outcome
    case Done => ProcessImageResult(input, output, true, None)
    case Failed(message) => ProcessImageResult(input, "", false, Some(message))
  }

  /** The progress event sent before input i is handled. */
  function Progress(paths: seq<string>, i: nat): (e: ProcessingProgress)
    requires i < |paths|
    ensures e.current == i + 1 && e.total == |paths|
    ensures Paths.FileName(paths[i]).Some? ==> e.fileName == Paths.FileName(paths[i]).value
    ensures Paths.FileName(paths[i]).None? ==> e.fileName == ""
  {
    ProcessingProgress(i + 1, |paths|, Paths.FileName(paths[i]).GetOr(""))
  }

  /** The first input whose output path cannot be derived. */
  function FirstInvalid(paths: seq<string>, outputDir: Option<string>): (r: Option<nat>)
    ensures r.None? <==> forall i :: 0 <= i < |paths| ==> OutputPath(paths[i], outputDir).Ok?
    ensures r.Some? ==> r.value < |paths| && OutputPath(paths[r.value], outputDir).Err?
    ensures r.Some? ==> forall j :: 0 <= j < r.value ==> OutputPath(paths[j], outputDir).Ok?
  {
    FirstIndex(paths, (p: string) => OutputPath(p, outputDir).Err?)
  }

  /** The record process_images builds for input i, given the model file. */
  function RecordFor(modelPath: string, input: string, output: string, engine: (string, string, string) -> Outcome): ProcessImageResult {
    ImageRecord(input, output, engine(modelPath, input, output))
  }

  /** What the loop of process_images returns, given the model file at
      `modelPath`: one record per input, in input order, or, at the first
      input without an output path, that input's error. */
  predicate Processed(modelPath: string, paths: seq<string>, outputDir: Option<string>,
                      engine: (string, string, string) -> Outcome, r: Result<seq<ProcessImageResult>>)
  {
    match FirstInvalid(paths, outputDir)
    case None =>
      && r.Ok?
      && |r.value| == |paths|
      && forall i :: 0 <= i < |paths| ==>
           r.value[i] == RecordFor(modelPath, paths[i], OutputPath(paths[i], outputDir).value, engine)
    case Some(k) =>
      r == Err(OutputPath(paths[k], outputDir).error)
  }

  /** The progress events the loop sends: one per input, up to and
      including the first input without an output path. */
  predicate EventsSent(paths: seq<string>, outputDir: Option<string>, events: seq<ProcessingProgress>) {
    && |events| <= |paths|
    && (forall i :: 0 <= i < |events| ==> events[i] == Progress(paths, i))
    && match FirstInvalid(paths, outputDir)
       case None => |events| == |paths|
       case Some(k) => |events| == k + 1
  }

  /** The loop's result when every input has an output path. */
  lemma AllInputsProcessed(modelPath: string, paths: seq<string>, outputDir: Option<string>,
                           engine: (string, string, string) -> Outcome,
                           results: seq<ProcessImageResult>, events: seq<ProcessingProgress>)
    requires |results| == |paths| && |events| == |paths|
    requires forall i :: 0 <= i < |paths| ==>
               && OutputPath(paths[i], outputDir).Ok?
               && results[i] == RecordFor(modelPath, paths[i], OutputPath(paths[i], outputDir).value, engine)
    requires forall i :: 0 <= i < |events| ==> events[i] == Progress(paths, i)
    ensures Processed(modelPath, paths, outputDir, engine, Ok(results))
    ensures EventsSent(paths, outputDir, events)
  {
    assert FirstInvalid(paths, outputDir).None?;
  }

  /** The loop's result when input k is the first without an output path. */
  lemma StoppedAtInput(modelPath: string, paths: seq<string>, outputDir: Option<string>,
                       engine: (string, string, string) -> Outcome, k: nat, events: seq<ProcessingProgress>)
    requires k < |paths| && OutputPath(paths[k], outputDir).Err?
    requires forall i :: 0 <= i < k ==> OutputPath(paths[i], outputDir).Ok?
    requires |events| == k + 1
    requires forall i :: 0 <= i < |events| ==> events[i] == Progress(paths, i)
    ensures Processed(modelPath, paths, outputDir, engine, Err(OutputPath(paths[k], outputDir).error))
    ensures EventsSent(paths, outputDir, events)
  {
    var f := FirstInvalid(paths, outputDir);
    assert f.Some? && f.value == k;
  }

  /** The records and events of the first n inputs, all of which have
      an output path. */
  predicate ProcessedUpTo(modelPath: string, paths: seq<string>, outputDir: Option<string>,
                          engine: (string, string, string) -> Outcome,
                          results: seq<ProcessImageResult>, events: seq<ProcessingProgress>, n: nat)
  {
    && n <= |paths| && |results| == n && |events| == n
    && forall i :: 0 <= i < n ==>
         && OutputPath(paths[i], outputDir).Ok?
         && results[i] == RecordFor(modelPath, paths[i], OutputPath(paths[i], outputDir).value, engine)
         && events[i] == Progress(paths, i)
  }

  /** One more input with an output path extends the records and events. */
  lemma ProcessedStep(modelPath: string, paths: seq<string>, outputDir: Option<string>,
                      engine: (string, string, string) -> Outcome,
                      results: seq<ProcessImageResult>, events: seq<ProcessingProgress>, n: nat)
    requires ProcessedUpTo(modelPath, paths, outputDir, engine, results, events, n)
    requires n < |paths| && OutputPath(paths[n], outputDir).Ok?
    ensures ProcessedUpTo(modelPath, paths, outputDir, engine,
                          results + [RecordFor(modelPath, paths[n], OutputPath(paths[n], outputDir).value, engine)],
                          events + [Progress(paths, n)], n + 1)
  {
  }

  /** The for-loop of process_images over the inputs. */
  method ProcessInputs(modelPath: string, paths: seq<string>, outputDir: Option<string>,
                       engine: (string, string, string) -> Outcome)
    returns (r: Result<seq<ProcessImageResult>>, ghost events: seq<ProcessingProgress>)
    ensures Processed(modelPath, paths, outputDir, engine, r)
    ensures EventsSent(paths, outputDir, events)
  {
    events := [];
    var results: seq<ProcessImageResult> := [];
    for index := 0 to |paths|
      invariant ProcessedUpTo(modelPath, paths, outputDir, engine, results, events, index)
    {
      var output := OutputPath(paths[index], outputDir);
      if output.Err? {
        StoppedAtInput(modelPath, paths, outputDir, engine, index, events + [Progress(paths, index)]);
        return Err(output.error), events + [Progress(paths, index)];
      }
      ProcessedStep(modelPath, paths, outputDir, engine, results, events, index);
      events := events + [Progress(paths, index)];
      results := results + [RecordFor(modelPath, paths[index], output.value, engine)];
    }
    AllInputsProcessed(modelPath, paths, outputDir, engine, results, events);
    return Ok(results), events;
  }

  /** process_images: the model checks, which fail before any progress
      event, then the loop over the inputs. `events` are the emitted
      progress events. */
  method ProcessImages(existing: set<string>, modelsDir: string, request: ProcessImageRequest,
                       engine: (string, string, string) -> Outcome)
    returns (r: Result<seq<ProcessImageResult>>, ghost events: seq<ProcessingProgress>)
    ensures ModelPath(existing, modelsDir, request.modelId).Err? ==>
              r == Err(ModelPath(existing, modelsDir, request.modelId).error)
    ensures ModelPath(existing, modelsDir, request.modelId).Ok? ==>
              Processed(ModelPath(existing, modelsDir, request.modelId).value,
                        request.imagePaths, request.outputDir, engine, r)
    ensures ModelPath(existing, modelsDir, request.modelId).Err? ==> events == []
    ensures ModelPath(existing, modelsDir, request.modelId).Ok? ==>
              EventsSent(request.imagePaths, request.outputDir, events)
  {
    var checked := ModelPath(existing, modelsDir, request.modelId);
    if checked.Err? {
      return Err(checked.error), [];
    }
    r, events := ProcessInputs(checked.value, request.imagePaths, request.outputDir, engine);
  }

  // ---------------------------------------------------------------------
  // download_model
  // ---------------------------------------------------------------------

  /** The disk, as the set of paths that exist on it. */
  class FileSystem {
    var paths: set<string>

    constructor (paths: set<string>)
      ensures this.paths == paths
    {
      this.paths := paths;
    }
  }

  /** One call of the downloader: the file's URL and its destination. */
  datatype FetchRequest = FetchRequest(url: string, dest: string)

  /** The end of a download: its outcome, the paths that then exist, and
      the requests handed to the downloader, in order. */
  datatype DownloadRun = DownloadRun(outcome: Outcome, paths: set<string>, fetched: seq<FetchRequest>)

  /** The paths of a list of weight files in the models directory. */
  function FilePathSet(modelsDir: string, files: seq<ModelFile>): (s: set<string>)
    ensures forall i :: 0 <= i < |files| ==> FilePath(modelsDir, files[i]) in s
    ensures forall p :: p in s ==> exists i :: 0 <= i < |files| && p == FilePath(modelsDir, files[i])
  {
    set i | 0 <= i < |files| :: FilePath(modelsDir, files[i])
  }

  /** The loop of download_model over `files`, starting from the paths in
      `existing`: a file already present is skipped, a missing one is
      fetched, and the first failed fetch ends the loop with its message. */
  function DownloadFiles(existing: set<string>, modelsDir: string, files: seq<ModelFile>,
                         fetch: (string, string) -> FetchOutcome): DownloadRun
    decreases |files|
  {
    if |files| == 0 then DownloadRun(Done, existing, [])
    else
      var dest := FilePath(modelsDir, files[0]);
      if dest in existing then
        DownloadFiles(existing, modelsDir, files[1..], fetch)
      else
        match fetch(files[0].url, dest)
        case Fetched =>
          var rest := DownloadFiles(existing + {dest}, modelsDir, files[1..], fetch);
          rest.(fetched := [FetchRequest(files[0].url, dest)] + rest.fetched)
        case FetchFailed(message, leftBehind) =>
          DownloadRun(Failed(message), if leftBehind then existing + {dest} else existing, [FetchRequest(files[0].url, dest)])
  }

  /** What a download run does: it only adds the model's paths, it ends
      with every file present when it succeeds, it hands the downloader
      only missing paths of the model, and a failure carries the message
      of a failed fetch of a missing file. */
  lemma {:induction false} DownloadFilesBounds(existing: set<string>, modelsDir: string, files: seq<ModelFile>,
                                              fetch: (string, string) -> FetchOutcome)
    ensures var run := DownloadFiles(existing, modelsDir, files, fetch);
            && existing <= run.paths
            && run.paths <= existing + FilePathSet(modelsDir, files)
            && (run.outcome.Done? ==> forall i :: 0 <= i < |files| ==> FilePath(modelsDir, files[i]) in run.paths)
            && (forall j :: 0 <= j < |run.fetched| ==>
                  run.fetched[j].dest !in existing && run.fetched[j].dest in FilePathSet(modelsDir, files))
            && (run.outcome.Failed? ==>
                  exists i :: && 0 <= i < |files|
                              && FilePath(modelsDir, files[i]) !in existing
                              && fetch(files[i].url, FilePath(modelsDir, files[i])).FetchFailed?
                              && fetch(files[i].url, FilePath(modelsDir, files[i])).message == run.outcome.message)
    decreases |files|
  {
    if |files| > 0 {
      var dest := FilePath(modelsDir, files[0]);
      Tail(modelsDir, files);
      if dest in existing {
        DownloadFilesBounds(existing, modelsDir, files[1..], fetch);
      } else if fetch(files[0].url, dest).Fetched? {
        DownloadFilesBounds(existing + {dest}, modelsDir, files[1..], fetch);
      }
    }
  }

  /** A request for one of the files. */
  predicate RequestOf(modelsDir: string, files: seq<ModelFile>, req: FetchRequest) {
    exists i :: 0 <= i < |files| && req == FetchRequest(files[i].url, FilePath(modelsDir, files[i]))
  }

  /** Every request of a download run is that of one of the files. */
  lemma {:induction false} DownloadFilesRequestsOfFiles(existing: set<string>, modelsDir: string, files: seq<ModelFile>,
                                                       fetch: (string, string) -> FetchOutcome)
    ensures forall j :: 0 <= j < |DownloadFiles(existing, modelsDir, files, fetch).fetched| ==>
              RequestOf(modelsDir, files, DownloadFiles(existing, modelsDir, files, fetch).fetched[j])
    decreases |files|
  {
    if |files| > 0 {
      var dest := FilePath(modelsDir, files[0]);
      var whole := DownloadFiles(existing, modelsDir, files, fetch);
      if dest in existing {
        DownloadFilesRequestsOfFiles(existing, modelsDir, files[1..], fetch);
        forall j | 0 <= j < |whole.fetched| ensures RequestOf(modelsDir, files, whole.fetched[j]) {
          RequestOfTail(modelsDir, files, whole.fetched[j]);
        }
      } else if fetch(files[0].url, dest).Fetched? {
        DownloadFilesRequestsOfFiles(existing + {dest}, modelsDir, files[1..], fetch);
        var rest := DownloadFiles(existing + {dest}, modelsDir, files[1..], fetch);
        assert whole.fetched == [FetchRequest(files[0].url, dest)] + rest.fetched;
        forall j | 0 <= j < |whole.fetched| ensures RequestOf(modelsDir, files, whole.fetched[j]) {
          if j > 0 {
            assert whole.fetched[j] == rest.fetched[j - 1];
            RequestOfTail(modelsDir, files, whole.fetched[j]);
          }
        }
      }
    }
  }

  /** A request for a file after the first is a request for one of the files. */
  lemma RequestOfTail(modelsDir: string, files: seq<ModelFile>, req: FetchRequest)
    requires |files| > 0 && RequestOf(modelsDir, files[1..], req)
    ensures RequestOf(modelsDir, files, req)
  {
    var i :| 0 <= i < |files[1..]| && req == FetchRequest(files[1..][i].url, FilePath(modelsDir, files[1..][i]));
    assert files[1..][i] == files[i + 1];
  }

  /** The order of a download run: every request but a failing last one
      succeeds, and a failed run ends with the request that failed,
      carrying its message. */
  lemma {:induction false} DownloadFilesStopsAtFirstFailure(existing: set<string>, modelsDir: string, files: seq<ModelFile>,
                                                           fetch: (string, string) -> FetchOutcome)
    ensures var run := DownloadFiles(existing, modelsDir, files, fetch);
            && (run.outcome.Done? ==> forall j :: 0 <= j < |run.fetched| ==> fetch(run.fetched[j].url, run.fetched[j].dest) == Fetched)
            && (run.outcome.Failed? ==>
                  && |run.fetched| > 0
                  && (forall j :: 0 <= j < |run.fetched| - 1 ==> fetch(run.fetched[j].url, run.fetched[j].dest) == Fetched)
                  && var last := run.fetched[|run.fetched| - 1];
                     && fetch(last.url, last.dest).FetchFailed?
                     && fetch(last.url, last.dest).message == run.outcome.message)
    decreases |files|
  {
    if |files| > 0 {
      var dest := FilePath(modelsDir, files[0]);
      if dest in existing {
        DownloadFilesStopsAtFirstFailure(existing, modelsDir, files[1..], fetch);
      } else if fetch(files[0].url, dest).Fetched? {
        DownloadFilesStopsAtFirstFailure(existing + {dest}, modelsDir, files[1..], fetch);
        var rest := DownloadFiles(existing + {dest}, modelsDir, files[1..], fetch);
        var run := DownloadFiles(existing, modelsDir, files, fetch);
        assert run.fetched == [FetchRequest(files[0].url, dest)] + rest.fetched;
      }
    }
  }

  /** Files whose destinations are pairwise different, as those of every
      catalogue model are. */
  predicate DistinctDests(modelsDir: string, files: seq<ModelFile>) {
    forall i, j :: 0 <= i < j < |files| ==> FilePath(modelsDir, files[i]) != FilePath(modelsDir, files[j])
  }

  /** The files of catalogue entry k have pairwise different destinations:
      all entries but one have a single file, and the two files of the
      other have different names. */
  lemma EntryDestsDistinct(modelsDir: string, k: nat)
    requires k < CatalogueSize
    ensures DistinctDests(modelsDir, Files(k))
  {
    if k == 7 {
      var files := Files(7);
      if FilePath(modelsDir, files[0]) == FilePath(modelsDir, files[1]) {
        Paths.JoinNameInjective(modelsDir, files[0].name, files[1].name);
      }
    } else {
      assert |Files(k)| == 1;
    }
  }

  /** Every catalogue model's files have pairwise different destinations. */
  lemma CatalogueDestsDistinct(modelsDir: string, id: string)
    requires ModelById(id).Some?
    ensures DistinctDests(modelsDir, ModelById(id).value.files)
  {
    var k := IndexOfId(id).value;
    assert ModelById(id).value == Entry(k);
    EntryDestsDistinct(modelsDir, k);
  }

  /** The requests for the files whose destinations are not in `existing`,
      in file order. */
  function MissingRequests(existing: set<string>, modelsDir: string, files: seq<ModelFile>): seq<FetchRequest>
    decreases |files|
  {
    if |files| == 0 then []
    else
      var dest := FilePath(modelsDir, files[0]);
      (if dest in existing then [] else [FetchRequest(files[0].url, dest)])
      + MissingRequests(existing, modelsDir, files[1..])
  }

  /** A path that is no file's destination does not change which files
      are missing. */
  lemma {:induction false} MissingRequestsAdd(existing: set<string>, d: string, modelsDir: string, files: seq<ModelFile>)
    requires forall i :: 0 <= i < |files| ==> FilePath(modelsDir, files[i]) != d
    ensures MissingRequests(existing + {d}, modelsDir, files) == MissingRequests(existing, modelsDir, files)
    decreases |files|
  {
    if |files| > 0 {
      assert forall i :: 1 <= i < |files| ==> files[1..][i - 1] == files[i];
      MissingRequestsAdd(existing, d, modelsDir, files[1..]);
    }
  }

  /** The files after the first keep distinct destinations, none of them
      the first file's. */
  lemma DistinctTail(modelsDir: string, files: seq<ModelFile>)
    requires |files| > 0 && DistinctDests(modelsDir, files)
    ensures DistinctDests(modelsDir, files[1..])
    ensures forall i :: 0 <= i < |files[1..]| ==> FilePath(modelsDir, files[1..][i]) != FilePath(modelsDir, files[0])
  {
    assert forall i :: 0 <= i < |files[1..]| ==> files[1..][i] == files[i + 1];
  }

  /** Every missing file's fetch succeeds. */
  predicate AllMissingFetched(existing: set<string>, modelsDir: string, files: seq<ModelFile>,
                              fetch: (string, string) -> FetchOutcome) {
    forall i :: 0 <= i < |files| && FilePath(modelsDir, files[i]) !in existing ==>
      fetch(files[i].url, FilePath(modelsDir, files[i])) == Fetched
  }

  /** AllMissingFetched, split into the first file and the rest, when the
      first file's destination is none of the rest's. */
  lemma AllMissingFetchedTail(existing: set<string>, modelsDir: string, files: seq<ModelFile>,
                              fetch: (string, string) -> FetchOutcome)
    requires |files| > 0
    requires forall i :: 0 <= i < |files[1..]| ==> FilePath(modelsDir, files[1..][i]) != FilePath(modelsDir, files[0])
    ensures AllMissingFetched(existing, modelsDir, files, fetch) <==>
              && (FilePath(modelsDir, files[0]) in existing || fetch(files[0].url, FilePath(modelsDir, files[0])) == Fetched)
              && AllMissingFetched(existing, modelsDir, files[1..], fetch)
    ensures AllMissingFetched(existing + {FilePath(modelsDir, files[0])}, modelsDir, files[1..], fetch)
            == AllMissingFetched(existing, modelsDir, files[1..], fetch)
  {
    assert forall i :: 0 <= i < |files[1..]| ==> files[1..][i] == files[i + 1];
  }

  /** With distinct destinations, a run succeeds exactly when every missing
      file is fetched. */
  lemma {:induction false} DownloadFilesDone(existing: set<string>, modelsDir: string, files: seq<ModelFile>,
                                            fetch: (string, string) -> FetchOutcome)
    requires DistinctDests(modelsDir, files)
    ensures DownloadFiles(existing, modelsDir, files, fetch).outcome.Done? <==>
              AllMissingFetched(existing, modelsDir, files, fetch)
    decreases |files|
  {
    if |files| > 0 {
      var dest := FilePath(modelsDir, files[0]);
      DistinctTail(modelsDir, files);
      AllMissingFetchedTail(existing, modelsDir, files, fetch);
      DownloadStep(existing, modelsDir, files, fetch);
      if dest in existing {
        DownloadFilesDone(existing, modelsDir, files[1..], fetch);
      } else if fetch(files[0].url, dest).Fetched? {
        DownloadFilesDone(existing + {dest}, modelsDir, files[1..], fetch);
      }
    }
  }

  /** With distinct destinations, a successful run asked for exactly the
      missing files, in file order, and left every file present. */
  lemma {:induction false} DownloadFilesDoneRun(existing: set<string>, modelsDir: string, files: seq<ModelFile>,
                                               fetch: (string, string) -> FetchOutcome)
    requires DistinctDests(modelsDir, files)
    requires DownloadFiles(existing, modelsDir, files, fetch).outcome.Done?
    ensures DownloadFiles(existing, modelsDir, files, fetch).fetched == MissingRequests(existing, modelsDir, files)
    ensures DownloadFiles(existing, modelsDir, files, fetch).paths == existing + FilePathSet(modelsDir, files)
    decreases |files|
  {
    if |files| > 0 {
      var dest := FilePath(modelsDir, files[0]);
      DistinctTail(modelsDir, files);
      Tail(modelsDir, files);
      DownloadStep(existing, modelsDir, files, fetch);
      if dest in existing {
        DownloadFilesDoneRun(existing, modelsDir, files[1..], fetch);
      } else {
        DownloadFilesDoneRun(existing + {dest}, modelsDir, files[1..], fetch);
        MissingRequestsAdd(existing, dest, modelsDir, files[1..]);
      }
    }
  }

  /** File i is the first that stops a download: it is missing, its fetch
      fails, and every earlier file is present or fetched. */
  predicate FirstFailureAt(existing: set<string>, modelsDir: string, files: seq<ModelFile>,
                           fetch: (string, string) -> FetchOutcome, i: nat) {
    && i < |files|
    && FilePath(modelsDir, files[i]) !in existing
    && fetch(files[i].url, FilePath(modelsDir, files[i])).FetchFailed?
    && forall j :: 0 <= j < i ==>
         FilePath(modelsDir, files[j]) in existing || fetch(files[j].url, FilePath(modelsDir, files[j])) == Fetched
  }

  /** What a run that stops at file i looks like: it fails with that file's
      message after asking for the missing files up to it, in order, and
      the disk gains the files before it and, when the failed fetch left
      one, its file. */
  predicate StoppedAt(existing: set<string>, modelsDir: string, files: seq<ModelFile>,
                      fetch: (string, string) -> FetchOutcome, i: nat, run: DownloadRun)
    requires i < |files|
  {
    var dest := FilePath(modelsDir, files[i]);
    var reply := fetch(files[i].url, dest);
    && reply.FetchFailed?
    && run.outcome == Failed(reply.message)
    && run.fetched == MissingRequests(existing, modelsDir, files[..i + 1])
    && run.paths == existing + FilePathSet(modelsDir, files[..i]) + (if reply.leftBehind then {dest} else {})
  }

  /** A first file that is present or fetched hands the run on to the
      rest, with that file's destination now present. */
  lemma DownloadPassesFirst(existing: set<string>, modelsDir: string, files: seq<ModelFile>,
                            fetch: (string, string) -> FetchOutcome)
    requires |files| > 0
    requires FilePath(modelsDir, files[0]) in existing || fetch(files[0].url, FilePath(modelsDir, files[0])) == Fetched
    ensures var dest := FilePath(modelsDir, files[0]);
            var rest := DownloadFiles(existing + {dest}, modelsDir, files[1..], fetch);
            DownloadFiles(existing, modelsDir, files, fetch)
            == rest.(fetched := (if dest in existing then [] else [FetchRequest(files[0].url, dest)]) + rest.fetched)
  {
    var dest := FilePath(modelsDir, files[0]);
    DownloadStep(existing, modelsDir, files, fetch);
    if dest in existing {
      assert existing + {dest} == existing;
    }
  }

  /** The missing requests of the first n + 1 files, split after the first. */
  lemma MissingRequestsPrefix(existing: set<string>, modelsDir: string, files: seq<ModelFile>, n: nat)
    requires n < |files|
    requires forall j :: 0 <= j < |files[1..]| ==> FilePath(modelsDir, files[1..][j]) != FilePath(modelsDir, files[0])
    ensures var dest := FilePath(modelsDir, files[0]);
            MissingRequests(existing, modelsDir, files[..n + 1])
            == (if dest in existing then [] else [FetchRequest(files[0].url, dest)])
               + MissingRequests(existing + {dest}, modelsDir, files[1..][..n])
  {
    var dest := FilePath(modelsDir, files[0]);
    assert files[..n + 1][1..] == files[1..][..n];
    assert forall j :: 0 <= j < |files[1..][..n]| ==> files[1..][..n][j] == files[1..][j];
    MissingRequestsAdd(existing, dest, modelsDir, files[1..][..n]);
  }

  /** The paths of the first n files, split after the first. */
  lemma FilePathSetPrefix(existing: set<string>, modelsDir: string, files: seq<ModelFile>, n: nat)
    requires 0 < n <= |files|
    ensures existing + FilePathSet(modelsDir, files[..n])
            == (existing + {FilePath(modelsDir, files[0])}) + FilePathSet(modelsDir, files[1..][..n - 1])
  {
    assert files[..n][1..] == files[1..][..n - 1];
    Tail(modelsDir, files[..n]);
  }

  /** One step of FirstFailureAborts: a run of the rest that stops at file
      i - 1 makes a run of the whole list that stops at file i, whether
      the first file was present or fetched. */
  lemma FirstFailureStep(existing: set<string>, modelsDir: string, files: seq<ModelFile>,
                         fetch: (string, string) -> FetchOutcome, i: nat)
    requires 0 < i < |files|
    requires forall j :: 0 <= j < |files[1..]| ==> FilePath(modelsDir, files[1..][j]) != FilePath(modelsDir, files[0])
    requires FilePath(modelsDir, files[0]) in existing || fetch(files[0].url, FilePath(modelsDir, files[0])) == Fetched
    requires var next := existing + {FilePath(modelsDir, files[0])};
             StoppedAt(next, modelsDir, files[1..], fetch, i - 1, DownloadFiles(next, modelsDir, files[1..], fetch))
    ensures StoppedAt(existing, modelsDir, files, fetch, i, DownloadFiles(existing, modelsDir, files, fetch))
  {
    assert files[i] == files[1..][i - 1];
    DownloadPassesFirst(existing, modelsDir, files, fetch);
    MissingRequestsPrefix(existing, modelsDir, files, i);
    FilePathSetPrefix(existing, modelsDir, files, i);
  }

  /** The first failure aborts the download, as StoppedAt describes. */
  lemma {:induction false} FirstFailureAborts(existing: set<string>, modelsDir: string, files: seq<ModelFile>,
                                             fetch: (string, string) -> FetchOutcome, i: nat)
    requires DistinctDests(modelsDir, files) && FirstFailureAt(existing, modelsDir, files, fetch, i)
    ensures StoppedAt(existing, modelsDir, files, fetch, i, DownloadFiles(existing, modelsDir, files, fetch))
    decreases i
  {
    if i == 0 {
      assert files[..1] == [files[0]] && files[..1][1..] == [];
      assert FilePathSet(modelsDir, files[..0]) == {};
      DownloadStep(existing, modelsDir, files, fetch);
    } else {
      var dest := FilePath(modelsDir, files[0]);
      DistinctTail(modelsDir, files);
      assert forall j :: 0 <= j < |files[1..]| ==> files[1..][j] == files[j + 1];
      assert FirstFailureAt(existing + {dest}, modelsDir, files[1..], fetch, i - 1);
      FirstFailureAborts(existing + {dest}, modelsDir, files[1..], fetch, i - 1);
      FirstFailureStep(existing, modelsDir, files, fetch, i);
    }
  }

  /** With distinct destinations, every failed run has a first failure,
      so FirstFailureAborts describes it. */
  lemma {:induction false} FailedRunHasFirstFailure(existing: set<string>, modelsDir: string, files: seq<ModelFile>,
                                                   fetch: (string, string) -> FetchOutcome)
    requires DistinctDests(modelsDir, files)
    requires DownloadFiles(existing, modelsDir, files, fetch).outcome.Failed?
    ensures exists i: nat :: FirstFailureAt(existing, modelsDir, files, fetch, i)
    decreases |files|
  {
    var dest := FilePath(modelsDir, files[0]);
    var tail := files[1..];
    DistinctTail(modelsDir, files);
    assert forall j :: 0 <= j < |tail| ==> tail[j] == files[j + 1];
    if dest in existing {
      FailedRunHasFirstFailure(existing, modelsDir, tail, fetch);
      var k: nat :| FirstFailureAt(existing, modelsDir, tail, fetch, k);
      assert FirstFailureAt(existing, modelsDir, files, fetch, k + 1);
    } else if fetch(files[0].url, dest).Fetched? {
      FailedRunHasFirstFailure(existing + {dest}, modelsDir, tail, fetch);
      var k: nat :| FirstFailureAt(existing + {dest}, modelsDir, tail, fetch, k);
      assert FirstFailureAt(existing, modelsDir, files, fetch, k + 1);
    } else {
      assert FirstFailureAt(existing, modelsDir, files, fetch, 0);
    }
  }

  /** How the files after the first relate to the whole list. */
  lemma Tail(modelsDir: string, files: seq<ModelFile>)
    requires |files| > 0
    ensures FilePathSet(modelsDir, files) == {FilePath(modelsDir, files[0])} + FilePathSet(modelsDir, files[1..])
    ensures forall i :: 1 <= i < |files| ==> files[i] == files[1..][i - 1]
  {
    assert forall i :: 1 <= i < |files| ==> files[i] == files[1..][i - 1];
    forall p | p in FilePathSet(modelsDir, files)
      ensures p in {FilePath(modelsDir, files[0])} + FilePathSet(modelsDir, files[1..])
    {
      var i :| 0 <= i < |files| && p == FilePath(modelsDir, files[i]);
      if i > 0 {
        assert p == FilePath(modelsDir, files[1..][i - 1]);
      }
    }
  }

  /** download_model: an unknown id is an error and changes nothing;
      otherwise the model's files are fetched as FetchFiles does. */
  method DownloadModel(disk: FileSystem, modelsDir: string, id: string, fetch: (string, string) -> FetchOutcome)
    returns (r: Outcome, ghost fetched: seq<FetchRequest>)
    modifies disk
    ensures ModelById(id).None? ==> r == Failed(NotFound(id)) && disk.paths == old(disk.paths) && fetched == []
    ensures ModelById(id).Some? ==>
              DownloadRun(r, disk.paths, fetched) == DownloadFiles(old(disk.paths), modelsDir, ModelById(id).value.files, fetch)
  {
    var found := ModelById(id);
    if found.None? {
      return Failed(NotFound(id)), [];
    }
    r, fetched := FetchFiles(disk, modelsDir, found.value.files, fetch);
  }

  /** The loop of download_model: the files are visited in order, present
      ones are skipped, missing ones fetched, and the first failed fetch
      aborts with its message. The disk ends as DownloadFiles says. */
  method FetchFiles(disk: FileSystem, modelsDir: string, files: seq<ModelFile>, fetch: (string, string) -> FetchOutcome)
    returns (r: Outcome, ghost fetched: seq<FetchRequest>)
    modifies disk
    ensures DownloadRun(r, disk.paths, fetched) == DownloadFiles(old(disk.paths), modelsDir, files, fetch)
  {
    fetched := [];
    for i := 0 to |files|
      invariant var rest := DownloadFiles(disk.paths, modelsDir, files[i..], fetch);
                DownloadFiles(old(disk.paths), modelsDir, files, fetch) == rest.(fetched := fetched + rest.fetched)
    {
      DownloadStep(disk.paths, modelsDir, files[i..], fetch);
      assert files[i..][1..] == files[i + 1..];
      var dest := FilePath(modelsDir, files[i]);
      if dest in disk.paths {
        continue;
      }
      fetched := fetched + [FetchRequest(files[i].url, dest)];
      match fetch(files[i].url, dest)
      case Fetched =>
        disk.paths := disk.paths + {dest};
      case FetchFailed(message, leftBehind) =>
        if leftBehind {
          disk.paths := disk.paths + {dest};
        }
        return Failed(message), fetched;
    }
    return Done, fetched;
  }

  /** One step of DownloadFiles, as the loop of DownloadModel takes it. */
  lemma DownloadStep(existing: set<string>, modelsDir: string, files: seq<ModelFile>,
                     fetch: (string, string) -> FetchOutcome)
    requires |files| > 0
    ensures var dest := FilePath(modelsDir, files[0]);
            DownloadFiles(existing, modelsDir, files, fetch)
            == if dest in existing then DownloadFiles(existing, modelsDir, files[1..], fetch)
               else match fetch(files[0].url, dest)
                    case Fetched =>
                      var rest := DownloadFiles(existing + {dest}, modelsDir, files[1..], fetch);
                      rest.(fetched := [FetchRequest(files[0].url, dest)] + rest.fetched)
                    case FetchFailed(message, leftBehind) =>
                      DownloadRun(Failed(message), if leftBehind then existing + {dest} else existing,
                                  [FetchRequest(files[0].url, dest)])
  {
  }

  /** A completed download leaves the model downloaded. */
  lemma DownloadedAfterSuccess(existing: set<string>, modelsDir: string, id: string,
                               fetch: (string, string) -> FetchOutcome)
    requires ModelById(id).Some?
    requires DownloadFiles(existing, modelsDir, ModelById(id).value.files, fetch).outcome.Done?
    ensures IsModelDownloaded(DownloadFiles(existing, modelsDir, ModelById(id).value.files, fetch).paths,
                              modelsDir, id) == Ok(true)
  {
    DownloadFilesBounds(existing, modelsDir, ModelById(id).value.files, fetch);
  }

  /** A model whose files are all present is left alone: nothing is
      fetched and the download succeeds. */
  lemma DownloadOfDownloadedModel(existing: set<string>, modelsDir: string, files: seq<ModelFile>,
                                  fetch: (string, string) -> FetchOutcome)
    requires forall i :: 0 <= i < |files| ==> FilePath(modelsDir, files[i]) in existing
    ensures DownloadFiles(existing, modelsDir, files, fetch) == DownloadRun(Done, existing, [])
    decreases |files|
  {
    if |files| > 0 {
      assert forall i :: 1 <= i < |files| ==> files[i] == files[1..][i - 1];
      DownloadOfDownloadedModel(existing, modelsDir, files[1..], fetch);
    }
  }

  /** The file a failed fetch leaves behind is taken for a finished one:
      a retry skips it and the status reports the model as downloaded. */
  lemma PartialFileCountsAsDownloaded(existing: set<string>, modelsDir: string, id: string,
                                      fetch: (string, string) -> FetchOutcome, message: string)
    requires ModelById(id).Some? && |ModelById(id).value.files| == 1
    requires var f := ModelById(id).value.files[0];
             FilePath(modelsDir, f) !in existing && fetch(f.url, FilePath(modelsDir, f)) == FetchFailed(message, true)
    ensures var run := DownloadFiles(existing, modelsDir, ModelById(id).value.files, fetch);
            && run.outcome == Failed(message)
            && IsModelDownloaded(run.paths, modelsDir, id) == Ok(true)
  {
    var files := ModelById(id).value.files;
    DownloadStep(existing, modelsDir, files, fetch);
  }

  /** A downloader that removes what it wrote when a fetch fails. */
  ghost predicate CleansUp(fetch: (string, string) -> FetchOutcome) {
    forall url, dest :: fetch(url, dest).FetchFailed? ==> !fetch(url, dest).leftBehind
  }

  /** With a downloader that cleans up, a failed run leaves some file of
      the list missing. */
  lemma {:induction false} CleanFailureLeavesFileMissing(existing: set<string>, modelsDir: string, files: seq<ModelFile>,
                                                        fetch: (string, string) -> FetchOutcome)
    requires CleansUp(fetch)
    requires DownloadFiles(existing, modelsDir, files, fetch).outcome.Failed?
    ensures exists i :: 0 <= i < |files| && FilePath(modelsDir, files[i]) !in DownloadFiles(existing, modelsDir, files, fetch).paths
    decreases |files|
  {
    var dest := FilePath(modelsDir, files[0]);
    var run := DownloadFiles(existing, modelsDir, files, fetch);
    assert forall i :: 1 <= i < |files| ==> files[i] == files[1..][i - 1];
    if dest in existing {
      CleanFailureLeavesFileMissing(existing, modelsDir, files[1..], fetch);
      var i :| 0 <= i < |files| - 1 && FilePath(modelsDir, files[1..][i]) !in run.paths;
      assert FilePath(modelsDir, files[i + 1]) !in run.paths;
    } else if fetch(files[0].url, dest).Fetched? {
      CleanFailureLeavesFileMissing(existing + {dest}, modelsDir, files[1..], fetch);
      var i :| 0 <= i < |files| - 1 && FilePath(modelsDir, files[1..][i]) !in run.paths;
      assert FilePath(modelsDir, files[i + 1]) !in run.paths;
    } else {
      assert FilePath(modelsDir, files[0]) !in run.paths;
    }
  }

  /** The intended behaviour: with a downloader that cleans up, a failed
      download never reports the model as downloaded. */
  lemma CleanFailureNotDownloaded(existing: set<string>, modelsDir: string, id: string,
                                  fetch: (string, string) -> FetchOutcome)
    requires ModelById(id).Some? && CleansUp(fetch)
    requires DownloadFiles(existing, modelsDir, ModelById(id).value.files, fetch).outcome.Failed?
    ensures IsModelDownloaded(DownloadFiles(existing, modelsDir, ModelById(id).value.files, fetch).paths,
                              modelsDir, id) == Ok(false)
  {
    CleanFailureLeavesFileMissing(existing, modelsDir, ModelById(id).value.files, fetch);
  }

  // ---------------------------------------------------------------------
  // check_first_time_setup
  // ---------------------------------------------------------------------

  /** check_first_time_setup: setup is needed exactly when the default
      model's weight file, u2net.onnx, is missing. */
  function CheckFirstTimeSetup(existing: set<string>, modelsDir: string): (r: Result<bool>)
    ensures r == Ok(Paths.Join(modelsDir, "u2net.onnx") !in existing)
  {
    match IsModelDownloaded(existing, modelsDir, DefaultModel().id)
    case Err(e) => Err(e)
    case Ok(downloaded) => Ok(!downloaded)
  }

  /** After the default model has been downloaded, no setup is needed. */
  lemma NoSetupAfterDefaultDownload(existing: set<string>, modelsDir: string, fetch: (string, string) -> FetchOutcome)
    requires DownloadFiles(existing, modelsDir, DefaultModel().files, fetch).outcome.Done?
    ensures CheckFirstTimeSetup(DownloadFiles(existing, modelsDir, DefaultModel().files, fetch).paths, modelsDir) == Ok(false)
  {
    DownloadFilesBounds(existing, modelsDir, DefaultModel().files, fetch);
  }
}
