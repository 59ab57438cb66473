/** The desktop front end of src/App.tsx: the component's state fields and
    the handlers that change them. Each backend command the handlers invoke
    is a function parameter whose value is the command's reply; progress
    events, alerts and rendering are not modelled. */
module AppState {
  import opened Common
  import Paths
  import opened Models
  import Commands

  /** A download-progress event, without its floating-point percentage. */
  datatype DownloadProgress = DownloadProgress(modelId: string, fileName: string, downloaded: nat, total: nat)

  /** The eleven `useState` slots of the component, as one value. */
  datatype UiState = UiState(
    models: seq<ModelInfo>,
    selectedModelId: string,
    modelStatuses: map<string, ModelStatus>,
    selectedImages: seq<string>,
    processing: bool,
    downloading: bool,
    downloadProgress: Option<DownloadProgress>,
    processingProgress: Option<Commands.ProcessingProgress>,
    results: seq<Commands.ProcessImageResult>,
    isDragging: bool,
    showFirstTimeSetup: bool)

  /** The initial value of every slot. */
  const Initial: UiState := UiState([], "", map[], [], false, false, None, None, [], false, false)

  /** What the file dialog hands back: null, one path, several paths, or
      a thrown error. */
  datatype DialogResult = Cancelled | Single(path: string) | Many(paths: seq<string>) | DialogFailed

  /** A dropped file: its MIME type and its path on disk. */
  datatype DroppedFile = DroppedFile(mimeType: string, path: string)

  // ---------------------------------------------------------------------
  // Pure helpers
  // ---------------------------------------------------------------------

  /** The map refreshModelStatuses builds: models are asked in list order
      and each successful reply is stored under the model's id. */
  function StatusMap(modelList: seq<ModelInfo>, statusOf: string -> Result<ModelStatus>): (m: map<string, ModelStatus>)
    ensures forall id :: id in m <==> statusOf(id).Ok? && exists i :: 0 <= i < |modelList| && modelList[i].id == id
    ensures forall id :: id in m ==> m[id] == statusOf(id).value
    decreases |modelList|
  {
    if modelList == [] then map[]
    else
      var front := modelList[..|modelList| - 1];
      var last := modelList[|modelList| - 1];
      var m := StatusMap(front, statusOf);
      assert forall i :: 0 <= i < |front| ==> front[i] == modelList[i];
      match statusOf(last.id)
      case Ok(status) => m[last.id := status]
      case Err(_) => m
  }

  /** The guards of processImages: a selection, and a status for the
      selected model that says it is downloaded. */
  predicate ReadyToProcess(s: UiState) {
    && |s.selectedImages| > 0
    && s.selectedModelId in s.modelStatuses
    && s.modelStatuses[s.selectedModelId].downloaded
  }

  /** The `disabled` attribute of the "Remove Background" button. */
  predicate RemoveDisabled(s: UiState) {
    || s.processing
    || s.downloading
    || !(s.selectedModelId in s.modelStatuses && s.modelStatuses[s.selectedModelId].downloaded)
  }

  /** The button is shown only with a selection; there it is enabled
      exactly when processImages would pass its guards and nothing is
      being processed or downloaded. */
  lemma EnabledIffReady(s: UiState)
    requires |s.selectedImages| > 0
    ensures !RemoveDisabled(s) <==> ReadyToProcess(s) && !s.processing && !s.downloading
  {
  }

  /** The displayed size: the `reduce` over the files, from the left. */
  function TotalSizeMb(files: seq<ModelFile>): nat
    decreases |files|
  {
    if files == [] then 0 else TotalSizeMb(files[..|files| - 1]) + files[|files| - 1].sizeMb
  }

  /** The size of a concatenation is the sum of the sizes. */
  lemma {:induction false} TotalSizeAppend(a: seq<ModelFile>, b: seq<ModelFile>)
    ensures TotalSizeMb(a + b) == TotalSizeMb(a) + TotalSizeMb(b)
    decreases |b|
  {
    if b != [] {
      assert (a + b)[..|a + b| - 1] == a + b[..|b| - 1];
      TotalSizeAppend(a, b[..|b| - 1]);
    } else {
      assert a + b == a;
    }
  }

  /** The default model is displayed as 176 MB, the size the first-run
      dialog announces. */
  lemma DefaultModelSize()
    ensures TotalSizeMb(DefaultModel().files) == 176
  {
    var files := DefaultModel().files;
    assert files[..0] == [];
  }

  predicate IsSeparator(c: char) {
    c == '/' || c == '\\'
  }

  /** The last separator among the first n characters of p, or -1. */
  function LastSeparator(p: string, n: nat): (k: int)
    requires n <= |p|
    ensures -1 <= k < n
    ensures k >= 0 ==> IsSeparator(p[k])
    ensures forall i :: k < i < n ==> !IsSeparator(p[i])
  {
    if n == 0 then -1
    else if IsSeparator(p[n - 1]) then n - 1
    else LastSeparator(p, n - 1)
  }

  /** `path.split(/[\\/]/).pop()`: the longest suffix of the path without
      a forward or backward slash. */
  function Basename(p: string): (b: string)
    ensures |b| <= |p| && b == p[|p| - |b|..]
    ensures forall i :: 0 <= i < |b| ==> !IsSeparator(b[i])
    ensures |b| < |p| ==> IsSeparator(p[|p| - |b| - 1])
  {
    p[LastSeparator(p, |p|) + 1..]
  }

  /** Without backslashes the two separator searches agree. */
  lemma {:induction false} LastSeparatorIsLastSlash(p: string, n: nat)
    requires n <= |p|
    requires forall i :: 0 <= i < |p| ==> p[i] != '\\'
    ensures LastSeparator(p, n) == Paths.LastIndexBefore(p, Paths.Separator, n)
  {
    if n > 0 && !IsSeparator(p[n - 1]) {
      LastSeparatorIsLastSlash(p, n - 1);
    }
  }

  /** On a path without backslashes the displayed name is the backend's
      file name. */
  lemma BasenameIsFileName(p: string)
    requires forall i :: 0 <= i < |p| ==> p[i] != '\\'
    requires Paths.FileName(p).Some?
    ensures Basename(p) == Paths.FileName(p).value
  {
    LastSeparatorIsLastSlash(p, |p|);
  }

  /** A result is listed under the name the backend gave its output. */
  lemma ResultShownByOutputName(input: string, outputDir: Option<string>)
    requires Commands.OutputPath(input, outputDir).Ok?
    requires var out := Commands.OutputPath(input, outputDir).value;
             forall i :: 0 <= i < |out| ==> out[i] != '\\'
    ensures Basename(Commands.OutputPath(input, outputDir).value)
            == Paths.FileStem(input).value + Commands.OutputSuffix
  {
    Commands.OutputFileName(input, outputDir);
    BasenameIsFileName(Commands.OutputPath(input, outputDir).value);
  }

  function IsImage(f: DroppedFile): bool {
    "image/" <= f.mimeType
  }

  /** The filter and map of handleDrop: the paths of the image files, in
      drop order. */
  function ImagePaths(files: seq<DroppedFile>): (ps: seq<string>)
    ensures |ps| <= |files|
    ensures ps == [] <==> forall i :: 0 <= i < |files| ==> !IsImage(files[i])
    ensures forall p :: p in ps <==> exists i :: 0 <= i < |files| && IsImage(files[i]) && files[i].path == p
    decreases |files|
  {
    if files == [] then []
    else
      var rest := ImagePaths(files[1..]);
      assert forall i :: 1 <= i < |files| ==> files[i] == files[1..][i - 1];
      if IsImage(files[0]) then [files[0].path] + rest else rest
  }

  /** Filtering keeps the order: the paths of two batches are the paths of
      the first followed by those of the second. */
  lemma {:induction false} ImagePathsAppend(a: seq<DroppedFile>, b: seq<DroppedFile>)
    ensures ImagePaths(a + b) == ImagePaths(a) + ImagePaths(b)
    decreases |a|
  {
    if a != [] {
      assert (a + b)[1..] == a[1..] + b;
      ImagePathsAppend(a[1..], b);
    } else {
      assert a + b == b;
    }
  }

  // ---------------------------------------------------------------------
  // The component
  // ---------------------------------------------------------------------

  class App {
    var models: seq<ModelInfo>
    var selectedModelId: string
    var modelStatuses: map<string, ModelStatus>
    var selectedImages: seq<string>
    var processing: bool
    var downloading: bool
    var downloadProgress: Option<DownloadProgress>
    var processingProgress: Option<Commands.ProcessingProgress>
    var results: seq<Commands.ProcessImageResult>
    var isDragging: bool
    var showFirstTimeSetup: bool

    /** All slots as one value. */
    function State(): UiState
      reads this
    {
      UiState(models, selectedModelId, modelStatuses, selectedImages, processing, downloading,
              downloadProgress, processingProgress, results, isDragging, showFirstTimeSetup)
    }

    constructor ()
      ensures State() == Initial
    {
      models := [];
      selectedModelId := "";
      modelStatuses := map[];
      selectedImages := [];
      processing := false;
      downloading := false;
      downloadProgress := None;
      processingProgress := None;
      results := [];
      isDragging := false;
      showFirstTimeSetup := false;
    }

    /** initializeApp, given the replies of check_first_time_setup,
      get_all_models and get_default_model: a failing first-run check ends
      it before anything is set; otherwise the dialog flag, the model list,
      the default selection and the statuses are loaded in that order. */
    method InitializeApp(needsSetup: Result<bool>, allModels: seq<ModelInfo>, defaultModel: ModelInfo,
                         statusOf: string -> Result<ModelStatus>)
      modifies this
      ensures needsSetup.Err? ==> State() == old(State())
      ensures needsSetup.Ok? ==>
                State() == old(State()).(showFirstTimeSetup := needsSetup.value, models := allModels,
                                         selectedModelId := defaultModel.id,
                                         modelStatuses := StatusMap(allModels, statusOf))
    {
      if needsSetup.Err? {
        return;
      }
      showFirstTimeSetup := needsSetup.value;
      models := allModels;
      selectedModelId := defaultModel.id;
      RefreshModelStatuses(models, statusOf);
    }

    /** refreshModelStatuses: asks for each model's status in turn,
      skips the ones that fail, and stores the map at the end. */
    method RefreshModelStatuses(modelList: seq<ModelInfo>, statusOf: string -> Result<ModelStatus>)
      modifies this
      ensures State() == old(State()).(modelStatuses := StatusMap(modelList, statusOf))
    {
      var statusMap: map<string, ModelStatus> := map[];
      for i := 0 to |modelList|
        invariant statusMap == StatusMap(modelList[..i], statusOf)
      {
        assert modelList[..i + 1][..i] == modelList[..i];
        var status := statusOf(modelList[i].id);
        if status.Ok? {
          statusMap := statusMap[modelList[i].id := status.value];
        }
      }
      assert modelList[..|modelList|] == modelList;
      modelStatuses := statusMap;
    }

    /** downloadModel: the statuses are refreshed only after a successful
      download, and both download slots are reset whatever the outcome. */
    method DownloadModel(modelId: string, download: string -> Commands.Outcome,
                         statusOf: string -> Result<ModelStatus>)
      modifies this
      ensures !downloading && downloadProgress.None?
      ensures State() == old(State()).(downloading := false, downloadProgress := None,
                                       modelStatuses := if download(modelId).Done? then StatusMap(old(models), statusOf)
                                                        else old(modelStatuses))
    {
      downloading := true;
      if download(modelId).Done? {
        RefreshModelStatuses(models, statusOf);
      }
      downloading := false;
      downloadProgress := None;
    }

    /** downloadDefaultModel, given the reply of get_default_model: as
      downloadModel for that model; a successful download also closes the
      first-run dialog. */
    method DownloadDefaultModel(defaultModel: ModelInfo, download: string -> Commands.Outcome,
                                statusOf: string -> Result<ModelStatus>)
      modifies this
      ensures !downloading && downloadProgress.None?
      ensures download(defaultModel.id).Done? ==>
                State() == old(State()).(downloading := false, downloadProgress := None, showFirstTimeSetup := false,
                                         modelStatuses := StatusMap(old(models), statusOf))
      ensures download(defaultModel.id).Failed? ==>
                State() == old(State()).(downloading := false, downloadProgress := None)
    {
      downloading := true;
      if download(defaultModel.id).Done? {
        showFirstTimeSetup := false;
        RefreshModelStatuses(models, statusOf);
      }
      downloading := false;
      downloadProgress := None;
    }

    /** selectImages: a null reply, an empty path or a failed dialog change
      nothing; one path becomes a one-element selection, a list becomes
      the selection; any new selection clears the results. */
    method SelectImages(dialog: DialogResult)
      modifies this
      ensures dialog.Cancelled? || dialog.DialogFailed? || dialog == Single("") ==> State() == old(State())
      ensures dialog.Single? && dialog.path != "" ==>
                State() == old(State()).(selectedImages := [dialog.path], results := [])
      ensures dialog.Many? ==> State() == old(State()).(selectedImages := dialog.paths, results := [])
    {
      match dialog
      case Single(path) =>
        if path != "" {
          selectedImages := [path];
          results := [];
        }
      case Many(paths) =>
        selectedImages := paths;
        results := [];
      case _ =>
    }

    /** processImages: returns the request sent to the backend, if any.
      Without a selection or a downloaded selected model nothing is sent
      and nothing changes; otherwise the results become the backend's list,
      or stay cleared when it fails, and both processing slots are reset. */
    method ProcessImages(process: Commands.ProcessImageRequest -> Result<seq<Commands.ProcessImageResult>>)
      returns (request: Option<Commands.ProcessImageRequest>)
      modifies this
      ensures request.Some? <==> ReadyToProcess(old(State()))
      ensures request.None? ==> State() == old(State())
      ensures request.Some? ==>
                && request.value == Commands.ProcessImageRequest(old(selectedImages), old(selectedModelId), None)
                && State() == old(State()).(processing := false, processingProgress := None,
                                            results := match process(request.value)
                                                       case Ok(list) => list
                                                       case Err(_) => [])
    {
      if |selectedImages| == 0 {
        return None;
      }
      if !(selectedModelId in modelStatuses && modelStatuses[selectedModelId].downloaded) {
        return None;
      }
      processing := true;
      results := [];
      var sent := Commands.ProcessImageRequest(selectedImages, selectedModelId, None);
      var reply := process(sent);
      if reply.Ok? {
        results := reply.value;
      }
      processing := false;
      processingProgress := None;
      request := Some(sent);
    }

    /** handleDrop: dropping always ends the drag; the image paths become
      the selection and clear the results when there is at least one. */
    method HandleDrop(files: seq<DroppedFile>)
      modifies this
      ensures !isDragging
      ensures ImagePaths(files) == [] ==> State() == old(State()).(isDragging := false)
      ensures ImagePaths(files) != [] ==>
                State() == old(State()).(isDragging := false, selectedImages := ImagePaths(files), results := [])
    {
      isDragging := false;
      var imagePaths := ImagePaths(files);
      if |imagePaths| > 0 {
        selectedImages := imagePaths;
        results := [];
      }
    }
  }

  /** After the catalogue is loaded against the backend, every catalogue
      model has a status, and it tells whether the model is downloaded. */
  lemma CatalogueStatuses(existing: set<string>, modelsDir: string, k: nat)
    requires k < CatalogueSize
    ensures var id := AllModels()[k].id;
            var m := StatusMap(AllModels(), (i: string) => GetModelStatus(existing, modelsDir, i));
            && id in m
            && m[id].downloaded == IsModelDownloaded(existing, modelsDir, id).value
  {
    var id := AllModels()[k].id;
    ModelByIdFindsEntry(k);
    assert GetModelStatus(existing, modelsDir, id).Ok?;
  }
}
