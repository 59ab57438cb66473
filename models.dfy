/** The model catalogue and the rules that decide whether a model's weight
    files are on disk (src-tauri/src/models.rs). The filesystem is the set
    of paths that exist; the models directory is a parameter. */
module Models {
  import opened Common
  import Paths

  datatype ModelFile = ModelFile(name: string, url: string, sizeMb: nat)

  datatype ModelInfo = ModelInfo(
    id: string,
    name: string,
    description: string,
    files: seq<ModelFile>,
    isDefault: bool)

  datatype ModelStatus = ModelStatus(model: ModelInfo, downloaded: bool, filePaths: seq<string>)

  const ReleaseBase: string := "https://github.com/danielgatis/rembg/releases/download/v0.0.0/"

  /** Number of entries in the catalogue of get_all_models. */
  const CatalogueSize: nat := 15

  /* The catalogue of get_all_models is kept column by column: the id, the
     display name, the description and the weight files of entry k, in the
     source's order. Entry(k) puts row k back together. */

  /** The id of catalogue entry k. */
  function Id(k: nat): string
    requires k < CatalogueSize
  {
    match k
    case 0 => "u2net"
    case 1 => "u2netp"
    case 2 => "u2net_human_seg"
    case 3 => "u2net_cloth_seg"
    case 4 => "silueta"
    case 5 => "isnet-general-use"
    case 6 => "isnet-anime"
    case 7 => "sam"
    case 8 => "birefnet-general"
    case 9 => "birefnet-general-lite"
    case 10 => "birefnet-portrait"
    case 11 => "birefnet-dis"
    case 12 => "birefnet-hrsod"
    case 13 => "birefnet-cod"
    case _ => "birefnet-massive"
  }

  /** The display name of catalogue entry k. */
  function Title(k: nat): string
    requires k < CatalogueSize
  {
    match k
    case 0 => "U2Net"
    case 1 => "U2Net-P"
    case 2 => "U2Net Human Seg"
    case 3 => "U2Net Cloth Seg"
    case 4 => "Silueta"
    case 5 => "ISNet General"
    case 6 => "ISNet Anime"
    case 7 => "SAM"
    case 8 => "BiRefNet General"
    case 9 => "BiRefNet General Lite"
    case 10 => "BiRefNet Portrait"
    case 11 => "BiRefNet DIS"
    case 12 => "BiRefNet HRSOD"
    case 13 => "BiRefNet COD"
    case _ => "BiRefNet Massive"
  }

  /** The description of catalogue entry k. */
  function Description(k: nat): string
    requires k < CatalogueSize
  {
    match k
    case 0 => "A pre-trained model for general use cases."
    case 1 => "A lightweight version of u2net model."
    case 2 => "A pre-trained model for human segmentation."
    case 3 => "A pre-trained model for cloth parsing (Upper body, Lower body, Full body)."
    case 4 => "Same as u2net but reduced to 43MB."
    case 5 => "A new pre-trained model for general use cases."
    case 6 => "High-accuracy segmentation for anime characters."
    case 7 => "Segment Anything Model for any use cases."
    case 8 => "A pre-trained model for general use cases."
    case 9 => "A light pre-trained model for general use cases."
    case 10 => "A pre-trained model for human portraits."
    case 11 => "A pre-trained model for dichotomous image segmentation (DIS)."
    case 12 => "A pre-trained model for high-resolution salient object detection (HRSOD)."
    case 13 => "A pre-trained model for concealed object detection (COD)."
    case _ => "A pre-trained model with massive dataset."
  }

  /** A weight file published in the rembg release under the name `remote`
      and stored locally as `name`. */
  function Weights(name: string, remote: string, sizeMb: nat): ModelFile {
    ModelFile(name, ReleaseBase + remote, sizeMb)
  }

  /** The weight files of catalogue entry k. */
  function Files(k: nat): seq<ModelFile>
    requires k < CatalogueSize
  {
    match k
    case 0 => [Weights("u2net.onnx", "u2net.onnx", 176)]
    case 1 => [Weights("u2netp.onnx", "u2netp.onnx", 4)]
    case 2 => [Weights("u2net_human_seg.onnx", "u2net_human_seg.onnx", 176)]
    case 3 => [Weights("u2net_cloth_seg.onnx", "u2net_cloth_seg.onnx", 176)]
    case 4 => [Weights("silueta.onnx", "silueta.onnx", 43)]
    case 5 => [Weights("isnet-general-use.onnx", "isnet-general-use.onnx", 176)]
    case 6 => [Weights("isnet-anime.onnx", "isnet-anime.onnx", 176)]
    case 7 => [ Weights("sam_vit_b_01ec64-encoder.onnx", "vit_b-encoder-quant.onnx", 180),
                Weights("sam_vit_b_01ec64-decoder.onnx", "vit_b-decoder-quant.onnx", 16) ]
    case 8 => [Weights("BiRefNet-general-epoch_244.onnx", "BiRefNet-general-epoch_244.onnx", 223)]
    case 9 => [Weights("BiRefNet-general-bb_swin_v1_tiny-epoch_232.onnx",
                       "BiRefNet-general-bb_swin_v1_tiny-epoch_232.onnx", 130)]
    case 10 => [Weights("BiRefNet-portrait-epoch_150.onnx", "BiRefNet-portrait-epoch_150.onnx", 223)]
    case 11 => [Weights("BiRefNet-DIS-epoch_590.onnx", "BiRefNet-DIS-epoch_590.onnx", 223)]
    case 12 => [Weights("BiRefNet-HRSOD_DHU-epoch_115.onnx", "BiRefNet-HRSOD_DHU-epoch_115.onnx", 223)]
    case 13 => [Weights("BiRefNet-COD-epoch_125.onnx", "BiRefNet-COD-epoch_125.onnx", 223)]
    case _ => [Weights("BiRefNet-massive-epoch_240.onnx", "BiRefNet-massive-epoch_240.onnx", 223)]
  }

  /** Catalogue entry k; only the first entry, u2net, is flagged as default. */
  function Entry(k: nat): ModelInfo
    requires k < CatalogueSize
  {
    ModelInfo(Id(k), Title(k), Description(k), Files(k), k == 0)
  }

  /** get_all_models: the fixed catalogue, in display order. */
  function AllModels(): (ms: seq<ModelInfo>)
    ensures |ms| == CatalogueSize
    ensures forall k :: 0 <= k < CatalogueSize ==> ms[k] == Entry(k)
  {
    seq(CatalogueSize, k requires 0 <= k < CatalogueSize => Entry(k))
  }

  /** No two catalogue entries share an id. */
  lemma CatalogueIdsDistinct()
    ensures forall i, j :: 0 <= i < j < |AllModels()| ==> AllModels()[i].id != AllModels()[j].id
  {
    assert forall i, j :: 0 <= i < j < CatalogueSize ==> Id(i) != Id(j);
  }

  /** Every catalogue entry has at least one weight file. */
  lemma CatalogueFilesNonEmpty()
    ensures forall k :: 0 <= k < |AllModels()| ==> |AllModels()[k].files| >= 1
  {
    assert forall k :: 0 <= k < CatalogueSize ==> |Files(k)| >= 1;
  }

  /** Exactly one catalogue entry is the default: the first, u2net. */
  lemma CatalogueSingleDefault()
    ensures forall k :: 0 <= k < |AllModels()| ==> (AllModels()[k].isDefault <==> k == 0)
    ensures AllModels()[0].id == "u2net"
  {
  }

  /** get_default_model: the first entry flagged as default, that is u2net
      with its one 176 MB weight file (so the source's expect cannot fire). */
  function DefaultModel(): (m: ModelInfo)
    ensures m == AllModels()[0] && m.isDefault
    ensures m.id == "u2net" && m.files == [ModelFile("u2net.onnx", ReleaseBase + "u2net.onnx", 176)]
  {
    var ms := AllModels();
    assert ms[0].isDefault;
    Find(ms, (m: ModelInfo) => m.isDefault).value
  }

  /** The catalogue position of the model with this id, if any. */
  function IndexOfId(id: string): (r: Option<nat>)
    ensures r.None? <==> forall i :: 0 <= i < |AllModels()| ==> AllModels()[i].id != id
    ensures r.Some? ==> r.value < |AllModels()| && AllModels()[r.value].id == id
  {
    FirstIndex(AllModels(), (m: ModelInfo) => m.id == id)
  }

  /** get_model_by_id: the catalogue entry with this id, or None when no
      entry has it. */
  function ModelById(id: string): (r: Option<ModelInfo>)
    ensures r.None? <==> forall i :: 0 <= i < |AllModels()| ==> AllModels()[i].id != id
    ensures r.Some? ==> IndexOfId(id).Some? && r.value == AllModels()[IndexOfId(id).value]
    ensures r.Some? ==> r.value.id == id
  {
    Find(AllModels(), (m: ModelInfo) => m.id == id)
  }

  /** Looking up the id of any catalogue entry finds that very entry: as ids
      are distinct, the first match is the only one. */
  lemma ModelByIdFindsEntry(k: nat)
    requires k < |AllModels()|
    ensures ModelById(AllModels()[k].id) == Some(AllModels()[k])
  {
    var id := AllModels()[k].id;
    CatalogueIdsDistinct();
    assert IndexOfId(id).Some?;
    var i := IndexOfId(id).value;
    assert forall j :: 0 <= j < k ==> AllModels()[j].id != id;
    assert i == k;
  }

  /** Every model found by id has a weight file to check. */
  lemma ModelByIdHasFiles(id: string)
    requires ModelById(id).Some?
    ensures |ModelById(id).value.files| >= 1
  {
    CatalogueFilesNonEmpty();
  }

  /** The path at which a weight file is kept. */
  function FilePath(modelsDir: string, f: ModelFile): string {
    Paths.Join(modelsDir, f.name)
  }

  /** The for-loop of is_model_downloaded: false at the first file that does
      not exist, true when every file does. */
  function FilesPresent(existing: set<string>, modelsDir: string, files: seq<ModelFile>): (b: bool)
    ensures b <==> forall i :: 0 <= i < |files| ==> FilePath(modelsDir, files[i]) in existing
  {
    if |files| == 0 then true
    else if FilePath(modelsDir, files[0]) !in existing then false
    else
      var b := FilesPresent(existing, modelsDir, files[1..]);
      assert forall i :: 1 <= i < |files| ==> files[i] == files[1..][i - 1];
      b
  }

  function NotFound(id: string): string {
    "Model not found: " + id
  }

  /** is_model_downloaded: an unknown id is an error; a known model is
      downloaded exactly when every one of its files exists. */
  function IsModelDownloaded(existing: set<string>, modelsDir: string, id: string): (r: Result<bool>)
    ensures ModelById(id).None? ==> r == Err(NotFound(id))
    ensures ModelById(id).Some? ==>
              && r.Ok?
              && (r.value <==> forall i :: 0 <= i < |ModelById(id).value.files| ==>
                                 FilePath(modelsDir, ModelById(id).value.files[i]) in existing)
  {
    match ModelById(id)
    case None => Err(NotFound(id))
    case Some(model) => Ok(FilesPresent(existing, modelsDir, model.files))
  }

  /** The file_paths of a status: each file joined onto the models directory. */
  function FilePaths(modelsDir: string, files: seq<ModelFile>): (ps: seq<string>)
    ensures |ps| == |files|
    ensures forall i :: 0 <= i < |files| ==> ps[i] == FilePath(modelsDir, files[i])
  {
    seq(|files|, i requires 0 <= i < |files| => FilePath(modelsDir, files[i]))
  }

  /** get_model_status: the model, whether it is downloaded, and one path per
      file in file order. */
  function GetModelStatus(existing: set<string>, modelsDir: string, id: string): (r: Result<ModelStatus>)
    ensures ModelById(id).None? ==> r == Err(NotFound(id))
    ensures ModelById(id).Some? ==> r.Ok? && r.value.model == ModelById(id).value
    ensures r.Ok? ==> IsModelDownloaded(existing, modelsDir, id) == Ok(r.value.downloaded)
    ensures r.Ok? ==>
              && |r.value.filePaths| == |r.value.model.files|
              && forall i :: 0 <= i < |r.value.filePaths| ==>
                   r.value.filePaths[i] == FilePath(modelsDir, r.value.model.files[i])
  {
    match ModelById(id)
    case None => Err(NotFound(id))
    case Some(model) =>
      match IsModelDownloaded(existing, modelsDir, id)
      case Err(e) => Err(e)
      case Ok(downloaded) => Ok(ModelStatus(model, downloaded, FilePaths(modelsDir, model.files)))
  }

  /** A status is consistent with itself: downloaded holds exactly when
      every listed path exists. */
  lemma StatusDownloadedIffPathsExist(existing: set<string>, modelsDir: string, id: string)
    requires GetModelStatus(existing, modelsDir, id).Ok?
    ensures var s := GetModelStatus(existing, modelsDir, id).value;
            s.downloaded <==> forall i :: 0 <= i < |s.filePaths| ==> s.filePaths[i] in existing
  {
  }
}
