# rmbg background remover, modelled in Dafny

rmbg is a desktop background remover: a Tauri application whose Rust
backend keeps a catalogue of ONNX segmentation models, downloads their
weight files into a models directory, and cuts images out by turning the
predicted mask into the alpha channel. A React front end drives the
backend. A small static download page points its buttons at the matching
release assets on GitHub.

This project models the parts of that system that decide things:

- the model catalogue and its lookups (`Models`);
- the `process_images`, `download_model` and `check_first_time_setup`
  commands (`Commands`);
- the path rules they rely on (`Paths`);
- the mask compositing of the image processor (`Processor`);
- the download page's asset matching and link updates (`WebDownloads`);
- the application component's state transitions (`AppState`).

The disk is a set of existing paths. The models directory is a parameter.
The weight downloader, the inference engine, the backend commands seen
from the UI, and the fetched release are function or value parameters.
Each such parameter stands for the reply of code that is not modelled.

Files: `common.dfy` (Option, Result, first-match search), `paths.dfy`,
`models.dfy`, `commands.dfy`, `processor.dfy`, `web_downloads.dfy`,
`app_state.dfy`.

## Model

| member | source | states |
|---|---|---|
| Common.FirstIndex | src-tauri/src/models.rs:204-206 | None exactly when no element satisfies the predicate; otherwise an in-range position that satisfies it, with none before it |
| Common.Find | src-tauri/src/models.rs:197-206 | None exactly when nothing matches; otherwise the element at the first matching position |
| Common.FirstIndexAgrees | web/src/main.ts:41-48 | two lists whose elements satisfy two predicates at the same positions give the same first match |
| Paths.LastIndexBefore | src-tauri/src/lib.rs:150-151 | the index found is the last occurrence of the character before the bound, or -1 when there is none |
| Paths.Join | src-tauri/src/lib.rs:163 | joining an absolute name yields the name |
| Paths.JoinEndsWithName | src-tauri/src/lib.rs:163 | a joined path ends with the joined name |
| Paths.FileName | src-tauri/src/lib.rs:150-154 | a file name is never empty, "." or ".." |
| Paths.FileNameIsLastComponent | src-tauri/src/lib.rs:150-154 | the file name has no separator, is a suffix of the path, and is preceded by a separator unless it is the whole path |
| Paths.FileStem | src-tauri/src/lib.rs:160-162 | a stem exists exactly when a file name exists, and is non-empty |
| Paths.FileStemIsPrefix | src-tauri/src/lib.rs:160-162 | the stem is a prefix of the file name; when shorter, a dot follows it and no dot comes after that one; when it is the whole name, no dot follows the name's first character |
| Paths.Parent | src-tauri/src/lib.rs:168-170 | there is no parent exactly for the empty path and the root |
| Paths.ParentIsPrefix | src-tauri/src/lib.rs:168-170 | the parent is a proper prefix of the path |
| Paths.JoinNameInjective | src-tauri/src/lib.rs:62 | joining two relative names onto the same directory gives the same path only when the names are equal |
| Paths.FileNameOfJoin | src-tauri/src/lib.rs:163 | joining a separator-free name that is not "." or ".." gives a path whose file name is that name |
| Paths.ParentOfJoin | src-tauri/src/lib.rs:171 | joining a name onto a directory that does not end in a separator gives a path whose parent is that directory |
| Models.AllModels | src-tauri/src/models.rs:20-195 | the catalogue has fifteen entries, entry k being the k-th model of the source list with its id, name, description, files and default flag |
| Models.CatalogueIdsDistinct | src-tauri/src/models.rs:20-195 | no two catalogue entries share an id |
| Models.CatalogueFilesNonEmpty | src-tauri/src/models.rs:20-195 | every catalogue entry has at least one weight file |
| Models.CatalogueSingleDefault | src-tauri/src/models.rs:31 | exactly one entry, the first, is flagged default, and its id is u2net |
| Models.DefaultModel | src-tauri/src/models.rs:197-202 | the default model is the first catalogue entry, flagged default: u2net with its one 176 MB file u2net.onnx; the `expect` cannot fire |
| Models.IndexOfId | src-tauri/src/models.rs:204-206 | no position exactly when no entry has the id; otherwise a position holding that id |
| Models.ModelById | src-tauri/src/models.rs:204-206 | None exactly when no entry has the id; otherwise the first entry with it, whose id is the one asked for |
| Models.ModelByIdFindsEntry | src-tauri/src/models.rs:204-206 | looking up the id of any catalogue entry returns that very entry |
| Models.ModelByIdHasFiles | src-tauri/src/models.rs:204-206 | every model found by id has at least one file |
| Models.FilesPresent | src-tauri/src/models.rs:227-234 | the loop answers true exactly when every file's path exists |
| Models.IsModelDownloaded | src-tauri/src/models.rs:220-235 | an unknown id gives "Model not found: id"; a known model is downloaded exactly when every `models_dir/file.name` exists |
| Models.FilePaths | src-tauri/src/models.rs:251-255 | one path per file, in file order, each the models directory joined with the file name |
| Models.GetModelStatus | src-tauri/src/models.rs:244-262 | an unknown id gives "Model not found"; otherwise the status holds the looked-up model, `downloaded` agrees with is_model_downloaded, and path i is file i joined onto the directory |
| Models.StatusDownloadedIffPathsExist | src-tauri/src/models.rs:249-261 | a status is downloaded exactly when every path it lists exists |
| Commands.ModelPath | src-tauri/src/lib.rs:120-136 | an unknown model gives "Model not found"; a known one has a first file; the check succeeds exactly when that first file exists, and then yields its path; otherwise it gives the "Model file not found" message |
| Commands.OutputPath | src-tauri/src/lib.rs:158-172 | no stem gives "Invalid input file name"; with a stem, no output directory and no parent gives "Invalid input file path"; the path exists exactly when there is a stem and an output directory or a parent |
| Commands.OutputFileName | src-tauri/src/lib.rs:163-171 | every output's file name is the input's stem followed by `_no_bg.png` |
| Commands.OutputInOutputDir | src-tauri/src/lib.rs:159-163 | with an output directory that is empty, the root, or does not end in '/', every input with a stem gets an output whose parent is that directory |
| Commands.OutputBesideInput | src-tauri/src/lib.rs:164-171 | without one, the output's parent is the input's parent, when that parent is empty, the root, or does not end in '/' |
| Commands.ImageRecord | src-tauri/src/lib.rs:175-188 | the record carries the input; success exactly when processing succeeded; no error exactly on success; on success the derived output path; on failure an empty output path and the error message |
| Commands.Progress | src-tauri/src/lib.rs:145-156 | the event for input i has current i+1, total the number of inputs, and the input's file name or "" |
| Commands.FirstInvalid | src-tauri/src/lib.rs:158-172 | none exactly when every input has an output path; otherwise the first input that has none |
| Commands.Processed | src-tauri/src/lib.rs:138-193 | the reference result of the loop: one record per input in input order, each built from the engine's outcome for that input and its output path, or, at the first input without an output path, that input's error |
| Commands.EventsSent | src-tauri/src/lib.rs:141-156 | the reference event list: event i is input i's progress event, one per input up to and including the first input without an output path |
| Commands.AllInputsProcessed | src-tauri/src/lib.rs:138-193 | when every input has an output path, the results, in input order, are one record per input and one progress event was sent per input |
| Commands.StoppedAtInput | src-tauri/src/lib.rs:158-172 | when input k is the first without an output path, the command fails with that input's error after k+1 progress events |
| Commands.ProcessInputs | src-tauri/src/lib.rs:138-193 | the loop yields either one record per input, in order, after one progress event each, or, at the first input lacking an output path, its error, and the results built so far are discarded |
| Commands.ProcessImages | src-tauri/src/lib.rs:115-194 | an unknown model or a missing first weight file fails before any progress event; otherwise the loop's outcome over the request's inputs |
| Commands.FileSystem.constructor | src-tauri/src/lib.rs:65 | a disk holding the given paths |
| Commands.FilePathSet | src-tauri/src/lib.rs:61-62 | the set of the files' destination paths, in both directions |
| Commands.DownloadFiles | src-tauri/src/lib.rs:61-93 | the reference download run: files in order, present destinations skipped, missing ones fetched and added, the first failed fetch ending the run with its message and, when it left a file, that file added |
| Commands.DownloadFilesRequestsOfFiles | src-tauri/src/lib.rs:61-73 | every request handed to the downloader is a file's URL and its destination in the models directory |
| Commands.DownloadFilesStopsAtFirstFailure | src-tauri/src/lib.rs:73-92 | a successful run made only successful fetches; a failed run made at least one request, all but its last succeeded, and the last failed with the run's message |
| Commands.MissingRequests | src-tauri/src/lib.rs:61-67 | the reference list of requests: one for each file whose destination does not exist, in file order |
| Commands.DownloadFilesDone | src-tauri/src/lib.rs:61-93 | for files with distinct destinations, a run succeeds exactly when the fetch of every missing file succeeds |
| Commands.DownloadFilesDoneRun | src-tauri/src/lib.rs:61-93 | for files with distinct destinations, a successful run asked for exactly the missing files, in file order, and the disk then holds the old paths plus every file's destination |
| Commands.FirstFailureAt | src-tauri/src/lib.rs:61-92 | file i stops the loop: it is missing, its fetch fails, and every earlier file is present or fetched |
| Commands.StoppedAt | src-tauri/src/lib.rs:61-92 | the run that stops at file i: that file's error message, the requests of the missing files up to and including it in file order, and the old paths plus those of the earlier files, plus file i's when its failed fetch left it |
| Commands.FirstFailureAborts | src-tauri/src/lib.rs:61-92 | for files with distinct destinations, the first failing missing file aborts the download as StoppedAt describes: later files are never requested |
| Commands.FailedRunHasFirstFailure | src-tauri/src/lib.rs:61-92 | for files with distinct destinations, every failed run has such a first failing file, so a failed run is always one that FirstFailureAborts describes |
| Commands.EntryDestsDistinct | src-tauri/src/models.rs:20-194 | the weight files of each catalogue entry have pairwise different destinations: one file each, except sam_vit_b_01ec64, whose two files have different names |
| Commands.CatalogueDestsDistinct | src-tauri/src/models.rs:204-206 | every model found by id has files with pairwise different destinations, so the run lemmas above apply to every download_model call |
| Commands.DownloadFilesBounds | src-tauri/src/lib.rs:61-93 | a download adds only the model's paths; on success every file exists; only missing paths are fetched; a failure carries the message of a failed fetch of a missing file |
| Commands.Tail | src-tauri/src/lib.rs:61 | the destination set of a list is its first path together with the destinations of the rest |
| Commands.DownloadModel | src-tauri/src/lib.rs:54-96 | an unknown id gives "Model not found" and leaves the disk alone; otherwise the outcome, the disk and the downloader requests are those of the reference download run |
| Commands.FetchFiles | src-tauri/src/lib.rs:61-93 | the loop skips present files, fetches missing ones in order, and stops at the first failure, ending as the reference definition of a download run says |
| Commands.DownloadStep | src-tauri/src/lib.rs:61-93 | the defining equation of one step of the reference download run, used by the FetchFiles loop proof and the run lemmas; it states nothing beyond that definition |
| Commands.DownloadedAfterSuccess | src-tauri/src/lib.rs:61-95 | after a successful download, is_model_downloaded answers true |
| Commands.DownloadOfDownloadedModel | src-tauri/src/lib.rs:64-67 | when every file is present, nothing is fetched and the download succeeds |
| Commands.PartialFileCountsAsDownloaded | src-tauri/src/lib.rs:64-67 | for a model with one weight file, a failed fetch that leaves the file behind fails the download, yet the model then reports as downloaded |
| Commands.CleanFailureLeavesFileMissing | src-tauri/src/lib.rs:61-93 | with a downloader that removes what it wrote on failure, a failed download leaves some file of the model missing |
| Commands.CleanFailureNotDownloaded | src-tauri/src/lib.rs:61-93 | with such a downloader, a failed download never reports the model as downloaded |
| Commands.CheckFirstTimeSetup | src-tauri/src/lib.rs:196-202 | setup is needed exactly when `models_dir/u2net.onnx` does not exist |
| Commands.NoSetupAfterDefaultDownload | src-tauri/src/lib.rs:196-202 | once the default model has been downloaded, no setup is needed |
| Processor.Masked | src-tauri/src/processor.rs:129-136 | the written pixel keeps the input's red, green and blue and takes the mask value as alpha, dropping the input alpha |
| Processor.ApplyMask | src-tauri/src/processor.rs:117-141 | a new image of the input's width and height whose every pixel (x, y) is the input pixel at (x, y) masked by the mask value at (x, y); the mask must be at least as large as the image |
| Processor.RemoveBackground | src-tauri/src/processor.rs:20-41 | the output has the input's dimensions, its colours, and the predicted alpha at every pixel |
| WebDownloads.Lower | web/src/main.ts:43 | ASCII lower-casing keeps the length and maps each character |
| WebDownloads.Upper | web/src/main.ts:43 | ASCII upper-casing keeps the length and maps each character |
| WebDownloads.LowerIdempotent | web/src/main.ts:43 | lower-casing twice is lower-casing once |
| WebDownloads.LowerOfUpper | web/src/main.ts:43 | lower-casing forgets a prior upper-casing |
| WebDownloads.Includes | web/src/main.ts:43 | `includes` holds exactly when the pattern occurs at some position of the string |
| WebDownloads.FindAssetUrl | web/src/main.ts:40-50 | null exactly when no asset name includes every pattern, ignoring case; otherwise the URL of the first asset that does |
| WebDownloads.NoAssetsNoUrl | web/src/main.ts:40-50 | an empty asset list yields null |
| WebDownloads.EmptyPatternsMatchFirst | web/src/main.ts:42-47 | with no patterns the first asset's URL is returned |
| WebDownloads.MatchesAll | web/src/main.ts:42-44 | an asset name matches when its lower-cased form includes every lower-cased pattern |
| WebDownloads.MatchesAllUpToCase | web/src/main.ts:42-44 | matching does not depend on letter case of names or patterns |
| WebDownloads.FindAssetUrlUpToCase | web/src/main.ts:40-50 | rewriting asset names and patterns in other letter cases gives the same URL |
| WebDownloads.FindAssetUrlIgnoresNameCase | web/src/main.ts:40-50 | upper-casing every asset name gives the same URL |
| WebDownloads.DownloadButton.constructor | web/src/main.ts:59-62 | a button with the given platform attribute and link |
| WebDownloads.PatternsFor | web/src/main.ts:62-63 | patterns exist exactly for a present, non-empty platform in the table, and are that platform's table entry |
| WebDownloads.LinkFor | web/src/main.ts:52-78 | the reference link of one button after an update, given its old link, its platform and the release |
| WebDownloads.LinkForCases | web/src/main.ts:52-78 | without release data every button falls back; otherwise a button without patterns keeps its link, one with a non-empty match gets it, and one with no or an empty match falls back |
| WebDownloads.LinkForIdempotent | web/src/main.ts:52-74 | updating the links twice with the same release is updating them once |
| WebDownloads.SetFallbackLink | web/src/main.ts:76-78 | the button links to `https://github.com/Tekipeps/rmbg/releases/latest` |
| WebDownloads.SetFallbackLinks | web/src/main.ts:80-83 | every button links to the releases page |
| WebDownloads.UpdateLink | web/src/main.ts:61-73 | one button's new link is the one the update rule gives for its old link |
| WebDownloads.UpdateDownloadLinks | web/src/main.ts:52-74 | every button's new link is the one the update rule gives for its old link, its platform and the release |
| AppState.StatusMap | src/App.tsx:54-67 | an id has a status exactly when some listed model has it and its status request succeeds, and the status stored is that reply |
| AppState.ReadyToProcess | src/App.tsx:134-143 | the guards of processImages: a non-empty selection, and a status for the selected model that says it is downloaded |
| AppState.RemoveDisabled | src/App.tsx:351 | the button is disabled while processing or downloading, or when the selected model has no status saying it is downloaded |
| AppState.EnabledIffReady | src/App.tsx:341-351 | with a selection, "Remove Background" is enabled exactly when processImages would pass its guards and nothing is processing or downloading |
| AppState.TotalSizeMb | src/App.tsx:272 | the displayed size: the sizes of the files summed from the left, starting at 0 |
| AppState.TotalSizeAppend | src/App.tsx:272 | the displayed size of two file lists together is the sum of their sizes |
| AppState.DefaultModelSize | src/App.tsx:272 | the default model is displayed as 176 MB, the size the welcome dialog announces |
| AppState.LastSeparator | src/App.tsx:346 | the last forward or backward slash before the bound, or -1 |
| AppState.Basename | src/App.tsx:346 | the displayed name is the longest suffix of the path without a slash or backslash |
| AppState.LastSeparatorIsLastSlash | src/App.tsx:346 | on a path without backslashes, the front end's separator search agrees with the backend's |
| AppState.BasenameIsFileName | src/App.tsx:346 | on a path without backslashes the displayed name is the backend's file name |
| AppState.ResultShownByOutputName | src/App.tsx:395 | when the output path has no backslash, a processed result is listed under the input's stem followed by `_no_bg.png` (the front end also splits at backslashes, which the backend treats as ordinary characters) |
| AppState.IsImage | src/App.tsx:181 | a dropped file is an image when its MIME type starts with `image/` |
| AppState.ImagePaths | src/App.tsx:179-182 | as many paths as files at most; none exactly when no file is an image; a path is listed exactly when some image file has it |
| AppState.ImagePathsAppend | src/App.tsx:180-182 | filtering keeps drop order: the paths of two batches are those of the first then those of the second |
| AppState.App.constructor | src/App.tsx:16-26 | every state slot starts at its `useState` initial value |
| AppState.App.InitializeApp | src/App.tsx:33-52 | a failing first-run check changes nothing; otherwise the dialog flag, model list, default selection and status map are set and nothing else |
| AppState.App.RefreshModelStatuses | src/App.tsx:54-67 | the status map becomes the one built from the list and nothing else changes |
| AppState.App.DownloadModel | src/App.tsx:97-109 | downloading is false and the progress cleared whatever the outcome; statuses are refreshed only after a successful download |
| AppState.App.DownloadDefaultModel | src/App.tsx:81-95 | as downloadModel for the default model; a success also closes the first-run dialog |
| AppState.App.SelectImages | src/App.tsx:111-131 | null, an empty path or a failed dialog changes nothing; one path becomes a one-element selection, a list becomes the selection, and either clears the results |
| AppState.App.ProcessImages | src/App.tsx:133-163 | a request is sent exactly when the guards pass, and otherwise nothing changes; the request carries the selection, the selected model and no output directory; the results become the backend's list or stay empty on failure, and the processing flag and progress are reset |
| AppState.App.HandleDrop | src/App.tsx:175-188 | dragging ends; when some dropped file is an image, the selection becomes the image paths in drop order and the results are cleared; otherwise nothing else changes |
| AppState.CatalogueStatuses | src/App.tsx:54-67 | after loading the catalogue against the backend, every catalogue model has a status, and it says whether the model is downloaded |

## Left out

- The home-directory lookup and directory creation of `get_models_dir` are not modelled. The models directory is a parameter, and the errors of the lookup are not modelled.
- Paths follow Unix rules with '/' only. Trailing or repeated separators and "." components are not normalised as Rust's `Path` does. Windows prefixes are not handled. Lossy UTF-8 conversion is not modelled.
- Downloading is an oracle. `download_file` (HTTP streaming, progress callbacks, file writes) is not modelled. Its reply says whether the fetch succeeded and whether it left a file behind on failure.
- The download percentage (f64) and the progress-bar widths are not modelled. `Window::emit` events of `process_images` are a ghost output; the download-progress events are not modelled.
- The engine and the downloader are deterministic functions of their arguments: the same input path listed twice gets the same outcome, and fetching the same URL to the same destination gives the same reply. In the source two such calls may differ.
- ONNX inference, `preprocess_image`, `postprocess_output` and the Lanczos resizing are not modelled. The mask is a function parameter. Loading and saving images, and the conversion to RGBA8, are left out.
- Commands.ModelPath: its "Model has no files" branch is kept but cannot be taken, since every catalogue entry has a file.
- Models.AllModels: the catalogue is stored column by column (ids, names, descriptions, files). The entries it yields are those of the source list.
- Processor.ApplyMask: demands a mask at least as large as the image. The source panics in `get_pixel` otherwise, and `remove_background` always supplies one of the image's size.
- WebDownloads.PatternsFor: treats the pattern table as a plain map. A `data-os` value that names an inherited object property, such as "constructor", is not modelled. In the source such a value yields a truthy non-array; when the release lists at least one asset, `patterns.every` then throws, and with an empty asset list the button falls back.
- WebDownloads: `toLowerCase` is modelled for ASCII letters only. Fetching the release and querying the DOM are parameters: the release value and the sequence of distinct buttons.
- AppState: the backend commands the component invokes are parameters holding their replies, and a failed IPC call of a command that cannot fail on the backend is not modelled. Alerts, console logging, JSX rendering, `useEffect`, event listeners, drag-over and drag-leave, opening result files, and interleaving of asynchronous state updates are not modelled.
- AppState.App.ProcessImages and AppState.App.DownloadModel: the intermediate states (`processing` and `downloading` set to true while the call runs) are not visible in the contracts, which state the final state only.
- The icon generators and the type declarations of the front end have no behaviour to model.

## Findings

| source | as written | input that shows it | evidently intended | confidence | as-written member | corrected member |
|---|---|---|---|---|---|---|
| src-tauri/src/lib.rs:64-67 | download_model skips any destination that exists, and is_model_downloaded counts any existing file; download_file creates the file before streaming into it (src-tauri/src/downloader.rs:34-40), so a transfer that fails mid-stream leaves a partial file | the u2net model with `u2net.onnx` missing and a fetch that fails after some bytes were written: the download fails, but the model then reports as downloaded, and a retry skips the file | a failed transfer leaves no file behind (for example by removing it or writing to a temporary name first), so that a failed download never reports the model as downloaded | medium, not executed | Commands.PartialFileCountsAsDownloaded | Commands.CleanFailureNotDownloaded |
