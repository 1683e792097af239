/** Saving a model locally and pushing it to the Hugging Face Hub: the staging directory, the
    list of files uploaded, and the order of the foreign calls, with `createRepo`'s failure
    tolerated. Whether each foreign call succeeds is a parameter. */
module HubSave {
  import opened Common
  import HubLoad

  const DefaultSubdir: string := "model"
  const StagingRoot: string := "./tmp-model/"

  /** What an uploaded file holds: the saved topology, the saved weights, or the README whose
      usage snippet loads the model from `loadUrl`. */
  datatype FileContent = ModelJson | WeightsBin | Readme(loadUrl: string)

  datatype UploadFile = UploadFile(path: string, content: FileContent)

  /** The foreign calls, in the order they are made. */
  datatype SaveCall =
    | MakeDir(dir: string)
    | SaveModel(target: string)
    | ReadFile(path: string)
    | CreateRepo(repo: string, token: string)
    | UploadFiles(repo: string, token: string, files: seq<UploadFile>)

  /** Only `model.save` (with the reads after it) and `uploadFiles` can make the call throw. */
  datatype SaveOutcome = Saved | SaveFailed | UploadFailed

  /** The local staging directory (before `path.resolve` makes it absolute). */
  function TmpDir(subdir: string): string {
    StagingRoot + subdir
  }

  /** The URL in the README's usage snippet: where the loader finds the uploaded topology. */
  function ReadmeUrl(repo: string, subdir: string): string {
    HubLoad.HubUrl(repo, subdir + "/model.json")
  }

  /** The two model files, both under `subdir`. */
  function ModelFiles(subdir: string): seq<UploadFile> {
    [UploadFile(subdir + "/model.json", ModelJson), UploadFile(subdir + "/weights.bin", WeightsBin)]
  }

  /** The upload list: the two model files, and the README only for the root `model` folder. */
  function Manifest(repo: string, subdir: string): (files: seq<UploadFile>)
    ensures |files| == if subdir == DefaultSubdir then 3 else 2
    ensures files[..2] == ModelFiles(subdir)
    ensures (exists i :: 0 <= i < |files| && files[i].path == "README.md") <==> subdir == DefaultSubdir
  {
    var files := ModelFiles(subdir);
    if subdir == DefaultSubdir then
      assert files[0].path != "README.md" by {
        assert |files[0].path| != |"README.md"|;
      }
      var all := files + [UploadFile("README.md", Readme(ReadmeUrl(repo, subdir)))];
      assert all[2].path == "README.md";
      all
    else
      assert files[0].path != "README.md" && files[1].path != "README.md" by {
        NotReadme(subdir, "/model.json");
        NotReadme(subdir, "/weights.bin");
      }
      files
  }

  /** A path built as `subdir + "/<name>"` is never the bare `README.md`, which has no slash. */
  lemma NotReadme(subdir: string, name: string)
    requires |name| >= 1 && name[0] == '/'
    ensures subdir + name != "README.md"
  {
    var p := subdir + name;
    assert p[|subdir|] == '/';
    assert forall i :: 0 <= i < |"README.md"| ==> "README.md"[i] != '/';
  }

  /** No two uploaded files share a path. */
  lemma ManifestPathsDistinct(repo: string, subdir: string, i: nat, j: nat)
    requires i < j < |Manifest(repo, subdir)|
    ensures Manifest(repo, subdir)[i].path != Manifest(repo, subdir)[j].path
  {
    var files := Manifest(repo, subdir);
    if j == 1 {
      var a, b := subdir + "/model.json", subdir + "/weights.bin";
      assert a[|subdir| + 1] == 'm' && b[|subdir| + 1] == 'w';
    } else {
      NotReadme(subdir, "/model.json");
      NotReadme(subdir, "/weights.bin");
    }
  }

  /** The README published for the root folder points the loader at the uploaded topology:
      `loadModelFromHub(repo, subdir + "/model.json")` fetches exactly its usage URL. */
  lemma ReadmeUrlIsLoadable(repo: string)
    ensures Manifest(repo, DefaultSubdir)[2].content == Readme(HubLoad.HubUrl(repo, "model/model.json"))
  {
    assert DefaultSubdir + "/model.json" == "model/model.json";
  }

  /** The calls made and the outcome, given whether each fallible foreign call succeeds. */
  function SaveTrace(repo: string, token: string, subdir: string, saveOk: bool, createRepoOk: bool, uploadOk: bool)
    : (SaveOutcome, seq<SaveCall>)
  {
    var dir := TmpDir(subdir);
    var staged := [MakeDir(dir), SaveModel("file://" + dir)];
    if !saveOk then (SaveFailed, staged)
    else
      var calls := staged + [ReadFile(dir + "/model.json"), ReadFile(dir + "/weights.bin"),
                             CreateRepo(repo, token), UploadFiles(repo, token, Manifest(repo, subdir))];
      (if uploadOk then Saved else UploadFailed, calls)
  }

  /** The call succeeds exactly when the save and the upload do; whether `createRepo` failed
      changes neither the calls made nor the outcome. */
  lemma CreateRepoFailureTolerated(repo: string, token: string, subdir: string, saveOk: bool, uploadOk: bool)
    ensures SaveTrace(repo, token, subdir, saveOk, false, uploadOk) == SaveTrace(repo, token, subdir, saveOk, true, uploadOk)
    ensures SaveTrace(repo, token, subdir, saveOk, false, uploadOk).0 == Saved <==> saveOk && uploadOk
  {
  }

  /** After a successful save, the upload is the last call and comes after `createRepo`. */
  lemma UploadFollowsCreateRepo(repo: string, token: string, subdir: string, createRepoOk: bool, uploadOk: bool)
    ensures var calls := SaveTrace(repo, token, subdir, true, createRepoOk, uploadOk).1;
      |calls| == 6 && calls[4] == CreateRepo(repo, token) && calls[5] == UploadFiles(repo, token, Manifest(repo, subdir))
  {
  }

  method SaveModelToHub(repo: string, token: string, saveOk: bool, createRepoOk: bool, uploadOk: bool,
                        subdir: string := DefaultSubdir)
    returns (outcome: SaveOutcome, calls: seq<SaveCall>)
    ensures (outcome, calls) == SaveTrace(repo, token, subdir, saveOk, createRepoOk, uploadOk)
  {
    var tmpDir := TmpDir(subdir);
    calls := [MakeDir(tmpDir)];
    var savePath := "file://" + tmpDir;
    calls := calls + [SaveModel(savePath)];
    assert calls == [MakeDir(tmpDir), SaveModel(savePath)];
    if !saveOk {
      return SaveFailed, calls;
    }
    var modelPath := tmpDir + "/model.json";
    var weightsPath := tmpDir + "/weights.bin";
    calls := calls + [ReadFile(modelPath), ReadFile(weightsPath)];
    var files := [UploadFile(subdir + "/model.json", ModelJson), UploadFile(subdir + "/weights.bin", WeightsBin)];
    var readme := Readme(HubLoad.HubUrl(repo, subdir + "/model.json"));
    if subdir == "model" {
      files := files + [UploadFile("README.md", readme)];
    }
    assert files == Manifest(repo, subdir);
    // a failure here is only logged
    calls := calls + [CreateRepo(repo, token)];
    calls := calls + [UploadFiles(repo, token, files)];
    assert calls == [MakeDir(tmpDir), SaveModel(savePath)] + [ReadFile(modelPath), ReadFile(weightsPath),
                                                               CreateRepo(repo, token), UploadFiles(repo, token, files)];
    outcome := if uploadOk then Saved else UploadFailed;
  }
}
