/**
 * The persisted model artifact, seen from the code that loads it. The file system is
 * an oracle: a map from path to what the file at that path deserialises to.
 */
module ModelStore {
  import opened Wrappers

  /**
   * A fitted classifier, `model.predict`: from a feature matrix (one sequence of
   * column values per row) to the predicted classes. Nothing is assumed about it.
   */
  type Classifier = seq<seq<real>> -> seq<int>

  /** What a file on disk holds: a classifier joblib can load, or bytes it cannot. */
  datatype Artifact = Fitted(classify: Classifier) | Corrupt

  /** The files that exist, by path. */
  type Disk = map<string, Artifact>

  datatype StoreError = ModelNotFound | ModelCorrupt

  /**
   * `load_model(path)`: FileNotFoundError when no file exists at the path, the
   * deserialisation error when the file cannot be loaded, otherwise the classifier.
   */
  function LoadModel(disk: Disk, path: string): (r: Result<Classifier, StoreError>)
    ensures r.Err? && r.error == ModelNotFound <==> path !in disk
    ensures r.Err? && r.error == ModelCorrupt <==> path in disk && disk[path].Corrupt?
    ensures r.Ok? ==> path in disk && disk[path] == Fitted(r.value)
  {
    if path !in disk then Err(ModelNotFound)
    else match disk[path]
      case Corrupt => Err(ModelCorrupt)
      case Fitted(clf) => Ok(clf)
  }
}
