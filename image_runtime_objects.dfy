/**
 * ImageRuntimeObjectsViewModel.swift: the classes and protocols of one image
 * (a framework or bundle of the browsed tree), searchable like the global
 * list, with the image's load state. The names the class-dump library reports
 * for the image, whether the runtime has loaded it, and the outcome of
 * loading it are passed in.
 */
module ImageRuntimeObjects {
  import opened Common
  import opened RuntimeObjectTypes
  import opened SearchScopes
  import opened NamedNodes
  import opened RuntimeObjectLists

  /** The description of an error thrown while loading. */
  type LoadError = string

  /** `ImageLoadState`. */
  datatype ImageLoadState = NotLoaded | Loading | Loaded | LoadFailed(error: LoadError)

  /** The state the view model starts in: loaded exactly when the runtime already has the image. */
  function InitialLoadState(isImageLoaded: bool): (r: ImageLoadState)
    ensures r == Loaded <==> isImageLoaded
    ensures r == NotLoaded <==> !isImageLoaded
  {
    if isImageLoaded then Loaded else NotLoaded
  }

  /**
   * The state after `tryLoadImage()`: `.loading` while the load runs and,
   * when it throws, the error; a successful load leaves `.loading` for the
   * image-list pipeline to replace.
   */
  function AfterLoadAttempt(thrown: Option<LoadError>): (r: ImageLoadState)
    ensures r.LoadFailed? <==> thrown.Some?
    ensures thrown.Some? ==> r.error == thrown.value
    ensures thrown.None? ==> r == Loading
  {
    match thrown
    case Some(e) => LoadFailed(e)
    case None => Loading
  }

  /**
   * The image-list pipeline: when the list of loaded images holds this
   * image, the state becomes `.loaded`; otherwise it is left as it is.
   */
  function AfterImageListChange(state: ImageLoadState, imageLoaded: bool): (r: ImageLoadState)
    ensures r == state || r == Loaded
    ensures imageLoaded ==> r == Loaded
    ensures !imageLoaded ==> r == state
  {
    if imageLoaded then Loaded else state
  }

  /** Once loaded, an image stays loaded through the pipeline; only a new load attempt can leave `.loaded`. */
  lemma LoadedIsStable(imageLoaded: bool)
    ensures AfterImageListChange(Loaded, imageLoaded) == Loaded
  {
  }

  /** A failed load is followed by `.loaded` only if the runtime reports the image loaded after all. */
  lemma FailureRecoveredOnlyByImageList(e: LoadError, imageLoaded: bool)
    ensures AfterImageListChange(AfterLoadAttempt(Some(e)), imageLoaded) == Loaded <==> imageLoaded
  {
  }

  class ImageRuntimeObjectsViewModel {
    const imagePath: string
    const imageName: string
    var searchString: string
    var searchScope: SearchScope
    var classNames: seq<string>
    var protocolNames: seq<string>
    var runtimeObjects: seq<RuntimeObjectType>
    var loadState: ImageLoadState

    /** `runtimeObjects` is the list for the current names, search and scope. */
    ghost predicate Valid()
      reads this
    {
      runtimeObjects == RuntimeObjectsFor(classNames, protocolNames, searchString, searchScope)
    }

    /**
     * `init(namedNode:)`: the node's path and name, its classes and
     * protocols, an empty search over scope `.all`, and the initial state.
     */
    constructor (node: NamedNode, classNames: seq<string>, protocolNames: seq<string>, isImageLoaded: bool)
      requires node.Rooted()
      ensures imagePath == node.Path() && imageName == node.name
      ensures this.classNames == classNames && this.protocolNames == protocolNames
      ensures searchString == "" && searchScope == All
      ensures runtimeObjects == ClassesOf(classNames) + ProtocolsOf(protocolNames)
      ensures loadState == InitialLoadState(isImageLoaded)
      ensures Valid()
    {
      var path := node.Path();
      var objects := RuntimeObjectsFor(classNames, protocolNames, "", All);
      UnfilteredByScope(classNames, protocolNames);
      imagePath := path;
      imageName := node.name;
      this.classNames := classNames;
      this.protocolNames := protocolNames;
      searchString := "";
      searchScope := All;
      runtimeObjects := objects;
      loadState := if isImageLoaded then Loaded else NotLoaded;
    }

    /** `isImageEmpty`. */
    function IsImageEmpty(): (r: bool)
      reads this
      ensures r <==> forall scope :: Listed(classNames, protocolNames, scope) == []
    {
      assert Listed(classNames, protocolNames, All) == [] ==> classNames == [] && protocolNames == [];
      classNames == [] && protocolNames == []
    }

    /** An empty image lists nothing, whatever the search and scope. */
    lemma EmptyImageListsNothing()
      requires Valid() && IsImageEmpty()
      ensures runtimeObjects == []
    {
      var listed := Listed(classNames, protocolNames, searchScope);
      assert |listed| == 0;
      assert Seqs.IsSubsequence(runtimeObjects, listed);
    }

    /** `tryLoadImage()`, with `thrown` the error the load throws, if any. */
    method TryLoadImage(thrown: Option<LoadError>)
      modifies this
      ensures loadState == AfterLoadAttempt(thrown)
      ensures classNames == old(classNames) && protocolNames == old(protocolNames)
      ensures runtimeObjects == old(runtimeObjects)
      ensures searchString == old(searchString) && searchScope == old(searchScope)
    {
      loadState := Loading;
      if thrown.Some? {
        loadState := LoadFailed(thrown.value);
      }
    }

    /** The image-list pipeline delivering: `imageLoaded` tells whether the list holds this image. */
    method ImageListChanged(imageLoaded: bool)
      modifies this
      ensures loadState == AfterImageListChange(old(loadState), imageLoaded)
      ensures classNames == old(classNames) && protocolNames == old(protocolNames)
      ensures runtimeObjects == old(runtimeObjects)
      ensures searchString == old(searchString) && searchScope == old(searchScope)
    {
      if imageLoaded {
        loadState := Loaded;
      }
    }

    /**
     * The name pipelines and the `combineLatest` pipeline delivering: new
     * class and protocol names, and the list recomputed for them.
     */
    method NamesChanged(newClassNames: seq<string>, newProtocolNames: seq<string>)
      modifies this
      ensures classNames == newClassNames && protocolNames == newProtocolNames
      ensures searchString == old(searchString) && searchScope == old(searchScope)
      ensures loadState == old(loadState)
      ensures Valid()
    {
      classNames := newClassNames;
      protocolNames := newProtocolNames;
      runtimeObjects := RuntimeObjectsFor(classNames, protocolNames, searchString, searchScope);
    }

    /** A new search text or scope, and the list recomputed for it. */
    method SearchChanged(newSearchString: string, newScope: SearchScope)
      modifies this
      ensures searchString == newSearchString && searchScope == newScope
      ensures classNames == old(classNames) && protocolNames == old(protocolNames)
      ensures loadState == old(loadState)
      ensures Valid()
    {
      searchString := newSearchString;
      searchScope := newScope;
      runtimeObjects := RuntimeObjectsFor(classNames, protocolNames, searchString, searchScope);
    }
  }
}
