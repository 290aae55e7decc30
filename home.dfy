/** The home feed's save-to-collection sheet: the list of collection names and
    the map from post id to the collection it was saved to. */
module Home {
  import opened Wrappers

  datatype HomeState = HomeState(collections: seq<string>, savedItems: map<string, string>)

  /** The screen's initial state. */
  const InitialHome: HomeState := HomeState(["Favorites", "Wedding", "Casual"], map[])

  /** Every saved post is mapped to a name on the collections list. */
  ghost predicate SavedInListedCollections(h: HomeState) {
    forall postId | postId in h.savedItems :: h.savedItems[postId] in h.collections
  }

  lemma InitialHomeIsConsistent()
    ensures SavedInListedCollections(InitialHome)
    ensures InitialHome.collections == ["Favorites", "Wedding", "Casual"]
  {
  }

  /** `saveToCollection(name)` for the selected post: its entry is set to the
      name, replacing any earlier one; the list and every other entry stay. */
  function SaveToCollection(h: HomeState, postId: string, name: string): (r: HomeState)
    ensures r.collections == h.collections
    ensures r.savedItems.Keys == h.savedItems.Keys + {postId}
    ensures r.savedItems[postId] == name
    ensures forall other | other in h.savedItems && other != postId :: r.savedItems[other] == h.savedItems[other]
  {
    h.(savedItems := h.savedItems[postId := name])
  }

  /** Saving to a listed collection keeps every saved post on a listed collection. */
  lemma SaveToListedCollectionIsConsistent(h: HomeState, postId: string, name: string)
    requires SavedInListedCollections(h) && name in h.collections
    ensures SavedInListedCollections(SaveToCollection(h, postId, name))
  {
  }

  datatype HomeError = EmptyCollectionName

  /** `createNewCollection` for the selected post: an empty name is refused and
      nothing changes; otherwise the name is appended (duplicates allowed) and
      the post is saved to it. */
  function CreateNewCollection(h: HomeState, postId: string, name: string): (r: Result<HomeState, HomeError>)
    ensures r.Err? <==> name == ""
    ensures r.Ok? ==> r.value.collections == h.collections + [name]
    ensures r.Ok? ==> r.value.savedItems == h.savedItems[postId := name]
  {
    if name == "" then Err(EmptyCollectionName)
    else Ok(SaveToCollection(h.(collections := h.collections + [name]), postId, name))
  }

  /** The state the screen keeps after `createNewCollection`: unchanged on refusal. */
  function AfterCreateNewCollection(h: HomeState, postId: string, name: string): HomeState {
    var r := CreateNewCollection(h, postId, name);
    if r.Ok? then r.value else h
  }

  /** Creating a collection keeps every saved post on a listed collection. */
  lemma CreateNewCollectionIsConsistent(h: HomeState, postId: string, name: string)
    requires SavedInListedCollections(h)
    ensures SavedInListedCollections(AfterCreateNewCollection(h, postId, name))
  {
    if name != "" {
      var h' := h.(collections := h.collections + [name]);
      assert forall c | c in h.collections :: c in h'.collections;
      SaveToListedCollectionIsConsistent(h', postId, name);
    }
  }
}
