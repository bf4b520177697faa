// The lists of the local config: pkg/config/storage.go and the storage and url cases of
// pkg/config/config.go SetConfiguration, DeleteUrl and DeleteFromConfigurationList.

module LocalConfig {
  import opened GoSlice
  import opened Lists
  import opened PushEffects
  import opened Results
  import opened StorageSync
  import Invariant
  import Urls

  type Url = Urls.Url

  /** The two list settings; None is a pointer never set. */
  datatype Settings = Settings(storage: Option<seq<Storage>>, url: Option<seq<Url>>)

  function StorageOf(s: Settings): seq<Storage> {
    if s.storage.Some? then s.storage.value else []
  }

  function UrlsOf(s: Settings): seq<Url> {
    if s.url.Some? then s.url.value else []
  }

  function StorageNamed(name: string): Storage -> bool {
    (s: Storage) => s.name == name
  }

  function UrlNamed(name: string): Url -> bool {
    (u: Url) => u.name == name
  }

  function NameOfUrl(u: Url): string {
    u.name
  }

  const SAME_NAME := Refused("there already is a storage with the name")
  const SAME_PATH := Refused("there already is a storage mounted at")
  const NO_STORAGE := Refused("storage doesn't exist")
  const NO_URL := Refused("the URL does not exist")
  const SAME_URL := Refused("the url already exists")
  const WRITE_FAILED := Refused("unable to write the config file")

  /** ValidateStorage: the first storage in the way decides the error. */
  function Validated(items: seq<Storage>, name: string, path: string): Result<()> {
    if items == [] then Ok(())
    else if items[0].name == name then Err(SAME_NAME)
    else if items[0].path == path then Err(SAME_PATH)
    else Validated(items[1..], name, path)
  }

  lemma {:induction false} ValidatedIff(items: seq<Storage>, name: string, path: string)
    ensures Validated(items, name, path).Ok? <==> forall s :: s in items ==> s.name != name && s.path != path
  {
    if items != [] {
      assert items == [items[0]] + items[1..];
      ValidatedIff(items[1..], name, path);
    }
  }

  function AfterRemoval<T>(items: seq<T>, hit: T -> bool): Result<seq<T>> {
    match RangeRemove(items, hit) case Kept(left) => Ok(left) case Panic => Err(Failure.Panic)
  }

  /** What the config commands do: validate and create, check and delete. */
  datatype Edit =
    | AddStorage(storage: Storage)
    | DropStorage(name: string)
    | AddUrl(url: Url)
    | DropUrl(name: string)

  function Edited(s: Settings, e: Edit): Result<Settings> {
    match e
    case AddStorage(item) =>
      var _ :- Validated(StorageOf(s), item.name, item.path);
      Ok(s.(storage := Some(StorageOf(s) + [item])))
    case DropStorage(name) =>
      if !exists x :: x in StorageOf(s) && x.name == name then Err(NO_STORAGE)
      else
        var left :- AfterRemoval(StorageOf(s), StorageNamed(name));
        Ok(s.(storage := Some(left)))
    case AddUrl(url) =>
      if exists x :: x in UrlsOf(s) && x.name == url.name then Err(SAME_URL)
      else Ok(s.(url := Some(UrlsOf(s) + [url])))
    case DropUrl(name) =>
      if !exists x :: x in UrlsOf(s) && x.name == name then Err(NO_URL)
      else
        var left :- AfterRemoval(UrlsOf(s), UrlNamed(name));
        Ok(s.(url := Some(left)))
  }

  // ------------------------------------------------------------ the object

  class LocalConfigInfo {
    var storage: Option<seq<Storage>>
    var url: Option<seq<Url>>

    function Value(): Settings
      reads this
    {
      Settings(storage, url)
    }

    constructor ()
      ensures Value() == Settings(None, None)
    {
      storage, url := None, None;
    }

    method ValidateStorage(name: string, path: string) returns (r: Result<()>)
      ensures r == Validated(StorageOf(Value()), name, path)
    {
      var items := StorageOf(Value());
      for i := 0 to |items|
        invariant Validated(items, name, path) == Validated(items[i..], name, path)
      {
        assert items[i..][1..] == items[i + 1..];
        if items[i].name == name {
          return Err(SAME_NAME);
        }
        if items[i].path == path {
          return Err(SAME_PATH);
        }
      }
      r := Ok(());
    }

    method StorageExists(name: string) returns (found: bool)
      ensures found <==> exists x :: x in StorageOf(Value()) && x.name == name
    {
      var items := StorageOf(Value());
      for i := 0 to |items|
        invariant forall k :: 0 <= k < i ==> items[k].name != name
      {
        if items[i].name == name {
          assert items[i] in items;
          return true;
        }
      }
      return false;
    }

    /** SetConfiguration for a storage: the list in memory changes even if writing the file fails. */
    method StorageCreate(item: Storage, writes: bool) returns (r: Result<()>)
      modifies this
      ensures r.Ok? <==> writes
      ensures Value() == old(Value()).(storage := Some(old(StorageOf(Value())) + [item]))
    {
      if storage.Some? {
        storage := Some(storage.value + [item]);
      } else {
        storage := Some([item]);
        assert [] + [item] == [item];
      }
      r := if writes then Ok(()) else Err(WRITE_FAILED);
    }

    method StorageDelete(name: string, writes: bool) returns (r: Result<()>)
      modifies this
      ensures match Edited(old(Value()), DropStorage(name))
              case Ok(next) => Value() == next && (r.Ok? <==> writes)
              case Err(f) => r == Err(f) && Value() == old(Value())
    {
      var found := StorageExists(name);
      if !found {
        return Err(NO_STORAGE);
      }
      var left := RemoveFromSlice(StorageOf(Value()), StorageNamed(name));
      if left.Panic? {
        return Err(Failure.Panic);
      }
      storage := Some(left.items);
      r := if writes then Ok(()) else Err(WRITE_FAILED);
    }

    /** DeleteUrl dereferences the list pointer without looking. */
    method DeleteUrl(name: string, writes: bool) returns (r: Result<()>)
      modifies this
      ensures url.None? ==> r == Err(Failure.Panic)
      ensures match (if old(url).Some? then AfterRemoval(old(url).value, UrlNamed(name)) else Err(Failure.Panic))
              case Ok(left) => Value() == old(Value()).(url := Some(left)) && (r.Ok? <==> writes)
              case Err(f) => r == Err(f) && Value() == old(Value())
    {
      if url.None? {
        return Err(Failure.Panic);
      }
      var left := RemoveFromSlice(url.value, UrlNamed(name));
      if left.Panic? {
        return Err(Failure.Panic);
      }
      url := Some(left.items);
      r := if writes then Ok(()) else Err(WRITE_FAILED);
    }

    method SetUrl(item: Url, writes: bool) returns (r: Result<()>)
      modifies this
      ensures r.Ok? <==> writes
      ensures Value() == old(Value()).(url := Some(old(UrlsOf(Value())) + [item]))
    {
      if url.Some? {
        url := Some(url.value + [item]);
      } else {
        url := Some([item]);
        assert [] + [item] == [item];
      }
      r := if writes then Ok(()) else Err(WRITE_FAILED);
    }
  }

  // ------------------------------------------------------------ every run

  /** Storage names, storage paths and URL names are each pairwise distinct. */
  ghost predicate Sound(s: Settings) {
    && Distinct(Map(Invariant.NameOfStorage, StorageOf(s)))
    && Distinct(Map(PathOfStorage, StorageOf(s)))
    && Distinct(Map(NameOfUrl, UrlsOf(s)))
  }

  lemma DistinctSnoc<A, B>(f: A -> B, s: seq<A>, x: A)
    requires Distinct(Map(f, s)) && forall y :: y in s ==> f(y) != f(x)
    ensures Distinct(Map(f, s + [x]))
  {
    assert Map(f, s + [x]) == Map(f, s) + [f(x)];
    forall i, j | 0 <= i < j < |s + [x]| ensures f((s + [x])[i]) != f((s + [x])[j]) {
      if j == |s| {
        assert s[i] in s;
      } else {
        assert Map(f, s)[i] != Map(f, s)[j];
      }
    }
  }

  lemma RemovalIsFilter<A, B>(f: A -> B, s: seq<A>, hit: A -> bool, key: B)
    requires Distinct(Map(f, s)) && forall x :: x in s ==> (hit(x) <==> f(x) == key)
    ensures AfterRemoval(s, hit) == Ok(Without(s, hit))
  {
    forall i, j | 0 <= i < j < |s| ensures !(hit(s[i]) && hit(s[j])) {
      assert Map(f, s)[i] != Map(f, s)[j];
      assert s[i] in s && s[j] in s;
    }
    RangeRemoveAtMostOne(s, hit);
  }

  /** On sound settings a deletion is a filter: it cannot panic and leaves no match behind. */
  lemma DropsAreFilters(s: Settings, name: string)
    requires Sound(s)
    ensures AfterRemoval(StorageOf(s), StorageNamed(name)) == Ok(Without(StorageOf(s), StorageNamed(name)))
    ensures AfterRemoval(UrlsOf(s), UrlNamed(name)) == Ok(Without(UrlsOf(s), UrlNamed(name)))
  {
    RemovalIsFilter(Invariant.NameOfStorage, StorageOf(s), StorageNamed(name), name);
    RemovalIsFilter(NameOfUrl, UrlsOf(s), UrlNamed(name), name);
  }

  lemma EditKeepsSound(s: Settings, e: Edit)
    requires Sound(s) && Edited(s, e).Ok?
    ensures Sound(Edited(s, e).value)
  {
    match e
    case AddStorage(item) =>
      ValidatedIff(StorageOf(s), item.name, item.path);
      DistinctSnoc(Invariant.NameOfStorage, StorageOf(s), item);
      DistinctSnoc(PathOfStorage, StorageOf(s), item);
    case DropStorage(name) =>
      DropsAreFilters(s, name);
      WithoutDistinct(Invariant.NameOfStorage, StorageOf(s), StorageNamed(name));
      WithoutDistinct(PathOfStorage, StorageOf(s), StorageNamed(name));
    case AddUrl(url) =>
      DistinctSnoc(NameOfUrl, UrlsOf(s), url);
    case DropUrl(name) =>
      DropsAreFilters(s, name);
      WithoutDistinct(NameOfUrl, UrlsOf(s), UrlNamed(name));
  }

  /** The settings after a run in which a refused edit changes nothing. */
  function RunEdits(s: Settings, edits: seq<Edit>): Settings
    decreases edits
  {
    if edits == [] then s
    else RunEdits(match Edited(s, edits[0]) case Ok(next) => next case Err(_) => s, edits[1..])
  }

  /** EVERY RUN of config commands keeps names and paths distinct, so that along it every deletion that
      finds its target removes exactly the target and never panics. */
  lemma {:induction false} EditsKeepSound(s: Settings, edits: seq<Edit>, e: Edit)
    requires Sound(s)
    ensures Sound(RunEdits(s, edits))
    ensures Edited(RunEdits(s, edits), e) != Err(Failure.Panic)
    ensures e.DropStorage? && Edited(RunEdits(s, edits), e).Ok? ==>
              StorageOf(Edited(RunEdits(s, edits), e).value)
              == Without(StorageOf(RunEdits(s, edits)), StorageNamed(e.name))
    ensures e.DropUrl? && Edited(RunEdits(s, edits), e).Ok? ==>
              UrlsOf(Edited(RunEdits(s, edits), e).value) == Without(UrlsOf(RunEdits(s, edits)), UrlNamed(e.name))
    decreases edits
  {
    if edits == [] {
      if e.AddStorage? {
        ValidatedNoPanic(StorageOf(s), e.storage.name, e.storage.path);
      } else if !e.AddUrl? {
        DropsAreFilters(s, e.name);
      }
    } else {
      var next := Edited(s, edits[0]);
      if next.Ok? {
        EditKeepsSound(s, edits[0]);
      }
      EditsKeepSound(match next case Ok(v) => v case Err(_) => s, edits[1..], e);
    }
  }

  lemma {:induction false} ValidatedNoPanic(items: seq<Storage>, name: string, path: string)
    ensures Validated(items, name, path) != Err(Failure.Panic)
  {
    if items != [] {
      ValidatedNoPanic(items[1..], name, path);
    }
  }

  /** Adding a storage and dropping it again restores the list. */
  lemma AddThenDrop(s: Settings, item: Storage)
    requires Sound(s) && Edited(s, AddStorage(item)).Ok?
    ensures var added := Edited(s, AddStorage(item)).value;
            Edited(added, DropStorage(item.name)) == Ok(s.(storage := Some(StorageOf(s))))
  {
    var added := Edited(s, AddStorage(item)).value;
    EditKeepsSound(s, AddStorage(item));
    DropsAreFilters(added, item.name);
    ValidatedIff(StorageOf(s), item.name, item.path);
    WithoutConcat(StorageOf(s), [item], StorageNamed(item.name));
    WithoutNothing(StorageOf(s), StorageNamed(item.name));
    assert StorageOf(s) + [] == StorageOf(s);
    assert StorageOf(added)[|StorageOf(s)|] == item;
  }
}
