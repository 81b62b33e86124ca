/** internal/store/sqlite/store.go: the sources and accounts tables, and how a source is recognised. */
module Registry {
  import opened Text
  import opened Usage
  import opened Segments

  datatype Source = Source(kind: string, name: string, url: string)

  datatype Account = Account(login: string, segments: seq<Segment>)

  /** The database. Rows of `sources` are never deleted, so a row's place stands for its id. */
  datatype Tables = Tables(sources: seq<Source>, accounts: map<(int, string), Account>)

  /** Names are pairwise distinct, and so are URLs. */
  ghost predicate UniqueSources(sources: seq<Source>) {
    forall i, j | 0 <= i < j < |sources| :: sources[i].name != sources[j].name && sources[i].url != sources[j].url
  }

  ghost function OwnerOfName(sources: seq<Source>, name: string): Option<int> {
    if exists i :: 0 <= i < |sources| && sources[i].name == name then
      var i :| 0 <= i < |sources| && sources[i].name == name;
      Some(i)
    else None
  }

  ghost function OwnerOfURL(sources: seq<Source>, url: string): Option<int> {
    if exists i :: 0 <= i < |sources| && sources[i].url == url then
      var i :| 0 <= i < |sources| && sources[i].url == url;
      Some(i)
    else None
  }

  /** The source with this name, else the one with this URL; two different owners are an error. */
  ghost function Resolve(sources: seq<Source>, name: string, url: string): Result<Option<int>> {
    var byName, byURL := OwnerOfName(sources, name), OwnerOfURL(sources, url);
    if byName.Some? && byURL.Some? && byName != byURL then Err(AmbiguousSource)
    else if byName.Some? then Ok(byName)
    else Ok(byURL)
  }

  /** `resolveSourceID`, reading the matching rows in the order of their ids. */
  method ResolveSourceID(sources: seq<Source>, name: string, url: string) returns (r: Result<Option<int>>)
    ensures UniqueSources(sources) ==> r == Resolve(sources, name, url)
  {
    var nameID: Option<int>, urlID: Option<int> := None, None;
    for id := 0 to |sources|
      invariant nameID.Some? <==> exists i :: 0 <= i < id && sources[i].name == name
      invariant nameID.Some? ==> 0 <= nameID.value < id && sources[nameID.value].name == name
      invariant urlID.Some? <==> exists i :: 0 <= i < id && sources[i].url == url
      invariant urlID.Some? ==> 0 <= urlID.value < id && sources[urlID.value].url == url
    {
      if sources[id].name == name {
        if nameID.Some? && nameID.value != id {
          return Err(AmbiguousSource);
        }
        nameID := Some(id);
      }
      if sources[id].url == url {
        if urlID.Some? && urlID.value != id {
          return Err(AmbiguousSource);
        }
        urlID := Some(id);
      }
    }
    if nameID.Some? && urlID.Some? && nameID != urlID {
      return Err(AmbiguousSource);
    }
    r := Ok(if nameID.Some? then nameID else urlID);
  }

  /** The sources after a source was seen under a name and a URL, and the place it has. */
  ghost function PersistSource(sources: seq<Source>, source: Source): Result<(seq<Source>, int)> {
    match Resolve(sources, source.name, source.url)
    case Err(e) => Err(e)
    case Ok(Some(id)) => if 0 <= id < |sources| then Ok((sources[id := source], id)) else Err(CannotPersist)
    case Ok(None) => Ok((sources + [source], |sources|))
  }

  /** The account row for a login, created when it is new. */
  function PersistLogin(accounts: map<(int, string), Account>, id: int, login: string): map<(int, string), Account> {
    var key := (id, Lower(login));
    accounts[key := Account(login, if key in accounts then accounts[key].segments else [])]
  }

  /** `persistAccount`. */
  method PersistAccount(tables: Tables, source: Source, login: string) returns (r: Result<(Tables, int)>)
    requires UniqueSources(tables.sources)
    ensures match PersistSource(tables.sources, source)
      case Err(e) => r == Err(e)
      case Ok((sources, id)) => r == Ok((Tables(sources, PersistLogin(tables.accounts, id, login)), id))
  {
    var resolved := ResolveSourceID(tables.sources, source.name, source.url);
    if resolved.Err? {
      return Err(resolved.error);
    }
    var sources := tables.sources;
    var id;
    if resolved.value.Some? {
      id := resolved.value.value;
      sources := sources[id := source];
    } else {
      id := |sources|;
      sources := sources + [source];
    }
    r := Ok((Tables(sources, PersistLogin(tables.accounts, id, login)), id));
  }

  // ---- identity

  /** Owners are unique, so any row with the name or URL is the owner. */
  lemma Owners(sources: seq<Source>, id: int)
    requires UniqueSources(sources) && 0 <= id < |sources|
    ensures OwnerOfName(sources, sources[id].name) == Some(id)
    ensures OwnerOfURL(sources, sources[id].url) == Some(id)
  {
    forall i | 0 <= i < |sources| && i != id
      ensures sources[i].name != sources[id].name && sources[i].url != sources[id].url
    {
    }
  }

  /** Resolving fails exactly when one source has the name and a different one has the URL; a column never matches twice. */
  lemma AmbiguousExactly(sources: seq<Source>, name: string, url: string)
    requires UniqueSources(sources)
    ensures Resolve(sources, name, url).Err? <==>
      exists i, j :: 0 <= i < |sources| && 0 <= j < |sources| && i != j && sources[i].name == name && sources[j].url == url
  {
    if i, j :| 0 <= i < |sources| && 0 <= j < |sources| && i != j && sources[i].name == name && sources[j].url == url {
      Owners(sources, i);
      Owners(sources, j);
    }
  }

  /** Seeing a source keeps names and URLs distinct, keeps every other source, and makes it resolve to its place. */
  lemma SourceKept(sources: seq<Source>, source: Source)
    requires UniqueSources(sources) && PersistSource(sources, source).Ok?
    ensures var (after, id) := PersistSource(sources, source).value;
      && UniqueSources(after) && |sources| <= |after|
      && 0 <= id < |after| && after[id] == source
      && (forall i | 0 <= i < |sources| && i != id :: after[i] == sources[i])
      && Resolve(after, source.name, source.url) == Ok(Some(id))
  {
    var (after, id) := PersistSource(sources, source).value;
    forall i | 0 <= i < |sources| && i != id
      ensures sources[i].name != source.name && sources[i].url != source.url
    {
      Owners(sources, i);
    }
    Owners(after, id);
  }

  /** A source that was seen is found again under its name with a new URL, or under its URL with a new name, if no other source has the new value. */
  lemma SourceRecognised(sources: seq<Source>, source: Source, name: string, url: string)
    requires UniqueSources(sources) && PersistSource(sources, source).Ok?
    ensures var (after, id) := PersistSource(sources, source).value;
      && (OwnerOfURL(after, url) in {None, Some(id)} ==> Resolve(after, source.name, url) == Ok(Some(id)))
      && (OwnerOfName(after, name) in {None, Some(id)} ==> Resolve(after, name, source.url) == Ok(Some(id)))
  {
    SourceKept(sources, source);
    var (after, id) := PersistSource(sources, source).value;
    Owners(after, id);
  }
}
