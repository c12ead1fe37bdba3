/**
 * The PAM authentication provider (PAMAuthenticationProvider.java): a
 * cache of the parsed mapping file keyed by the file's modification time,
 * and the authorization step that authenticates with PAM and resolves the
 * user's configurations. The file system, the XML reader's input and PAM
 * are parameters.
 */
module Provider {
  import opened Wrappers
  import opened UserMappings
  import opened ContentHandler

  /** What one call observes of GUACAMOLE_HOME/unix-user-mapping.xml. */
  datatype MappingFile = MappingFile(
    present: bool,                 // File.exists()
    modified: int,                 // File.lastModified(), read before parsing
    modifiedAfterRead: int,        // File.lastModified(), read again after a successful parse
    content: Option<seq<Event>>)   // the document's events; None when reading fails with an IOException

  /** The provider's two cache fields as a value. */
  datatype Cache = Cache(lastModified: int, cached: Option<MappingValue>)

  /** A new provider: lastModified is 0 and nothing is cached. */
  const InitialCache: Cache := Cache(0, None)

  /** One getUserMapping call: the cache afterwards, what it returns, whether it parsed the file. */
  datatype Refreshed = Refreshed(cache: Cache, result: Option<MappingValue>, parsed: bool)

  /** Reading and parsing the file: the mapping, or None on an IOException or a SAXException. */
  function Load(f: MappingFile): (r: Option<MappingValue>)
    ensures r.Some? <==> f.content.Some? && Parse(f.content.value).Ok?
    ensures r.Some? ==> r.value == Parse(f.content.value).value
  {
    if f.content.None? then None
    else
      match Parse(f.content.value)
      case Ok(m) => Some(m)
      case Err(_) => None
  }

  /**
   * getUserMapping on values. A missing file yields nothing. The file is
   * parsed only when lastModified is strictly less than its timestamp (so
   * a timestamp that moves backwards is ignored); a successful parse
   * replaces both fields and is returned, a failed one yields nothing and
   * keeps both fields. Otherwise the cached mapping is returned.
   */
  function Refresh(c: Cache, f: MappingFile): (r: Refreshed)
    ensures r.parsed <==> f.present && c.lastModified < f.modified
    ensures !f.present ==> r.result.None?
    ensures !r.parsed ==> r.cache == c
    ensures f.present && !r.parsed ==> r.result == c.cached
    ensures r.parsed ==> r.result == Load(f)
    ensures r.parsed && r.result.None? ==> r.cache == c
    ensures r.parsed && r.result.Some? ==> r.cache == Cache(f.modifiedAfterRead, r.result)
  {
    if !f.present then Refreshed(c, None, false)
    else if c.lastModified < f.modified then
      match Load(f)
      case None => Refreshed(c, None, true)
      case Some(m) => Refreshed(Cache(f.modifiedAfterRead, Some(m)), Some(m), true)
    else Refreshed(c, c.cached, false)
  }

  /** A run of getUserMapping calls: the final cache, each call's result, and how many parsed. */
  datatype Calls = Calls(cache: Cache, results: seq<Option<MappingValue>>, parses: nat)

  /** Refresh applied to each file in turn; a helper for stating the lemmas about runs of calls. */
  function RefreshAll(c: Cache, files: seq<MappingFile>): (r: Calls)
    ensures |r.results| == |files|
    decreases |files|
  {
    if files == [] then Calls(c, [], 0)
    else
      var first := Refresh(c, files[0]);
      var rest := RefreshAll(first.cache, files[1..]);
      Calls(rest.cache, [first.result] + rest.results, rest.parses + if first.parsed then 1 else 0)
  }

  /**
   * While the file exists and its timestamp is not newer than lastModified,
   * no call parses, the cache stays as it is and every call returns the
   * cached mapping.
   */
  lemma {:induction false} CacheHitsWhileUnchanged(c: Cache, files: seq<MappingFile>)
    requires forall i :: 0 <= i < |files| ==> files[i].present && files[i].modified <= c.lastModified
    ensures RefreshAll(c, files).cache == c
    ensures RefreshAll(c, files).parses == 0
    ensures forall i :: 0 <= i < |files| ==> RefreshAll(c, files).results[i] == c.cached
  {
    if files != [] {
      assert Refresh(c, files[0]) == Refreshed(c, c.cached, false);
      CacheHitsWhileUnchanged(c, files[1..]);
      var rest := RefreshAll(c, files[1..]);
      forall i | 0 < i < |files|
        ensures RefreshAll(c, files).results[i] == c.cached
      {
        assert RefreshAll(c, files).results[i] == rest.results[i - 1];
      }
    }
  }

  /**
   * Idempotence: after a successful parse, further calls that see the file
   * at the timestamp read after that parse return the same mapping and do
   * not parse again.
   */
  lemma {:induction false} ReloadThenHits(c: Cache, f: MappingFile, later: seq<MappingFile>)
    requires Refresh(c, f).parsed && Refresh(c, f).result.Some?
    requires forall i :: 0 <= i < |later| ==> later[i].present && later[i].modified == f.modifiedAfterRead
    ensures var r := RefreshAll(Refresh(c, f).cache, later);
            && r.parses == 0
            && forall i :: 0 <= i < |later| ==> r.results[i] == Refresh(c, f).result
  {
    CacheHitsWhileUnchanged(Refresh(c, f).cache, later);
  }

  /** A failed parse changes nothing, so the next call that sees the same timestamp parses again. */
  lemma FailedParseIsRetried(c: Cache, f: MappingFile, g: MappingFile)
    requires Refresh(c, f).parsed && Refresh(c, f).result.None?
    requires g.present && g.modified == f.modified
    ensures Refresh(Refresh(c, f).cache, g).parsed
  {
  }

  /**
   * Reloading: version 1 is parsed; a newer version 2 replaces it; a still
   * newer version that fails to parse yields nothing but keeps version 2
   * cached.
   */
  lemma ReloadExample(f1: MappingFile, f2: MappingFile, f3: MappingFile, v1: MappingValue, v2: MappingValue)
    requires f1.present && 0 < f1.modified && Load(f1) == Some(v1)
    requires f2.present && f1.modifiedAfterRead < f2.modified && Load(f2) == Some(v2)
    requires f3.present && f2.modifiedAfterRead < f3.modified && Load(f3).None?
    ensures var r := RefreshAll(InitialCache, [f1, f2, f3]);
            && r.results == [Some(v1), Some(v2), None]
            && r.cache == Cache(f2.modifiedAfterRead, Some(v2))
            && r.parses == 3
  {
    var c1 := Cache(f1.modifiedAfterRead, Some(v1));
    var c2 := Cache(f2.modifiedAfterRead, Some(v2));
    var r3 := RefreshAll(c2, [f3]);
    assert r3 == Calls(c2, [None], 1) by {
      assert Refresh(c2, f3) == Refreshed(c2, None, true);
      assert [f3][1..] == [];
      assert RefreshAll(c2, []) == Calls(c2, [], 0);
      var none: Option<MappingValue> := None;
      assert [none] + [] == [none];
    }
    var r2 := RefreshAll(c1, [f2, f3]);
    assert r2 == Calls(c2, [Some(v2), None], 2) by {
      assert Refresh(c1, f2) == Refreshed(c2, Some(v2), true);
      assert [f2, f3][1..] == [f3];
    }
    assert RefreshAll(InitialCache, [f1, f2, f3]) == Calls(c2, [Some(v1), Some(v2), None], 3) by {
      assert Refresh(InitialCache, f1) == Refreshed(c1, Some(v1), true);
      assert [f1, f2, f3][1..] == [f2, f3];
    }
  }

  /** PAM authentication of the caller's credentials against one service. */
  datatype PamResult =
    | Authenticated(groups: seq<string>)   // the Unix user and its groups
    | NoUser                               // authenticate returned null
    | PamFailure                           // a PAMException

  /** What getAuthorizedConfigurations yields. */
  datatype Authorization =
    | ServerError(message: string)                        // a GuacamoleServerException
    | Unauthorized                                        // null
    | Authorized(configs: map<string, Configuration>)

  const ConfigurationUnreadable: string := "Configuration could not be read."

  /**
   * getAuthorizedConfigurations on values: without a mapping it fails with
   * a server error; it authenticates against the mapping's service name;
   * an authenticated user gets the configurations resolved for the user's
   * name and groups, anything else is unauthorized.
   */
  function Authorize(mapping: Option<MappingValue>, userName: string, authenticate: string -> PamResult): (a: Authorization)
    ensures a.ServerError? <==> mapping.None?
    ensures a.ServerError? ==> a.message == ConfigurationUnreadable
    ensures a.Authorized? <==> mapping.Some? && authenticate(mapping.value.serviceName).Authenticated?
    ensures a.Authorized? ==>
              a.configs == Resolve(mapping.value, userName, authenticate(mapping.value.serviceName).groups)
  {
    match mapping
    case None => ServerError(ConfigurationUnreadable)
    case Some(m) =>
      match authenticate(m.serviceName)
      case Authenticated(groups) => Authorized(Resolve(m, userName, groups))
      case _ => Unauthorized
  }

  /**
   * A failed re-parse makes the request fail with a server error, even when
   * an earlier mapping is still cached.
   */
  lemma FailedReloadIsServerError(c: Cache, f: MappingFile, userName: string, authenticate: string -> PamResult)
    requires c.cached.Some? && f.present && c.lastModified < f.modified && Load(f).None?
    ensures Authorize(Refresh(c, f).result, userName, authenticate).ServerError?
    ensures Refresh(c, f).cache == c
  {
  }

  /** The provider object: the cache fields lastModified and cachedUserMapping. */
  class PAMAuthenticationProvider {
    var lastModified: int
    var cachedUserMapping: UserMapping?

    /** The cache fields as a value. */
    function CacheValue(): Cache
      reads this, cachedUserMapping
    {
      Cache(lastModified, if cachedUserMapping == null then None else Some(cachedUserMapping.Value()))
    }

    constructor ()
      ensures cachedUserMapping == null && CacheValue() == InitialCache
    {
      lastModified := 0;
      cachedUserMapping := null;
    }

    /**
     * getUserMapping: behaves as Refresh. A cache hit returns the cached
     * object itself; a successful parse caches and returns a new object;
     * every other outcome leaves both fields as they were.
     */
    method GetUserMapping(file: MappingFile) returns (m: UserMapping?)
      modifies this
      ensures var r := Refresh(old(CacheValue()), file);
              && CacheValue() == r.cache
              && (m == null <==> r.result.None?)
              && (m != null ==> m.Value() == r.result.value)
      ensures var r := Refresh(old(CacheValue()), file);
              && (r.parsed && r.result.Some? ==> fresh(m) && cachedUserMapping == m && lastModified == file.modifiedAfterRead)
              && (!(r.parsed && r.result.Some?) ==> unchanged(this))
              && (file.present && !r.parsed ==> m == old(cachedUserMapping))
    {
      if !file.present {
        return null;
      }
      if lastModified < file.modified {
        if file.content.None? {
          return null;
        }
        var parsed := ParseDocument(file.content.value);
        if parsed.Err? {
          return null;
        }
        lastModified := file.modifiedAfterRead;
        cachedUserMapping := parsed.value;
      }
      m := cachedUserMapping;
    }

    /**
     * getAuthorizedConfigurations: behaves as Authorize applied to what
     * getUserMapping returns, with the cache updated as getUserMapping does.
     */
    method GetAuthorizedConfigurations(file: MappingFile, userName: string, authenticate: string -> PamResult)
      returns (a: Authorization)
      modifies this
      ensures a == Authorize(Refresh(old(CacheValue()), file).result, userName, authenticate)
      ensures CacheValue() == Refresh(old(CacheValue()), file).cache
    {
      var userMapping := GetUserMapping(file);
      if userMapping == null {
        return ServerError(ConfigurationUnreadable);
      }
      var serviceName := userMapping.GetServiceName();
      match authenticate(serviceName)
      case Authenticated(groups) =>
        var configs := userMapping.GetConfigurations(userName, groups);
        a := Authorized(configs);
      case _ =>
        a := Unauthorized;
    }
  }
}
