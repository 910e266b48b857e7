/** The catalog endpoints of the web server (app/routes.py), over what reading
    `catalog/manifest.json` gives: no file, a file that is not a manifest, or the
    decoded manifest. */
module Routes {
  import opened Wrappers

  /** A JSON value inside a sign's metadata: a string or `null`. */
  type Value = Option<string>

  /** A sign's metadata object. */
  type Meta = map<string, Value>

  /** One element of the manifest's `levels` list; any key may be absent. */
  datatype LevelRec = LevelRec(id: Option<int>, name: Option<string>, signs: Option<seq<string>>)

  /** The manifest object; `levels` and `signs` may be absent. */
  datatype Manifest = Manifest(levels: Option<seq<LevelRec>>, signs: Option<map<string, Meta>>)

  /** What `_load_manifest` and the first `m.get` meet: no file (`FileNotFoundError`),
      a file that is not a JSON object (`JSONDecodeError` from `json.load`, or
      `AttributeError` from `m.get` on another JSON value), or the manifest. */
  datatype Stored = Missing | Malformed | Decoded(manifest: Manifest)

  /** The reply of a route: its JSON body, or the status 500 Flask sends for an
      exception the route does not catch. */
  datatype Reply<T> = Body(body: T) | InternalError

  /** The reply of `/api/levels/<n>`: the level, a 404 when there is none, or the
      server error raised when the manifest cannot be read as a manifest. */
  datatype Detail = Found(id: int, name: Option<string>, signs: seq<Meta>) | NotFound | ServerError

  /** `/api/levels`: the manifest's levels, or none when the manifest is missing. Only
      `FileNotFoundError` is caught, so a malformed manifest is a server error. */
  function ApiLevels(m: Stored): (r: Reply<seq<LevelRec>>)
    ensures r.InternalError? <==> m.Malformed?
    ensures m.Missing? ==> r == Body([])
    ensures m.Decoded? && m.manifest.levels.Some? ==> r == Body(m.manifest.levels.value)
    ensures m.Decoded? && m.manifest.levels.None? ==> r == Body([])
  {
    match m
    case Missing => Body([])
    case Malformed => InternalError
    case Decoded(manifest) => Body(manifest.levels.GetOr([]))
  }

  /** `levels[i]` is the first level whose id is `n`. */
  predicate FirstAt(levels: seq<LevelRec>, n: int, i: int) {
    && 0 <= i < |levels| && levels[i].id == Some(n)
    && forall j :: 0 <= j < i ==> levels[j].id != Some(n)
  }

  /** `next(L for L in levels if L.get("id") == n)`. */
  function FirstLevel(levels: seq<LevelRec>, n: int): (r: Option<LevelRec>)
    ensures r.None? <==> forall i :: 0 <= i < |levels| ==> levels[i].id != Some(n)
    ensures r.Some? ==> exists i :: FirstAt(levels, n, i) && levels[i] == r.value
    ensures r.Some? ==> r.value in levels && r.value.id == Some(n)
  {
    if levels == [] then None
    else if levels[0].id == Some(n) then
      assert FirstAt(levels, n, 0);
      Some(levels[0])
    else
      var r := FirstLevel(levels[1..], n);
      if r.Some? then
        var i :| FirstAt(levels[1..], n, i) && levels[1..][i] == r.value;
        assert FirstAt(levels, n, i + 1);
        r
      else r
  }

  /** `{"id": sid, **signs_meta.get(sid, {"label": sid})}`: the metadata keys come
      after `id` and so override it. */
  function ExpandOne(meta: map<string, Meta>, sid: string): (e: Meta)
    ensures "id" in e
    ensures sid !in meta ==> e == map["id" := Some(sid), "label" := Some(sid)]
    ensures sid in meta ==> e.Keys == meta[sid].Keys + {"id"}
    ensures sid in meta ==> forall key :: key in meta[sid] ==> e[key] == meta[sid][key]
    ensures sid in meta && "id" !in meta[sid] ==> e["id"] == Some(sid)
  {
    map["id" := Some(sid)] + (if sid in meta then meta[sid] else map["label" := Some(sid)])
  }

  /** The expanded list: one object per sign id of the level, in the same order. */
  function Expand(meta: map<string, Meta>, sids: seq<string>): (r: seq<Meta>)
    ensures |r| == |sids|
    ensures forall i :: 0 <= i < |sids| ==> r[i] == ExpandOne(meta, sids[i])
  {
    if sids == [] then [] else [ExpandOne(meta, sids[0])] + Expand(meta, sids[1..])
  }

  /** `/api/levels/<n>`: nothing is caught, so a missing or malformed manifest is a
      server error; an unknown level is not found; otherwise the first level with the id, with each of its sign
      ids expanded, in order, to its metadata object. */
  function ApiLevelDetail(m: Stored, n: int): (r: Detail)
    ensures r == ServerError <==> !m.Decoded?
    ensures m.Decoded? ==> (r == NotFound <==> FirstLevel(m.manifest.levels.GetOr([]), n).None?)
    ensures r.Found? ==> m.Decoded? && r.id == n
    ensures r.Found? ==>
      var level := FirstLevel(m.manifest.levels.GetOr([]), n).value;
      && level.id == Some(n) && level in m.manifest.levels.GetOr([])
      && r.name == level.name && |r.signs| == |level.signs.GetOr([])|
      && forall i :: 0 <= i < |r.signs| ==>
           r.signs[i] == ExpandOne(m.manifest.signs.GetOr(map[]), level.signs.GetOr([])[i])
  {
    if !m.Decoded? then ServerError
    else
      match FirstLevel(m.manifest.levels.GetOr([]), n)
      case None => NotFound
      case Some(level) =>
        Found(n, level.name, Expand(m.manifest.signs.GetOr(map[]), level.signs.GetOr([])))
  }

  /** `/api/signs`: the signs object, or an empty one when the manifest is missing.
      Only `FileNotFoundError` is caught, so a malformed manifest is a server error. */
  function ApiSigns(m: Stored): (r: Reply<map<string, Meta>>)
    ensures r.InternalError? <==> m.Malformed?
    ensures m.Missing? ==> r == Body(map[])
    ensures m.Decoded? ==> r == Body(m.manifest.signs.GetOr(map[]))
  {
    match m
    case Missing => Body(map[])
    case Malformed => InternalError
    case Decoded(manifest) => Body(manifest.signs.GetOr(map[]))
  }

  /** The SPA fallback: the file served for `path`; `isFile` tells which paths name
      existing files of the static folder. */
  function Spa(path: string, isFile: string -> bool): (served: string)
    ensures served == path <==> path != "" && (isFile(path) || path == "index.html")
    ensures served != path ==> served == "index.html"
  {
    if path != "" && isFile(path) then path else "index.html"
  }
}
