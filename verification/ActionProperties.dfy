/**
 * Properties that relate the action creators to each other and to the state
 * they read: cache hits persist as the entity tables grow, requests name their
 * key unambiguously, the pagination defaults apply field by field, and the
 * content actions agree on the resource they address.
 */
module ActionProperties {
  import opened Wrappers
  import opened JsValues
  import opened Actions

  // ---------------------------------------------------------------- cache hits

  /**
   * `w` is what a successful load may leave where `v` was: entity rows are merged,
   * never deleted, so a truthy row stays truthy and keeps its own fields.
   */
  ghost predicate Grows(v: JsValue, w: JsValue)
  {
    Truthy(v) ==> Truthy(w) && (v.Obj? ==> w.Obj? && v.fields.Keys <= w.fields.Keys)
  }

  ghost predicate TableGrows(t: map<string, JsValue>, t': map<string, JsValue>)
  {
    forall k :: k in t ==> Grows(t[k], Lookup(t', k))
  }

  /** Once a guard finds its entity cached, it keeps doing so while the tables only grow. */
  lemma CacheHitsPersist(s: State, s': State, key: string, requiredFields: seq<string>)
    requires TableGrows(s.entity.users, s'.entity.users)
    requires TableGrows(s.entity.repos, s'.entity.repos)
    requires TableGrows(s.entity.forms, s'.entity.forms)
    ensures LoadUser(s, key) == None ==> LoadUser(s', key) == None
    ensures LoadRepo(s, key, requiredFields) == None ==> LoadRepo(s', key, requiredFields) == None
    ensures LoadForm(s, key) == None ==> LoadForm(s', key) == None
  {
  }

  /** With the default empty `requiredFields`, a truthy row alone is a cache hit. */
  lemma RepoExistenceSufficesByDefault(s: State, fullName: string)
    ensures LoadRepo(s, fullName, []) == None <==> Truthy(Lookup(s.entity.repos, fullName))
  {
  }

  /**
   * After a success stores a record with the required fields (for instance
   * `{id: "octocat/Hello-World", stars: 42}` with `["stars"]`), `loadRepo` is a no-op.
   */
  lemma RepoStoredWithFieldsIsCached(s: State, fullName: string, fields: map<string, JsValue>, requiredFields: seq<string>)
    requires forall i :: 0 <= i < |requiredFields| ==> requiredFields[i] in fields
    ensures LoadRepo(s.(entity := s.entity.(repos := s.entity.repos[fullName := Obj(fields)])), fullName, requiredFields) == None
  {
  }

  // ---------------------------------------------------------------- keys and endpoints

  lemma PrefixCancels(p: string, a: string, b: string)
    requires p + a == p + b
    ensures a == b
  {
    assert a == (p + a)[|p|..];
    assert b == (p + b)[|p|..];
  }

  lemma SuffixCancels(a: string, b: string, q: string)
    requires a + q == b + q
    ensures a == b
  {
    assert |a| == |b|;
    assert a == (a + q)[..|a|];
    assert b == (b + q)[..|b|];
  }

  /**
   * Each builder's endpoint determines the key it was built from, so loads of
   * two different entities (or first pages of two different parents) never
   * issue the same request.
   */
  lemma {:induction false} RequestsIdentifyTheirKey(a: string, b: string)
    ensures FetchUser(a).call.endpoint == FetchUser(b).call.endpoint ==> a == b
    ensures FetchRepo(a).call.endpoint == FetchRepo(b).call.endpoint ==> a == b
    ensures FetchForm(a).call.endpoint == FetchForm(b).call.endpoint ==> a == b
    ensures FetchSchema(Some(a)).call.endpoint == FetchSchema(Some(b)).call.endpoint ==> a == b
    ensures "users/" + a + "/starred" == "users/" + b + "/starred" ==> a == b
    ensures "repos/" + a + "/stargazers" == "repos/" + b + "/stargazers" ==> a == b
  {
    if FetchUser(a).call.endpoint == FetchUser(b).call.endpoint {
      PrefixCancels("user/email/", a, b);
    }
    if FetchRepo(a).call.endpoint == FetchRepo(b).call.endpoint {
      PrefixCancels("repos/", a, b);
    }
    if FetchForm(a).call.endpoint == FetchForm(b).call.endpoint {
      PrefixCancels("content/type/", a, b);
    }
    if FetchSchema(Some(a)).call.endpoint == FetchSchema(Some(b)).call.endpoint {
      if a != "" && b != "" {
        PrefixCancels("schema/", a, b);
      }
    }
    if "users/" + a + "/starred" == "users/" + b + "/starred" {
      SuffixCancels("users/" + a, "users/" + b, "/starred");
      PrefixCancels("users/", a, b);
    }
    if "repos/" + a + "/stargazers" == "repos/" + b + "/stargazers" {
      SuffixCancels("repos/" + a, "repos/" + b, "/stargazers");
      PrefixCancels("repos/", a, b);
    }
  }

  /** The content type id read back from a content endpoint path: everything before the first `/`. */
  function UpToSlash(path: string): string
  {
    if path == [] || path[0] == '/' then [] else [path[0]] + UpToSlash(path[1..])
  }

  lemma {:induction false} UpToSlashOfSegment(a: string, rest: string)
    requires '/' !in a
    ensures UpToSlash(a + "/" + rest) == a
  {
    if a == [] {
      assert (a + "/" + rest)[0] == '/';
    } else {
      assert (a + "/" + rest)[1..] == a[1..] + "/" + rest;
      UpToSlashOfSegment(a[1..], rest);
    }
  }

  /** The content endpoint is unambiguous as long as the content type id holds no `/`. */
  lemma {:induction false} ContentEndpointIdentifiesEntity(x: EntityInfo, y: EntityInfo)
    requires '/' !in x.id && '/' !in y.id
    ensures LoadContent(x).call.endpoint == LoadContent(y).call.endpoint ==> x.id == y.id && x.entityId == y.entityId
  {
    if LoadContent(x).call.endpoint == LoadContent(y).call.endpoint {
      assert LoadContent(x).call.endpoint == "content/" + (x.id + "/" + x.entityId);
      assert LoadContent(y).call.endpoint == "content/" + (y.id + "/" + y.entityId);
      PrefixCancels("content/", x.id + "/" + x.entityId, y.id + "/" + y.entityId);
      UpToSlashOfSegment(x.id, x.entityId);
      UpToSlashOfSegment(y.id, y.entityId);
      PrefixCancels(x.id + "/", x.entityId, y.entityId);
    }
  }

  /** Without that restriction two different entities can share one endpoint. */
  lemma ContentEndpointAmbiguousWithSlash()
    ensures LoadContent(EntityInfo("a/b", "c", Undefined)).call.endpoint
         == LoadContent(EntityInfo("a", "b/c", Undefined)).call.endpoint
  {
  }

  // ---------------------------------------------------------------- pagination

  /** `cursors[key] || {}`: a missing cursor reads exactly like a cursor with no fields. */
  lemma MissingCursorIsEmptyCursor(s: State, key: string, nextPage: bool)
    requires key !in s.pagination.starredByUser && key !in s.pagination.stargazersByRepo
    ensures LoadStarred(s, key, nextPage)
         == LoadStarred(s.(pagination := s.pagination.(starredByUser := s.pagination.starredByUser[key := Cursor(None, None)])), key, nextPage)
    ensures LoadStargazers(s, key, nextPage)
         == LoadStargazers(s.(pagination := s.pagination.(stargazersByRepo := s.pagination.stargazersByRepo[key := Cursor(None, None)])), key, nextPage)
  {
  }

  /** Without a cursor the guard always fetches the canonical first page. */
  lemma FirstPageWithoutCursor(s: State, key: string, nextPage: bool)
    requires key !in s.pagination.starredByUser && key !in s.pagination.stargazersByRepo
    ensures LoadStarred(s, key, nextPage) == Some(FetchStarred(key, "users/" + key + "/starred"))
    ensures LoadStargazers(s, key, nextPage) == Some(FetchStargazers(key, "repos/" + key + "/stargazers"))
  {
  }

  /**
   * The defaults apply field by field: a cursor that counts fetched pages but
   * has no `nextPageUrl` (the last page was reached) sends an explicit
   * next-page request back to the first page.
   */
  lemma ExhaustedCursorRestartsAtFirstPage(s: State, key: string, count: int)
    requires count > 0
    ensures var s1 := s.(pagination := s.pagination.(starredByUser := s.pagination.starredByUser[key := Cursor(None, Some(count))]));
      && LoadStarred(s1, key, false) == None
      && LoadStarred(s1, key, true) == Some(FetchStarred(key, "users/" + key + "/starred"))
    ensures var s2 := s.(pagination := s.pagination.(stargazersByRepo := s.pagination.stargazersByRepo[key := Cursor(None, Some(count))]));
      && LoadStargazers(s2, key, false) == None
      && LoadStargazers(s2, key, true) == Some(FetchStargazers(key, "repos/" + key + "/stargazers"))
  {
  }

  /** Fetched pages are only followed on an explicit request, and then at the stored continuation URL. */
  lemma NextPageFollowsCursor(s: State, key: string, url: string, count: int)
    requires count > 0
    ensures var s1 := s.(pagination := s.pagination.(starredByUser := s.pagination.starredByUser[key := Cursor(Some(url), Some(count))]));
      && LoadStarred(s1, key, false) == None
      && LoadStarred(s1, key, true) == Some(FetchStarred(key, url))
    ensures var s2 := s.(pagination := s.pagination.(stargazersByRepo := s.pagination.stargazersByRepo[key := Cursor(Some(url), Some(count))]));
      && LoadStargazers(s2, key, false) == None
      && LoadStargazers(s2, key, true) == Some(FetchStargazers(key, url))
  {
  }

  // ---------------------------------------------------------------- session and schema

  /** `loadSession` dispatches the same descriptor whatever the state holds. */
  lemma LoadSessionIgnoresState(s: State, s': State)
    ensures LoadSession(s) == LoadSession(s') == Some(FetchSession())
  {
  }

  /**
   * A schema load reaches reducers under the session's success and failure
   * labels: the two lifecycles share those strings and differ only in the request label.
   */
  lemma SchemaSharesSessionLabels(s: State, id: Option<string>)
    ensures LoadSchema(s, id) != None ==>
      && LoadSchema(s, id).value.call.types.success == FetchSession().call.types.success
      && LoadSchema(s, id).value.call.types.failure == FetchSession().call.types.failure
      && LoadSchema(s, id).value.call.types.request != FetchSession().call.types.request
  {
  }

  // ---------------------------------------------------------------- content

  /**
   * Saving and loading one entity address the same resource and both carry the
   * entity info; only the save is a `put` with a body, and the two lifecycles
   * share no label.
   */
  lemma ContentSaveAndLoadAgree(info: EntityInfo)
    ensures SaveContent(info).ApiAction? && LoadContent(info).ApiAction?
    ensures SaveContent(info).echo == map[] && LoadContent(info).echo == map[]
    ensures SaveContent(info).call.endpoint == LoadContent(info).call.endpoint == "content/" + info.id + "/" + info.entityId
    ensures SaveContent(info).call.api == LoadContent(info).call.api == "api"
    ensures SaveContent(info).call.schema == LoadContent(info).call.schema == None
    ensures SaveContent(info).call.types == Lifecycle(CONTENT_SAVE, CONTENT_SAVED, CONTENT_SAVE_ERR)
    ensures LoadContent(info).call.types == Lifecycle(CONTENT_REQUEST, CONTENT_SUCCESS, CONTENT_FAILURE)
    ensures SaveContent(info).call.entityInfo == LoadContent(info).call.entityInfo == Some(info)
    ensures SaveContent(info).call.httpMethod == Some("put") && LoadContent(info).call.httpMethod == None
    ensures SaveContent(info).call.body == Some(info.body) && LoadContent(info).call.body == None
    ensures var w, r := SaveContent(info).call.types, LoadContent(info).call.types;
      {w.request, w.success, w.failure} !! {r.request, r.success, r.failure}
  {
  }

  /** `addContent` looks to reducers like the success of a content load. */
  lemma AddContentActsAsLoadSuccess(entity: JsValue, info: EntityInfo)
    ensures AddContent(entity).PlainAction?
    ensures AddContent(entity).actionType == LoadContent(info).call.types.success
    ensures AddContent(entity).response == Obj(map["entity" := entity])
    ensures GetProp(AddContent(entity).response, "entity") == entity
  {
  }
}
