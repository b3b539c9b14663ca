/**
 * The action creators of the store: the `fetchX` builders that describe one API
 * call, and the `loadX` guards that read a snapshot of the central state and
 * decide between doing nothing (`null`, here `None`) and dispatching one
 * descriptor (here returned as `Some`). The module-level `urlLoading` dictionary
 * and `loadUrl`, the one guard with state of its own, are in module UrlLoading.
 */
module Actions {
  import opened Wrappers
  import opened JsValues

  // Lifecycle labels, as exported by the action module.
  const USER_REQUEST := "USER_REQUEST"
  const USER_SUCCESS := "USER_SUCCESS"
  const USER_FAILURE := "USER_FAILURE"
  const REPO_REQUEST := "REPO_REQUEST"
  const REPO_SUCCESS := "REPO_SUCCESS"
  const REPO_FAILURE := "REPO_FAILURE"
  const STARRED_REQUEST := "STARRED_REQUEST"
  const STARRED_SUCCESS := "STARRED_SUCCESS"
  const STARRED_FAILURE := "STARRED_FAILURE"
  const STARGAZERS_REQUEST := "STARGAZERS_REQUEST"
  const STARGAZERS_SUCCESS := "STARGAZERS_SUCCESS"
  const STARGAZERS_FAILURE := "STARGAZERS_FAILURE"
  const URL_REQUEST := "URL_REQUEST"
  const URL_SUCCESS := "URL_SUCCESS"
  const URL_FAILURE := "URL_FAILURE"
  const FORM_REQUEST := "FORM_REQUEST"
  const FORM_SUCCESS := "FORM_SUCCESS"
  const FORM_FAILURE := "FORM_FAILURE"
  const SESS_REQUEST := "SESS_REQUEST"
  const SESS_SUCCESS := "SESS_SUCCESS"
  const SESS_FAILURE := "SESS_FAILURE"
  const SCHEMA_REQUEST := "SCHEMA_REQUEST"
  // The schema success and failure labels are the session strings, as in the source.
  const SCHEMA_SUCCESS := "SESS_SUCCESS"
  const SCHEMA_FAILURE := "SESS_FAILURE"
  const CONTENT_SAVE := "CONTENT_SAVE"
  const CONTENT_SAVED := "CONTENT_SAVED"
  const CONTENT_SAVE_ERR := "CONTENT_SAVE_ERR"
  const CONTENT_REQUEST := "CONTENT_REQUEST"
  const CONTENT_SUCCESS := "CONTENT_SUCCESS"
  const CONTENT_FAILURE := "CONTENT_FAILURE"

  /** The normalization schemas of the API middleware, as opaque tags. */
  datatype SchemaTag = User | Repo | RepoArray | UserArray | Url | Form | Session | Schema

  /** The `types` triple: request, success and failure labels. */
  datatype Lifecycle = Lifecycle(request: string, success: string, failure: string)

  /** The `entityInfo` record of the content actions; a missing `body` is `Undefined`. */
  datatype EntityInfo = EntityInfo(id: string, entityId: string, body: JsValue)

  /** The object under the `CALL_API` key: what the API middleware is asked to do. */
  datatype CallApi = CallApi(
    types: Lifecycle,
    api: string,
    endpoint: string,
    schema: Option<SchemaTag>,
    httpMethod: Option<string>,
    body: Option<JsValue>,
    entityInfo: Option<EntityInfo>)

  /**
   * A dispatched action: either an API descriptor, with the top-level
   * correlation fields (`login`, `fullName`) it carries beside `CALL_API`,
   * or a plain action with a `type` and a `response`.
   */
  datatype Action =
    | ApiAction(echo: map<string, string>, call: CallApi)
    | PlainAction(actionType: string, response: JsValue)

  /** A pagination cursor; `None` is a field that is not there (reads as `undefined`). */
  datatype Cursor = Cursor(nextPageUrl: Option<string>, pageCount: Option<int>)

  /** `state.entity`: identifier-keyed tables, plus the `schema` and `session` slots. */
  datatype Entities = Entities(
    users: map<string, JsValue>,
    repos: map<string, JsValue>,
    url: map<string, JsValue>,
    forms: map<string, JsValue>,
    schema: JsValue,
    session: JsValue)

  /** `state.pagination`: cursors keyed by parent (user login, repo full name). */
  datatype Pagination = Pagination(
    starredByUser: map<string, Cursor>,
    stargazersByRepo: map<string, Cursor>)

  /** The snapshot returned by `getState()`. */
  datatype State = State(entity: Entities, pagination: Pagination)

  /** `a` asks the API middleware for a plain read: no method, no body, no entity info. */
  predicate IsFetch(a: Action, types: Lifecycle, api: string, endpoint: string, schema: SchemaTag)
  {
    && a.ApiAction?
    && a.call.types == types
    && a.call.api == api
    && a.call.endpoint == endpoint
    && a.call.schema == Some(schema)
    && a.call.httpMethod == None
    && a.call.body == None
    && a.call.entityInfo == None
  }

  // ---------------------------------------------------------------- users

  function FetchUser(login: string): Action
  {
    ApiAction(map[], CallApi(Lifecycle(USER_REQUEST, USER_SUCCESS, USER_FAILURE),
                             "api", "user/email/" + login, Some(User), None, None, None))
  }

  /** `loadUser(login)` applied to a state snapshot. */
  function LoadUser(s: State, login: string): (r: Option<Action>)
    ensures r == None <==> Truthy(Lookup(s.entity.users, login))
    ensures r != None ==>
      && IsFetch(r.value, Lifecycle(USER_REQUEST, USER_SUCCESS, USER_FAILURE), "api", "user/email/" + login, User)
      && r.value.echo == map[]
  {
    if Truthy(Lookup(s.entity.users, login)) then None else Some(FetchUser(login))
  }

  // ---------------------------------------------------------------- repos

  function FetchRepo(fullName: string): Action
  {
    ApiAction(map[], CallApi(Lifecycle(REPO_REQUEST, REPO_SUCCESS, REPO_FAILURE),
                             "github", "repos/" + fullName, Some(Repo), None, None, None))
  }

  /** `keys.every(key => v.hasOwnProperty(key))`. */
  function EveryOwn(v: JsValue, keys: seq<string>): (r: bool)
    ensures r <==> forall i :: 0 <= i < |keys| ==> HasOwn(v, keys[i])
  {
    if keys == [] then true else HasOwn(v, keys[0]) && EveryOwn(v, keys[1..])
  }

  /** `loadRepo(fullName, requiredFields)` applied to a state snapshot. */
  function LoadRepo(s: State, fullName: string, requiredFields: seq<string>): (r: Option<Action>)
    ensures r == None <==>
      && Truthy(Lookup(s.entity.repos, fullName))
      && forall i :: 0 <= i < |requiredFields| ==> HasOwn(Lookup(s.entity.repos, fullName), requiredFields[i])
    ensures r != None ==>
      && IsFetch(r.value, Lifecycle(REPO_REQUEST, REPO_SUCCESS, REPO_FAILURE), "github", "repos/" + fullName, Repo)
      && r.value.echo == map[]
  {
    var repo := Lookup(s.entity.repos, fullName);
    if Truthy(repo) && EveryOwn(repo, requiredFields) then None else Some(FetchRepo(fullName))
  }

  // ---------------------------------------------------------------- pagination

  /** The `nextPageUrl` a guard destructures from `cursors[key] || {}`, with its default. */
  function NextPageUrl(cursors: map<string, Cursor>, key: string, firstPage: string): string
  {
    if key in cursors && cursors[key].nextPageUrl.Some? then cursors[key].nextPageUrl.value else firstPage
  }

  /** The `pageCount` a guard destructures from `cursors[key] || {}`, defaulting to 0. */
  function PageCount(cursors: map<string, Cursor>, key: string): int
  {
    if key in cursors && cursors[key].pageCount.Some? then cursors[key].pageCount.value else 0
  }

  function FetchStarred(login: string, nextPageUrl: string): Action
  {
    ApiAction(map["login" := login],
              CallApi(Lifecycle(STARRED_REQUEST, STARRED_SUCCESS, STARRED_FAILURE),
                      "github", nextPageUrl, Some(RepoArray), None, None, None))
  }

  /** `loadStarred(login, nextPage)` applied to a state snapshot; `nextPage` is its truthiness. */
  function LoadStarred(s: State, login: string, nextPage: bool): (r: Option<Action>)
    ensures r == None <==> PageCount(s.pagination.starredByUser, login) > 0 && !nextPage
    ensures r != None ==>
      && IsFetch(r.value, Lifecycle(STARRED_REQUEST, STARRED_SUCCESS, STARRED_FAILURE), "github",
                 NextPageUrl(s.pagination.starredByUser, login, "users/" + login + "/starred"), RepoArray)
      && r.value.echo == map["login" := login]
  {
    var nextPageUrl := NextPageUrl(s.pagination.starredByUser, login, "users/" + login + "/starred");
    var pageCount := PageCount(s.pagination.starredByUser, login);
    if pageCount > 0 && !nextPage then None else Some(FetchStarred(login, nextPageUrl))
  }

  function FetchStargazers(fullName: string, nextPageUrl: string): Action
  {
    ApiAction(map["fullName" := fullName],
              CallApi(Lifecycle(STARGAZERS_REQUEST, STARGAZERS_SUCCESS, STARGAZERS_FAILURE),
                      "github", nextPageUrl, Some(UserArray), None, None, None))
  }

  /** `loadStargazers(fullName, nextPage)` applied to a state snapshot. */
  function LoadStargazers(s: State, fullName: string, nextPage: bool): (r: Option<Action>)
    ensures r == None <==> PageCount(s.pagination.stargazersByRepo, fullName) > 0 && !nextPage
    ensures r != None ==>
      && IsFetch(r.value, Lifecycle(STARGAZERS_REQUEST, STARGAZERS_SUCCESS, STARGAZERS_FAILURE), "github",
                 NextPageUrl(s.pagination.stargazersByRepo, fullName, "repos/" + fullName + "/stargazers"), UserArray)
      && r.value.echo == map["fullName" := fullName]
  {
    var nextPageUrl := NextPageUrl(s.pagination.stargazersByRepo, fullName, "repos/" + fullName + "/stargazers");
    var pageCount := PageCount(s.pagination.stargazersByRepo, fullName);
    if pageCount > 0 && !nextPage then None else Some(FetchStargazers(fullName, nextPageUrl))
  }

  // ---------------------------------------------------------------- external URLs

  /** `fetchUrl(url)`; `encode` stands for `encodeURIComponent`. */
  function FetchUrl(url: string, encode: string -> string): Action
  {
    ApiAction(map[], CallApi(Lifecycle(URL_REQUEST, URL_SUCCESS, URL_FAILURE),
                             "api", "content/url?subject=thing&url=" + encode(url), Some(Url), None, None, None))
  }

  // ---------------------------------------------------------------- forms

  function FetchForm(formId: string): Action
  {
    ApiAction(map[], CallApi(Lifecycle(FORM_REQUEST, FORM_SUCCESS, FORM_FAILURE),
                             "api", "content/type/" + formId, Some(Form), None, None, None))
  }

  /** `loadForm(formId)` applied to a state snapshot. */
  function LoadForm(s: State, formId: string): (r: Option<Action>)
    ensures r == None <==> Truthy(Lookup(s.entity.forms, formId))
    ensures r != None ==>
      && IsFetch(r.value, Lifecycle(FORM_REQUEST, FORM_SUCCESS, FORM_FAILURE), "api", "content/type/" + formId, Form)
      && r.value.echo == map[]
  {
    if Truthy(Lookup(s.entity.forms, formId)) then None else Some(FetchForm(formId))
  }

  // ---------------------------------------------------------------- session

  function FetchSession(): Action
  {
    ApiAction(map[], CallApi(Lifecycle(SESS_REQUEST, SESS_SUCCESS, SESS_FAILURE),
                             "api", "user/me", Some(Session), None, None, None))
  }

  /** `loadSession()` applied to a state snapshot: it reads `entity.session` and ignores it. */
  function LoadSession(s: State): (r: Option<Action>)
    ensures r != None
    ensures IsFetch(r.value, Lifecycle(SESS_REQUEST, SESS_SUCCESS, SESS_FAILURE), "api", "user/me", Session)
    ensures r.value.echo == map[]
  {
    var session := Or(s.entity.session, EMPTY_OBJECT);
    Some(FetchSession())
  }

  // ---------------------------------------------------------------- schema

  /** Truthiness of a schema id that is a string or `undefined` (`None`). */
  predicate IdGiven(id: Option<string>)
  {
    id.Some? && id.value != ""
  }

  /** `fetchSchema(id)`: endpoint `schema`, extended by `/id` when the id is truthy. */
  function FetchSchema(id: Option<string>): (r: Action)
    ensures r.ApiAction? && r.echo == map[]
    ensures r.call.endpoint == "schema" <==> !IdGiven(id)
    ensures IdGiven(id) ==> r.call.endpoint == "schema/" + id.value
    ensures IsFetch(r, Lifecycle(SCHEMA_REQUEST, SESS_SUCCESS, SESS_FAILURE), "api", r.call.endpoint, Schema)
  {
    var endpoint := if IdGiven(id) then "schema" + "/" + id.value else "schema";
    ApiAction(map[], CallApi(Lifecycle(SCHEMA_REQUEST, SCHEMA_SUCCESS, SCHEMA_FAILURE),
                             "api", endpoint, Some(Schema), None, None, None))
  }

  /**
   * `loadSchema(id)` applied to a state snapshot. The third test of the source
   * (`!id && schema.Thing`) is kept; the contract shows it never decides anything.
   */
  function LoadSchema(s: State, id: Option<string>): (r: Option<Action>)
    ensures r == None <==>
      || !IdGiven(id)
      || (&& Truthy(GetProp(Or(s.entity.schema, EMPTY_OBJECT), id.value))
          && Truthy(GetProp(GetProp(Or(s.entity.schema, EMPTY_OBJECT), id.value), "property")))
    ensures r != None ==>
      && IdGiven(id)
      && IsFetch(r.value, Lifecycle(SCHEMA_REQUEST, SCHEMA_SUCCESS, SCHEMA_FAILURE), "api", "schema/" + id.value, Schema)
      && r.value.echo == map[]
  {
    var schema := Or(s.entity.schema, EMPTY_OBJECT);
    if !IdGiven(id) then None
    else if IdGiven(id) && Truthy(GetProp(schema, id.value)) && Truthy(GetProp(GetProp(schema, id.value), "property")) then None
    else if !IdGiven(id) && Truthy(GetProp(schema, "Thing")) then None
    else Some(FetchSchema(id))
  }

  // ---------------------------------------------------------------- content

  /** `saveContent(entityInfo)`: a `put` of the entity body; it consults no state. */
  function SaveContent(info: EntityInfo): Action
  {
    ApiAction(map[], CallApi(Lifecycle(CONTENT_SAVE, CONTENT_SAVED, CONTENT_SAVE_ERR), "api",
                             "content/" + info.id + "/" + info.entityId, None, Some("put"), Some(info.body), Some(info)))
  }

  /** `loadContent(entityInfo)`: a read of the same resource; it consults no state. */
  function LoadContent(info: EntityInfo): Action
  {
    ApiAction(map[], CallApi(Lifecycle(CONTENT_REQUEST, CONTENT_SUCCESS, CONTENT_FAILURE), "api",
                             "content/" + info.id + "/" + info.entityId, None, None, None, Some(info)))
  }

  /** `addContent(entity)`: a plain action, not an API descriptor. */
  function AddContent(entity: JsValue): Action
  {
    PlainAction(CONTENT_SUCCESS, Obj(map["entity" := entity]))
  }
}
