/**
 * `loadUrl` and the module-level `urlLoading` dictionary it consults. The
 * dictionary is set for every syntactically valid URL the first time it is
 * asked for (cache hit or not) and is never cleared, so each URL is dispatched
 * at most once for the lifetime of the module.
 */
module UrlLoading {
  import opened Wrappers
  import opened JsValues
  import opened Actions

  /** `urlLoading[url]` is truthy. */
  predicate Flagged(loading: map<string, bool>, url: string)
  {
    url in loading && loading[url]
  }

  /** The dictionary after a call, and what the call dispatched. */
  datatype Step = Step(loading: map<string, bool>, result: Option<Action>)

  /**
   * One call of `loadUrl(url)` against dictionary `loading` and state `s`.
   * `isUrl` stands for `isURL` of the validator library and `encode` for
   * `encodeURIComponent`; neither is modelled beyond being a function.
   */
  function LoadUrlStep(loading: map<string, bool>, isUrl: string -> bool, encode: string -> string,
                       s: State, url: string): (st: Step)
    ensures !isUrl(url) || Flagged(loading, url) ==> st == Step(loading, None)
    ensures isUrl(url) && !Flagged(loading, url) ==> st.loading == loading[url := true]
    ensures st.result != None <==> isUrl(url) && !Flagged(loading, url) && !Truthy(Lookup(s.entity.url, url))
    ensures st.result != None ==>
      && IsFetch(st.result.value, Lifecycle(URL_REQUEST, URL_SUCCESS, URL_FAILURE), "api",
                 "content/url?subject=thing&url=" + encode(url), Url)
      && st.result.value.echo == map[]
  {
    if !isUrl(url) then Step(loading, None)
    else if Flagged(loading, url) then Step(loading, None)
    else
      var flagged := loading[url := true];
      if Truthy(Lookup(s.entity.url, url)) then Step(flagged, None)
      else Step(flagged, Some(FetchUrl(url, encode)))
  }

  /** A second call for a URL returns `null` whatever the state then holds, and changes nothing. */
  lemma SecondLoadIsNoop(loading: map<string, bool>, isUrl: string -> bool, encode: string -> string,
                         s: State, s': State, url: string)
    ensures var first := LoadUrlStep(loading, isUrl, encode, s, url);
      LoadUrlStep(first.loading, isUrl, encode, s', url) == Step(first.loading, None)
  {
  }

  predicate NoRepeats(urls: seq<string>)
  {
    forall i, j :: 0 <= i < j < |urls| ==> urls[i] != urls[j]
  }

  /**
   * A sequence of `loadUrl` calls, each with the state snapshot of its own
   * time: the final dictionary and the URLs dispatched, in order.
   */
  function Run(loading: map<string, bool>, isUrl: string -> bool, encode: string -> string,
               calls: seq<(State, string)>): (map<string, bool>, seq<string>)
    decreases |calls|
  {
    if calls == [] then (loading, [])
    else
      var st := LoadUrlStep(loading, isUrl, encode, calls[0].0, calls[0].1);
      var rest := Run(st.loading, isUrl, encode, calls[1..]);
      (rest.0, (if st.result != None then [calls[0].1] else []) + rest.1)
  }

  /**
   * Over any sequence of calls: flags are never cleared, every dispatched URL
   * is valid, was not flagged at the start and is flagged at the end, and no
   * URL is dispatched twice.
   */
  lemma {:induction false} RunDispatchesEachUrlOnce(loading: map<string, bool>, isUrl: string -> bool,
                                                    encode: string -> string, calls: seq<(State, string)>)
    ensures forall u :: Flagged(loading, u) ==> Flagged(Run(loading, isUrl, encode, calls).0, u)
    ensures forall i :: 0 <= i < |Run(loading, isUrl, encode, calls).1| ==>
      var u := Run(loading, isUrl, encode, calls).1[i];
      isUrl(u) && !Flagged(loading, u) && Flagged(Run(loading, isUrl, encode, calls).0, u)
    ensures NoRepeats(Run(loading, isUrl, encode, calls).1)
    decreases |calls|
  {
    if calls != [] {
      var st := LoadUrlStep(loading, isUrl, encode, calls[0].0, calls[0].1);
      RunDispatchesEachUrlOnce(st.loading, isUrl, encode, calls[1..]);
      var rest := Run(st.loading, isUrl, encode, calls[1..]);
      var head: seq<string> := if st.result != None then [calls[0].1] else [];
      var sent := Run(loading, isUrl, encode, calls).1;
      assert sent == head + rest.1;
      forall i | 0 <= i < |sent|
        ensures isUrl(sent[i]) && !Flagged(loading, sent[i]) && Flagged(rest.0, sent[i])
      {
        if i >= |head| {
          assert sent[i] == rest.1[i - |head|];
        }
      }
      forall i, j | 0 <= i < j < |sent|
        ensures sent[i] != sent[j]
      {
        if i >= |head| {
          assert sent[i] == rest.1[i - |head|] && sent[j] == rest.1[j - |head|];
        } else {
          assert sent[i] == calls[0].1 && Flagged(st.loading, calls[0].1);
          assert sent[j] == rest.1[j - |head|];
        }
      }
    }
  }

  /** The module-level state of `loadUrl`: the validator and encoder it uses and the `urlLoading` dictionary. */
  class UrlLoader {
    const isUrl: string -> bool
    const encode: string -> string
    var urlLoading: map<string, bool>
    /** The URLs dispatched so far, oldest first. */
    ghost var dispatched: seq<string>

    /** Only valid URLs are flagged, only `true` is stored, and every dispatched URL is flagged, once. */
    ghost predicate Valid()
      reads this
    {
      && (forall u :: u in urlLoading ==> urlLoading[u] && isUrl(u))
      && (forall i :: 0 <= i < |dispatched| ==> dispatched[i] in urlLoading)
      && NoRepeats(dispatched)
    }

    /** `const urlLoading = {}`. */
    constructor (isUrl: string -> bool, encode: string -> string)
      ensures Valid()
      ensures this.isUrl == isUrl && this.encode == encode
      ensures urlLoading == map[] && dispatched == []
    {
      this.isUrl := isUrl;
      this.encode := encode;
      urlLoading := map[];
      dispatched := [];
    }

    /** `loadUrl(url)` applied to the state snapshot `s`. */
    method LoadUrl(s: State, url: string) returns (r: Option<Action>)
      requires Valid()
      modifies this
      ensures Valid()
      ensures Step(urlLoading, r) == LoadUrlStep(old(urlLoading), isUrl, encode, s, url)
      ensures dispatched == old(dispatched) + (if r != None then [url] else [])
      ensures old(urlLoading).Keys <= urlLoading.Keys
    {
      if !isUrl(url) {
        return None;
      }
      if url in urlLoading && urlLoading[url] {
        return None;
      }
      urlLoading := urlLoading[url := true];
      var item := Lookup(s.entity.url, url);
      if Truthy(item) {
        return None;
      }
      r := Some(FetchUrl(url, encode));
      dispatched := dispatched + [url];
    }
  }

  /**
   * A client of the loader: from a fresh module, a valid URL that is not cached
   * is dispatched on the first call and suppressed on the second.
   */
  method LoadTwice(isUrl: string -> bool, encode: string -> string, s: State, url: string)
    returns (first: Option<Action>, second: Option<Action>)
    requires isUrl(url) && url !in s.entity.url
    ensures first == Some(FetchUrl(url, encode))
    ensures second == None
  {
    var loader := new UrlLoader(isUrl, encode);
    first := loader.LoadUrl(s, url);
    second := loader.LoadUrl(s, url);
  }
}
