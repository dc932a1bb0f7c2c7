/** The two pieces of UserGateway, the object a user's scripts see as
    `this`, that are not network or file plumbing: the URL allow-list of
    req (cbot.py:93-103) and the fallback of init_state that gives a user
    an empty state when their stored one is missing or not a dict
    (cbot.py:77-91). */
module Gateway {
  import opened Text
  import opened Errors
  import opened Values

  /** URL_ALLOW_LIST (cbot.py:12). */
  const UrlAllowList: seq<string> := ["https://qrng.anu.edu.au/API/jsonl.php", "api.duckduckgo.com"]

  /** The test req applies: some allowed entry occurs anywhere in the URL. */
  predicate Allowed(url: string) {
    exists k :: 0 <= k < |UrlAllowList| && IsSubstring(UrlAllowList[k], url)
  }

  /** req(url) (cbot.py:93-103): walk the allow-list until an entry occurs
      in the URL; only then is the page fetched, and its text returned.
      The GET itself is the parameter fetch. */
  method Req(url: string, fetch: string -> string) returns (r: Option<string>)
    ensures r.Some? <==> Allowed(url)
    ensures r.Some? ==> r.value == fetch(url)
  {
    var allowed := false;
    for i := 0 to |UrlAllowList|
      invariant !allowed
      invariant forall k :: 0 <= k < i ==> !IsSubstring(UrlAllowList[k], url)
    {
      if IsSubstring(UrlAllowList[i], url) {
        allowed := true;
        break;
      }
    }
    if allowed {
      r := Some(fetch(url));
    } else {
      r := None;
    }
  }

  lemma {:induction false} SubstringInside(p: string, a: string, s: string, b: string)
    requires IsSubstring(p, s)
    ensures IsSubstring(p, a + s + b)
  {
    var i :| 0 <= i <= |s| - |p| && OccursAt(p, s, i);
    var t := a + s + b;
    assert t[|a| + i..|a| + i + |p|] == s[i..i + |p|];
    assert OccursAt(p, t, |a| + i);
  }

  /** The test is a substring test, not a match on the host: any text
      around an allowed entry is allowed as well, such as a URL of another
      site that carries the entry in its query. */
  lemma AllowedAnywhere(a: string, url: string, b: string)
    requires Allowed(url)
    ensures Allowed(a + url + b)
  {
    var k :| 0 <= k < |UrlAllowList| && IsSubstring(UrlAllowList[k], url);
    SubstringInside(UrlAllowList[k], a, url, b);
  }

  /** What the engine sees as this.s after init_state (cbot.py:83-91): the
      stored dict when there is one, else an empty object. None stands for
      a missing file or one that does not unpickle. */
  function LoadState(stored: Option<PyValue>): (v: JsValue)
    ensures v.Obj?
    ensures stored.Some? && stored.value.PyDict? && TidyPy(stored.value) ==> Plain(v) == stored.value
    ensures !(stored.Some? && stored.value.PyDict?) ==> v == Obj([])
  {
    if stored.Some? && stored.value.PyDict? then
      if TidyPy(stored.value) then SaveAfterLoad(stored.value); ToJs(stored.value)
      else ToJs(stored.value)
    else Obj([])
  }
}
