/** The resource handlers of mcp/resources.py: one `youtube://transcript/<id>`
    resource per cached transcript, read back by splitting the URI on "/". */
module Resources {
  import opened McpTypes
  import opened Text

  const UriPrefix := "youtube://transcript/"
  const Category := "transcript"
  const MimeType := "text/plain"
  const NotFound := "Transcript not found (Analyze first)."
  const InvalidUri := "Invalid Resource URI"

  function TranscriptUri(id: string): string
  {
    UriPrefix + id
  }

  function Describe(id: string): Resource
  {
    Resource(TranscriptUri(id), "Transcript for " + id, MimeType)
  }

  /** `handle_list_resources`: one descriptor per cache key, in key order. */
  function ListResources(keys: seq<string>): (rs: seq<Resource>)
    ensures |rs| == |keys|
    ensures forall i :: 0 <= i < |keys| ==> rs[i] == Describe(keys[i])
  {
    seq(|keys|, i requires 0 <= i < |keys| => Describe(keys[i]))
  }

  /** `handle_read_resource`: the fourth "/"-separated part names the entry;
      fewer than four parts, or a third part other than "transcript", is
      rejected; an unknown id reads as the not-found sentinel. */
  function ReadResource(uri: string, cache: map<string, string>): (r: Result<string, Raised>)
    ensures r.Err? ==> r.error == ValueError(InvalidUri)
    ensures Count(uri, '/') < 3 ==> r.Err?
    ensures r.Ok? <==> Count(uri, '/') >= 3 && Split(uri, '/')[2] == Category
    ensures r.Ok? ==> r.value == NotFound || exists id :: id in cache && cache[id] == r.value
  {
    var parts := Split(uri, '/');
    if |parts| < 4 || parts[2] != Category then Err(ValueError(InvalidUri))
    else if parts[3] in cache then Ok(cache[parts[3]])
    else Ok(NotFound)
  }

  /** The value a well-formed read of `id` yields. */
  function Lookup(cache: map<string, string>, id: string): string
  {
    if id in cache then cache[id] else NotFound
  }

  lemma TranscriptUriInjective(a: string, b: string)
    requires TranscriptUri(a) == TranscriptUri(b)
    ensures a == b
  {
    assert a == TranscriptUri(a)[|UriPrefix|..];
    assert b == TranscriptUri(b)[|UriPrefix|..];
  }

  /** Neither the scheme, nor the host part, nor anything after the
      identifier is checked: any slash-free scheme and host, then
      "/transcript/", then a slash-free id, then nothing or a "/"-led tail,
      reads the entry of that id. */
  lemma {:induction false} ReadIgnoresSchemeAndTail(scheme: string, host: string, id: string, tail: string, cache: map<string, string>)
    requires '/' !in scheme && '/' !in host && '/' !in id
    requires tail == "" || tail[0] == '/'
    ensures ReadResource(scheme + "/" + host + "/" + Category + "/" + id + tail, cache) == Ok(Lookup(cache, id))
  {
    var rest := id + tail;
    var uri := scheme + "/" + host + "/" + Category + "/" + id + tail;
    assert uri == scheme + ['/'] + (host + ['/'] + (Category + ['/'] + rest));
    SplitAtFirstSep(scheme, host + ['/'] + (Category + ['/'] + rest), '/');
    SplitAtFirstSep(host, Category + ['/'] + rest, '/');
    SplitAtFirstSep(Category, rest, '/');
    if tail == "" {
      assert rest == id;
      SplitWithoutSep(id, '/');
    } else {
      assert rest == id + ['/'] + tail[1..];
      SplitAtFirstSep(id, tail[1..], '/');
    }
    var parts := Split(uri, '/');
    assert parts == [scheme] + ([host] + ([Category] + Split(rest, '/')));
    assert parts[2] == Category && parts[3] == id;
  }

  /** Reading the URI of a slash-free id yields its cached text, or the
      sentinel when it is not cached. */
  lemma ReadTranscriptUri(id: string, cache: map<string, string>)
    requires '/' !in id
    ensures ReadResource(TranscriptUri(id), cache) == Ok(Lookup(cache, id))
  {
    assert TranscriptUri(id) == "youtube:" + "/" + "" + "/" + Category + "/" + id + "";
    ReadIgnoresSchemeAndTail("youtube:", "", id, "", cache);
  }

  /** Round trip: reading the URI listed for a slash-free key returns the text
      cached under that key. */
  lemma ReadListedResource(keys: seq<string>, cache: map<string, string>, i: int)
    requires 0 <= i < |keys| && keys[i] in cache && '/' !in keys[i]
    ensures ReadResource(ListResources(keys)[i].uri, cache) == Ok(cache[keys[i]])
  {
    ReadTranscriptUri(keys[i], cache);
  }

  /** A URI with fewer than three slashes has fewer than four parts and is rejected. */
  lemma ReadRejectsShortUri(uri: string, cache: map<string, string>)
    requires Count(uri, '/') < 3
    ensures ReadResource(uri, cache) == Err(ValueError(InvalidUri))
  {
  }

  /** A third part other than "transcript" is rejected, whatever follows. */
  lemma {:induction false} ReadRejectsOtherCategory(scheme: string, host: string, category: string, rest: string, cache: map<string, string>)
    requires '/' !in scheme && '/' !in host && '/' !in category
    requires category != Category
    ensures ReadResource(scheme + "/" + host + "/" + category + "/" + rest, cache) == Err(ValueError(InvalidUri))
  {
    var uri := scheme + "/" + host + "/" + category + "/" + rest;
    assert uri == scheme + ['/'] + (host + ['/'] + (category + ['/'] + rest));
    SplitAtFirstSep(scheme, host + ['/'] + (category + ['/'] + rest), '/');
    SplitAtFirstSep(host, category + ['/'] + rest, '/');
    SplitAtFirstSep(category, rest, '/');
    assert Split(uri, '/') == [scheme, host, category] + Split(rest, '/');
  }

  /** With distinct keys, each cached key is listed by exactly one descriptor. */
  lemma ListedOncePerKey(keys: seq<string>, k: string)
    requires forall i, j :: 0 <= i < j < |keys| ==> keys[i] != keys[j]
    requires k in keys
    ensures exists i :: 0 <= i < |keys| && ListResources(keys)[i] == Describe(k)
    ensures forall i, j ::
      (0 <= i < |keys| && 0 <= j < |keys| &&
       ListResources(keys)[i].uri == TranscriptUri(k) && ListResources(keys)[j].uri == TranscriptUri(k)) ==> i == j
  {
    var rs := ListResources(keys);
    var i :| 0 <= i < |keys| && keys[i] == k;
    assert rs[i] == Describe(k);
    forall i, j | 0 <= i < |keys| && 0 <= j < |keys| && rs[i].uri == TranscriptUri(k) && rs[j].uri == TranscriptUri(k)
      ensures i == j
    {
      TranscriptUriInjective(keys[i], k);
      TranscriptUriInjective(keys[j], k);
    }
  }

  /** A key never cached is never listed, whatever it contains. */
  lemma UnseenIdNotListed(keys: seq<string>, cache: map<string, string>, id: string)
    requires forall k :: k in cache <==> k in keys
    requires id !in cache
    ensures forall i :: 0 <= i < |keys| ==> ListResources(keys)[i].uri != TranscriptUri(id)
  {
    forall i | 0 <= i < |keys|
      ensures ListResources(keys)[i].uri != TranscriptUri(id)
    {
      if ListResources(keys)[i].uri == TranscriptUri(id) {
        TranscriptUriInjective(keys[i], id);
      }
    }
  }

  /** Reading the URI of a slash-free id never cached gives the sentinel. */
  lemma UnseenIdReadsNotFound(cache: map<string, string>, id: string)
    requires id !in cache && '/' !in id
    ensures ReadResource(TranscriptUri(id), cache) == Ok(NotFound)
  {
    ReadTranscriptUri(id, cache);
  }
}
