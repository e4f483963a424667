/** The detection side of proxy_addon.py: the mitmproxy request hook that
    queues video ids seen in YouTube watch-page requests, and the inspector
    window's queue drain and analyse guard (the shared queue and the detected
    id only; widgets, timers, threads and the client round trip are not here). */
module ProxyAddon {
  import opened McpTypes
  import opened Text

  const WatchHost := "youtube.com"
  const WatchPath := "/watch"
  const VideoParam := "v"

  /** Index of the first query pair whose key is `key`, or |query| if none. */
  function FirstIndex(query: seq<(string, string)>, key: string): (i: nat)
    ensures i <= |query|
    ensures forall j :: 0 <= j < i ==> query[j].0 != key
    ensures i < |query| ==> query[i].0 == key
  {
    if |query| == 0 then 0
    else if query[0].0 == key then 0
    else 1 + FirstIndex(query[1..], key)
  }

  /** mitmproxy's `query[key]` on its multi-dict: the first value given for
      `key`; None when the key is absent (`key in query` is false). */
  function QueryGet(query: seq<(string, string)>, key: string): (r: Option<string>)
    ensures r.None? <==> forall k :: 0 <= k < |query| ==> query[k].0 != key
    ensures r.Some? ==> (key, r.value) in query
  {
    var i := FirstIndex(query, key);
    if i < |query| then Some(query[i].1) else None
  }

  /** The first value for `key` is found exactly when it is the value of the
      earliest pair with that key. */
  lemma QueryGetFirst(query: seq<(string, string)>, key: string, v: string)
    ensures QueryGet(query, key) == Some(v) <==>
      exists k :: 0 <= k < |query| && query[k] == (key, v) && forall j :: 0 <= j < k ==> query[j].0 != key
  {
    var i := FirstIndex(query, key);
    if exists k :: 0 <= k < |query| && query[k] == (key, v) && forall j :: 0 <= j < k ==> query[j].0 != key {
      var k :| 0 <= k < |query| && query[k] == (key, v) && forall j :: 0 <= j < k ==> query[j].0 != key;
      assert !(k < i) && !(i < k);
    }
    if QueryGet(query, key) == Some(v) {
      assert query[i] == (key, v);
    }
  }

  /** The id one request pushes, if any: the host must name youtube.com, the
      path must contain "/watch", the query must carry "v", and its value must
      differ from the id currently detected. */
  function Detect(host: string, path: string, query: seq<(string, string)>, current: Option<string>): (r: Option<string>)
    ensures r.Some? ==> r != current && (VideoParam, r.value) in query
    ensures !Contains(host, WatchHost) || !Contains(path, WatchPath) ==> r.None?
  {
    if Contains(host, WatchHost) && Contains(path, WatchPath) then
      match QueryGet(query, VideoParam)
      case Some(vid) => if Some(vid) != current then Some(vid) else None
      case None => None
    else None
  }

  /** What a push of `pushed` adds to the queue. */
  function Pushed(pushed: Option<string>): seq<string>
  {
    if pushed.Some? then [pushed.value] else []
  }

  /** Detect pushes `v` exactly when youtube.com occurs in the host, "/watch"
      occurs in the path, the first "v" pair carries `v`, and `v` is not the
      current id. */
  lemma DetectIff(host: string, path: string, query: seq<(string, string)>, current: Option<string>, v: string)
    ensures Detect(host, path, query, current) == Some(v) <==>
      && (exists i :: OccursAt(host, WatchHost, i))
      && (exists i :: OccursAt(path, WatchPath, i))
      && (exists k :: 0 <= k < |query| && query[k] == (VideoParam, v) && forall j :: 0 <= j < k ==> query[j].0 != VideoParam)
      && current != Some(v)
  {
    ContainsIff(host, WatchHost);
    ContainsIff(path, WatchPath);
    QueryGetFirst(query, VideoParam, v);
  }

  /** Duplicates are suppressed only against the current id: a qualifying
      request for `v` appends it even when `v` is already waiting in the
      queue, and appends nothing when `v` is current. */
  lemma SuppressOnlyCurrent(host: string, path: string, query: seq<(string, string)>, current: Option<string>,
                            queue: seq<string>, v: string)
    requires Contains(host, WatchHost) && Contains(path, WatchPath)
    requires QueryGet(query, VideoParam) == Some(v)
    ensures current != Some(v) ==> queue + Pushed(Detect(host, path, query, current)) == queue + [v]
    ensures current != Some(v) && v in queue ==>
      multiset(queue + Pushed(Detect(host, path, query, current)))[v] == multiset(queue)[v] + 1 >= 2
    ensures current == Some(v) ==> queue + Pushed(Detect(host, path, query, current)) == queue
  {
  }

  /** The state the hook and the window share: the module-level GUI_QUEUE and
      the window's `current_video_id`. */
  class Inspector {
    var queue: seq<string>
    var currentVideoId: Option<string>

    constructor ()
      ensures queue == [] && currentVideoId == None
    {
      queue := [];
      currentVideoId := None;
    }

    /** `Detector.request`: pushes at most one id, and leaves the queue alone
        when any condition fails. */
    method Request(host: string, path: string, query: seq<(string, string)>)
      modifies this
      ensures currentVideoId == old(currentVideoId)
      ensures queue == old(queue) + Pushed(Detect(host, path, query, old(currentVideoId)))
    {
      if Contains(host, WatchHost) && Contains(path, WatchPath) {
        var v := QueryGet(query, VideoParam);
        if v.Some? {
          var vid := v.value;
          if Some(vid) != currentVideoId {
            queue := queue + [vid];
          }
        }
      }
    }

    /** `check_queue`: pops until empty, in FIFO order, and returns the ids it
        logged; the current id ends as the last one popped, or is untouched
        when the queue was empty. */
    method CheckQueue() returns (detected: seq<string>)
      modifies this
      ensures detected == old(queue)
      ensures queue == []
      ensures currentVideoId == if old(queue) == [] then old(currentVideoId) else Some(old(queue)[|old(queue)| - 1])
    {
      detected := [];
      while queue != []
        invariant detected + queue == old(queue)
        invariant currentVideoId == if detected == [] then old(currentVideoId) else Some(detected[|detected| - 1])
        decreases |queue|
      {
        var vid := queue[0];
        queue := queue[1..];
        currentVideoId := Some(vid);
        detected := detected + [vid];
      }
    }

    /** `on_analyze`: a no-op unless an id is detected and non-empty; otherwise
        the id the client round trip is started for. */
    method OnAnalyze() returns (target: Option<string>)
      ensures target.Some? <==> currentVideoId.Some? && currentVideoId.value != ""
      ensures target.Some? ==> target == currentVideoId
    {
      if currentVideoId.None? || currentVideoId.value == "" {
        return None;
      }
      target := currentVideoId;
    }
  }

  /** Two watch-page hits for the same video while it waits both queue it; once
      drained it is current, and a third hit is suppressed. */
  method RepeatedVisit(vid: string)
  {
    var host := "www.youtube.com";
    var path := "/watch?v=" + vid;
    var query := [(VideoParam, vid)];
    ContainsInfix("www.", WatchHost, "");
    ContainsInfix("", WatchPath, "?v=" + vid);
    assert "www." + WatchHost + "" == host;
    assert "" + WatchPath + ("?v=" + vid) == path;
    assert QueryGet(query, VideoParam) == Some(vid);
    var gui := new Inspector();
    gui.Request(host, path, query);
    gui.Request(host, path, query);
    assert gui.queue == [vid, vid];
    var detected := gui.CheckQueue();
    assert detected == [vid, vid] && gui.currentVideoId == Some(vid);
    gui.Request(host, path, query);
    assert gui.queue == [];
  }
}
