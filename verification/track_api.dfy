/**
 * The client-side track cache: an ordered list of tracks, a loading flag and an error
 * string, updated after each awaited API call. Each call is taken as one atomic step
 * whose reply is an input.
 */
module TrackApi {
  import opened Wrappers

  /** A track as the client receives it from the server. */
  datatype Track = Track(id: int, title: string, artist: string, duration: int, isrc: Option<string>)

  /**
   * How an HTTP call settled: the response data, or a rejection carrying the `error`
   * field of the server's JSON body (if any) and the transport error's message.
   */
  datatype Reply<T> = Ok(data: T) | Err(serverError: Option<string>, message: string)

  const FetchFailedPrefix := "Failed to fetch tracks: "

  /** `err.response?.data?.error || err.message`. */
  function ErrorText<T>(reply: Reply<T>): (text: string)
    requires reply.Err?
    ensures reply.serverError.Some? && reply.serverError.value != "" ==> text == reply.serverError.value
    ensures reply.serverError.None? || reply.serverError.value == "" ==> text == reply.message
  {
    if reply.serverError.Some? && reply.serverError.value != "" then reply.serverError.value
    else reply.message
  }

  /** `findIndex` by id: the first position holding `id`, or -1. */
  function FindIndex(ts: seq<Track>, id: int): (i: int)
    ensures -1 <= i < |ts|
    ensures i == -1 <==> forall j :: 0 <= j < |ts| ==> ts[j].id != id
    ensures 0 <= i ==> ts[i].id == id && forall j :: 0 <= j < i ==> ts[j].id != id
  {
    if ts == [] then -1
    else if ts[0].id == id then 0
    else
      var k := FindIndex(ts[1..], id);
      if k == -1 then -1 else k + 1
  }

  /** `filter` keeping the tracks whose id is not `id`. */
  function WithoutId(ts: seq<Track>, id: int): (r: seq<Track>)
    ensures |r| <= |ts|
    ensures forall j :: 0 <= j < |r| ==> r[j].id != id
  {
    if ts == [] then []
    else (if ts[0].id == id then [] else [ts[0]]) + WithoutId(ts[1..], id)
  }

  /** Filtering drops every copy of each track with `id` and keeps every copy of the others. */
  lemma {:induction false} WithoutIdCounts(ts: seq<Track>, id: int, t: Track)
    ensures multiset(WithoutId(ts, id))[t] == if t.id == id then 0 else multiset(ts)[t]
  {
    if ts != [] {
      WithoutIdCounts(ts[1..], id, t);
      assert ts == [ts[0]] + ts[1..];
      assert multiset(ts) == multiset([ts[0]]) + multiset(ts[1..]);
    }
  }

  /** Filtering distributes over concatenation, so the kept tracks keep their order. */
  lemma {:induction false} WithoutIdAppend(a: seq<Track>, b: seq<Track>, id: int)
    ensures WithoutId(a + b, id) == WithoutId(a, id) + WithoutId(b, id)
  {
    if a != [] {
      var c := a + b;
      assert c[0] == a[0] && c[1..] == a[1..] + b;
      WithoutIdAppend(a[1..], b, id);
      var head := if a[0].id == id then [] else [a[0]];
      assert WithoutId(c, id) == head + WithoutId(c[1..], id);
      assert WithoutId(a, id) == head + WithoutId(a[1..], id);
    } else {
      assert a + b == b;
    }
  }

  /** Filtering out an id that no track has leaves the list as it was. */
  lemma {:induction false} WithoutAbsentId(ts: seq<Track>, id: int)
    requires forall j :: 0 <= j < |ts| ==> ts[j].id != id
    ensures WithoutId(ts, id) == ts
  {
    if ts != [] {
      WithoutAbsentId(ts[1..], id);
    }
  }

  /** Appending a track makes it the one found by its id unless an earlier track has that id. */
  lemma FindIndexAfterAppend(ts: seq<Track>, t: Track)
    ensures FindIndex(ts + [t], t.id) ==
      if FindIndex(ts, t.id) == -1 then |ts| else FindIndex(ts, t.id)
  {
    var i := FindIndex(ts + [t], t.id);
    assert (ts + [t])[|ts|] == t;
    if FindIndex(ts, t.id) != -1 {
      assert (ts + [t])[FindIndex(ts, t.id)] == ts[FindIndex(ts, t.id)];
    }
  }

  /** Replacing the first track with `id` by a track with the same id keeps it the first. */
  lemma FindIndexAfterReplace(ts: seq<Track>, id: int, t: Track)
    requires FindIndex(ts, id) != -1 && t.id == id
    ensures FindIndex(ts[FindIndex(ts, id) := t], id) == FindIndex(ts, id)
  {
    var i := FindIndex(ts, id);
    var us := ts[i := t];
    assert forall j :: 0 <= j < i ==> us[j].id != id;
    assert us[i].id == id;
  }

  /** The reactive state that useTrackApi exposes. */
  class TrackCache {
    var tracks: seq<Track>
    var loading: bool
    var error: string

    constructor ()
      ensures tracks == [] && !loading && error == ""
    {
      tracks, loading, error := [], false, "";
    }

    /** GET /tracks: the list becomes the response, in response order. */
    method FetchTracks(reply: Reply<seq<Track>>) returns (r: Result<seq<Track>>)
      modifies this
      ensures !loading
      ensures reply.Ok? ==> tracks == reply.data && error == "" && r == Success(reply.data)
      ensures reply.Err? ==>
        tracks == old(tracks) && error == FetchFailedPrefix + ErrorText(reply) && r == Failure(error)
    {
      loading := true;
      error := "";
      match reply {
        case Ok(data) =>
          tracks := data;
          r := Success(data);
        case Err(_, _) =>
          var message := FetchFailedPrefix + ErrorText(reply);
          error := message;
          r := Failure(message);
      }
      loading := false;
    }

    /** POST /tracks: the created track is appended. */
    method CreateTrack(reply: Reply<Track>) returns (r: Result<Track>)
      modifies this
      ensures !loading
      ensures reply.Ok? ==>
        tracks == old(tracks) + [reply.data] && error == "" && r == Success(reply.data)
      ensures reply.Err? ==> tracks == old(tracks) && error == ErrorText(reply) && r == Failure(error)
    {
      loading := true;
      error := "";
      match reply {
        case Ok(data) =>
          tracks := tracks + [data];
          r := Success(data);
        case Err(_, _) =>
          var message := ErrorText(reply);
          error := message;
          r := Failure(message);
      }
      loading := false;
    }

    /**
     * PUT /tracks/{id}: the first track with `id` is replaced in place by the response;
     * with no such track the list is left as it was.
     */
    method UpdateTrack(id: int, reply: Reply<Track>) returns (r: Result<Track>)
      modifies this
      ensures !loading
      ensures reply.Ok? ==> error == "" && r == Success(reply.data) && |tracks| == |old(tracks)|
      ensures reply.Ok? ==>
        var i := FindIndex(old(tracks), id);
        tracks == if i == -1 then old(tracks) else old(tracks)[i := reply.data]
      ensures reply.Err? ==> tracks == old(tracks) && error == ErrorText(reply) && r == Failure(error)
    {
      loading := true;
      error := "";
      match reply {
        case Ok(data) =>
          var index := FindIndex(tracks, id);
          if index != -1 {
            tracks := tracks[index := data];
          }
          r := Success(data);
        case Err(_, _) =>
          var message := ErrorText(reply);
          error := message;
          r := Failure(message);
      }
      loading := false;
    }

    /** DELETE /tracks/{id}: every track with `id` is dropped, the others keep their order. */
    method DeleteTrack(id: int, reply: Reply<()>) returns (r: Result<bool>)
      modifies this
      ensures !loading
      ensures reply.Ok? ==> tracks == WithoutId(old(tracks), id) && error == "" && r == Success(true)
      ensures reply.Err? ==> tracks == old(tracks) && error == ErrorText(reply) && r == Failure(error)
    {
      loading := true;
      error := "";
      match reply {
        case Ok(_) =>
          tracks := WithoutId(tracks, id);
          r := Success(true);
        case Err(_, _) =>
          var message := ErrorText(reply);
          error := message;
          r := Failure(message);
      }
      loading := false;
    }

    /** The first cached track with `id`, or null; no request is made. */
    function GetTrack(id: int): (r: Option<Track>)
      reads this
      ensures r.None? <==> forall j :: 0 <= j < |tracks| ==> tracks[j].id != id
      ensures r.Some? ==>
        r.value.id == id &&
        (exists i :: 0 <= i < |tracks| && tracks[i] == r.value &&
          forall j :: 0 <= j < i ==> tracks[j].id != id)
    {
      var i := FindIndex(tracks, id);
      if i == -1 then None else Some(tracks[i])
    }

    method ClearError()
      modifies this
      ensures error == "" && tracks == old(tracks) && loading == old(loading)
    {
      error := "";
    }
  }
}
