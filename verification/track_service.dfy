/**
 * The server-side track service: a partial merge of a decoded request body onto a Track
 * entity, whole-entity validation, and the commit through the entity manager.
 * The validator is an abstract function from a track to its violations; the entity
 * manager is a committed id-to-track store plus a log of persist and flush events.
 */
module TrackService {
  import opened Wrappers
  import opened Php

  /** The fields of a Track entity; `None` is PHP `null`. */
  datatype TrackData = TrackData(
    id: Option<int>,
    title: Option<string>,
    artist: Option<string>,
    duration: Option<int>,
    isrc: Option<string>)

  /** A freshly constructed entity: every field null. */
  const NewTrack := TrackData(None, None, None, None, None)

  /** The four keys of a request body the service reads. */
  const Fields: set<string> := {"title", "artist", "duration", "isrc"}

  /** One constraint violation reported by the validator; the service reads only its message. */
  datatype Violation = Violation(message: string)

  /** The message of each violation, in validator order. */
  function Messages(vs: seq<Violation>): (ms: seq<string>)
    ensures |ms| == |vs| && forall i :: 0 <= i < |vs| ==> ms[i] == vs[i].message
  {
    seq(|vs|, i requires 0 <= i < |vs| => vs[i].message)
  }

  /** The isrc a present value is stored as: a falsy value becomes null. */
  function IsrcOf(v: Value): (r: Option<string>)
    ensures r.None? <==> Falsy(v)
    ensures !Falsy(v) ==> r == Some(ToStr(v))
    ensures v.Str? && !Falsy(v) ==> r == Some(v.s)
  {
    if Falsy(v) then None else Some(ToStr(v))
  }

  /**
   * The entity after the partial merge of `data`: each recognised key that is set
   * overwrites its field; everything else keeps its value.
   */
  function Merge(t: TrackData, data: Payload): (r: TrackData)
    ensures r.id == t.id
    ensures !IsSet(data, "title") ==> r.title == t.title
    ensures !IsSet(data, "artist") ==> r.artist == t.artist
    ensures !IsSet(data, "duration") ==> r.duration == t.duration
    ensures !IsSet(data, "isrc") ==> r.isrc == t.isrc
    ensures IsSet(data, "title") ==> r.title == Some(ToStr(data["title"]))
    ensures IsSet(data, "artist") ==> r.artist == Some(ToStr(data["artist"]))
    ensures IsSet(data, "duration") ==> r.duration == Some(IntCast(data["duration"]))
    ensures IsSet(data, "isrc") ==> (r.isrc.None? <==> Falsy(data["isrc"]))
    ensures IsSet(data, "isrc") && data["isrc"].Str? && !Falsy(data["isrc"]) ==>
              r.isrc == Some(data["isrc"].s)
  {
    TrackData(
      t.id,
      if IsSet(data, "title") then Some(ToStr(data["title"])) else t.title,
      if IsSet(data, "artist") then Some(ToStr(data["artist"])) else t.artist,
      if IsSet(data, "duration") then Some(IntCast(data["duration"])) else t.duration,
      if IsSet(data, "isrc") then IsrcOf(data["isrc"]) else t.isrc)
  }

  /** `isset` is false for null, so a key sent as null is the same as a key left out. */
  lemma NullFieldsAreIgnored(t: TrackData, data: Payload)
    ensures Merge(t, data) == Merge(t, map k | k in data && !data[k].Null? :: data[k])
  {
  }

  /** `data` restricted to the keys the service reads. */
  function Recognised(data: Payload): (r: Payload)
    ensures forall k :: k in r <==> k in data && k in Fields
  {
    map k | k in data && k in Fields :: data[k]
  }

  /** Keys other than title, artist, duration and isrc have no effect on the merge. */
  lemma MergeIgnoresUnknownKeys(t: TrackData, data: Payload)
    ensures Merge(t, data) == Merge(t, Recognised(data))
  {
    var r := Recognised(data);
    assert forall k :: k in Fields ==> (IsSet(r, k) <==> IsSet(data, k));
    assert forall k :: k in Fields && IsSet(r, k) ==> r[k] == data[k];
  }

  /** Merging the same body twice is the same as merging it once. */
  lemma MergeIdempotent(t: TrackData, data: Payload)
    ensures Merge(Merge(t, data), data) == Merge(t, data)
  {
  }

  /** The non-null entries of `later` laid over `earlier`. */
  function Overlay(earlier: Payload, later: Payload): (r: Payload)
    ensures forall k :: IsSet(r, k) <==> IsSet(earlier, k) || IsSet(later, k)
  {
    earlier + map k | k in later && !later[k].Null? :: later[k]
  }

  /** Two partial updates in a row are one partial update where the later value wins. */
  lemma MergeTwice(t: TrackData, earlier: Payload, later: Payload)
    ensures Merge(Merge(t, earlier), later) == Merge(t, Overlay(earlier, later))
  {
    var o := Overlay(earlier, later);
    forall k | IsSet(o, k)
      ensures o[k] == if IsSet(later, k) then later[k] else earlier[k]
    {
    }
  }

  /** A digit string for duration is stored as the integer it writes: "180" becomes 180. */
  lemma DurationFromDecimalString(t: TrackData, data: Payload, n: int)
    requires "duration" in data && data["duration"] == Str(DecimalString(n))
    ensures Merge(t, data).duration == Some(n)
  {
    CastOfDecimalString(n);
  }

  /** A duration sent as a JSON number is stored as that number. */
  lemma DurationFromInteger(t: TrackData, data: Payload, n: int)
    requires "duration" in data && data["duration"] == Int(n)
    ensures Merge(t, data).duration == Some(n)
  {
  }

  /** POST {title, artist, duration: 200, isrc: ""}: the empty isrc is stored as null. */
  lemma EmptyIsrcBecomesNull()
    ensures Merge(NewTrack, map["title" := Str("Song A"), "artist" := Str("Artist A"),
                                "duration" := Int(200), "isrc" := Str("")])
         == TrackData(None, Some("Song A"), Some("Artist A"), Some(200), None)
  {
  }

  /** PUT {duration: "180"}: the duration becomes the integer 180 and nothing else changes. */
  lemma DurationStringUpdate(t: TrackData)
    ensures Merge(t, map["duration" := Str("180")]) == t.(duration := Some(180))
  {
    var data := map["duration" := Str("180")];
    assert NatString(180) == "180" by {
      assert NatString(1) == [DigitChar(1)] == "1";
      assert NatString(18) == NatString(1) + [DigitChar(8)] == "18";
      assert NatString(180) == NatString(18) + [DigitChar(0)];
    }
    DurationFromDecimalString(t, data, 180);
    assert !IsSet(data, "title") && !IsSet(data, "artist") && !IsSet(data, "isrc");
  }

  /** A track entity: the object the service populates and the manager commits. */
  class TrackEntity {
    var id: Option<int>
    var title: Option<string>
    var artist: Option<string>
    var duration: Option<int>
    var isrc: Option<string>

    /** The entity's current field values. */
    function Data(): TrackData
      reads this
    {
      TrackData(id, title, artist, duration, isrc)
    }

    constructor ()
      ensures Data() == NewTrack
    {
      id, title, artist, duration, isrc := None, None, None, None, None;
    }
  }

  /** What the entity manager was asked to do, in order. */
  datatype Event = Persisted(track: TrackData) | Flushed

  /** The entity manager: the committed rows, the next identity and the event log. */
  class EntityManager {
    var rows: map<int, TrackData>
    var nextId: int
    var log: seq<Event>

    /** Every committed id is below the next one to be assigned. */
    ghost predicate Valid()
      reads this
    {
      forall k :: k in rows ==> k < nextId
    }

    constructor ()
      ensures Valid() && rows == map[] && log == []
    {
      rows, nextId, log := map[], 1, [];
    }

    /** Schedules a new entity for insertion. */
    method Persist(t: TrackEntity)
      modifies this
      ensures rows == old(rows) && nextId == old(nextId)
      ensures log == old(log) + [Persisted(t.Data())]
    {
      log := log + [Persisted(t.Data())];
    }

    /**
     * Commits the entity the service changed: a new entity gets the next identity and is
     * inserted, a stored one overwrites its row.
     */
    method Flush(t: TrackEntity)
      requires Valid()
      requires t.id.Some? ==> t.id.value in rows
      modifies this, t
      ensures Valid()
      ensures log == old(log) + [Flushed]
      ensures old(t.id).None? ==>
        t.Data() == old(t.Data()).(id := Some(old(nextId))) &&
        rows == old(rows)[old(nextId) := t.Data()] && nextId == old(nextId) + 1
      ensures old(t.id).Some? ==>
        t.Data() == old(t.Data()) &&
        rows == old(rows)[t.id.value := t.Data()] && nextId == old(nextId)
    {
      if t.id.None? {
        t.id := Some(nextId);
        nextId := nextId + 1;
      }
      rows := rows[t.id.value := t.Data()];
      log := log + [Flushed];
    }
  }

  /** What a service call produced: the entity, or an InvalidArgumentException's message. */
  datatype Outcome = Saved(track: TrackEntity) | InvalidArgument(message: string)

  /** The messages of the violations, collected one by one as the service's loop does. */
  method CollectMessages(violations: seq<Violation>) returns (messages: seq<string>)
    ensures |messages| == |violations|
    ensures forall i :: 0 <= i < |violations| ==> messages[i] == violations[i].message
  {
    messages := [];
    for i := 0 to |violations|
      invariant |messages| == i
      invariant forall j :: 0 <= j < i ==> messages[j] == violations[j].message
    {
      messages := messages + [violations[i].message];
    }
  }

  class Service {
    const em: EntityManager
    const validator: TrackData -> seq<Violation>

    constructor (em: EntityManager, validator: TrackData -> seq<Violation>)
      ensures this.em == em && this.validator == validator
    {
      this.em := em;
      this.validator := validator;
    }

    /** Copies each recognised, set key of `data` onto the entity. */
    method PopulateTrack(track: TrackEntity, data: Payload)
      modifies track
      ensures track.Data() == Merge(old(track.Data()), data)
    {
      if IsSet(data, "title") {
        track.title := Some(ToStr(data["title"]));
      }
      if IsSet(data, "artist") {
        track.artist := Some(ToStr(data["artist"]));
      }
      if IsSet(data, "duration") {
        track.duration := Some(IntCast(data["duration"]));
      }
      if IsSet(data, "isrc") {
        track.isrc := if Falsy(data["isrc"]) then None else Some(ToStr(data["isrc"]));
      }
    }

    /**
     * Builds a track from `data`; with any violation it fails with the joined messages
     * and never reaches the manager, otherwise it persists, flushes once and returns
     * the same entity, now with its identity.
     */
    method CreateTrack(data: Payload) returns (r: Outcome)
      requires em.Valid()
      modifies em
      ensures em.Valid()
      ensures var populated := Merge(NewTrack, data);
              var violations := validator(populated);
              if |violations| > 0 then
                r == InvalidArgument(Implode(Messages(violations))) &&
                em.rows == old(em.rows) && em.log == old(em.log) && em.nextId == old(em.nextId)
              else
                r.Saved? && fresh(r.track) &&
                old(em.nextId) !in old(em.rows) && em.nextId == old(em.nextId) + 1 &&
                r.track.Data() == populated.(id := Some(old(em.nextId))) &&
                em.rows == old(em.rows)[old(em.nextId) := r.track.Data()] &&
                em.log == old(em.log) + [Persisted(populated), Flushed]
    {
      var track := new TrackEntity();
      PopulateTrack(track, data);
      var violations := validator(track.Data());
      if |violations| > 0 {
        var messages := CollectMessages(violations);
        assert messages == Messages(violations);
        return InvalidArgument(Implode(messages));
      }
      em.Persist(track);
      em.Flush(track);
      return Saved(track);
    }

    /**
     * Merges `data` onto a stored entity and validates the whole result; with any
     * violation it fails with the joined messages and never flushes (the entity object
     * itself stays merged), otherwise it flushes and returns the same entity.
     */
    method UpdateTrack(track: TrackEntity, data: Payload) returns (r: Outcome)
      requires em.Valid()
      requires track.id.Some? && track.id.value in em.rows
      modifies track, em
      ensures em.Valid()
      ensures track.Data() == Merge(old(track.Data()), data)
      ensures var violations := validator(track.Data());
              if |violations| > 0 then
                r == InvalidArgument(Implode(Messages(violations))) &&
                em.rows == old(em.rows) && em.log == old(em.log) && em.nextId == old(em.nextId)
              else
                r == Saved(track) &&
                em.rows == old(em.rows)[track.id.value := track.Data()] &&
                em.log == old(em.log) + [Flushed] && em.nextId == old(em.nextId)
    {
      PopulateTrack(track, data);
      var violations := validator(track.Data());
      if |violations| > 0 {
        var messages := CollectMessages(violations);
        assert messages == Messages(violations);
        return InvalidArgument(Implode(messages));
      }
      em.Flush(track);
      return Saved(track);
    }
  }
}
