/** The service worker's handlers (web/sw.ts) on the global map of streams and on Stream objects
    that are changed in place. A handler's effect on its own id is a step of ServiceWorker, and it
    leaves all other ids as they are. */
module ServiceWorkerHandlers {
  import opened Protocol
  import opened Words
  import opened Files
  import W = ServiceWorker

  type Id = string

  class StreamObject {
    var size: nat
    var offset: nat
    var enqueued: Bytes
    var closed: bool
    var requestHandled: bool
    var streamHandled: bool

    constructor (size: nat)
      ensures Value() == W.Stream(size, 0, [], false, false, false)
    {
      this.size := size;
      offset, enqueued, closed, requestHandled, streamHandled := 0, [], false, false, false;
    }

    function Value(): W.Stream
      reads this
    {
      W.Stream(size, offset, enqueued, closed, requestHandled, streamHandled)
    }
  }

  /** A value in the map: the functions of a promise, or a stream. */
  datatype Holder = Promise | Live(s: StreamObject)

  class Worker {
    var streams: map<Id, Holder>
    var gets: map<Id, W.Get>
    /** The stream made for an id, also after its entry is gone: the response still reads it. */
    var made: map<Id, StreamObject>

    constructor ()
      ensures Valid() && forall id :: Cell(id) == W.Fresh
      ensures made == map[]
    {
      streams, gets, made := map[], map[], map[];
    }

    ghost predicate Valid()
      reads this
    {
      && (forall a, b | a in made && b in made && a != b :: made[a] != made[b])
      && (forall id | id in streams && streams[id].Live? :: id in made && made[id] == streams[id].s)
    }

    ghost function Cell(id: Id): W.Cell
      reads this, made.Values
    {
      W.Cell(if id !in streams then W.Absent else if streams[id].Promise? then W.Promised else W.Registered,
             if id in gets then gets[id] else W.Unasked,
             if id in made then Some(made[id].Value()) else None)
    }

    /** The case "metadata"; with a stream under the id the handler throws. No second stream is made
        while a GET is about to answer with the first. */
    method OnMetadata(id: Id, size: nat) returns (threw: bool)
      requires Valid() && (Cell(id).get == W.Resolved ==> Cell(id).entry == W.Registered)
      modifies this
      ensures Valid() && (threw <==> old(Cell(id)).entry == W.Registered)
      ensures made.Keys == old(made.Keys) + {id} && (!threw ==> fresh(made[id]))
      ensures forall other | other in old(made) && (threw || other != id) :: made[other] == old(made[other])
      ensures Cell(id) == W.Apply(old(Cell(id)), W.Posted(W.Metadata(size)))
      ensures forall other | other != id :: Cell(other) == old(Cell(other))
    {
      if id in streams && streams[id].Live? {
        return true;
      }
      threw := false;
      var s := new StreamObject(size);
      if id in streams {
        gets := gets[id := W.Resolved];
      }
      made := made[id := s];
      streams := streams[id := Live(s)];
    }

    /** The case "data": it throws without an entry and at a closed stream; a promise has no offset,
        so its entry is deleted like that of a stream whose data is out of order. */
    method OnData(id: Id, data: Bytes, offset: nat) returns (threw: bool)
      requires Valid()
      modifies this, made.Values
      ensures Valid() && made == old(made) && (threw <==> W.Throws(old(Cell(id)), W.Data(data, offset)))
      ensures Cell(id) == W.Apply(old(Cell(id)), W.Posted(W.Data(data, offset)))
      ensures forall other | other != id :: Cell(other) == old(Cell(other))
    {
      if id !in streams {
        return true;
      }
      threw := false;
      if streams[id].Promise? || offset != streams[id].s.offset {
        streams := streams - {id};
        return;
      }
      var s := streams[id].s;
      if s.closed {
        return true;
      }
      s.enqueued := s.enqueued + data;
      s.offset := s.offset + |data|;
    }

    /** The case "end": it throws unless there is a stream that is not closed yet. */
    method OnEnd(id: Id) returns (threw: bool)
      requires Valid()
      modifies this, made.Values
      ensures Valid() && made == old(made) && (threw <==> W.Throws(old(Cell(id)), W.End))
      ensures Cell(id) == W.Apply(old(Cell(id)), W.Posted(W.End))
      ensures forall other | other != id :: Cell(other) == old(Cell(other))
    {
      if id !in streams || streams[id].Promise? || streams[id].s.closed {
        return true;
      }
      threw := false;
      var s := streams[id].s;
      s.closed := true;
      if s.requestHandled {
        streams := streams - {id};
      } else {
        s.streamHandled := true;
      }
    }

    /** streamDownload up to its await, or to its end if the stream is there. */
    method StreamDownload(id: Id)
      requires Valid() && W.Enabled(Cell(id), W.Fetch)
      modifies this, made.Values
      ensures Valid() && made == old(made)
      ensures Cell(id) == W.Apply(old(Cell(id)), W.Fetch)
      ensures forall other | other != id :: Cell(other) == old(Cell(other))
    {
      if id in streams && streams[id].Live? {
        Respond(id, streams[id].s);
      } else {
        gets := gets[id := W.Awaiting];
        streams := streams[id := Promise];
      }
    }

    /** The rest of streamDownload, with the stream the promise was resolved with. */
    method ResumeDownload(id: Id)
      requires Valid() && W.Enabled(Cell(id), W.Resume)
      modifies this, made.Values
      ensures Valid() && made == old(made)
      ensures Cell(id) == W.Apply(old(Cell(id)), W.Resume)
      ensures forall other | other != id :: Cell(other) == old(Cell(other))
    {
      Respond(id, made[id]);
    }

    method Respond(id: Id, s: StreamObject)
      requires Valid() && id in made && made[id] == s
      modifies this, s
      ensures Valid() && made == old(made)
      ensures Cell(id) == W.Answer(old(Cell(id)))
      ensures forall other | other != id :: Cell(other) == old(Cell(other))
    {
      if s.streamHandled {
        streams := streams - {id};
      } else {
        s.requestHandled := true;
      }
      gets := gets[id := W.Answered];
    }
  }
}
