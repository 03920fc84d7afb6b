/**
 * The conversation store behind the chat backend: one durable record per session,
 * keyed by `<session id>.json`, holding the session's whole ordered message log.
 * The backend is a map from that key string to the log. This is exact for the object
 * store, whose object keys are plain strings. For the local directory it holds only
 * while distinct keys name distinct files: ids with path syntax ("./b", "../x", an
 * absolute path) or differing only in case on a case-insensitive file system can
 * name the same file, which this map does not capture.
 */
module Memory {
  import opened Wrappers

  /** One stored turn. The role is free text: nothing checks it against "user" or "assistant". */
  datatype Message = Message(role: string, content: string, timestamp: string)

  type Conversation = seq<Message>

  /** The backend's contents: record key to the log stored under it. */
  type Objects = map<string, Conversation>

  const USER: string := "user"
  const ASSISTANT: string := "assistant"
  const SUFFIX: string := ".json"

  /** A log as the chat handler writes it: user and assistant turns in pairs, user first. */
  predicate Alternating(log: Conversation)
  {
    && |log| % 2 == 0
    && forall i :: 0 <= i < |log| ==> log[i].role == (if i % 2 == 0 then USER else ASSISTANT)
  }

  /** The record key of a session: the id followed by ".json". */
  function MemoryPath(sessionId: string): (key: string)
    ensures |key| == |sessionId| + |SUFFIX|
  {
    sessionId + SUFFIX
  }

  /** Distinct sessions never share a record. */
  lemma MemoryPathInjective(a: string, b: string)
    ensures MemoryPath(a) == MemoryPath(b) <==> a == b
  {
    if MemoryPath(a) == MemoryPath(b) {
      assert a == MemoryPath(a)[..|a|];
      assert b == MemoryPath(b)[..|b|];
    }
  }

  /** The log a readable backend yields for a session: what was stored, or nothing if never written. */
  function Lookup(objects: Objects, sessionId: string): Conversation
  {
    var key := MemoryPath(sessionId);
    if key in objects then objects[key] else []
  }

  /** The backend after the session's record is overwritten with `log`. */
  function Store(objects: Objects, sessionId: string, log: Conversation): (objects': Objects)
    ensures objects'.Keys == objects.Keys + {MemoryPath(sessionId)}
  {
    objects[MemoryPath(sessionId) := log]
  }

  /** The backend after a series of saves, applied oldest first. */
  function StoreAll(objects: Objects, saves: seq<(string, Conversation)>): Objects
  {
    if saves == [] then objects
    else
      var last := saves[|saves| - 1];
      Store(StoreAll(objects, saves[..|saves| - 1]), last.0, last.1)
  }

  /** The log of the latest save made for a session in a series of saves, if any. */
  function LastSaved(saves: seq<(string, Conversation)>, sessionId: string): Option<Conversation>
  {
    if saves == [] then None
    else if saves[|saves| - 1].0 == sessionId then Some(saves[|saves| - 1].1)
    else LastSaved(saves[..|saves| - 1], sessionId)
  }

  /**
   * After any series of saves, a session reads as the log its latest save wrote, or
   * as before the series if the series never saved it.
   */
  lemma {:induction false} LookupAfterSaves(objects: Objects, saves: seq<(string, Conversation)>, sessionId: string)
    ensures Lookup(StoreAll(objects, saves), sessionId) ==
      match LastSaved(saves, sessionId)
      case Some(log) => log
      case None => Lookup(objects, sessionId)
  {
    if saves != [] {
      var last := saves[|saves| - 1];
      LookupAfterSaves(objects, saves[..|saves| - 1], sessionId);
      if last.0 != sessionId {
        LookupAfterStoreOther(StoreAll(objects, saves[..|saves| - 1]), last.0, last.1, sessionId);
      }
    }
  }

  /** A session that no save ever wrote reads as the empty log, whatever other sessions saved. */
  lemma LookupNeverSaved(saves: seq<(string, Conversation)>, sessionId: string)
    requires forall i :: 0 <= i < |saves| ==> saves[i].0 != sessionId
    ensures Lookup(StoreAll(map[], saves), sessionId) == []
  {
    LookupAfterSaves(map[], saves, sessionId);
    NoSaveNoLast(saves, sessionId);
  }

  lemma {:induction false} NoSaveNoLast(saves: seq<(string, Conversation)>, sessionId: string)
    requires forall i :: 0 <= i < |saves| ==> saves[i].0 != sessionId
    ensures LastSaved(saves, sessionId) == None
  {
    if saves != [] {
      NoSaveNoLast(saves[..|saves| - 1], sessionId);
    }
  }

  /** Loading after a save yields exactly the saved log. */
  lemma LookupAfterStore(objects: Objects, sessionId: string, log: Conversation)
    ensures Lookup(Store(objects, sessionId, log), sessionId) == log
  {
  }

  /** Saving one session leaves every other session's log as it was. */
  lemma LookupAfterStoreOther(objects: Objects, sessionId: string, log: Conversation, other: string)
    requires other != sessionId
    ensures Lookup(Store(objects, sessionId, log), other) == Lookup(objects, other)
  {
    MemoryPathInjective(sessionId, other);
  }

  /** A save replaces the whole record: the later of two saves wins outright. */
  lemma StoreReplaces(objects: Objects, sessionId: string, first: Conversation, second: Conversation)
    ensures Store(Store(objects, sessionId, first), sessionId, second) == Store(objects, sessionId, second)
  {
  }

  /** The durable backend, shared by every request. */
  class ConversationStore {
    var objects: Objects

    /** A backend holding no session yet. */
    constructor ()
      ensures objects == map[]
    {
      objects := map[];
    }

    /** The log currently stored for a session, empty if none. */
    function History(sessionId: string): Conversation
      reads this
    {
      Lookup(objects, sessionId)
    }

    /**
     * Reads a session's log. `fault` is the backend's answer when the read fails for a
     * reason other than a missing record (an access error, an unreadable file): that
     * error propagates. A missing record is not an error and reads as [].
     */
    method Load(sessionId: string, fault: Option<string>) returns (r: Result<Conversation, string>)
      ensures fault.Some? ==> r == Err(fault.value)
      ensures fault.None? ==> r.Ok? && r.value == Lookup(objects, sessionId)
      ensures fault.None? && MemoryPath(sessionId) !in objects ==> r == Ok([])
      ensures fault.None? && MemoryPath(sessionId) in objects ==> r == Ok(objects[MemoryPath(sessionId)])
    {
      if fault.Some? {
        return Err(fault.value);
      }
      var key := MemoryPath(sessionId);
      if key in objects {
        r := Ok(objects[key]);
      } else {
        r := Ok([]);
      }
    }

    /**
     * Overwrites a session's record with `log`. `fault` is the backend's answer when the
     * write fails; then the error propagates and the stored records are as before.
     */
    method Save(sessionId: string, log: Conversation, fault: Option<string>) returns (r: Result<(), string>)
      modifies this
      ensures fault.Some? ==> r == Err(fault.value) && objects == old(objects)
      ensures fault.None? ==> r == Ok(()) && objects == Store(old(objects), sessionId, log)
    {
      if fault.Some? {
        return Err(fault.value);
      }
      objects := objects[MemoryPath(sessionId) := log];
      r := Ok(());
    }
  }
}
