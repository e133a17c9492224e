/** The chat store (memory/chat_manager.py): one history of dict messages
    per (user, thread) pair. The MongoDB collection is the map `threads`
    from that pair to the stored history; the clock that stamps messages is
    a parameter. */
module ChatStore {
  import opened Wrappers
  import opened Json
  import opened Compaction

  /** Above this many stored messages, reading a thread compacts it. */
  const ReadCompactionThreshold: nat := 10

  /** `_sanitize_messages`: each entry reduced to its role and content, read
      with `.get`, so a missing one becomes `None`. */
  function Sanitize(msgs: seq<DictMessage>): (r: seq<DictMessage>)
    ensures |r| == |msgs|
    ensures forall k :: 0 <= k < |r| ==>
      r[k].Keys == {"role", "content"}
      && r[k]["role"] == GetOr(msgs[k], "role", JNull)
      && r[k]["content"] == GetOr(msgs[k], "content", JNull)
  {
    seq(|msgs|, k requires 0 <= k < |msgs| =>
      map["role" := GetOr(msgs[k], "role", JNull), "content" := GetOr(msgs[k], "content", JNull)])
  }

  /** Sanitising a sanitised history changes nothing. */
  lemma SanitizeIdempotent(msgs: seq<DictMessage>)
    ensures Sanitize(Sanitize(msgs)) == Sanitize(msgs)
  {
    var once := Sanitize(msgs);
    forall k | 0 <= k < |msgs|
      ensures Sanitize(once)[k] == once[k]
    {
      assert Sanitize(once)[k].Keys == once[k].Keys;
    }
  }

  /** The entry `add_message` pushes. */
  function StoredMessage(role: string, content: string, timestamp: string): (m: DictMessage)
    ensures m.Keys == {"role", "content", "timestamp"}
  {
    map["role" := JStr(role), "content" := JStr(content), "timestamp" := JStr(timestamp)]
  }

  /** What `get_thread_messages` returns for the stored `threads`: nothing
      without a thread, the compacted history above the threshold, the
      sanitised history otherwise. Either way every message it returns
      carries only a role and a content: no timestamp reaches the model. */
  function ReadThread(py: Py, summarize: string -> string, threads: map<(string, string), seq<DictMessage>>,
                      key: (string, string)): (r: Option<seq<DictMessage>>)
    ensures r.None? <==> key !in threads
    ensures r.Some? ==> forall k :: 0 <= k < |r.value| ==> r.value[k].Keys == {"role", "content"}
  {
    if key !in threads then None
    else if |threads[key]| > ReadCompactionThreshold then
      var compacted := CompactHistory(py, Sanitize(threads[key]), summarize, false);
      CompactedIsSanitized(py, threads[key], summarize);
      assert forall k :: 0 <= k < |compacted| ==> compacted[k] == Sanitize(compacted)[k];
      Some(compacted)
    else Some(Sanitize(threads[key]))
  }

  class ChatManager {
    const uid: string
    const tid: string
    var threads: map<(string, string), seq<DictMessage>>

    /** The key of this manager's thread. */
    function Key(): (string, string) {
      (uid, tid)
    }

    /** A manager for one user's thread over a collection that already holds
        `stored`. */
    constructor (uid: string, tid: string, stored: map<(string, string), seq<DictMessage>>)
      ensures this.uid == uid && this.tid == tid && threads == stored
    {
      this.uid := uid;
      this.tid := tid;
      threads := stored;
    }

    /** `create_thread`: an empty history for a new thread; an existing one is
        left as it is. */
    method CreateThread() returns (reply: string)
      modifies this
      ensures Key() in old(threads) ==>
        threads == old(threads) && reply == "Thread " + tid + " already exists for user " + uid
      ensures Key() !in old(threads) ==>
        threads == old(threads)[Key() := []] && reply == "Thread " + tid + " created for user " + uid
    {
      if Key() !in threads {
        threads := threads[Key() := []];
        return "Thread " + tid + " created for user " + uid;
      }
      return "Thread " + tid + " already exists for user " + uid;
    }

    /** `add_message`: creates the thread if needed, then appends exactly one
        entry at the end; no other thread changes. */
    method AddMessage(role: string, content: string, timestamp: string)
      modifies this
      ensures Key() in threads
      ensures threads == old(threads)[Key() := (if Key() in old(threads) then old(threads)[Key()] else [])
                                                + [StoredMessage(role, content, timestamp)]]
    {
      if Key() !in threads {
        var _ := CreateThread();
      }
      threads := threads[Key() := threads[Key()] + [StoredMessage(role, content, timestamp)]];
    }

    /** `update_history`: replaces the stored history of an existing thread;
        without one nothing is written (the update does not insert). */
    method UpdateHistory(history: seq<DictMessage>)
      modifies this
      ensures threads == if Key() in old(threads) then old(threads)[Key() := history] else old(threads)
    {
      if Key() in threads {
        threads := threads[Key() := history];
      }
    }

    /** `clear_history`: creates the thread if needed and empties it. */
    method ClearHistory()
      modifies this
      ensures threads == old(threads)[Key() := []]
    {
      if Key() !in threads {
        var _ := CreateThread();
      }
      UpdateHistory([]);
    }

    /** `get_thread_messages`, with `summarize` standing for the model call
        inside `compact_history`. `None` without a thread. A history of ten
        messages or fewer comes back sanitised and the store is untouched.
        A longer one is sanitised and compacted (keeping the last three);
        the compacted list always is shorter, so it replaces the stored
        history, which then has four messages, and is returned. */
    method GetThreadMessages(py: Py, summarize: string -> string) returns (r: Option<seq<DictMessage>>)
      modifies this
      ensures r == ReadThread(py, summarize, old(threads), Key())
      ensures Key() !in old(threads) ==> r == None && threads == old(threads)
      ensures Key() in old(threads) && |old(threads)[Key()]| <= ReadCompactionThreshold ==>
        r == Some(Sanitize(old(threads)[Key()])) && threads == old(threads)
      ensures Key() in old(threads) && |old(threads)[Key()]| > ReadCompactionThreshold ==>
        r == Some(CompactHistory(py, Sanitize(old(threads)[Key()]), summarize, false))
        && |r.value| == KeepLastN + 1
        && threads == old(threads)[Key() := r.value]
    {
      if Key() !in threads {
        return None;
      }
      var raw := threads[Key()];
      if |raw| > ReadCompactionThreshold {
        var clean := Sanitize(raw);
        var compacted := CompactHistory(py, clean, summarize, false);
        if |compacted| < |raw| {
          UpdateHistory(compacted);
          return Some(compacted);
        }
      }
      r := Some(Sanitize(raw));
    }
  }

  /** What a long read stores is already sanitised: the summary and the
      kept messages carry only role and content. So the next read, which
      finds four messages, returns exactly what the first one returned. */
  lemma CompactedIsSanitized(py: Py, raw: seq<DictMessage>, summarize: string -> string)
    ensures var compacted := CompactHistory(py, Sanitize(raw), summarize, false);
      Sanitize(compacted) == compacted
  {
    var clean := Sanitize(raw);
    var compacted := CompactHistory(py, clean, summarize, false);
    forall k | 0 <= k < |compacted|
      ensures Sanitize(compacted)[k] == compacted[k]
    {
      if k > 0 {
        assert compacted[k] == clean[|clean| - (|compacted| - 1) + (k - 1)];
      }
      assert Sanitize(compacted)[k].Keys == compacted[k].Keys;
    }
  }
}
