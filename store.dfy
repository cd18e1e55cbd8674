/**
 * `store_interaction`: the key-value store holding one record per handled
 * mention. The clock reading `datetime.now().isoformat()` is an input.
 */
module Store {
  import opened Wrappers

  datatype InteractionRecord = InteractionRecord(
    threadId: string,
    userId: string,
    userName: Option<string>,
    userMessage: string,
    botResponse: string,
    timestamp: string)

  /** The key of a record: the thread id, a dash, and the ISO timestamp. */
  function StoreKey(threadId: string, timestamp: string): (key: string)
    ensures |key| == |threadId| + 1 + |timestamp|
    ensures key[..|threadId|] == threadId && key[|threadId|] == '-' && key[|threadId| + 1..] == timestamp
  {
    threadId + "-" + timestamp
  }

  /** Two interactions in one thread at different times are stored under different keys. */
  lemma StoreKeysDistinct(threadId: string, t1: string, t2: string)
    requires t1 != t2
    ensures StoreKey(threadId, t1) != StoreKey(threadId, t2)
  {
    var k1, k2 := StoreKey(threadId, t1), StoreKey(threadId, t2);
    assert k1[|threadId| + 1..] == t1;
  }

  /**
   * For thread ids without a dash (platform timestamps have none) the key
   * determines both the thread and the time.
   */
  lemma StoreKeyInjective(thread1: string, time1: string, thread2: string, time2: string)
    requires '-' !in thread1 && '-' !in thread2
    requires StoreKey(thread1, time1) == StoreKey(thread2, time2)
    ensures thread1 == thread2 && time1 == time2
  {
    var key := StoreKey(thread1, time1);
    assert key[|thread1|] == '-' && key[|thread2|] == '-';
    assert |thread1| == |thread2| by {
      assert key[..|thread1|] == thread1;
      assert key[..|thread2|] == thread2;
      assert forall i :: 0 <= i < |thread1| ==> key[i] == thread1[i];
      assert forall i :: 0 <= i < |thread2| ==> key[i] == thread2[i];
    }
  }

  class InteractionStore {
    var records: map<string, InteractionRecord>

    /** The hosted store as the process finds it, holding the records of earlier runs. */
    constructor (existing: map<string, InteractionRecord>)
      ensures records == existing
    {
      records := existing;
    }

    /** Write the record of one interaction under its key; nothing else changes. */
    method StoreInteraction(threadId: string, userId: string, userName: Option<string>,
                            userMessage: string, botResponse: string, now: string)
      modifies this
      ensures records == old(records)[StoreKey(threadId, now) :=
        InteractionRecord(threadId, userId, userName, userMessage, botResponse, now)]
    {
      var timestamp := now;
      var key := StoreKey(threadId, timestamp);
      records := records[key := InteractionRecord(threadId, userId, userName, userMessage, botResponse, timestamp)];
    }
  }
}
