/**
 * What the chat platform delivers to the bot: timestamps, thread messages,
 * mention events and the pages of `conversations.replies`, and the values
 * the mention handler derives from an event (its thread id and the user's
 * message).
 */
module Slack {
  import opened Wrappers
  import opened Text

  /**
   * A platform timestamp such as "1700000000.123456". `text` is the string
   * the platform sends, which the bot uses as a key; `micros` is the number
   * the bot compares, the value of `float(text)` scaled by 10^6.
   */
  datatype Timestamp = Timestamp(text: string, micros: int)

  /** The value an unseen thread reads as: the string "0". */
  const Zero := Timestamp("0", 0)

  datatype Message = Message(ts: Timestamp, text: string)

  /** An `app_mention` event; `threadTs` is absent when the mention starts a thread. */
  datatype Event = Event(
    channel: string,
    threadTs: Option<Timestamp>,
    ts: Timestamp,
    user: string,
    text: string)

  /** The thread a mention belongs to: its `thread_ts`, or its own `ts` when it has none. */
  function ThreadId(e: Event): (id: string)
    ensures e.threadTs.Some? ==> id == e.threadTs.value.text
    ensures e.threadTs.None? ==> id == e.ts.text
  {
    (if e.threadTs.Some? then e.threadTs.value else e.ts).text
  }

  /**
   * The user's message in a mention: the text after the first space, stripped;
   * empty when the text holds no space.
   */
  function UserMessage(text: string): (r: string)
    ensures Stripped(r)
    ensures r == [] || |r| < |text|
  {
    var parts := SplitOnce(text, ' ');
    if |parts| > 1 then Strip(parts[1]) else ""
  }

  lemma {:induction false} SplitAtFirst(head: string, tail: string, sep: char)
    requires sep !in head
    ensures SplitOnce(head + [sep] + tail, sep) == [head, tail]
  {
    var s := head + [sep] + tail;
    if head == [] {
      assert s[0] == sep && s[1..] == tail;
    } else {
      assert s[0] == head[0] && s[1..] == head[1..] + [sep] + tail;
      SplitAtFirst(head[1..], tail, sep);
      assert [s[0]] + head[1..] == head;
    }
  }

  /** The user's message is what follows the first space, with its surrounding whitespace removed. */
  lemma UserMessageAfterFirstSpace(text: string, head: string, tail: string)
    requires text == head + " " + tail && ' ' !in head
    ensures UserMessage(text) == Strip(tail)
  {
    SplitAtFirst(head, tail, ' ');
  }

  /** Text without a space, such as a bare mention token, gives the empty message. */
  lemma UserMessageWithoutSpace(text: string)
    requires ' ' !in text
    ensures UserMessage(text) == ""
  {
  }
}
