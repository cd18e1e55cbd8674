/**
 * Runs of the mention handler derived from the contracts alone: the first
 * mention in a thread, a resumed thread, a generation that raises, and an
 * inference request that fails.
 */
module Scenarios {
  import opened Wrappers
  import opened Text
  import opened Slack
  import opened History
  import opened Tracker
  import opened Inference
  import opened Store
  import opened Handler

  /** A mention token, one space, and a stripped message yield that message. */
  lemma MentionText(token: string, message: string)
    requires ' ' !in token && Stripped(message)
    ensures UserMessage(token + " " + message) == message
  {
    UserMessageAfterFirstSpace(token + " " + message, token, message);
    assert message == [] + message + [];
    StripUnique(message, [], message, []);
  }

  /** With no new thread messages the question is the name twice around an empty context. */
  lemma QuestionWithoutContext(threadId: string, userName: Option<string>, message: string)
    ensures RequestFor(threadId, FullMessage(Context([]), userName, message), userName).question
      == RenderName(userName) + ":  " + RenderName(userName) + ": " + message
  {
    var n := RenderName(userName);
    assert Context([]) == "";
    assert FullMessage("", userName, message) == " " + n + ": " + message;
    assert n + ": " + (" " + n + ": " + message) == n + ":  " + n + ": " + message;
  }

  /**
   * A mention that starts a thread, where the platform's replies hold just
   * that mention: the unseen thread reads as "0", so the mention's own text
   * is the context; the question is the name, that text, the name again and
   * the message; the tracker moves to the mention, and the answer is stored
   * and posted.
   */
  method FirstMentionInThread(prior: map<string, Timestamp>, existing: map<string, InteractionRecord>,
                              e: Event, token: string, message: string,
                              userName: Option<string>, text: string, now: string)
    returns (request: Request, said: Option<Said>, tracked: map<string, Timestamp>,
             stored: map<string, InteractionRecord>)
    requires e.threadTs.None? && ThreadId(e) !in prior && e.ts.micros > 0
    requires e.text == token + " " + message && ' ' !in token && Stripped(message)
    ensures request.sessionId == e.ts.text
    ensures request.question == RenderName(userName) + ": " + e.text + " " + RenderName(userName) + ": " + message
    ensures said == Some(Said(e.channel, e.ts.text, text))
    ensures tracked == prior[e.ts.text := e.ts]
    ensures stored == existing[StoreKey(e.ts.text, now) := InteractionRecord(e.ts.text, e.user, userName, message, text, now)]
  {
    var tracker := new ThreadTracker.Resume(prior);
    var store := new InteractionStore(existing);
    var own := [Message(e.ts, e.text)];
    assert Newer(Received([Page(own, false)]), tracker.Get(ThreadId(e))) == own by {
      assert Received([Page(own, false)]) == own;
      NewerKeepsAll(own, Zero);
    }
    MentionText(token, message);
    QuestionLayout(ThreadId(e), own, userName, message);
    request, said := HandleMention(tracker, store, e, [Page(own, false)], userName, Text(text), now);
    tracked := tracker.last;
    stored := store.records;
    assert stored == existing[StoreKey(e.ts.text, now) := InteractionRecord(e.ts.text, e.user, userName, message, text, now)];
  }

  /**
   * A thread the bot has answered before: with the history as the platform
   * orders it, the messages up to the tracked timestamp are left out of the
   * context, the rest form it in order, and the tracker moves to the event.
   */
  method ResumedThread(prior: map<string, Timestamp>, existing: map<string, InteractionRecord>,
                       e: Event, older: seq<Message>, newer: seq<Message>,
                       userName: Option<string>, text: string, now: string)
    returns (request: Request, said: Option<Said>, tracked: map<string, Timestamp>)
    requires forall i :: 0 <= i < |older| ==> !IsNewer(older[i], Lookup(prior, ThreadId(e)))
    requires forall i :: 0 <= i < |newer| ==> IsNewer(newer[i], Lookup(prior, ThreadId(e)))
    ensures request == RequestFor(ThreadId(e), FullMessage(Context(newer), userName, UserMessage(e.text)), userName)
    ensures said == Some(Said(e.channel, ThreadId(e), text))
    ensures tracked == prior[ThreadId(e) := e.ts]
  {
    var tracker := new ThreadTracker.Resume(prior);
    var store := new InteractionStore(existing);
    NewerOfHistory(older, newer, Lookup(prior, ThreadId(e)));
    assert Received([Page(older + newer, false)]) == older + newer;
    request, said := HandleMention(tracker, store, e, [Page(older + newer, false)], userName, Text(text), now);
    tracked := tracker.last;
  }

  /**
   * The tracker moves before generation: a mention whose answer has no
   * `text` field stores and posts nothing, yet the next mention in the same
   * thread no longer sees the messages up to it.
   */
  method FailedGenerationConsumesContext(prior: map<string, Timestamp>, existing: map<string, InteractionRecord>,
                                         e1: Event, e2: Event,
                                         replies1: seq<RepliesResponse>, older: seq<Message>, newer: seq<Message>,
                                         userName: Option<string>, text: string, now1: string, now2: string)
    returns (first: Option<Said>, second: Request, stored: map<string, InteractionRecord>)
    requires Ends(replies1)
    requires ThreadId(e1) == ThreadId(e2)
    requires forall i :: 0 <= i < |older| ==> !IsNewer(older[i], e1.ts)
    requires forall i :: 0 <= i < |newer| ==> IsNewer(newer[i], e1.ts)
    ensures first == None
    ensures second == RequestFor(ThreadId(e2), FullMessage(Context(newer), userName, UserMessage(e2.text)), userName)
    ensures stored == existing[StoreKey(ThreadId(e2), now2) :=
      InteractionRecord(ThreadId(e2), e2.user, userName, UserMessage(e2.text), text, now2)]
  {
    var tracker := new ThreadTracker.Resume(prior);
    var store := new InteractionStore(existing);
    var r1;
    r1, first := HandleMention(tracker, store, e1, replies1, userName, NoTextField, now1);
    assert GenerateResponse(NoTextField).Raised?;
    assert store.records == existing;
    assert tracker.last == prior[ThreadId(e1) := e1.ts];
    assert tracker.Get(ThreadId(e2)) == e1.ts;
    NewerOfHistory(older, newer, e1.ts);
    var replies2 := [Page(older + newer, false)];
    assert Newer(Received(replies2), tracker.Get(ThreadId(e2))) == newer by {
      assert Received(replies2) == older + newer;
    }
    var s2;
    second, s2 := HandleMention(tracker, store, e2, replies2, userName, Text(text), now2);
    stored := store.records;
  }

  /**
   * The inference request fails: the reply and the stored `bot_response`
   * are both the fixed apology, and nothing escapes the handler.
   */
  method InferenceFails(prior: map<string, Timestamp>, existing: map<string, InteractionRecord>,
                        e: Event, replies: seq<RepliesResponse>,
                        userName: Option<string>, now: string)
    returns (said: Option<Said>, record: InteractionRecord)
    requires Ends(replies)
    ensures said == Some(Said(e.channel, ThreadId(e), Fallback))
    ensures record == InteractionRecord(ThreadId(e), e.user, userName, UserMessage(e.text), Fallback, now)
  {
    var tracker := new ThreadTracker.Resume(prior);
    var store := new InteractionStore(existing);
    var request;
    request, said := HandleMention(tracker, store, e, replies, userName, RequestFailed, now);
    record := store.records[StoreKey(ThreadId(e), now)];
  }
}
