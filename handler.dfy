/**
 * `handle_mention`: for one mention, read the thread's last timestamp, fetch
 * the newer thread messages, advance the tracker, build the prompt, ask the
 * inference endpoint, store the interaction and reply in the thread.
 *
 * The platform's answers (reply pages, display name), the inference answer
 * and the clock reading are inputs.
 */
module Handler {
  import opened Wrappers
  import opened Text
  import opened Slack
  import opened History
  import opened Tracker
  import opened Inference
  import opened Store

  /** The reply `say` posts: into the event's channel, in the thread. */
  datatype Said = Said(channel: string, threadTs: string, text: string)

  function Texts(messages: seq<Message>): (r: seq<string>)
    ensures |r| == |messages|
    ensures forall i :: 0 <= i < |messages| ==> r[i] == messages[i].text
  {
    if messages == [] then [] else [messages[0].text] + Texts(messages[1..])
  }

  /** The texts of the new messages, joined by single spaces. */
  function Context(messages: seq<Message>): (r: string)
    ensures messages == [] ==> r == ""
    ensures |messages| == 1 ==> r == messages[0].text
    ensures |messages| > 0 ==> messages[0].text <= r
  {
    Join(Texts(messages), " ")
  }

  /** `f"{context} {user_name}: {user_message}"`. */
  function FullMessage(context: string, userName: Option<string>, userMessage: string): (r: string)
    ensures context <= r && |context| < |r| && r[|context|] == ' '
    ensures |r| == |context| + 1 + |RenderName(userName)| + 2 + |userMessage|
  {
    context + " " + RenderName(userName) + ": " + userMessage
  }

  /**
   * The question sent for a mention: the name, then the context, then the
   * name again and the user's message; the session is the thread.
   */
  lemma QuestionLayout(threadId: string, messages: seq<Message>, userName: Option<string>, userMessage: string)
    ensures var req := RequestFor(threadId, FullMessage(Context(messages), userName, userMessage), userName);
      && req.sessionId == threadId
      && req.question == RenderName(userName) + ": " + Context(messages) + " " + RenderName(userName) + ": " + userMessage
  {
  }

  /** The context of two runs of messages is their contexts joined by one space. */
  lemma ContextAppend(s: seq<Message>, t: seq<Message>)
    requires s != [] && t != []
    ensures Context(s + t) == Context(s) + " " + Context(t)
  {
    assert Texts(s + t) == Texts(s) + Texts(t);
    JoinAppend(Texts(s), Texts(t), " ");
  }

  method HandleMention(tracker: ThreadTracker, store: InteractionStore, e: Event,
                       replies: seq<RepliesResponse>, userName: Option<string>,
                       answer: Answer, now: string)
    returns (request: Request, said: Option<Said>)
    requires Ends(replies)
    modifies tracker, store
    // The history is filtered against the value the tracker held before this event.
    ensures request == RequestFor(ThreadId(e),
      FullMessage(Context(Newer(Received(replies), old(tracker.Get(ThreadId(e))))), userName, UserMessage(e.text)),
      userName)
    // The tracker moves to the event's own timestamp, whatever the inference does.
    ensures tracker.last == old(tracker.last)[ThreadId(e) := e.ts]
    ensures GenerateResponse(answer).Raised? ==> said == None && store.records == old(store.records)
    ensures GenerateResponse(answer).Returned? ==>
      var response := GenerateResponse(answer).text;
      && said == Some(Said(e.channel, ThreadId(e), response))
      && store.records == old(store.records)[StoreKey(ThreadId(e), now) :=
           InteractionRecord(ThreadId(e), e.user, userName, UserMessage(e.text), response, now)]
  {
    var threadTs := ThreadId(e);
    var userMessage := UserMessage(e.text);
    var lastTs := tracker.Get(threadTs);
    var newMessages := FetchThreadHistory(replies, lastTs);
    tracker.Set(threadTs, e.ts);
    var context := Context(newMessages);
    var fullMessage := FullMessage(context, userName, userMessage);
    request := RequestFor(threadTs, fullMessage, userName);
    match GenerateResponse(answer)
    case Raised =>
      said := None;
    case Returned(responseText) =>
      store.StoreInteraction(threadTs, e.user, userName, userMessage, responseText, now);
      said := Some(Said(e.channel, threadTs, responseText));
  }

  /**
   * Mentions handled one after another, each with the platform's answers,
   * the display name, the inference answer and the clock reading it met.
   * The tracker ends as `Track` of the mentions, whatever each generation
   * does, so what is proved about `Track` holds of the tracker the handler
   * changes.
   */
  method HandleMentions(tracker: ThreadTracker, store: InteractionStore, events: seq<Event>,
                        replies: seq<seq<RepliesResponse>>, userNames: seq<Option<string>>,
                        answers: seq<Answer>, nows: seq<string>)
    requires |replies| == |events| && |userNames| == |events| && |answers| == |events| && |nows| == |events|
    requires forall i :: 0 <= i < |events| ==> Ends(replies[i])
    modifies tracker, store
    ensures tracker.last == Track(old(tracker.last), events)
  {
    ghost var start := tracker.last;
    var i := 0;
    while i < |events|
      invariant 0 <= i <= |events|
      invariant tracker.last == Track(start, events[..i])
    {
      var e := events[i];
      TrackAppend(start, events[..i], e);
      assert events[..i + 1] == events[..i] + [e];
      ghost var next := Track(start, events[..i + 1]);
      assert next == tracker.last[ThreadId(e) := e.ts];
      var request, said := HandleMention(tracker, store, e, replies[i], userNames[i], answers[i], nows[i]);
      assert tracker.last == next;
      i := i + 1;
    }
    assert events[..i] == events;
  }
}
