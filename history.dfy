/**
 * `fetch_thread_history`: page through a thread's replies, keeping the
 * messages newer than the last one the bot has processed, and stop with what
 * has been gathered when the platform reports an error.
 */
module History {
  import opened Slack

  /**
   * One answer of the platform to a `conversations.replies` request, in the
   * order the requests are made: a page of messages that says whether more
   * follow, or the `SlackApiError` the request raised.
   */
  datatype RepliesResponse = Page(messages: seq<Message>, hasMore: bool) | ApiError

  /** A response after which the loop makes no further request. */
  predicate Terminal(r: RepliesResponse) {
    r.ApiError? || !r.hasMore
  }

  /** The platform answers with a terminal response at some point. */
  predicate Ends(rs: seq<RepliesResponse>)
    decreases |rs|
  {
    |rs| > 0 && (Terminal(rs[0]) || Ends(rs[1..]))
  }

  /** The message is strictly newer than the timestamp, numerically. */
  predicate IsNewer(m: Message, last: Timestamp) {
    m.ts.micros > last.micros
  }

  /** The messages of `batch` newer than `last`, in their order. */
  function Newer(batch: seq<Message>, last: Timestamp): (r: seq<Message>)
    ensures |r| <= |batch|
    ensures forall i :: 0 <= i < |r| ==> IsNewer(r[i], last)
  {
    if batch == [] then []
    else (if IsNewer(batch[0], last) then [batch[0]] else []) + Newer(batch[1..], last)
  }

  /**
   * The messages of every page the bot receives before pagination stops:
   * at the first page without more to follow, or just before the first error.
   */
  function Received(rs: seq<RepliesResponse>): (r: seq<Message>)
    requires Ends(rs)
    ensures rs[0].ApiError? ==> r == []
    ensures rs[0].Page? ==> rs[0].messages <= r
    decreases |rs|
  {
    match rs[0]
    case ApiError => []
    case Page(batch, more) => batch + (if more then Received(rs[1..]) else [])
  }

  /** Every response is a page that announces another one after it. */
  predicate AllMore(pages: seq<RepliesResponse>) {
    pages == [] || (pages[0].Page? && pages[0].hasMore && AllMore(pages[1..]))
  }

  /** The messages of a sequence of pages, one after the other. */
  function Concat(pages: seq<RepliesResponse>): seq<Message>
    requires AllMore(pages)
  {
    if pages == [] then [] else pages[0].messages + Concat(pages[1..])
  }

  /** One response's share of the result: what the loop does with `rs[0]`. */
  lemma ReceivedStep(rs: seq<RepliesResponse>, last: Timestamp)
    requires Ends(rs)
    ensures rs[0].ApiError? ==> Received(rs) == []
    ensures rs[0].Page? && !rs[0].hasMore ==>
      Newer(Received(rs), last) == Newer(rs[0].messages, last)
    ensures rs[0].Page? && rs[0].hasMore ==>
      Ends(rs[1..]) && Newer(Received(rs), last) == Newer(rs[0].messages, last) + Newer(Received(rs[1..]), last)
  {
    if rs[0].Page? {
      var later := if rs[0].hasMore then Received(rs[1..]) else [];
      NewerAppend(rs[0].messages, later, last);
      assert rs[0].messages + [] == rs[0].messages;
    }
  }

  method FetchThreadHistory(replies: seq<RepliesResponse>, lastKnown: Timestamp)
    returns (messages: seq<Message>)
    requires Ends(replies)
    ensures messages == Newer(Received(replies), lastKnown)
  {
    messages := [];
    var i := 0;
    while true
      invariant 0 <= i < |replies| && Ends(replies[i..])
      invariant messages + Newer(Received(replies[i..]), lastKnown) == Newer(Received(replies), lastKnown)
      decreases |replies| - i
    {
      ghost var rest := replies[i..];
      assert rest[0] == replies[i];
      ReceivedStep(rest, lastKnown);
      match replies[i]
      case ApiError =>
        assert messages + [] == messages;
        break;
      case Page(batch, hasMore) =>
        messages := messages + Newer(batch, lastKnown);
        if !hasMore {
          break;
        }
        assert rest[1..] == replies[i + 1..];
        i := i + 1;
    }
  }

  /** Filtering distributes over concatenation: order across pages is kept. */
  lemma {:induction false} NewerAppend(s: seq<Message>, t: seq<Message>, last: Timestamp)
    ensures Newer(s + t, last) == Newer(s, last) + Newer(t, last)
  {
    if s == [] {
      assert s + t == t;
    } else {
      assert (s + t)[0] == s[0];
      assert (s + t)[1..] == s[1..] + t;
      NewerAppend(s[1..], t, last);
    }
  }

  /** A message is kept exactly when it was received and is newer than `last`. */
  lemma {:induction false} NewerMembership(s: seq<Message>, last: Timestamp, m: Message)
    ensures m in Newer(s, last) <==> m in s && IsNewer(m, last)
  {
    if s != [] {
      NewerMembership(s[1..], last, m);
      assert s == [s[0]] + s[1..];
    }
  }

  /** No message is duplicated or dropped: a newer one is kept as often as it occurs, an older one never. */
  lemma {:induction false} NewerCount(s: seq<Message>, last: Timestamp, m: Message)
    ensures multiset(Newer(s, last))[m] == if IsNewer(m, last) then multiset(s)[m] else 0
  {
    if s != [] {
      NewerCount(s[1..], last, m);
      var head := if IsNewer(s[0], last) then [s[0]] else [];
      assert Newer(s, last) == head + Newer(s[1..], last);
      assert multiset(Newer(s, last)) == multiset(head) + multiset(Newer(s[1..], last));
      assert s == [s[0]] + s[1..];
      assert multiset(s) == multiset([s[0]]) + multiset(s[1..]);
    }
  }

  /** When everything is newer the filter keeps the batch as it is. */
  lemma {:induction false} NewerKeepsAll(s: seq<Message>, last: Timestamp)
    requires forall i :: 0 <= i < |s| ==> IsNewer(s[i], last)
    ensures Newer(s, last) == s
  {
    if s != [] {
      NewerKeepsAll(s[1..], last);
      assert s == [s[0]] + s[1..];
    }
  }

  /** Nothing older than `last` is kept. */
  lemma {:induction false} NewerDropsAll(s: seq<Message>, last: Timestamp)
    requires forall i :: 0 <= i < |s| ==> !IsNewer(s[i], last)
    ensures Newer(s, last) == []
  {
    if s != [] {
      NewerDropsAll(s[1..], last);
    }
  }

  /**
   * A history whose messages up to `last` come first, as the platform orders a
   * thread, leaves exactly the messages after them.
   */
  lemma NewerOfHistory(older: seq<Message>, newer: seq<Message>, last: Timestamp)
    requires forall i :: 0 <= i < |older| ==> !IsNewer(older[i], last)
    requires forall i :: 0 <= i < |newer| ==> IsNewer(newer[i], last)
    ensures Newer(older + newer, last) == newer
  {
    NewerAppend(older, newer, last);
    NewerDropsAll(older, last);
    NewerKeepsAll(newer, last);
  }

  /** An error on the first request leaves nothing. */
  lemma FirstRequestFails(replies: seq<RepliesResponse>)
    requires |replies| > 0 && replies[0].ApiError?
    ensures Ends(replies) && Received(replies) == []
  {
  }

  /** An error after some pages leaves exactly the messages of those pages. */
  lemma {:induction false} ErrorAfterPages(pages: seq<RepliesResponse>, rest: seq<RepliesResponse>)
    requires AllMore(pages)
    ensures Ends(pages + [ApiError] + rest)
    ensures Received(pages + [ApiError] + rest) == Concat(pages)
  {
    var rs := pages + [ApiError] + rest;
    if pages == [] {
      assert rs[0] == ApiError;
    } else {
      assert rs[0] == pages[0];
      assert rs[1..] == pages[1..] + [ApiError] + rest;
      ErrorAfterPages(pages[1..], rest);
    }
  }

  /** A thread read to its last page leaves the messages of every page, in order. */
  lemma {:induction false} LastPageReached(pages: seq<RepliesResponse>, batch: seq<Message>, rest: seq<RepliesResponse>)
    requires AllMore(pages)
    ensures Ends(pages + [Page(batch, false)] + rest)
    ensures Received(pages + [Page(batch, false)] + rest) == Concat(pages) + batch
  {
    var rs := pages + [Page(batch, false)] + rest;
    if pages == [] {
      assert rs[0] == Page(batch, false);
    } else {
      assert rs[0] == pages[0];
      assert rs[1..] == pages[1..] + [Page(batch, false)] + rest;
      LastPageReached(pages[1..], batch, rest);
      calc {
        Received(rs);
        pages[0].messages + Received(rs[1..]);
        pages[0].messages + (Concat(pages[1..]) + batch);
        (pages[0].messages + Concat(pages[1..])) + batch;
      }
    }
  }

  /** Responses after the terminal one are never requested and change nothing. */
  lemma {:induction false} ReceivedIgnoresLater(rs: seq<RepliesResponse>, later: seq<RepliesResponse>)
    requires Ends(rs)
    ensures Ends(rs + later) && Received(rs + later) == Received(rs)
  {
    assert (rs + later)[0] == rs[0];
    if !Terminal(rs[0]) {
      assert (rs + later)[1..] == rs[1..] + later;
      ReceivedIgnoresLater(rs[1..], later);
    }
  }
}
