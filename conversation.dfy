/**
 * The parts of a conversation history the retrieval and relevance steps
 * look at: the user-role messages, the last two of them, and their contents.
 */
module Conversation {
  import opened Wrappers
  import opened Seqs
  import opened Events

  /** `[msg for msg in history if msg["role"] == "user"]` */
  function UserMessages(ms: seq<Message>): (us: seq<Message>)
    ensures forall k :: 0 <= k < |us| ==> us[k].role == "user"
    ensures forall m :: m in ms && m.role == "user" ==> m in us
  {
    if ms == [] then []
    else
      var last := ms[|ms| - 1];
      UserMessages(ms[..|ms| - 1]) + (if last.role == "user" then [last] else [])
  }

  /**
   * `[msg for msg in h if msg["role"] == "user"][-2:] if h else []`: the two
   * most recent user messages, fewer when there are fewer, none when the
   * history is empty or `None`.
   */
  function LastUserMessages(h: History): seq<Message>
  {
    if Truthy(h) then LastN(UserMessages(h.value), 2) else []
  }

  /** `[msg["content"] for msg in ms]` */
  function Contents(ms: seq<Message>): (cs: seq<string>)
    ensures |cs| == |ms|
    ensures forall k :: 0 <= k < |ms| ==> cs[k] == ms[k].content
  {
    seq(|ms|, k requires 0 <= k < |ms| => ms[k].content)
  }

  lemma {:induction false} UserMessagesSubseq(ms: seq<Message>)
    ensures IsSubseq(UserMessages(ms), ms)
  {
    if ms != [] {
      var init := ms[..|ms| - 1];
      var last := ms[|ms| - 1];
      var us := UserMessages(init);
      UserMessagesSubseq(init);
      SubseqSnoc(us, init, last);
      assert ms == init + [last];
      if last.role == "user" {
        assert UserMessages(ms) == us + [last];
      } else {
        assert UserMessages(ms) == us;
      }
    }
  }

  /** A history without user messages has no user messages to show. */
  lemma {:induction false} NoUserMessages(ms: seq<Message>)
    requires forall k :: 0 <= k < |ms| ==> ms[k].role != "user"
    ensures UserMessages(ms) == []
  {
    if ms != [] {
      NoUserMessages(ms[..|ms| - 1]);
    }
  }

  /**
   * The window holds at most two messages, all of role `user`, in history
   * order; it is the tail of the user messages, with two of them whenever
   * there are at least two.
   */
  lemma LastUserMessagesWindow(h: History)
    ensures |LastUserMessages(h)| <= 2
    ensures forall k :: 0 <= k < |LastUserMessages(h)| ==> LastUserMessages(h)[k].role == "user"
    ensures !Truthy(h) ==> LastUserMessages(h) == []
    ensures Truthy(h) ==>
              var us := UserMessages(h.value);
              && us == us[..|us| - |LastUserMessages(h)|] + LastUserMessages(h)
              && |LastUserMessages(h)| == (if |us| < 2 then |us| else 2)
              && IsSubseq(LastUserMessages(h), h.value)
  {
    if Truthy(h) {
      WindowOfUserMessages(h.value);
    }
  }

  /** The last two or fewer user messages of a message list: a user-only tail of its user messages, and a subsequence of it. */
  lemma WindowOfUserMessages(ms: seq<Message>)
    ensures var us := UserMessages(ms);
            var w := LastN(us, 2);
            && us == us[..|us| - |w|] + w
            && |w| == (if |us| < 2 then |us| else 2)
            && IsSubseq(w, ms)
  {
    var us := UserMessages(ms);
    var w := LastN(us, 2);
    LastNIsSuffix(us, 2);
    UserMessagesSubseq(ms);
    SuffixSubseq(us, |us| - |w|);
    assert us[|us| - |w|..] == w;
    SubseqTrans(w, us, ms);
  }
}
