/** The AI shopping assistant's chat: a transcript of messages, the input box,
    a loading flag that keeps one request in flight, and a chat handle created
    on the first send and reused afterwards. The remote model's reply is a
    finite sequence of fragments that may end in a failure. */
module Consultant {
  import opened Types

  /** The first message of every transcript. */
  const Greeting: string := "Hey Gamer! Welcome to DULA FF. Looking for a hardware upgrade? I can help you pick the perfect setup!"

  /** The model message appended when creating the handle or streaming fails. */
  const Apology: string := "Sorry, I lost my connection to the server. Try again?"

  // ---------------------------------------------------------------------------
  // The input guard: String.prototype.trim
  // ---------------------------------------------------------------------------

  /** ECMAScript's WhiteSpace and LineTerminator characters, which `trim` strips. */
  predicate IsWhitespace(c: char)
  {
    c == '\t' || c == '\n' || c == '\U{000B}' || c == '\U{000C}' || c == '\r' || c == ' ' ||
    c == '\U{00A0}' || c == '\U{1680}' || ('\U{2000}' <= c <= '\U{200A}') ||
    c == '\U{2028}' || c == '\U{2029}' || c == '\U{202F}' || c == '\U{205F}' ||
    c == '\U{3000}' || c == '\U{FEFF}'
  }

  /** `s` without its leading whitespace: a suffix of `s` preceded only by
      whitespace and not starting with any. */
  function TrimStart(s: string): (r: string)
    ensures |r| <= |s| && r == s[|s| - |r|..]
    ensures forall i :: 0 <= i < |s| - |r| ==> IsWhitespace(s[i])
    ensures r == [] || !IsWhitespace(r[0])
  {
    if s != [] && IsWhitespace(s[0]) then TrimStart(s[1..]) else s
  }

  /** `s` without its trailing whitespace: a prefix of `s` followed only by
      whitespace and not ending with any. */
  function TrimEnd(s: string): (r: string)
    ensures |r| <= |s| && r == s[..|r|]
    ensures forall i :: |r| <= i < |s| ==> IsWhitespace(s[i])
    ensures r == [] || !IsWhitespace(r[|r| - 1])
  {
    if s != [] && IsWhitespace(s[|s| - 1]) then TrimEnd(s[..|s| - 1]) else s
  }

  function Trim(s: string): string
  {
    TrimEnd(TrimStart(s))
  }

  /** The guard's `!input.trim()`. */
  predicate IsBlank(s: string)
  {
    Trim(s) == ""
  }

  /** An input is blank exactly when every character of it is whitespace. */
  lemma BlankIffAllWhitespace(s: string)
    ensures IsBlank(s) <==> forall i :: 0 <= i < |s| ==> IsWhitespace(s[i])
  {
    var t := TrimStart(s);
    if t != [] {
      assert s[|s| - |t|] == t[0];
    }
  }

  // ---------------------------------------------------------------------------
  // The reply stream
  // ---------------------------------------------------------------------------

  /** One streamed response chunk; its `text` may be absent. */
  datatype Chunk = Chunk(text: Option<string>)

  /** The remote reply: the chunks delivered in order, and whether the stream
      then throws instead of ending normally. */
  datatype Reply = Reply(chunks: seq<Chunk>, fails: bool)

  /** `chunk.text || ''`. */
  function TextOf(c: Chunk): string
  {
    match c.text
    case None => ""
    case Some(t) => t
  }

  /** The assistant text after the given chunks: their texts joined in order. */
  function Accumulated(cs: seq<Chunk>): string
  {
    if cs == [] then "" else Accumulated(cs[..|cs| - 1]) + TextOf(cs[|cs| - 1])
  }

  /** Accumulating a concatenation concatenates the accumulations. */
  lemma {:induction false} AccumulatedAppend(a: seq<Chunk>, b: seq<Chunk>)
    ensures Accumulated(a + b) == Accumulated(a) + Accumulated(b)
  {
    if b != [] {
      var n := |b| - 1;
      assert (a + b)[..|a + b| - 1] == a + b[..n];
      assert (a + b)[|a + b| - 1] == b[n];
      AccumulatedAppend(a, b[..n]);
    } else {
      assert a + b == a;
    }
  }

  /** The text after fewer chunks is a prefix of the text after more: it only
      ever grows. */
  lemma AccumulatedGrows(cs: seq<Chunk>, j: nat, k: nat)
    requires j <= k <= |cs|
    ensures Accumulated(cs[..j]) <= Accumulated(cs[..k])
  {
    assert cs[..k] == cs[..j] + cs[j..k];
    AccumulatedAppend(cs[..j], cs[j..k]);
  }

  /** A chunk without text leaves the assistant text as it was. */
  lemma AccumulatedSkipsMissingText(cs: seq<Chunk>)
    ensures Accumulated(cs + [Chunk(None)]) == Accumulated(cs)
    ensures Accumulated(cs + [Chunk(Some(""))]) == Accumulated(cs)
  {
    assert (cs + [Chunk(None)])[..|cs|] == cs;
    assert (cs + [Chunk(Some(""))])[..|cs|] == cs;
  }

  // ---------------------------------------------------------------------------
  // The transcript a send produces
  // ---------------------------------------------------------------------------

  function UserMessage(text: string, now: int): Message
  {
    Message(User, text, now)
  }

  function ApologyMessage(now: int): Message
  {
    Message(Model, Apology, now)
  }

  /** The empty model message a send appends before streaming into it. */
  function Pending(now: int): Message
  {
    Message(Model, "", now)
  }

  /** `handleSend`'s guard: blank input or a request already in flight. */
  predicate Ignored(input: string, isLoading: bool)
  {
    IsBlank(input) || isLoading
  }

  /** The transcripts written while streaming: after chunk k the last message
      is the pending one with the text of the first k + 1 chunks. */
  function StreamUpdates(asked: seq<Message>, now: int, cs: seq<Chunk>): (r: seq<seq<Message>>)
    ensures |r| == |cs|
  {
    seq(|cs|, k requires 0 <= k < |cs| => asked + [Pending(now).(text := Accumulated(cs[..k + 1]))])
  }

  /** Every transcript `handleSend` asks `setMessages` for, in order, once past the guard.
      `handleOk` says whether a chat handle exists or was just created. */
  function SendUpdates(before: seq<Message>, text: string, now: int, handleOk: bool, reply: Reply): seq<seq<Message>>
  {
    var asked := before + [UserMessage(text, now)];
    if !handleOk then
      [asked, asked + [ApologyMessage(now)]]
    else
      var streamed := asked + [Pending(now).(text := Accumulated(reply.chunks))];
      [asked, asked + [Pending(now)]] + StreamUpdates(asked, now, reply.chunks)
      + (if reply.fails then [streamed + [ApologyMessage(now)]] else [])
  }

  /** The transcript when `handleSend` returns, once past the guard. */
  function AfterSend(before: seq<Message>, text: string, now: int, handleOk: bool, reply: Reply): seq<Message>
  {
    var asked := before + [UserMessage(text, now)];
    if !handleOk then asked + [ApologyMessage(now)]
    else asked + [Message(Model, Accumulated(reply.chunks), now)]
         + (if reply.fails then [ApologyMessage(now)] else [])
  }

  /** The last transcript written during a send is the one it leaves behind. */
  lemma UpdatesEndAtAfterSend(before: seq<Message>, text: string, now: int, handleOk: bool, reply: Reply)
    ensures var rs := SendUpdates(before, text, now, handleOk, reply);
      |rs| >= 2 && rs[|rs| - 1] == AfterSend(before, text, now, handleOk, reply)
  {
    var cs := reply.chunks;
    assert cs[..|cs|] == cs;
  }

  /** A send appends a user message with the input as typed, then: the apology
      when no handle could be made (two messages); otherwise a model message
      holding all chunk texts in order, and after it the apology when the stream
      failed (two or three messages). The old transcript is kept as a prefix. */
  lemma AfterSendShape(before: seq<Message>, text: string, now: int, handleOk: bool, reply: Reply)
    ensures var r, n := AfterSend(before, text, now, handleOk, reply), |before|;
      r[..n] == before && r[n] == Message(User, text, now) &&
      (!handleOk ==> |r| == n + 2 && r[n + 1] == ApologyMessage(now)) &&
      (handleOk ==> r[n + 1] == Message(Model, Accumulated(reply.chunks), now)) &&
      (handleOk && !reply.fails ==> |r| == n + 2) &&
      (handleOk && reply.fails ==> |r| == n + 3 && r[n + 2] == ApologyMessage(now))
  {
  }

  /** Each update differs from the value before it in one of two ways: a message
      is appended, or only the last message is rewritten, keeping its role and
      timestamp and extending its text. */
  ghost predicate UpdateStep(a: seq<Message>, b: seq<Message>)
  {
    (|b| == |a| + 1 && b[..|a|] == a) ||
    (|b| == |a| && |a| > 0 && b[..|a| - 1] == a[..|a| - 1] &&
     b[|a| - 1].role == a[|a| - 1].role && b[|a| - 1].timestamp == a[|a| - 1].timestamp &&
     a[|a| - 1].text <= b[|b| - 1].text)
  }

  /** Every value in `rs` is one step from the one before it, the first one
      step from `start`. */
  ghost predicate Steps(start: seq<Message>, rs: seq<seq<Message>>)
  {
    rs == [] ||
    (UpdateStep(start, rs[0]) && forall k :: 0 <= k < |rs| - 1 ==> UpdateStep(rs[k], rs[k + 1]))
  }

  lemma StepsAppend(start: seq<Message>, xs: seq<seq<Message>>, ys: seq<seq<Message>>)
    requires Steps(start, xs)
    requires Steps(if xs == [] then start else xs[|xs| - 1], ys)
    ensures Steps(start, xs + ys)
  {
    var zs := xs + ys;
    if xs != [] && ys != [] {
      forall k | 0 <= k < |zs| - 1 ensures UpdateStep(zs[k], zs[k + 1]) {
        if k < |xs| - 1 {
          assert zs[k] == xs[k] && zs[k + 1] == xs[k + 1];
        } else if k == |xs| - 1 {
          assert zs[k] == xs[k] && zs[k + 1] == ys[0];
        } else {
          assert zs[k] == ys[k - |xs|] && zs[k + 1] == ys[k - |xs| + 1];
        }
      }
    } else if xs == [] {
      assert zs == ys;
    } else {
      assert zs == xs;
    }
  }

  /** While streaming, each update only rewrites the last message, with a text
      that extends the previous one. */
  lemma StreamUpdatesSteps(asked: seq<Message>, now: int, cs: seq<Chunk>)
    ensures Steps(asked + [Pending(now)], StreamUpdates(asked, now, cs))
    ensures forall k :: 0 <= k < |cs| ==>
      |StreamUpdates(asked, now, cs)[k]| == |asked| + 1 && StreamUpdates(asked, now, cs)[k][..|asked|] == asked
  {
    var fs := StreamUpdates(asked, now, cs);
    forall k | 0 <= k < |fs| - 1 ensures UpdateStep(fs[k], fs[k + 1]) {
      AccumulatedGrows(cs, k + 1, k + 2);
      assert fs[k][..|asked|] == asked == fs[k + 1][..|asked|];
    }
    if fs != [] {
      assert fs[0][..|asked|] == asked;
    }
  }

  /** Every streamed text is a prefix of the final assistant text. */
  lemma StreamUpdatesPrefixOfFinal(asked: seq<Message>, now: int, cs: seq<Chunk>)
    ensures forall k :: 0 <= k < |cs| ==>
      StreamUpdates(asked, now, cs)[k][|asked|].text <= Accumulated(cs)
  {
    forall k | 0 <= k < |cs| ensures StreamUpdates(asked, now, cs)[k][|asked|].text <= Accumulated(cs) {
      AccumulatedGrows(cs, k + 1, |cs|);
      assert cs[..|cs|] == cs;
    }
  }

  /** From the transcript before the send to the one it leaves, every update
      appends a message or extends the last one: earlier messages are never
      rewritten and the assistant text never shrinks. */
  lemma SendUpdatesSteps(before: seq<Message>, text: string, now: int, handleOk: bool, reply: Reply)
    ensures Steps(before, SendUpdates(before, text, now, handleOk, reply))
  {
    var asked := before + [UserMessage(text, now)];
    var pending := asked + [Pending(now)];
    var cs := reply.chunks;
    assert asked[..|before|] == before;
    if handleOk {
      var updates := StreamUpdates(asked, now, cs);
      var streamed := asked + [Pending(now).(text := Accumulated(cs))];
      var tail := if reply.fails then [streamed + [ApologyMessage(now)]] else [];
      assert pending[..|asked|] == asked;
      assert Steps(before, [asked, pending]);
      StreamUpdatesSteps(asked, now, cs);
      StepsAppend(before, [asked, pending], updates);
      var head := [asked, pending] + updates;
      assert cs[..|cs|] == cs;
      assert head[|head| - 1] == streamed;
      assert (streamed + [ApologyMessage(now)])[..|streamed|] == streamed;
      StepsAppend(before, head, tail);
    }
  }

  /** The transcript invariant at rest: every user message is directly followed
      by a model message. */
  predicate TurnTaking(ms: seq<Message>)
  {
    forall i :: 0 <= i < |ms| && ms[i].role == User ==> i + 1 < |ms| && ms[i + 1].role == Model
  }

  /** A completed send keeps the turn-taking invariant. */
  lemma AfterSendTurnTaking(before: seq<Message>, text: string, now: int, handleOk: bool, reply: Reply)
    requires TurnTaking(before)
    ensures TurnTaking(AfterSend(before, text, now, handleOk, reply))
  {
    AfterSendShape(before, text, now, handleOk, reply);
    var r := AfterSend(before, text, now, handleOk, reply);
    forall i | 0 <= i < |r| && r[i].role == User ensures i + 1 < |r| && r[i + 1].role == Model {
      if i < |before| {
        assert r[i] == before[i];
        if i + 1 < |before| {
          assert r[i + 1] == before[i + 1];
        }
      }
    }
  }

  /** Two successful sends in a row add exactly four messages: user, full
      reply, user, full reply. */
  lemma TwoSends(before: seq<Message>, t1: string, n1: int, r1: seq<Chunk>, t2: string, n2: int, r2: seq<Chunk>)
    ensures AfterSend(AfterSend(before, t1, n1, true, Reply(r1, false)), t2, n2, true, Reply(r2, false)) ==
      before + [Message(User, t1, n1), Message(Model, Accumulated(r1), n1),
                Message(User, t2, n2), Message(Model, Accumulated(r2), n2)]
  {
  }

  /** The reply "I'd", " recommend", " the Ghost V3." is written in exactly
      three streaming updates, each extending the text by the next fragment. */
  lemma MouseRecommendationReply(asked: seq<Message>, now: int)
    ensures var a, b, c := "I'd", " recommend", " the Ghost V3.";
      var cs := [Chunk(Some(a)), Chunk(Some(b)), Chunk(Some(c))];
      var us := StreamUpdates(asked, now, cs);
      |us| == 3 &&
      us[0][|asked|].text == a &&
      us[1][|asked|].text == a + b &&
      us[2][|asked|].text == Accumulated(cs) == a + b + c
  {
    var a, b, c := "I'd", " recommend", " the Ghost V3.";
    var cs := [Chunk(Some(a)), Chunk(Some(b)), Chunk(Some(c))];
    assert cs[..1][..0] == [];
    assert Accumulated(cs[..1]) == "" + a;
    assert cs[..2][..1] == cs[..1];
    assert cs[..3] == cs && cs[..2] == cs[..3][..2];
  }

  // ---------------------------------------------------------------------------
  // The component
  // ---------------------------------------------------------------------------

  /** The remote chat session made by `createGamingAssistant`; `serial` counts
      the sessions created before it. */
  datatype ChatHandle = ChatHandle(serial: nat)

  class Chat {
    var messages: seq<Message>
    var input: string
    var isLoading: bool
    /** `chatRef.current`. */
    var chatRef: Option<ChatHandle>
    /** How many sessions this mount has created (a log of calls to the remote
        service, not component state). */
    ghost var creations: nat
    /** Every utterance sent to the remote model, with the handle it went
        through (likewise a call log). */
    ghost var sent: seq<(ChatHandle, string)>
    /** Every value `messages` has held, oldest first, one per state update
        (React may paint several updates at once). */
    ghost var history: seq<seq<Message>>

    ghost predicate Valid()
      reads this
    {
      |history| > 0 && history[|history| - 1] == messages &&
      |messages| > 0 && messages[0].role == Model && messages[0].text == Greeting &&
      (!isLoading ==> TurnTaking(messages)) &&
      creations <= 1 && (chatRef.Some? <==> creations == 1) &&
      (chatRef.Some? ==> chatRef.value == ChatHandle(0)) &&
      (forall i :: 0 <= i < |sent| ==> sent[i].0 == ChatHandle(0))
    }

    /** The component's initial state: one greeting from the model. */
    constructor (now: int)
      ensures Valid()
      ensures messages == [Message(Model, Greeting, now)]
      ensures input == "" && !isLoading && chatRef == None && creations == 0 && sent == []
    {
      messages := [Message(Model, Greeting, now)];
      input := "";
      isLoading := false;
      chatRef := None;
      creations := 0;
      sent := [];
      history := [messages];
    }

    /** The input box's change handler. */
    method SetInput(s: string)
      requires Valid()
      modifies this`input
      ensures Valid()
      ensures input == s
    {
      input := s;
    }

    /** `handleSend`, with `now` the clock for every message it creates,
        `createFails` whether creating the chat handle would throw, and `reply`
        the remote stream. */
    method HandleSend(now: int, createFails: bool, reply: Reply)
      requires Valid()
      modifies this
      ensures Valid()
      ensures Ignored(old(input), old(isLoading)) ==>
        messages == old(messages) && input == old(input) && isLoading == old(isLoading) &&
        chatRef == old(chatRef) && creations == old(creations) && sent == old(sent) &&
        history == old(history)
      ensures !Ignored(old(input), old(isLoading)) ==>
        var handleOk := old(chatRef).Some? || !createFails;
        input == "" && !isLoading &&
        messages == AfterSend(old(messages), old(input), now, handleOk, reply) &&
        history == old(history) + SendUpdates(old(messages), old(input), now, handleOk, reply) &&
        (old(chatRef).Some? ==> chatRef == old(chatRef)) &&
        (handleOk ==> chatRef.Some? && sent == old(sent) + [(chatRef.value, old(input))]) &&
        (!handleOk ==> chatRef == None && sent == old(sent))
    {
      if IsBlank(input) || isLoading {
        return;
      }
      Submit(now, createFails, reply);
    }

    /** The body of `handleSend` once past its guard: post the user message,
        clear the input, raise the loading flag, make sure a chat handle exists,
        and then either stream the reply or, when the handle cannot be made,
        append the apology; the loading flag is cleared in every case. */
    method Submit(now: int, createFails: bool, reply: Reply)
      requires Valid() && !isLoading
      modifies this
      ensures Valid()
      ensures var handleOk := old(chatRef).Some? || !createFails;
        input == "" && !isLoading &&
        messages == AfterSend(old(messages), old(input), now, handleOk, reply) &&
        history == old(history) + SendUpdates(old(messages), old(input), now, handleOk, reply) &&
        (old(chatRef).Some? ==> chatRef == old(chatRef)) &&
        (handleOk ==> chatRef.Some? && sent == old(sent) + [(chatRef.value, old(input))]) &&
        (!handleOk ==> chatRef == None && sent == old(sent))
    {
      var text := input;
      ghost var before, r0 := messages, history;
      var asked := messages + [UserMessage(text, now)];
      messages := asked;
      history := history + [messages];
      input := "";
      isLoading := true;

      var handle := EnsureChat(createFails);
      if handle.None? {
        messages := messages + [ApologyMessage(now)];
        history := history + [messages];
        isLoading := false;
        SendWithoutHandle(before, text, now, reply);
        return;
      }
      sent := sent + [(handle.value, text)];
      Respond(before, text, now, reply);
    }

    /** The `try` block after the handle exists, its `catch` and its `finally`:
        append the empty model message, stream the reply into it, append the
        apology if the stream throws, and clear the loading flag. */
    method Respond(ghost before: seq<Message>, ghost text: string, now: int, reply: Reply)
      requires TurnTaking(before) && |before| > 0
      requires messages == before + [UserMessage(text, now)]
      requires |history| > 0 && history[|history| - 1] == messages
      modifies this`messages, this`history, this`isLoading
      ensures !isLoading
      ensures messages == AfterSend(before, text, now, true, reply)
      ensures history == old(history)[..|old(history)| - 1] + SendUpdates(before, text, now, true, reply)
      ensures TurnTaking(messages) && messages[0] == before[0]
      ensures |history| > 0 && history[|history| - 1] == messages
    {
      var asked := messages;
      ghost var r0 := history[..|history| - 1];
      assert history == r0 + [asked];
      messages := messages + [Pending(now)];
      history := history + [messages];
      ghost var dispatched := history;
      assert dispatched == r0 + [asked, asked + [Pending(now)]];
      Stream(asked, now, reply.chunks);
      ghost var streamed := history;

      if reply.fails {
        messages := messages + [ApologyMessage(now)];
        history := history + [messages];
      }
      isLoading := false;
      SendWithHandle(before, text, now, reply);
      ghost var updates := StreamUpdates(asked, now, reply.chunks);
      ghost var tail := if reply.fails then [messages] else [];
      assert history == streamed + tail;
      assert streamed == dispatched + updates;
      ConcatAssoc(r0, [asked, asked + [Pending(now)]], updates, tail);
    }

    /** `if (!chatRef.current) chatRef.current = createGamingAssistant()`:
        the existing handle, a newly created one, or `None` when creating it
        throws. */
    method EnsureChat(createFails: bool) returns (handle: Option<ChatHandle>)
      requires creations <= 1 && (chatRef.Some? <==> creations == 1)
      requires chatRef.Some? ==> chatRef.value == ChatHandle(0)
      modifies this`chatRef, this`creations
      ensures creations <= 1 && (chatRef.Some? <==> creations == 1)
      ensures chatRef.Some? ==> chatRef.value == ChatHandle(0)
      ensures old(chatRef).Some? ==> chatRef == old(chatRef)
      ensures handle == chatRef
      ensures handle.None? <==> old(chatRef).None? && createFails
    {
      if chatRef.None? {
        if createFails {
          return None;
        }
        chatRef := Some(ChatHandle(0));
        creations := creations + 1;
      }
      handle := chatRef;
    }

    /** The `for await` loop: each chunk extends the assistant text and
        overwrites the last message of the transcript with it. */
    method Stream(asked: seq<Message>, now: int, cs: seq<Chunk>)
      requires messages == asked + [Pending(now)]
      requires |history| > 0 && history[|history| - 1] == messages
      modifies this`messages, this`history
      ensures messages == asked + [Message(Model, Accumulated(cs), now)]
      ensures |history| > 0 && history[|history| - 1] == messages
      ensures history == old(history) + StreamUpdates(asked, now, cs)
    {
      var assistantMsg := Pending(now);
      var assistantText := "";
      var i := 0;
      while i < |cs|
        invariant 0 <= i <= |cs|
        invariant assistantText == Accumulated(cs[..i])
        invariant messages == asked + [assistantMsg.(text := assistantText)]
        invariant history == old(history) + StreamUpdates(asked, now, cs[..i])
        invariant |history| > 0 && history[|history| - 1] == messages
      {
        assistantText := assistantText + TextOf(cs[i]);
        messages := messages[|messages| - 1 := assistantMsg.(text := assistantText)];
        history := history + [messages];
        StreamUpdatesExtend(asked, now, cs, i);
        i := i + 1;
      }
      assert cs[..i] == cs;
    }
  }

  lemma ConcatAssoc<T>(a: seq<T>, b: seq<T>, c: seq<T>, d: seq<T>)
    ensures a + b + c + d == a + (b + c + d)
  {
  }

  /** The history and the result of a send whose handle could not be made. */
  lemma SendWithoutHandle(before: seq<Message>, text: string, now: int, reply: Reply)
    requires TurnTaking(before) && |before| > 0
    ensures var asked := before + [UserMessage(text, now)];
      SendUpdates(before, text, now, false, reply) == [asked, asked + [ApologyMessage(now)]] &&
      AfterSend(before, text, now, false, reply) == asked + [ApologyMessage(now)] &&
      TurnTaking(AfterSend(before, text, now, false, reply)) &&
      AfterSend(before, text, now, false, reply)[0] == before[0]
  {
    AfterSendTurnTaking(before, text, now, false, reply);
  }

  /** The history and the result of a send through a chat handle. */
  lemma SendWithHandle(before: seq<Message>, text: string, now: int, reply: Reply)
    requires TurnTaking(before) && |before| > 0
    ensures var asked := before + [UserMessage(text, now)];
      var streamed := asked + [Message(Model, Accumulated(reply.chunks), now)];
      SendUpdates(before, text, now, true, reply) ==
        [asked, asked + [Pending(now)]] + StreamUpdates(asked, now, reply.chunks)
        + (if reply.fails then [streamed + [ApologyMessage(now)]] else []) &&
      AfterSend(before, text, now, true, reply) ==
        (if reply.fails then streamed + [ApologyMessage(now)] else streamed) &&
      TurnTaking(AfterSend(before, text, now, true, reply)) &&
      AfterSend(before, text, now, true, reply)[0] == before[0]
  {
    AfterSendTurnTaking(before, text, now, true, reply);
  }

  /** Streaming one more chunk adds one update and keeps the earlier ones. */
  lemma StreamUpdatesExtend(asked: seq<Message>, now: int, cs: seq<Chunk>, i: nat)
    requires i < |cs|
    ensures Accumulated(cs[..i + 1]) == Accumulated(cs[..i]) + TextOf(cs[i])
    ensures StreamUpdates(asked, now, cs[..i + 1]) ==
      StreamUpdates(asked, now, cs[..i]) + [asked + [Pending(now).(text := Accumulated(cs[..i + 1]))]]
  {
    assert cs[..i + 1][..i] == cs[..i];
    var a := StreamUpdates(asked, now, cs[..i + 1]);
    var b := StreamUpdates(asked, now, cs[..i]) + [asked + [Pending(now).(text := Accumulated(cs[..i + 1]))]];
    forall k | 0 <= k < i + 1 ensures a[k] == b[k] {
      if k < i {
        assert cs[..i + 1][..k + 1] == cs[..i][..k + 1];
      } else {
        assert cs[..i + 1][..k + 1] == cs[..i + 1];
      }
    }
  }
}
