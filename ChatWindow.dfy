/**
 * The state rules of the chat window (`src/components/ChatWindow/ChatWindow.jsx`):
 * the image-slider index of each answer, the streamed answer and its finalisation,
 * the 60-second warning countdown, the bounded conversation-history request,
 * the normalisation of stored messages, sending a prompt and submitting negative
 * feedback.
 *
 * The component's React state is the class `ChatView`; each handler is a method that
 * replaces the fields its setters replace. Frames the component hands to the socket
 * client's `sendMessage` are appended to `outbox`. The clock (`Date.now()`,
 * `toISOString()`) is a parameter.
 */
module ChatWindow {
  import opened Wrappers
  import opened Text
  import opened Frames
  import opened JsMath

  datatype Sender = UserSender | Ai

  /** A message as the window shows it. */
  datatype ChatMessage = ChatMessage(
    sender: Sender,
    text: string,
    messageId: string,
    timestamp: string,
    imageUrls: seq<ImageRef>,
    conversationId: string)

  datatype Vote = Up | Down

  const ImageBaseUrl := "http://52.87.135.1:3000/"
  const WarningSeconds: int := 60
  const MaxHistoryRetries: nat := 3
  const ChatErrorText := "Sorry for the inconvenience, something went wrong. Please try again."
  const MissingEmailText := "User email is required. Please log in again."
  const HistoryFailedText := "Failed to retrieve conversation history. Please try again."
  const DefaultWarningText := "Your session is about to timeout."

  // ------------------------------------------------------------------
  // Image slider
  // ------------------------------------------------------------------

  /** `prev[messageId] || 0`: the shown slide of a message, 0 when none is stored. */
  function SlideIndex(indices: map<string, int>, id: string): int {
    if id in indices then indices[id] else 0
  }

  /** One step forward or back from a slide in range wraps at the ends. */
  lemma SlideSteps(i: int, total: int)
    requires total > 1
    ensures 0 <= i < total ==> JsRem(i + 1, total) == if i == total - 1 then 0 else i + 1
    ensures 0 <= i < total ==> JsRem(i - 1 + total, total) == if i == 0 then total - 1 else i - 1
  {
    if 0 <= i < total {
      if i == total - 1 { ModUnique(i + 1, total, 1, 0); } else { ModUnique(i + 1, total, 0, i + 1); }
      if i == 0 { ModUnique(total - 1, total, 0, total - 1); } else { ModUnique(i - 1 + total, total, 1, i - 1); }
    }
  }

  /** The indices after `handleNextSlide(id, total)`. */
  function NextSlide(indices: map<string, int>, id: string, total: int): (r: map<string, int>)
    ensures total <= 1 ==> r == indices
    ensures total > 1 ==> r.Keys == indices.Keys + {id}
    ensures forall k :: k in indices && k != id ==> k in r && r[k] == indices[k]
    ensures total > 1 && 0 <= SlideIndex(indices, id) < total ==>
      SlideIndex(r, id) == if SlideIndex(indices, id) == total - 1 then 0 else SlideIndex(indices, id) + 1
    ensures total > 1 && 0 <= SlideIndex(indices, id) ==> 0 <= SlideIndex(r, id) < total
  {
    if total <= 1 then indices
    else
      var i := SlideIndex(indices, id);
      SlideSteps(i, total);
      indices[id := JsRem(i + 1, total)]
  }

  /** The indices after `handlePrevSlide(id, total)`. */
  function PrevSlide(indices: map<string, int>, id: string, total: int): (r: map<string, int>)
    ensures total <= 1 ==> r == indices
    ensures total > 1 ==> r.Keys == indices.Keys + {id}
    ensures forall k :: k in indices && k != id ==> k in r && r[k] == indices[k]
    ensures total > 1 && 0 <= SlideIndex(indices, id) < total ==>
      SlideIndex(r, id) == if SlideIndex(indices, id) == 0 then total - 1 else SlideIndex(indices, id) - 1
    ensures total > 1 && 0 <= SlideIndex(indices, id) ==> 0 <= SlideIndex(r, id) < total
  {
    if total <= 1 then indices
    else
      var i := SlideIndex(indices, id);
      SlideSteps(i, total);
      indices[id := JsRem(i - 1 + total, total)]
  }

  /** "Next" then "previous" shows the slide shown before, and so does the reverse order. */
  lemma NextPrevRestores(indices: map<string, int>, id: string, total: int)
    requires 0 <= SlideIndex(indices, id) < total
    ensures SlideIndex(PrevSlide(NextSlide(indices, id, total), id, total), id) == SlideIndex(indices, id)
    ensures SlideIndex(NextSlide(PrevSlide(indices, id, total), id, total), id) == SlideIndex(indices, id)
  {
  }

  /** The indices after a run of clicks on one slider (`true` is "next", `false` is "previous"). */
  function Navigate(indices: map<string, int>, id: string, total: int, clicks: seq<bool>): map<string, int>
    decreases |clicks|
  {
    if clicks == [] then indices
    else
      var step := if clicks[0] then NextSlide(indices, id, total) else PrevSlide(indices, id, total);
      Navigate(step, id, total, clicks[1..])
  }

  /** The number of "next" clicks minus the number of "previous" clicks. */
  function NetClicks(clicks: seq<bool>): int {
    if clicks == [] then 0 else (if clicks[0] then 1 else -1) + NetClicks(clicks[1..])
  }

  /**
   * Whatever the clicks, the shown slide is the starting slide moved by the net number
   * of clicks, wrapped around the image count, and so always within [0, total).
   */
  lemma {:induction false} NavigateWraps(indices: map<string, int>, id: string, total: int, clicks: seq<bool>)
    requires total > 1 && 0 <= SlideIndex(indices, id) < total
    ensures SlideIndex(Navigate(indices, id, total, clicks), id) == (SlideIndex(indices, id) + NetClicks(clicks)) % total
    decreases |clicks|
  {
    var cur := SlideIndex(indices, id);
    if clicks == [] {
      ModUnique(cur, total, 0, cur);
    } else {
      var d := if clicks[0] then 1 else -1;
      var step := if clicks[0] then NextSlide(indices, id, total) else PrevSlide(indices, id, total);
      assert SlideIndex(step, id) == (cur + d) % total by {
        if clicks[0] && cur == total - 1 {
          ModUnique(cur + 1, total, 1, 0);
        } else if clicks[0] {
          ModUnique(cur + 1, total, 0, cur + 1);
        } else if cur == 0 {
          ModUnique(-1, total, -1, total - 1);
        } else {
          ModUnique(cur - 1, total, 0, cur - 1);
        }
      }
      NavigateWraps(step, id, total, clicks[1..]);
      ModAddLeft(cur + d, NetClicks(clicks[1..]), total);
    }
  }

  // ------------------------------------------------------------------
  // Streamed answers
  // ------------------------------------------------------------------

  /** `streamingMessage ? streamingMessage.text : ""`. */
  function StreamText(streaming: Option<ChatMessage>): string {
    if streaming.Some? then streaming.value.text else ""
  }

  /** `IMAGE_BASE_URL` joined to each `path`, the score kept. */
  function ImageLinks(refs: Option<seq<ImageRef>>): (r: seq<ImageRef>)
    ensures refs.None? ==> r == []
    ensures refs.Some? ==> |r| == |refs.value|
    ensures refs.Some? ==>
      forall i :: 0 <= i < |r| ==> r[i] == ImageRef(ImageBaseUrl + refs.value[i].path, refs.value[i].score)
  {
    if refs.None? then []
    else seq(|refs.value|, i requires 0 <= i < |refs.value| => ImageRef(ImageBaseUrl + refs.value[i].path, refs.value[i].score))
  }

  /** The streamed answer after a non-final chat frame carrying `chunk`. */
  function Streamed(streaming: Option<ChatMessage>, chunk: string, id: string, now: string,
                    images: seq<ImageRef>, conversation: string): (m: ChatMessage)
    ensures m.sender == Ai && m.messageId == id && m.imageUrls == images
    ensures m.text == StreamText(streaming) + chunk
    ensures streaming.None? ==> m.text == chunk
  {
    ChatMessage(Ai, StreamText(streaming) + chunk, id, now, images, conversation)
  }

  /** The answer appended when the final chat frame carrying `chunk` arrives. */
  function Finalised(streaming: Option<ChatMessage>, chunk: string, id: string, now: string,
                     images: seq<ImageRef>, conversation: string): (m: ChatMessage)
    ensures m.sender == Ai && m.messageId == id && m.imageUrls == images
    ensures m.text == StreamText(streaming) + Trim(chunk)
  {
    ChatMessage(Ai, StreamText(streaming) + Trim(chunk), id, now, images, conversation)
  }

  /** The streamed answer after non-final frames carrying `chunks`, in order. */
  function StreamAll(streaming: Option<ChatMessage>, chunks: seq<string>, id: string): Option<ChatMessage>
    decreases |chunks|
  {
    if chunks == [] then streaming
    else StreamAll(Some(Streamed(streaming, chunks[0], id, "", [], "")), chunks[1..], id)
  }

  function Concat(parts: seq<string>): string {
    if parts == [] then "" else parts[0] + Concat(parts[1..])
  }

  /** Streaming accumulates the chunks in arrival order, untrimmed. */
  lemma {:induction false} StreamAllText(streaming: Option<ChatMessage>, chunks: seq<string>, id: string)
    ensures StreamText(StreamAll(streaming, chunks, id)) == StreamText(streaming) + Concat(chunks)
    decreases |chunks|
  {
    if chunks != [] {
      var next := Some(Streamed(streaming, chunks[0], id, "", [], ""));
      StreamAllText(next, chunks[1..], id);
      assert StreamText(streaming) + chunks[0] + Concat(chunks[1..]) == StreamText(streaming) + Concat(chunks);
    }
  }

  /** Non-final chunks followed by a final one give the chunks joined and the last one trimmed. */
  lemma StreamThenFinalise(chunks: seq<string>, last: string, id: string)
    ensures Finalised(StreamAll(None, chunks, id), last, id, "", [], "").text == Concat(chunks) + Trim(last)
  {
    StreamAllText(None, chunks, id);
  }

  /** "Hel" streamed, then "lo" as the final chunk, is finalised as "Hello". */
  lemma HelloExample()
    ensures Finalised(StreamAll(None, ["Hel"], "m"), "lo", "m", "", [], "").text == "Hello"
  {
    var streamed := StreamAll(None, ["Hel"], "m");
    assert streamed == Some(Streamed(None, "Hel", "m", "", [], ""));
    assert StreamText(streamed) == "Hel";
    TrimNoEdgeSpace("lo");
    assert "Hel" + "lo" == "Hello";
  }

  /**
   * The component state that the registered `handleMessage` closure captured. The effect
   * that registers it re-runs when the user, department, role, selected conversation,
   * new-conversation flag or `onReceiveHistory` change. The parent passes a new
   * `onReceiveHistory` function on each of its renders, and it re-renders whenever the
   * typing flag it mirrors flips. So the `streamingMessage` the closure reads is the
   * value of the render in which the typing flag last flipped.
   */
  datatype Registration = Registration(streaming: Option<ChatMessage>)

  /**
   * The registration in force when the final frame of an answer arrives, whose non-final
   * chunks were `chunks`. When a prompt was sent from this window, the send cleared the
   * streaming message and flipped the typing flag, and no chunk flips it again. Otherwise
   * the first chunk flips it, with that chunk already streamed.
   */
  function CapturedAtFinal(promptSent: bool, chunks: seq<string>, id: string): (reg: Registration)
    ensures promptSent || chunks == [] ==> reg.streaming.None?
    ensures !promptSent && chunks != [] ==> StreamText(reg.streaming) == chunks[0]
  {
    if promptSent || chunks == [] then Registration(None)
    else
      var first := StreamAll(None, [chunks[0]], id);
      var one := Some(Streamed(None, chunks[0], id, "", [], ""));
      assert [chunks[0]][1..] == [];
      assert first == StreamAll(one, [], id);
      Registration(first)
  }

  /** The text the final-frame branch builds as written: from the captured streaming message. */
  function FinalTextAsWritten(reg: Registration, chunk: string): (t: string)
    ensures t == StreamText(reg.streaming) + Trim(chunk)
  {
    StreamText(reg.streaming) + Trim(chunk)
  }

  /**
   * As written, an answer to a prompt sent from this window keeps only its trimmed last
   * chunk, and any other answer keeps its first chunk and its trimmed last chunk: every
   * chunk in between is dropped.
   */
  lemma AsWrittenKeepsEnds(promptSent: bool, chunks: seq<string>, last: string, id: string)
    ensures promptSent ==> FinalTextAsWritten(CapturedAtFinal(promptSent, chunks, id), last) == Trim(last)
    ensures !promptSent && chunks != [] ==>
      FinalTextAsWritten(CapturedAtFinal(promptSent, chunks, id), last) == chunks[0] + Trim(last)
  {
  }

  /**
   * After a prompt sent from this window, "Hel" streamed and then the final "lo" read "lo"
   * as written, where the live streaming text gives "Hello". An answer that arrives with
   * the typing flag down keeps its first chunk: "Hel", "lo", then the final "!" read
   * "Hel!" as written, where "Hello!" is meant.
   */
  lemma StaleRegistrationDropsStream()
    ensures FinalTextAsWritten(CapturedAtFinal(true, ["Hel"], "m"), "lo") == "lo"
    ensures Finalised(StreamAll(None, ["Hel"], "m"), "lo", "m", "", [], "").text == "Hello"
    ensures FinalTextAsWritten(CapturedAtFinal(false, ["Hel", "lo"], "m"), "!") == "Hel!"
    ensures Finalised(StreamAll(None, ["Hel", "lo"], "m"), "!", "m", "", [], "").text == "Hello!"
  {
    TrimNoEdgeSpace("lo");
    TrimNoEdgeSpace("!");
    HelloExample();
    StreamThenFinalise(["Hel", "lo"], "!", "m");
    assert Concat(["Hel", "lo"]) == "Hel" + Concat(["lo"]);
    assert Concat(["lo"]) == "lo" + Concat([]);
  }

  // ------------------------------------------------------------------
  // Warning countdown
  // ------------------------------------------------------------------

  /** One tick of the countdown interval: the new value, and whether it expired. */
  datatype Tick = Tick(next: int, expired: bool)

  function CountdownTick(prev: int): (t: Tick)
    ensures t.next >= 0
    ensures t.expired <==> prev <= 1
    ensures !t.expired ==> t.next == prev - 1 && t.next >= 1
  {
    if prev <= 1 then Tick(0, true) else Tick(prev - 1, false)
  }

  /** The interval, started at `start`, has expired within `k` ticks. */
  predicate ExpiresWithin(start: int, k: nat)
    decreases k
  {
    k > 0 && (CountdownTick(start).expired || ExpiresWithin(CountdownTick(start).next, k - 1))
  }

  /** A countdown started at `start` >= 1 expires on exactly its `start`-th tick. */
  lemma {:induction false} ExpiresExactly(start: int, k: nat)
    requires start >= 1
    ensures ExpiresWithin(start, k) <==> k >= start
    decreases k
  {
    if k > 0 && start > 1 {
      ExpiresExactly(start - 1, k - 1);
    }
  }

  // ------------------------------------------------------------------
  // Conversation-history request
  // ------------------------------------------------------------------

  /** How a `requestConversationHistory()` chain ends. */
  datatype HistoryOutcome =
    | MissingEmail              // error shown, nothing sent
    | SentAt(attempt: nat)      // the request went out on this attempt (0 is the first call)
    | Scheduled(attempt: nat)   // the one-second retry timer of this attempt has not fired yet
    | Stalled(attempt: nat)     // this attempt's timer called `connect`, and no handshake followed
    | GaveUp                    // error shown: the attempt counter reached three

  /**
   * What happens between a retry being scheduled and the retry running: whether the
   * one-second timer finds the socket open and, when it does not and calls `connect`,
   * whether the new socket completes its handshake.
   */
  datatype RetryWorld = RetryWorld(openAtTimer: bool, handshakeCompletes: bool)

  /**
   * `requestConversationHistory(retry)` as written, followed through the retries it
   * schedules: `openAtCall` is whether the socket is open at this call, and `timer` is
   * what this call's retry timer finds, `None` while it has not fired. A timer that finds the socket open calls the next attempt
   * at once, right after its check. One that finds it closed calls `connect`, and the
   * next attempt runs only from the handshake continuation, which runs on the
   * handshake-success frame; only an open socket, the current one, delivers frames
   * (`SessionClient.MessagesComeFromTheCurrentSocket`). Either way the next attempt finds
   * the socket open and sends, so no later timer is ever scheduled.
   */
  function RequestHistory(email: string, openAtCall: bool, timer: Option<RetryWorld>, retry: nat): (o: HistoryOutcome)
    ensures email == "" <==> o == MissingEmail
    ensures o == SentAt(retry) <==> email != "" && openAtCall
    ensures o.GaveUp? <==> email != "" && !openAtCall && retry >= MaxHistoryRetries
    ensures o.SentAt? ==> o.attempt == retry || (o.attempt == retry + 1 && retry < MaxHistoryRetries)
    ensures o.Scheduled? ==> o.attempt == retry && timer == None
    ensures o.Stalled? ==> o.attempt == retry
    decreases if openAtCall then 0 else 1
  {
    if email == "" then MissingEmail
    else if openAtCall then SentAt(retry)
    else if retry < MaxHistoryRetries then
      if timer == None then Scheduled(retry)
      else if timer.value.openAtTimer || timer.value.handshakeCompletes then
        RequestHistory(email, true, None, retry + 1)
      else Stalled(retry)
    else GaveUp
  }

  /**
   * As written, a chain started by `requestConversationHistory()` never reaches the
   * give-up error: the request goes out on the first call or the first retry, or the
   * chain waits for a handshake that may never come, with no error shown.
   */
  lemma HistoryRetryNeverGivesUp(email: string, openAtCall: bool, timer: Option<RetryWorld>)
    ensures var o := RequestHistory(email, openAtCall, timer, 0);
      && !o.GaveUp?
      && (o.SentAt? ==> o.attempt <= 1)
      && (o == SentAt(1) <==>
            email != "" && !openAtCall && timer.Some? && (timer.value.openAtTimer || timer.value.handshakeCompletes))
      && (o == Stalled(0) <==>
            email != "" && !openAtCall && timer.Some? && !timer.value.openAtTimer && !timer.value.handshakeCompletes)
      && (o == Scheduled(0) <==> email != "" && !openAtCall && timer == None)
  {
  }

  /**
   * The retry chain as its log lines and its error text describe it: up to three retries,
   * one second apart. Each one either finds the socket open and sends, or fails, a
   * reconnect whose handshake has not completed included, and the error follows the
   * third failed retry. `open[k]` is whether the socket is open at the k-th attempt.
   */
  function RequestHistoryIntended(email: string, open: seq<bool>, retry: nat): (o: HistoryOutcome)
    requires retry <= MaxHistoryRetries
    ensures email == "" <==> o == MissingEmail
    ensures o.SentAt? ==>
      && retry <= o.attempt <= MaxHistoryRetries && o.attempt - retry < |open|
      && open[o.attempt - retry]
      && forall j :: 0 <= j < o.attempt - retry ==> !open[j]
    ensures o.GaveUp? <==>
      && email != "" && MaxHistoryRetries - retry < |open|
      && forall j :: 0 <= j <= MaxHistoryRetries - retry ==> !open[j]
    ensures o.Scheduled? <==>
      && email != "" && |open| <= MaxHistoryRetries - retry
      && forall j :: 0 <= j < |open| ==> !open[j]
    ensures o.Scheduled? ==> o.attempt == retry + |open|
    ensures !o.Stalled?
    decreases |open|
  {
    if email == "" then MissingEmail
    else if open == [] then Scheduled(retry)
    else if open[0] then SentAt(retry)
    else if retry < MaxHistoryRetries then
      var o := RequestHistoryIntended(email, open[1..], retry + 1);
      assert forall j :: 1 <= j <= |open[1..]| ==> open[j] == open[1..][j - 1];
      o
    else GaveUp
  }

  /** As intended, a socket that stays closed gets the error after the first call and three retries. */
  lemma HistoryGivesUpAfterThreeRetries(email: string)
    requires email != ""
    ensures RequestHistoryIntended(email, [false, false, false, false], 0) == GaveUp
    ensures RequestHistoryIntended(email, [false, false, false, true], 0) == SentAt(3)
  {
  }

  // ------------------------------------------------------------------
  // Stored messages
  // ------------------------------------------------------------------

  /** One stored message as the window shows it. */
  function NormaliseMessage(m: StoredMessage, now: string, nowMillis: nat): (c: ChatMessage)
    ensures c.sender == UserSender <==> m.userMessage
    ensures c.text == Trim(m.msgText)
    ensures c.messageId != ""
    ensures m.messageId != "" ==> c.messageId == m.messageId
    ensures c.imageUrls == ImageLinks(m.imageUrls)
    ensures c.conversationId == m.conversationId
  {
    ChatMessage(
      if m.userMessage then UserSender else Ai,
      Trim(m.msgText),
      if m.messageId != "" then m.messageId else "temp-" + NatToString(nowMillis),
      if m.msgTimestamp != "" then m.msgTimestamp else now,
      ImageLinks(m.imageUrls),
      m.conversationId)
  }

  /** The stored messages of a `get_historical_messages` answer, one for one and in order. */
  function NormaliseHistory(ms: seq<StoredMessage>, now: string, nowMillis: nat): (r: seq<ChatMessage>)
    ensures |r| == |ms|
    ensures forall i :: 0 <= i < |ms| ==> r[i] == NormaliseMessage(ms[i], now, nowMillis)
  {
    seq(|ms|, i requires 0 <= i < |ms| => NormaliseMessage(ms[i], now, nowMillis))
  }

  /** The ids of the messages that have at least one image. */
  function ImageMessageIds(ms: seq<ChatMessage>): set<string> {
    set i | 0 <= i < |ms| && |ms[i].imageUrls| > 0 :: ms[i].messageId
  }

  /** The slide indices with those of the messages that have images set to 0 and the rest kept. */
  function ImageIndicesReset(prev: map<string, int>, ms: seq<ChatMessage>): map<string, int> {
    map k | k in prev.Keys + ImageMessageIds(ms) :: if k in ImageMessageIds(ms) then 0 else prev[k]
  }

  /** The `forEach` that resets the slide index of each message with images. */
  method ResetSlideIndices(prev: map<string, int>, ms: seq<ChatMessage>) returns (r: map<string, int>)
    ensures r == ImageIndicesReset(prev, ms)
  {
    r := prev;
    var i := 0;
    while i < |ms|
      invariant 0 <= i <= |ms|
      invariant r.Keys == prev.Keys + ImageMessageIds(ms[..i])
      invariant forall k :: k in r ==> r[k] == if k in ImageMessageIds(ms[..i]) then 0 else prev[k]
    {
      assert ms[..i + 1] == ms[..i] + [ms[i]];
      assert ImageMessageIds(ms[..i + 1]) ==
        ImageMessageIds(ms[..i]) + (if |ms[i].imageUrls| > 0 then {ms[i].messageId} else {});
      if |ms[i].imageUrls| > 0 {
        r := r[ms[i].messageId := 0];
      }
      i := i + 1;
    }
    assert ms[..i] == ms;
  }

  // ------------------------------------------------------------------
  // The conversation pane
  // ------------------------------------------------------------------

  /**
   * The state hooks of the window that the socket frames drive: the shown messages,
   * the streamed answer, the slider indices, the typing and loading flags, the error
   * banner, whether the conversation is new, and whether the delayed
   * `requestConversationHistory()` has been scheduled.
   */
  datatype Pane = Pane(
    messages: seq<ChatMessage>,
    streaming: Option<ChatMessage>,
    slideIndices: map<string, int>,
    botTyping: bool,
    loading: bool,
    errorMessage: Option<string>,
    isNewConversation: bool,
    historyRequestScheduled: bool)

  /** No slider shows a negative index. */
  predicate IndicesValid(indices: map<string, int>) {
    forall k :: k in indices ==> indices[k] >= 0
  }

  /** A chat frame flagged as an error: no message is added and the streamed answer is dropped. */
  function ChatFailed(p: Pane): (q: Pane)
    ensures q.messages == p.messages && q.slideIndices == p.slideIndices
    ensures q.streaming == None && !q.botTyping && !q.loading
    ensures q.errorMessage == Some(ChatErrorText)
    ensures q.isNewConversation == p.isNewConversation
  {
    p.(streaming := None, botTyping := false, loading := false, errorMessage := Some(ChatErrorText))
  }

  /** A non-final chat frame: its chunk is appended to the streamed answer and nothing is added to the list. */
  function ChunkReceived(p: Pane, chunk: string, id: string, now: string, images: seq<ImageRef>, conv: string): (q: Pane)
    ensures q.messages == p.messages && q.slideIndices == p.slideIndices
    ensures q.streaming.Some? && q.streaming.value.messageId == id
    ensures StreamText(q.streaming) == StreamText(p.streaming) + chunk
    ensures q.botTyping && q.loading
    ensures q.isNewConversation == p.isNewConversation
  {
    p.(streaming := Some(Streamed(p.streaming, chunk, id, now, images, conv)), botTyping := true, loading := true)
  }

  /**
   * The final chat frame: exactly one answer is appended, holding the streamed text and
   * the trimmed last chunk; streaming ends, the answer's slider starts at its first image,
   * and a new conversation schedules the delayed history request and stops being new.
   */
  function FinalReceived(p: Pane, chunk: string, id: string, now: string, images: seq<ImageRef>, conv: string): (q: Pane)
    ensures |q.messages| == |p.messages| + 1 && q.messages[..|p.messages|] == p.messages
    ensures q.messages[|p.messages|] == Finalised(p.streaming, chunk, id, now, images, conv)
    ensures q.messages[|p.messages|].text == StreamText(p.streaming) + Trim(chunk)
    ensures q.streaming == None && !q.botTyping && !q.loading
    ensures SlideIndex(q.slideIndices, id) == 0
    ensures forall k :: k in p.slideIndices && k != id ==> k in q.slideIndices && q.slideIndices[k] == p.slideIndices[k]
    ensures IndicesValid(p.slideIndices) ==> IndicesValid(q.slideIndices)
    ensures !q.isNewConversation
    ensures q.historyRequestScheduled == (p.historyRequestScheduled || p.isNewConversation)
  {
    var q := p.(
      messages := p.messages + [Finalised(p.streaming, chunk, id, now, images, conv)],
      slideIndices := p.slideIndices[id := 0],
      streaming := None, botTyping := false, loading := false);
    assert q.messages[..|p.messages|] == p.messages;
    if p.isNewConversation then q.(isNewConversation := false, historyRequestScheduled := true) else q
  }

  /**
   * The stored messages of a conversation replace the shown ones; the sliders of the
   * messages with images restart at 0 and the other indices are kept.
   */
  function StoredMessagesReceived(p: Pane, stored: seq<StoredMessage>, now: string, nowMillis: nat): (q: Pane)
    ensures q.messages == NormaliseHistory(stored, now, nowMillis)
    ensures forall i :: 0 <= i < |q.messages| && |q.messages[i].imageUrls| > 0 ==>
      SlideIndex(q.slideIndices, q.messages[i].messageId) == 0
    ensures forall k :: k in p.slideIndices && k !in ImageMessageIds(q.messages) ==>
      k in q.slideIndices && q.slideIndices[k] == p.slideIndices[k]
    ensures IndicesValid(p.slideIndices) ==> IndicesValid(q.slideIndices)
    ensures q.streaming == None && !q.botTyping && !q.loading && !q.isNewConversation
  {
    var formatted := NormaliseHistory(stored, now, nowMillis);
    var q := p.(messages := formatted, slideIndices := ImageIndicesReset(p.slideIndices, formatted),
                streaming := None, botTyping := false, loading := false, isNewConversation := false);
    assert forall i :: 0 <= i < |formatted| && |formatted[i].imageUrls| > 0 ==>
      formatted[i].messageId in ImageMessageIds(formatted);
    q
  }

  /** The frame is a chat frame that is neither an error nor streamed: the answer is complete. */
  predicate IsFinalChat(data: Inbound) {
    data.action == "chat" && !(data.error || data.status == "error") && data.endOfMessage
  }

  /** The pane after the message listener has handled `data`, outside the session-timeout dialog. */
  function PaneAfter(p: Pane, data: Inbound, selected: string, now: string, nowMillis: nat): (q: Pane)
    ensures data.action !in {"chat", "get_historical_messages"} ==> q == p
    ensures data.action == "get_historical_messages" && data.currentMessages.None? ==> q == p
    ensures data.action == "chat" ==> |p.messages| <= |q.messages| <= |p.messages| + 1
    ensures data.action == "chat" ==> (|q.messages| == |p.messages| + 1 <==> IsFinalChat(data))
    ensures IndicesValid(p.slideIndices) ==> IndicesValid(q.slideIndices)
  {
    if data.action == "chat" then
      if data.error || data.status == "error" then ChatFailed(p)
      else
        var images := ImageLinks(data.imageUrls);
        var id := if data.messageId != "" then data.messageId else "temp-" + NatToString(nowMillis);
        var conv := if data.conversationId != "" then data.conversationId else selected;
        if data.endOfMessage then FinalReceived(p, data.response, id, now, images, conv)
        else ChunkReceived(p, data.response, id, now, images, conv)
    else if data.action == "get_historical_messages" && data.currentMessages.Some? then
      StoredMessagesReceived(p, data.currentMessages.value, now, nowMillis)
    else p
  }

  /** A prompt is shown as a user message; the previous streamed answer and error are dropped. */
  function PromptShown(p: Pane, text: string, now: string, conv: string): (q: Pane)
    ensures q.messages == p.messages + [ChatMessage(UserSender, text, "", now, [], conv)]
    ensures q.streaming == None && q.errorMessage == None && q.botTyping && q.loading
    ensures q.slideIndices == p.slideIndices && q.isNewConversation == p.isNewConversation
  {
    p.(messages := p.messages + [ChatMessage(UserSender, text, "", now, [], conv)],
       streaming := None, errorMessage := None, botTyping := true, loading := true)
  }

  /**
   * The negative-feedback frame `handleFeedbackSubmit` sends: none without a reason;
   * the comment goes with it only for the reason "other" and a non-empty comment.
   */
  function NegativeFeedback(id: string, reason: string, comment: string): (f: Option<Outbound>)
    ensures f.None? <==> reason == ""
    ensures f.Some? ==> f.value.Feedback? && f.value.messageId == id && !f.value.positive && f.value.reason == reason
    ensures f.Some? ==> (f.value.comment.Some? <==> reason == "other" && comment != "")
    ensures f.Some? && f.value.comment.Some? ==> f.value.comment.value == comment
  {
    if reason == "" then None
    else Some(Feedback(id, false, reason, if reason == "other" && comment != "" then Some(comment) else None))
  }

  // ------------------------------------------------------------------
  // The component
  // ------------------------------------------------------------------

  class ChatView {
    // props
    var user: Option<User>
    var allHealthy: bool
    var selectedConversationId: string      // "" when no conversation is selected
    // state
    var department: string
    var role: string
    var pane: Pane
    var showSessionTimeout: bool
    var showWarning: bool
    var warningMessage: string
    var secondsLeft: int
    var timerActive: bool                   // `timerRef.current` holds an interval
    var inputText: string
    var feedbackGiven: map<string, Vote>
    var showFeedbackForm: Option<string>
    var selectedFeedbackReason: string
    var feedbackComment: string
    var historyForSidebar: Option<seq<HistoryEntry>>   // what `onReceiveHistory` was last given
    var outbox: seq<Outbound>                          // frames given to `sendMessage`, in order

    /** Slide indices are never negative, and a running countdown shows 1 to 60 seconds. */
    ghost predicate Valid()
      reads this
    {
      && IndicesValid(pane.slideIndices)
      && (timerActive ==> 1 <= secondsLeft <= WarningSeconds)
    }

    function UserEmail(): string
      reads this`user
    {
      if user.Some? then user.value.email else ""
    }

    /** The `get_conversation_history` frame built from the current state, with its defaults. */
    function HistoryRequest(conversation: Option<string>): (f: Outbound)
      reads this`user, this`department, this`role
      ensures f.ConversationHistoryRequest? && f.userEmail == UserEmail() && f.conversation == conversation
      ensures f.token != "" && f.brand != "" && f.role != ""
    {
      ConversationHistoryRequest(
        if user.Some? && user.value.token != "" then user.value.token else "abc123",
        if department != "" then department else "storeops",
        if role != "" then role else "store manager",
        UserEmail(),
        conversation)
    }

    function SelectedConversation(): Option<string>
      reads this`selectedConversationId
    {
      if selectedConversationId != "" then Some(selectedConversationId) else None
    }

    /** A freshly mounted window; the countdown shows `initialSeconds` until it is first started. */
    constructor (user: Option<User>, allHealthy: bool, selected: string, initialSeconds: int)
      ensures Valid()
      ensures this.user == user && this.allHealthy == allHealthy && selectedConversationId == selected
      ensures department == "storeops"
      ensures role == if user.Some? && user.value.role != "" then user.value.role else "store manager"
      ensures pane == Pane([], None, map[], false, false, None, false, false) && outbox == []
      ensures !timerActive && secondsLeft == initialSeconds && !showWarning && !showSessionTimeout
    {
      this.user, this.allHealthy, selectedConversationId := user, allHealthy, selected;
      department := "storeops";
      role := if user.Some? && user.value.role != "" then user.value.role else "store manager";
      pane := Pane([], None, map[], false, false, None, false, false);
      showSessionTimeout, showWarning, warningMessage := false, false, "";
      secondsLeft, timerActive, inputText := initialSeconds, false, "";
      feedbackGiven, showFeedbackForm, selectedFeedbackReason, feedbackComment := map[], None, "", "";
      historyForSidebar, outbox := None, [];
    }

    /** `handlePrevSlide(messageId, totalImages)`. */
    method HandlePrevSlide(id: string, total: int)
      requires Valid()
      modifies this`pane
      ensures Valid()
      ensures pane == old(pane).(slideIndices := PrevSlide(old(pane).slideIndices, id, total))
    {
      pane := pane.(slideIndices := PrevSlide(pane.slideIndices, id, total));
    }

    /** `handleNextSlide(messageId, totalImages)`. */
    method HandleNextSlide(id: string, total: int)
      requires Valid()
      modifies this`pane
      ensures Valid()
      ensures pane == old(pane).(slideIndices := NextSlide(old(pane).slideIndices, id, total))
    {
      pane := pane.(slideIndices := NextSlide(pane.slideIndices, id, total));
    }

    /** `startWarningTimer()`: the countdown restarts from 60 with a single interval. */
    method StartWarningTimer()
      requires Valid()
      modifies this`secondsLeft, this`timerActive
      ensures Valid()
      ensures secondsLeft == WarningSeconds && timerActive
    {
      secondsLeft := WarningSeconds;
      timerActive := true;
    }

    /** One firing of the countdown interval. */
    method WarningTick()
      requires Valid() && timerActive
      modifies this`secondsLeft, this`timerActive, this`showWarning, this`showSessionTimeout
      ensures Valid()
      ensures secondsLeft == CountdownTick(old(secondsLeft)).next
      ensures timerActive == !CountdownTick(old(secondsLeft)).expired
      ensures old(secondsLeft) <= 1 ==> !showWarning && showSessionTimeout
      ensures old(secondsLeft) > 1 ==> showWarning == old(showWarning) && showSessionTimeout == old(showSessionTimeout)
    {
      var t := CountdownTick(secondsLeft);
      if t.expired {
        timerActive := false;
        showWarning := false;
        showSessionTimeout := true;
      }
      secondsLeft := t.next;
    }

    /** `clearWarningTimer()`. */
    method ClearWarningTimer()
      requires Valid()
      modifies this`timerActive, this`showWarning, this`warningMessage, this`secondsLeft
      ensures Valid()
      ensures !timerActive && !showWarning && warningMessage == "" && secondsLeft == WarningSeconds
    {
      timerActive := false;
      showWarning := false;
      warningMessage := "";
      secondsLeft := WarningSeconds;
    }

    /**
     * The warning listener. The socket client calls it with the warning text, a string,
     * whose `.message` is undefined: the default text is always shown.
     */
    method HandleWarning(text: string)
      requires Valid()
      modifies this`warningMessage, this`showWarning, this`secondsLeft, this`timerActive
      ensures Valid()
      ensures warningMessage == DefaultWarningText && showWarning
      ensures secondsLeft == WarningSeconds && timerActive
    {
      warningMessage := DefaultWarningText;
      showWarning := true;
      StartWarningTimer();
    }

    /** The session-timeout listener: the countdown is cleared and the timeout dialog shown. */
    method HandleSessionTimeout()
      requires Valid()
      modifies this`timerActive, this`showWarning, this`warningMessage, this`secondsLeft, this`showSessionTimeout
      ensures Valid()
      ensures showSessionTimeout && !timerActive && !showWarning && warningMessage == ""
      ensures secondsLeft == WarningSeconds
    {
      ClearWarningTimer();
      showSessionTimeout := true;
    }

    /**
     * `requestConversationHistory(retry)` followed through its retries as written, given
     * whether the socket is open at the call and what its retry timer finds: at most one
     * frame is sent. Called as the component calls it, with no retry count, it shows an
     * error only when the email is missing.
     */
    method RequestConversationHistory(retry: nat, openAtCall: bool, timer: Option<RetryWorld>)
      requires Valid()
      modifies this`outbox, this`pane
      ensures Valid()
      ensures var o := RequestHistory(UserEmail(), openAtCall, timer, retry);
        && (o.MissingEmail? ==> outbox == old(outbox) && pane == old(pane).(errorMessage := Some(MissingEmailText)))
        && (o.GaveUp? ==> outbox == old(outbox) && pane == old(pane).(errorMessage := Some(HistoryFailedText)))
        && (o.Scheduled? || o.Stalled? ==> outbox == old(outbox) && pane == old(pane))
        && (o.SentAt? ==>
              && pane == old(pane)
              && outbox == old(outbox) + [HistoryRequest(if pane.isNewConversation then None else SelectedConversation())])
      ensures |outbox| <= |old(outbox)| + 1
      ensures retry == 0 && pane.errorMessage != old(pane.errorMessage) ==>
        UserEmail() == "" && pane.errorMessage == Some(MissingEmailText)
    {
      var o := RequestHistory(UserEmail(), openAtCall, timer, retry);
      match o
      case MissingEmail => pane := pane.(errorMessage := Some(MissingEmailText));
      case GaveUp => pane := pane.(errorMessage := Some(HistoryFailedText));
      case Scheduled(_) =>
      case Stalled(_) =>
      case SentAt(_) =>
        outbox := outbox + [HistoryRequest(if pane.isNewConversation then None else SelectedConversation())];
    }

    /**
     * The message listener (`handleMessage`): nothing happens while the session-timeout
     * dialog is showing; otherwise the pane follows `PaneAfter`, a final answer also asks
     * for the conversation list, and a conversation list is handed to the sidebar.
     */
    method HandleMessage(data: Inbound, now: string, nowMillis: nat)
      requires Valid()
      modifies this`pane, this`outbox, this`historyForSidebar
      ensures Valid()
      ensures showSessionTimeout ==> unchanged(this)
      ensures !showSessionTimeout ==> pane == PaneAfter(old(pane), data, selectedConversationId, now, nowMillis)
      ensures !showSessionTimeout ==>
        outbox == old(outbox) + (if IsFinalChat(data) then [HistoryRequest(SelectedConversation())] else [])
      ensures !showSessionTimeout ==>
        historyForSidebar ==
          if data.action == "get_conversation_history" && data.historicalMessages.Some? then data.historicalMessages
          else old(historyForSidebar)
    {
      if showSessionTimeout {
        return;
      }
      if IsFinalChat(data) {
        outbox := outbox + [HistoryRequest(SelectedConversation())];
      }
      if data.action == "get_conversation_history" && data.historicalMessages.Some? {
        historyForSidebar := data.historicalMessages;
      }
      if data.action == "get_historical_messages" && data.currentMessages.Some? {
        var formatted := NormaliseHistory(data.currentMessages.value, now, nowMillis);
        var indices := ResetSlideIndices(pane.slideIndices, formatted);
        pane := pane.(messages := formatted, slideIndices := indices, streaming := None,
                      botTyping := false, loading := false, isNewConversation := false);
      } else {
        pane := PaneAfter(pane, data, selectedConversationId, now, nowMillis);
      }
    }

    /**
     * `handleSendMessage()`: with non-blank input, no timeout dialog and a healthy
     * backend, the prompt is shown, sent as one frame, and the countdown is cleared;
     * otherwise nothing happens.
     */
    method HandleSendMessage(now: string)
      requires Valid()
      modifies this`pane, this`outbox, this`timerActive, this`showWarning, this`warningMessage, this`secondsLeft
      ensures Valid()
      ensures Trim(inputText) == "" || showSessionTimeout || !allHealthy ==> unchanged(this)
      ensures Trim(inputText) != "" && !showSessionTimeout && allHealthy ==>
        && pane == PromptShown(old(pane), inputText, now, selectedConversationId)
        && outbox == old(outbox) + [ChatPrompt(inputText, department, role, UserEmail(), selectedConversationId)]
        && !timerActive && !showWarning && warningMessage == "" && secondsLeft == WarningSeconds
    {
      if Trim(inputText) == "" || showSessionTimeout || !allHealthy {
        return;
      }
      pane := PromptShown(pane, inputText, now, selectedConversationId);
      outbox := outbox + [ChatPrompt(inputText, department, role, UserEmail(), selectedConversationId)];
      ClearWarningTimer();
    }

    /**
     * `handleFeedbackSubmit(messageId)`: without a chosen reason nothing happens;
     * otherwise the message is marked down-voted, the negative feedback frame is sent and
     * the form is reset.
     */
    method HandleFeedbackSubmit(id: string)
      requires Valid()
      modifies this`feedbackGiven, this`outbox, this`showFeedbackForm, this`selectedFeedbackReason,
               this`feedbackComment
      ensures Valid()
      ensures old(selectedFeedbackReason) == "" ==> unchanged(this)
      ensures old(selectedFeedbackReason) != "" ==>
        && feedbackGiven == old(feedbackGiven)[id := Down]
        && outbox == old(outbox) + [NegativeFeedback(id, old(selectedFeedbackReason), old(feedbackComment)).value]
        && showFeedbackForm == None && selectedFeedbackReason == "" && feedbackComment == ""
    {
      var frame := NegativeFeedback(id, selectedFeedbackReason, feedbackComment);
      if frame.None? {
        return;
      }
      feedbackGiven := feedbackGiven[id := Down];
      outbox := outbox + [frame.value];
      showFeedbackForm := None;
      selectedFeedbackReason := "";
      feedbackComment := "";
    }
  }
}
