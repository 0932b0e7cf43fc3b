/**
 * The live-demo tooltip: where it places itself, how it fetches the
 * definition of its word (ignoring a result that arrives after its request
 * was superseded), and how its follow-up chat grows the transcript.
 *
 * React state becomes the fields of `DemoTooltip`; each `useEffect` and event
 * handler becomes a method that the caller invokes at the moment React would.
 * The awaited calls are split at the `await`: one method runs up to it, a
 * second one runs when the result arrives.
 */
module LiveDemo {
  import opened Wrappers
  import opened Text
  import opened MockTrpc

  // ---------------------------------------------------------------------------
  // Smart positioning
  // ---------------------------------------------------------------------------

  /** The gap, in pixels, kept between the tooltip and every edge of the viewport. */
  const Margin: real := 20.0

  /** The tooltip is centred horizontally on its `left` coordinate. */
  const CenteredTransform: string := "translateX(-50%)"

  datatype Point = Point(x: real, y: real)

  datatype Size = Size(width: real, height: real)

  datatype SmartPosition = SmartPosition(left: real, top: real, transform: string)

  function Max(a: real, b: real): real {
    if a < b then b else a
  }

  function Min(a: real, b: real): real {
    if a < b then a else b
  }

  /**
   * `v` raised to at least `lo`, then lowered to at most `hi`: when the
   * interval is empty the upper bound wins.
   */
  function Clamp(v: real, lo: real, hi: real): (r: real)
    ensures r <= hi
    ensures lo <= hi ==> lo <= r
    ensures lo <= v <= hi ==> r == v
    ensures hi < lo ==> r == hi
    ensures v < lo <= hi ==> r == lo
    ensures hi < v ==> r == hi
  {
    Min(Max(v, lo), hi)
  }

  /**
   * The second `useEffect` of the tooltip: four clamps applied in turn, top,
   * bottom, left, right, so that the bottom and right corrections win for a
   * tooltip that does not fit.
   */
  method ComputeSmartPosition(position: Point, rect: Size, viewport: Size) returns (p: SmartPosition)
    ensures p.transform == CenteredTransform
    ensures p.top == Clamp(position.y, Margin, viewport.height - rect.height - Margin)
    ensures p.left == Clamp(position.x, rect.width / 2.0 + Margin, viewport.width - rect.width / 2.0 - Margin)
    ensures p.top + rect.height <= viewport.height - Margin
    ensures p.left + rect.width / 2.0 <= viewport.width - Margin
    ensures rect.height <= viewport.height - 2.0 * Margin ==> p.top >= Margin
    ensures rect.width <= viewport.width - 2.0 * Margin ==> p.left - rect.width / 2.0 >= Margin
    ensures Margin <= position.y && position.y + rect.height <= viewport.height - Margin ==> p.top == position.y
    ensures Margin <= position.x - rect.width / 2.0 && position.x + rect.width / 2.0 <= viewport.width - Margin ==>
      p.left == position.x
  {
    var left := position.x;
    var top := position.y;
    var transform := CenteredTransform;

    if top < Margin {
      top := Margin;
    }
    if top + rect.height > viewport.height - Margin {
      top := viewport.height - rect.height - Margin;
    }
    if left - rect.width / 2.0 < Margin {
      left := rect.width / 2.0 + Margin;
    }
    if left + rect.width / 2.0 > viewport.width - Margin {
      left := viewport.width - rect.width / 2.0 - Margin;
    }

    p := SmartPosition(left, top, transform);
  }

  /** A 300 by 200 tooltip anchored at (400, 10) in a 1000 by 800 viewport moves down to the margin only. */
  method AnchorNearTheTop() returns (p: SmartPosition)
    ensures p == SmartPosition(400.0, 20.0, CenteredTransform)
  {
    p := ComputeSmartPosition(Point(400.0, 10.0), Size(300.0, 200.0), Size(1000.0, 800.0));
  }

  /** A tooltip taller than the viewport is pinned to the bottom margin and overflows the top. */
  method OversizedTooltipKeepsBottomMargin(position: Point, rect: Size, viewport: Size) returns (p: SmartPosition)
    requires rect.height > viewport.height - 2.0 * Margin
    ensures p.top == viewport.height - rect.height - Margin && p.top < Margin
  {
    p := ComputeSmartPosition(position, rect, viewport);
  }

  // ---------------------------------------------------------------------------
  // The tooltip component
  // ---------------------------------------------------------------------------

  datatype Role = User | Assistant

  datatype ChatTurn = ChatTurn(role: Role, content: string)

  /** The send button is enabled, and the handler proceeds, only for non-blank input while no reply is pending. */
  predicate SendEnabled(chatInput: string, isSending: bool) {
    Trim(chatInput) != [] && !isSending
  }

  /**
   * A transcript as the handler builds it: every user turn has non-blank
   * content and every assistant turn directly follows a user turn.
   */
  predicate WellFormedTranscript(messages: seq<ChatTurn>) {
    && (forall i :: 0 <= i < |messages| && messages[i].role == User ==> !IsBlank(messages[i].content))
    && (forall i :: 0 <= i < |messages| && messages[i].role == Assistant ==> 0 < i && messages[i - 1].role == User)
  }

  /** Whitespace-only input, as `trim` sees it, never gets past the guard. */
  lemma SendEnabledIffNotBlank(chatInput: string, isSending: bool)
    ensures SendEnabled(chatInput, isSending) <==> !IsBlank(chatInput) && !isSending
  {
  }

  /** One exchange, a non-blank user turn and then a reply, keeps a transcript well formed. */
  lemma ExchangeKeepsTranscriptWellFormed(messages: seq<ChatTurn>, question: string, answer: string)
    requires WellFormedTranscript(messages) && !IsBlank(question)
    ensures WellFormedTranscript(messages + [ChatTurn(User, question), ChatTurn(Assistant, answer)])
  {
  }

  /**
   * The state kept by one run of the fetching `useEffect`: the word it asked
   * for and the `cancelled` flag its cleanup sets.
   */
  class FetchEffect {
    const word: string
    var cancelled: bool

    /** The effect runs: the lookup of `word` is started. */
    constructor (word: string)
      ensures this.word == word && !cancelled
    {
      this.word := word;
      cancelled := false;
    }

    /** The effect's cleanup, run when the word changes or the tooltip unmounts. */
    method Cleanup()
      modifies this
      ensures cancelled
    {
      cancelled := true;
    }
  }

  class DemoTooltip {
    var word: string
    var position: Point
    var isChatMode: bool
    var chatInput: string
    var messages: seq<ChatTurn>
    var data: Option<DefinitionRecord>
    var isLoading: bool
    var isSending: bool
    var smartPosition: SmartPosition
    /** The run of the fetching effect that belongs to the current word. */
    var fetch: FetchEffect

    ghost predicate Valid()
      reads this, fetch
    {
      && fetch.word == word && !fetch.cancelled
      && (isLoading <==> data == None)
      && WellFormedTranscript(messages)
      && (isSending ==> messages != [] && messages[|messages| - 1].role == User)
    }

    /** Mounting: the initial state, and the first run of the fetching effect. */
    constructor (word: string, position: Point)
      ensures Valid() && fresh(fetch)
      ensures this.word == word && this.position == position
      ensures !isChatMode && chatInput == [] && messages == []
      ensures data == None && isLoading && !isSending
      ensures smartPosition == SmartPosition(position.x, position.y, CenteredTransform)
    {
      this.word := word;
      this.position := position;
      isChatMode := false;
      chatInput := "";
      messages := [];
      data := None;
      isLoading := true;
      isSending := false;
      smartPosition := SmartPosition(position.x, position.y, CenteredTransform);
      fetch := new FetchEffect(word);
    }

    /**
     * A new value of the `word` prop: the effect's dependency changed, so the
     * previous fetch is cleaned up and a new one starts. The definition on
     * screen and the loading flag stay until the new result arrives. The same
     * value again reruns nothing.
     */
    method ChangeWord(w: string)
      requires Valid()
      modifies this, fetch
      ensures Valid() && word == w
      ensures w == old(word) ==> fetch == old(fetch) && !fetch.cancelled
      ensures w != old(word) ==> fresh(fetch) && old(fetch).cancelled
      ensures position == old(position) && isChatMode == old(isChatMode) && chatInput == old(chatInput)
      ensures messages == old(messages) && data == old(data) && isLoading == old(isLoading)
      ensures isSending == old(isSending) && smartPosition == old(smartPosition)
    {
      if w != word {
        fetch.Cleanup();
        word := w;
        fetch := new FetchEffect(w);
      }
    }

    /** A new `position` prop; the tooltip is placed again by the next `Reposition`. */
    method ChangePosition(p: Point)
      requires Valid()
      modifies this`position
      ensures Valid() && position == p
    {
      position := p;
    }

    /** Unmounting: the pending fetch is cleaned up. */
    method Unmount()
      requires Valid()
      modifies fetch
      ensures fetch.cancelled
    {
      fetch.Cleanup();
    }

    /**
     * The `then` callback of the lookup started by `effect`, receiving its
     * `result`: applied only if the effect has not been cleaned up meanwhile.
     */
    method DefinitionArrives(effect: FetchEffect, result: DefinitionRecord)
      requires Valid()
      modifies this`data, this`isLoading
      ensures Valid()
      ensures effect.cancelled ==> data == old(data) && isLoading == old(isLoading)
      ensures !effect.cancelled ==> data == Some(result) && !isLoading
    {
      if !effect.cancelled {
        data := Some(result);
        isLoading := false;
      }
    }

    /** The lookup started by `effect` completes with the mock's record for its word. */
    method CompleteFetch(effect: FetchEffect)
      requires Valid()
      modifies this`data, this`isLoading
      ensures Valid()
      ensures effect.cancelled ==> data == old(data) && isLoading == old(isLoading)
      ensures !effect.cancelled ==> data == Some(GetMockDefinition(effect.word)) && !isLoading
    {
      DefinitionArrives(effect, GetMockDefinition(effect.word));
    }

    /**
     * The positioning effect, run after a change of `position` or `data`.
     * `rect` is the measured size of the rendered tooltip, absent before it is mounted.
     */
    method Reposition(rect: Option<Size>, viewport: Size)
      requires Valid()
      modifies this`smartPosition
      ensures Valid()
      ensures rect == None ==> smartPosition == old(smartPosition)
      ensures rect.Some? ==>
        smartPosition.top + rect.value.height <= viewport.height - Margin
        && smartPosition.left + rect.value.width / 2.0 <= viewport.width - Margin
        && smartPosition.top == Clamp(position.y, Margin, viewport.height - rect.value.height - Margin)
        && smartPosition.left
             == Clamp(position.x, rect.value.width / 2.0 + Margin, viewport.width - rect.value.width / 2.0 - Margin)
        && smartPosition.transform == CenteredTransform
    {
      if rect.Some? {
        smartPosition := ComputeSmartPosition(position, rect.value, viewport);
      }
    }

    /** The "Ask a follow-up question" button. */
    method OpenChat()
      requires Valid()
      modifies this`isChatMode
      ensures Valid() && isChatMode
    {
      isChatMode := true;
    }

    /** Typing into the chat input. */
    method SetChatInput(text: string)
      requires Valid()
      modifies this`chatInput
      ensures Valid() && chatInput == text
    {
      chatInput := text;
    }

    /**
     * `handleSendMessage` up to its `await`: unless the guard returns early,
     * the user's turn is appended, the input cleared and the send marked pending.
     */
    method BeginSend() returns (started: bool, userMessage: string)
      requires Valid()
      modifies this`messages, this`chatInput, this`isSending
      ensures Valid()
      ensures started == SendEnabled(old(chatInput), old(isSending))
      ensures !started ==>
        messages == old(messages) && isSending == old(isSending) && chatInput == old(chatInput)
      ensures started ==>
        && userMessage == old(chatInput)
        && messages == old(messages) + [ChatTurn(User, userMessage)]
        && chatInput == [] && isSending
    {
      if Trim(chatInput) == [] || isSending {
        return false, "";
      }
      userMessage := chatInput;
      messages := messages + [ChatTurn(User, userMessage)];
      chatInput := "";
      isSending := true;
      started := true;
    }

    /**
     * `handleSendMessage` after its `await`: the reply to `userMessage` about
     * `subject` is appended unless the call failed, and in both cases the
     * send is no longer pending.
     */
    method FinishSend(userMessage: string, subject: string, now: nat, failed: bool)
      requires Valid() && isSending
      modifies this`messages, this`isSending
      ensures Valid() && !isSending
      ensures failed ==> messages == old(messages)
      ensures !failed ==>
        messages == old(messages) + [ChatTurn(Assistant, GetMockChatResponse(userMessage, Some(subject), now).response)]
    {
      if !failed {
        var response := GetMockChatResponse(userMessage, Some(subject), now);
        messages := messages + [ChatTurn(Assistant, response.response)];
      }
      isSending := false;
    }

    /**
     * The whole of `handleSendMessage`, with no other event in between: a
     * successful send appends exactly the user's turn and then the reply.
     */
    method HandleSendMessage(now: nat, failed: bool)
      requires Valid()
      modifies this`messages, this`chatInput, this`isSending
      ensures Valid()
      ensures !SendEnabled(old(chatInput), old(isSending)) ==>
        messages == old(messages) && isSending == old(isSending) && chatInput == old(chatInput)
      ensures SendEnabled(old(chatInput), old(isSending)) ==>
        && chatInput == [] && !isSending
        && messages == old(messages)
             + [ChatTurn(User, old(chatInput))]
             + (if failed then [] else [ChatTurn(Assistant, GetMockChatResponse(old(chatInput), Some(word), now).response)])
    {
      var started, userMessage := BeginSend();
      if started {
        FinishSend(userMessage, word, now, failed);
      }
    }
  }

  /**
   * A definition that arrives for a word the tooltip no longer shows is
   * discarded, while the one for the current word is applied: on mount with
   * `first`, the word changes to `second`, then the lookup of `first`
   * resolves with `stale`, then the lookup of `second` resolves with `current`.
   */
  method StaleDefinitionIsIgnored(first: string, second: string, at: Point, stale: DefinitionRecord, current: DefinitionRecord)
    returns (afterStale: Option<DefinitionRecord>, afterCurrent: Option<DefinitionRecord>)
    requires first != second
    ensures afterStale == None && afterCurrent == Some(current)
  {
    var tooltip := new DemoTooltip(first, at);
    var firstFetch := tooltip.fetch;
    tooltip.ChangeWord(second);
    tooltip.DefinitionArrives(firstFetch, stale);
    afterStale := tooltip.data;
    tooltip.DefinitionArrives(tooltip.fetch, current);
    afterCurrent := tooltip.data;
  }
}
