/** The role-play panel of a topic (RolePlayGame.tsx): a multi-round
    dilemma with feedback, or a chat with the expert whose replies come
    from the backend. */
module RolePlayGame {
  import opened Types
  import opened JsText

  const ConnectionLost: string := "Connection interrupted. Please try again."

  /** The mode the panel shows. Chat when the user forced it; otherwise the
      data's own mode, and without one a dilemma exactly when the data
      carries a rounds array (even an empty one). */
  function ModeOf(force: bool, data: Option<RolePlayData>): (m: GameMode)
    ensures force ==> m == Chat
    ensures !force && data.Some? && data.value.mode.Some? ==> m == data.value.mode.value
    ensures m == Dilemma <==> (!force && data.Some?
      && (data.value.mode == Some(Dilemma) || (data.value.mode.None? && data.value.rounds.Some?)))
  {
    if force then Chat
    else if data.Some? && data.value.mode.Some? then data.value.mode.value
    else if data.Some? && data.value.rounds.Some? then Dilemma
    else Chat
  }

  /** A text field that is present and not empty. */
  predicate Present(o: Option<string>)
  {
    o.Some? && o.value != ""
  }

  function Greeting(roleName: string): string
  {
    "Hello. I am the " + roleName + ". We can discuss the situation in depth. What is on your mind?"
  }

  /** The message a chat opens with: the data's initial message, else a
      greeting from the named role, else none. */
  function Opening(data: Option<RolePlayData>): (r: Option<ChatMessage>)
    ensures r.Some? <==> data.Some? && (Present(data.value.initialMessage) || Present(data.value.roleName))
    ensures r.Some? ==> r.value.role == Model
    ensures data.Some? && Present(data.value.initialMessage)
      ==> r == Some(ChatMessage(Model, data.value.initialMessage.value))
    ensures data.Some? && !Present(data.value.initialMessage) && Present(data.value.roleName)
      ==> r == Some(ChatMessage(Model, Greeting(data.value.roleName.value)))
  {
    if data.None? then None
    else if Present(data.value.initialMessage) then Some(ChatMessage(Model, data.value.initialMessage.value))
    else if Present(data.value.roleName) then Some(ChatMessage(Model, Greeting(data.value.roleName.value)))
    else None
  }

  /** The send guard: something other than white space was typed and no
      reply is awaited. */
  function CanSend(input: string, loading: bool): (b: bool)
    ensures b <==> !loading && !Blank(input)
  {
    BlankIffAllSpace(input);
    Trim(input) != [] && !loading
  }

  /** The text of the model's message once a reply attempt ends: the reply,
      or the fixed notice when the request failed. */
  function ReplyText(outcome: Option<string>): (r: string)
    ensures outcome.Some? ==> r == outcome.value
    ensures outcome.None? ==> r == ConnectionLost
  {
    if outcome.Some? then outcome.value else ConnectionLost
  }

  /** Everything the panel holds that the user can observe. */
  datatype GameState = GameState(
    forceChatMode: bool,
    currentRoundIndex: nat,
    selectedOption: Option<nat>,
    showFeedback: bool,
    isComplete: bool,
    messages: seq<ChatMessage>,
    inputText: string,
    isChatLoading: bool)

  class Game {
    const data: Option<RolePlayData>
    /** Whether the viewer is on the Pro plan. */
    const isPro: bool

    var forceChatMode: bool
    var currentRoundIndex: nat
    var selectedOption: Option<nat>
    var showFeedback: bool
    var isComplete: bool
    var messages: seq<ChatMessage>
    var inputText: string
    var isChatLoading: bool

    function State(): GameState
      reads this
    {
      GameState(forceChatMode, currentRoundIndex, selectedOption, showFeedback, isComplete,
        messages, inputText, isChatLoading)
    }

    function Mode(): GameMode
      reads this
    {
      ModeOf(forceChatMode, data)
    }

    /** The number of rounds; none when the data has no rounds array. */
    function RoundCount(): nat
    {
      if data.Some? && data.value.rounds.Some? then data.value.rounds.value else 0
    }

    /** The dilemma is on screen: there is data, the mode is a dilemma and
        there is at least one round. */
    predicate DilemmaShown()
      reads this
    {
      data.Some? && Mode() == Dilemma && RoundCount() > 0
    }

    /** The chat is on screen. */
    predicate ChatShown()
      reads this
    {
      data.Some? && Mode() == Chat
    }

    /** The round index names a round (or is 0 when there are none);
        feedback is shown exactly when an option is selected; a completed
        game stands on its last round with its feedback shown. */
    predicate Valid()
      reads this
    {
      && (currentRoundIndex == 0 || currentRoundIndex < RoundCount())
      && (showFeedback <==> selectedOption.Some?)
      && (isComplete ==> showFeedback && currentRoundIndex + 1 == RoundCount())
    }

    constructor(data: Option<RolePlayData>, isPro: bool)
      ensures this.data == data && this.isPro == isPro
      ensures State() == GameState(false, 0, None, false, false, [], "", false)
      ensures Valid()
    {
      this.data := data;
      this.isPro := isPro;
      forceChatMode := false;
      currentRoundIndex := 0;
      selectedOption := None;
      showFeedback := false;
      isComplete := false;
      messages := [];
      inputText := "";
      isChatLoading := false;
    }

    /** Choosing an option of the current round. Ignored while the feedback
        of an earlier choice is shown. */
    method SelectOption(index: nat)
      requires Valid() && DilemmaShown() && !isComplete
      modifies this
      ensures Valid()
      ensures old(showFeedback) ==> unchanged(this)
      ensures !old(showFeedback) ==> State() == old(State()).(selectedOption := Some(index), showFeedback := true)
    {
      if !showFeedback {
        Choose(index);
      }
    }

    /** Recording a choice and showing its feedback. */
    method Choose(index: nat)
      requires Valid() && !isComplete
      modifies this
      ensures Valid()
      ensures State() == old(State()).(selectedOption := Some(index), showFeedback := true)
    {
      selectedOption, showFeedback := Some(index), true;
    }

    /** Moving on after the feedback: to the next round, clearing the
        choice, or, on the last round, to the completion screen. */
    method Next()
      requires Valid() && DilemmaShown() && !isComplete && showFeedback
      modifies this
      ensures Valid()
      ensures old(currentRoundIndex) + 1 < RoundCount() ==> State() == old(State()).(
        currentRoundIndex := old(currentRoundIndex) + 1, selectedOption := None, showFeedback := false)
      ensures old(currentRoundIndex) + 1 >= RoundCount() ==> State() == old(State()).(isComplete := true)
    {
      if currentRoundIndex < RoundCount() - 1 {
        Advance();
      } else {
        isComplete := true;
      }
    }

    /** Going to the next round with nothing chosen. */
    method Advance()
      requires Valid() && !isComplete && currentRoundIndex + 1 < RoundCount()
      modifies this
      ensures Valid()
      ensures State() == old(State()).(
        currentRoundIndex := old(currentRoundIndex) + 1, selectedOption := None, showFeedback := false)
    {
      currentRoundIndex, selectedOption, showFeedback := currentRoundIndex + 1, None, false;
    }

    /** Playing again from the completion screen. */
    method Reset()
      requires DilemmaShown() && isComplete
      modifies this
      ensures Valid()
      ensures State() == old(State()).(currentRoundIndex := 0, selectedOption := None,
        showFeedback := false, isComplete := false)
    {
      currentRoundIndex, selectedOption, showFeedback, isComplete := 0, None, false, false;
    }

    /** A Pro viewer switching a dilemma to the expert chat. */
    method SwitchToChat()
      requires Valid() && DilemmaShown() && isPro
      modifies this
      ensures Valid()
      ensures State() == old(State()).(forceChatMode := true)
      ensures ChatShown()
    {
      forceChatMode := true;
    }

    /** Leaving the chat for the scenario, offered when the data has rounds. */
    method BackToScenario()
      requires Valid() && ChatShown() && data.value.rounds.Some?
      modifies this
      ensures Valid()
      ensures State() == old(State()).(forceChatMode := false)
    {
      forceChatMode := false;
    }

    /** The chat's opening effect: in chat mode with an empty log, the log
        becomes the opening message when there is one. */
    method OpenChat()
      requires Valid()
      modifies this
      ensures Valid()
      ensures Mode() == Chat && old(messages) == [] && Opening(data).Some?
        ==> State() == old(State()).(messages := [Opening(data).value])
      ensures !(Mode() == Chat && old(messages) == [] && Opening(data).Some?) ==> unchanged(this)
    {
      if Mode() == Chat && messages == [] {
        var opening := Opening(data);
        if opening.Some? {
          messages := [opening.value];
        }
      }
    }

    /** Typing into the chat box. */
    method TypeInput(s: string)
      requires Valid()
      modifies this
      ensures Valid()
      ensures State() == old(State()).(inputText := s)
    {
      inputText := s;
    }

    /** Submitting the chat box. A blank message, or one sent while a reply
        is awaited, is rejected; otherwise it joins the log and the request
        starts. */
    method SendMessage() returns (accepted: bool)
      requires Valid() && ChatShown()
      modifies this
      ensures Valid()
      ensures accepted <==> !old(isChatLoading) && !Blank(old(inputText))
      ensures !accepted ==> unchanged(this)
      ensures accepted ==> State() == old(State()).(
        messages := old(messages) + [ChatMessage(User, old(inputText))], inputText := "", isChatLoading := true)
    {
      accepted := CanSend(inputText, isChatLoading);
      if accepted {
        Post();
      }
    }

    /** The effect of an accepted message. */
    method Post()
      requires Valid()
      modifies this
      ensures Valid()
      ensures State() == old(State()).(
        messages := old(messages) + [ChatMessage(User, old(inputText))], inputText := "", isChatLoading := true)
    {
      messages, inputText, isChatLoading := messages + [ChatMessage(User, inputText)], "", true;
    }

    /** The request ended with `outcome`: the reply, or None when it failed.
        One model message joins the log and loading ends. */
    method ReplyArrived(outcome: Option<string>)
      requires Valid() && isChatLoading
      modifies this
      ensures Valid()
      ensures State() == old(State()).(
        messages := old(messages) + [ChatMessage(Model, ReplyText(outcome))], isChatLoading := false)
    {
      messages, isChatLoading := messages + [ChatMessage(Model, ReplyText(outcome))], false;
    }

    /** An accepted message followed by the end of its request: the log
        grows by exactly the user's message and then one model message, the
        box is empty and nothing is loading. */
    method Converse(outcome: Option<string>) returns (accepted: bool)
      requires Valid() && ChatShown()
      modifies this
      ensures Valid()
      ensures accepted <==> !old(isChatLoading) && !Blank(old(inputText))
      ensures !accepted ==> unchanged(this)
      ensures accepted ==> State() == old(State()).(
        messages := old(messages) + [ChatMessage(User, old(inputText)), ChatMessage(Model, ReplyText(outcome))],
        inputText := "", isChatLoading := false)
      ensures accepted ==> |messages| == |old(messages)| + 2
    {
      accepted := SendMessage();
      if accepted {
        ReplyArrived(outcome);
      }
    }
  }
}
