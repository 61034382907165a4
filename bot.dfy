/**
 * The per-user conversation engine of the bot: the two conversation states, the map
 * from user id to session, the callback data of the character buttons and the order in
 * which callbacks are routed, the bounded history, and one method per handler.
 * Handlers run one event at a time; what they send back is an `Answer` value.
 */
module Bot {
  import opened Wrappers
  import opened PyCore
  import opened PyJson
  import opened AiProvider

  type UserId = int

  /** What the handlers read of a character record of the character table. */
  datatype Character = Character(name: string, emoji: string, greeting: string, description: string,
                                 systemPrompt: string)

  /** `user_sessions[user_id]`. `/start` stores `{"character": None, "history": []}` (no
      `character_id` key); choosing a character stores all three keys. */
  datatype Session = Session(characterId: Option<string>, character: Option<Character>, history: seq<Turn>)

  const NewSession := Session(None, None, [])

  /** The states of `ChatStates`; a user who never reached one has no state. */
  datatype ChatState = ChoosingCharacter | Chatting

  // ---------------------------------------------------------------------------
  // Callback data

  const CharPrefix := "char_"

  /** `f"char_{id}"`, the callback data of a character button. */
  function CharacterCallback(id: string): (data: string)
    ensures StartsWith(data, CharPrefix) && data[|CharPrefix|..] == id
  {
    CharPrefix + id
  }

  /** `data.replace("char_", "")`: the character id the selection handler reads. */
  function CallbackCharacterId(data: string): (id: string)
    ensures |id| <= |data|
    ensures id == data <==> !Occurs(CharPrefix, data)
  {
    DeleteShrinks(data, CharPrefix);
    DeleteIdentityIff(data, CharPrefix);
    Replace(data, CharPrefix, "")
  }

  /** Reading a button's data back gives the character id exactly when the id does not
      itself contain `"char_"` (every occurrence is deleted, not just the prefix). */
  lemma CallbackRoundTrip(id: string)
    ensures CallbackCharacterId(CharacterCallback(id)) == id <==> !Occurs(CharPrefix, id)
  {
    var data := CharacterCallback(id);
    assert StartsWith(data, CharPrefix) && data[|CharPrefix|..] == id;
    assert CallbackCharacterId(data) == Replace(id, CharPrefix, "");
    DeleteIdentityIff(id, CharPrefix);
  }

  /** An id that contains `"char_"` does not survive the round trip. */
  lemma CallbackRoundTripLosesInnerPrefix()
    ensures CallbackCharacterId(CharacterCallback("char_x")) == "x"
  {
    var data := CharacterCallback("char_x");
    assert data[5..] == "char_x";
    assert data[5..][5..] == "x";
    assert Replace(data, CharPrefix, "") == Replace("char_x", CharPrefix, "");
    assert Replace("char_x", CharPrefix, "") == Replace("x", CharPrefix, "");
    assert Replace("x", CharPrefix, "") == "x";
  }

  // ---------------------------------------------------------------------------
  // Callback routing

  /** The callback handlers, in the order they are registered. */
  datatype Route = SelectCharacter(characterId: string) | ChangeCharacter | ClearHistory | CharacterInfo | Unrouted

  /** The first registered handler whose filter accepts `data`. The prefix filter of the
      selection handler comes first, so it also takes `"char_info"`, and the info
      handler is never reached. */
  function RouteCallback(data: string): (r: Route)
    ensures r.SelectCharacter? <==> StartsWith(data, CharPrefix)
    ensures r.SelectCharacter? ==> r.characterId == CallbackCharacterId(data)
    ensures r == ChangeCharacter <==> data == "change_char"
    ensures r == ClearHistory <==> data == "clear_history"
    ensures r != CharacterInfo
  {
    assert "change_char"[..5][3] != CharPrefix[3] && "clear_history"[..5][1] != CharPrefix[1];
    if StartsWith(data, CharPrefix) then SelectCharacter(CallbackCharacterId(data))
    else if data == "change_char" then ChangeCharacter
    else if data == "clear_history" then ClearHistory
    else if data == "char_info" then CharacterInfo
    else Unrouted
  }

  /** The menu's info button is taken by the selection handler, with character id `"info"`. */
  lemma InfoButtonSelectsCharacter()
    ensures RouteCallback("char_info") == SelectCharacter("info")
  {
    var data := "char_info";
    assert StartsWith(data, CharPrefix);
    assert data[5..] == "info";
    assert Replace(data, CharPrefix, "") == Replace("info", CharPrefix, "");
    NotOccursWithoutFirstChar(CharPrefix, "info");
    DeleteAbsent("info", CharPrefix);
  }

  /** A character button routes to the selection of its own character when the id does
      not contain `"char_"`. */
  lemma CharacterButtonRoutes(id: string)
    requires !Occurs(CharPrefix, id)
    ensures RouteCallback(CharacterCallback(id)) == SelectCharacter(id)
  {
    CallbackRoundTrip(id);
  }

  // ---------------------------------------------------------------------------
  // Character keyboard

  /** One entry of the keyboard data of the character table. */
  datatype CharacterCard = CharacterCard(id: string, name: string, emoji: string)

  datatype Button = Button(text: string, callbackData: string)

  /** One row holding one button per card, in the order of the cards. */
  method CharacterKeyboard(cards: seq<CharacterCard>) returns (rows: seq<seq<Button>>)
    ensures |rows| == |cards|
    ensures forall i :: 0 <= i < |cards| ==>
              rows[i] == [Button(cards[i].emoji + " " + cards[i].name, CharacterCallback(cards[i].id))]
    ensures forall i :: 0 <= i < |cards| && !Occurs(CharPrefix, cards[i].id) ==>
              RouteCallback(rows[i][0].callbackData) == SelectCharacter(cards[i].id)
  {
    rows := [];
    for i := 0 to |cards|
      invariant |rows| == i
      invariant forall j :: 0 <= j < i ==>
                  rows[j] == [Button(cards[j].emoji + " " + cards[j].name, CharacterCallback(cards[j].id))]
    {
      var card := cards[i];
      rows := rows + [[Button(card.emoji + " " + card.name, CharacterCallback(card.id))]];
    }
    forall i | 0 <= i < |cards| && !Occurs(CharPrefix, cards[i].id)
      ensures RouteCallback(rows[i][0].callbackData) == SelectCharacter(cards[i].id)
    {
      CharacterButtonRoutes(cards[i].id);
    }
  }

  // ---------------------------------------------------------------------------
  // History

  function UserTurn(text: string): Turn { Turn(User, JStr(text)) }

  function AssistantTurn(response: Json): Turn { Turn(Assistant, response) }

  /** The history after a successful exchange: the user turn and the assistant turn are
      appended, and when the list is longer than `2 * maxHistoryLength` it is cut to its
      last `2 * maxHistoryLength` turns with Python's negative slice. */
  function Remember(history: seq<Turn>, userText: string, response: Json, maxHistoryLength: nat): (r: seq<Turn>)
    ensures var h := history + [UserTurn(userText), AssistantTurn(response)];
            |r| <= |h| && r == h[|h| - |r|..]
  {
    var h := history + [UserTurn(userText), AssistantTurn(response)];
    if |h| > maxHistoryLength * 2 then SliceFrom(h, -(maxHistoryLength * 2)) else h
  }

  /** Turns alternate user, assistant, user, ... and come in whole pairs. */
  predicate Paired(h: seq<Turn>)
  {
    |h| % 2 == 0 && forall i :: 0 <= i < |h| ==> h[i].role == (if i % 2 == 0 then User else Assistant)
  }

  /** With a bound of at least one pair, the new history is the newest `2 * maxHistoryLength`
      turns of the old history followed by the new pair, in order. */
  lemma RememberKeepsNewest(history: seq<Turn>, userText: string, response: Json, maxHistoryLength: nat)
    requires maxHistoryLength >= 1
    ensures Remember(history, userText, response, maxHistoryLength)
            == Last(history + [UserTurn(userText), AssistantTurn(response)], 2 * maxHistoryLength)
    ensures |Remember(history, userText, response, maxHistoryLength)| == Min(|history| + 2, 2 * maxHistoryLength)
  {
    var h := history + [UserTurn(userText), AssistantTurn(response)];
    LastIsSuffix(h, 2 * maxHistoryLength);
    if |h| > maxHistoryLength * 2 {
      SliceFromNegative(h, 2 * maxHistoryLength);
    }
  }

  /** The new pair always ends the history; while the old history has room, nothing
      is dropped; a history that was within the bound stays within it. */
  lemma RememberAppends(history: seq<Turn>, userText: string, response: Json, maxHistoryLength: nat)
    requires maxHistoryLength >= 1
    ensures var r := Remember(history, userText, response, maxHistoryLength);
            |r| >= 2 && r[|r| - 2..] == [UserTurn(userText), AssistantTurn(response)]
    ensures |history| + 2 <= 2 * maxHistoryLength ==>
              Remember(history, userText, response, maxHistoryLength)
              == history + [UserTurn(userText), AssistantTurn(response)]
    ensures |history| <= 2 * maxHistoryLength ==>
              |Remember(history, userText, response, maxHistoryLength)| <= 2 * maxHistoryLength
  {
    var h := history + [UserTurn(userText), AssistantTurn(response)];
    var r := Remember(history, userText, response, maxHistoryLength);
    RememberKeepsNewest(history, userText, response, maxHistoryLength);
    LastIsSuffix(h, 2 * maxHistoryLength);
    assert r[|r| - 2..] == h[|h| - 2..];
  }

  /** Dropping an even number of turns from the front keeps the pairs intact. */
  lemma PairedSuffix(h: seq<Turn>, k: nat)
    requires Paired(h) && k <= |h| && k % 2 == 0
    ensures Paired(h[k..])
  {
    forall i | 0 <= i < |h[k..]|
      ensures h[k..][i].role == (if i % 2 == 0 then User else Assistant)
    {
      assert h[k..][i] == h[k + i];
      assert (k + i) % 2 == i % 2;
    }
  }

  /** An exchange keeps the history in whole user/assistant pairs. */
  lemma RememberPaired(history: seq<Turn>, userText: string, response: Json, maxHistoryLength: nat)
    requires Paired(history)
    ensures Paired(Remember(history, userText, response, maxHistoryLength))
  {
    var h := history + [UserTurn(userText), AssistantTurn(response)];
    assert Paired(h) by {
      forall i | 0 <= i < |h| ensures h[i].role == (if i % 2 == 0 then User else Assistant) {
        if i >= |history| {
          assert i == |history| || i == |history| + 1;
        }
      }
    }
    if maxHistoryLength >= 1 && |h| > maxHistoryLength * 2 {
      assert SliceFrom(h, -(maxHistoryLength * 2)) == h[|h| - maxHistoryLength * 2..];
      PairedSuffix(h, |h| - maxHistoryLength * 2);
    }
  }

  /** With a bound of 0, `h[-0:]` is the whole list: the history is never cut. */
  lemma RememberUnbounded(history: seq<Turn>, userText: string, response: Json)
    ensures Remember(history, userText, response, 0) == history + [UserTurn(userText), AssistantTurn(response)]
  {
    var h := history + [UserTurn(userText), AssistantTurn(response)];
    SliceFromMinusZero(h);
  }

  /** With a bound of two pairs, three exchanges from an empty history keep the last
      two pairs: the oldest pair is dropped. */
  lemma ThreeExchangesKeepTwo(a: Json, b: Json, c: Json)
    ensures var h1 := Remember([], "hi", a, 2);
            var h2 := Remember(h1, "how are you", b, 2);
            var h3 := Remember(h2, "bye", c, 2);
            && h1 == [UserTurn("hi"), AssistantTurn(a)]
            && h3 == [UserTurn("how are you"), AssistantTurn(b), UserTurn("bye"), AssistantTurn(c)]
  {
    var h1 := Remember([], "hi", a, 2);
    var h2 := Remember(h1, "how are you", b, 2);
    RememberAppends([], "hi", a, 2);
    RememberAppends(h1, "how are you", b, 2);
    var h := h2 + [UserTurn("bye"), AssistantTurn(c)];
    assert |h| == 6;
    assert SliceFrom(h, -4) == h[2..];
  }

  // ---------------------------------------------------------------------------
  // The bot

  /** What a handler shows the user, by kind, with the values it shows. */
  datatype Answer =
    | Welcome                 // the welcome text with the character keyboard
    | Menu                    // the chat menu keyboard
    | ChooseNewCharacter      // "pick a new character" with the character keyboard
    | CharacterNotFound       // alert: unknown character id
    | Greeting(name: string, greeting: string)
    | HistoryCleared          // alert: history cleared
    | ChooseCharacterFirst    // alert: no character chosen yet
    | CharacterDetails(emoji: string, name: string, description: string, historyLength: nat)
    | StartFirst              // "choose a character with /start" with the character keyboard
    | ChooseFirst             // "choose a character" with the character keyboard
    | Reply(content: Json)    // the provider's reply, sent as it came
    | Apology                 // the provider call raised
    | Unanswered              // no handler matched the update

  /** The updates the bot reacts to, already sorted into commands, plain messages and
      callback queries. */
  datatype Event =
    | StartCommand(user: UserId)
    | MenuCommand(user: UserId)
    | ChangeCommand(user: UserId)
    | TextMessage(user: UserId, text: string)
    | CallbackQuery(user: UserId, data: string)

  /** A stored session names a character of the table exactly when it holds one, holds
      that character, and keeps a history of whole pairs within the bound. */
  predicate SessionValid(s: Session, catalog: map<string, Character>, maxHistoryLength: nat)
  {
    && (s.characterId.Some? <==> s.character.Some?)
    && (s.characterId.Some? ==> s.characterId.value in catalog && catalog[s.characterId.value] == s.character.value)
    && |s.history| <= 2 * maxHistoryLength
    && Paired(s.history)
  }

  /** An exchange keeps a valid session valid: same character, history bounded and paired. */
  lemma RememberKeepsSessionValid(s: Session, userText: string, response: Json,
                                  catalog: map<string, Character>, maxHistoryLength: nat)
    requires maxHistoryLength >= 1 && SessionValid(s, catalog, maxHistoryLength)
    ensures SessionValid(s.(history := Remember(s.history, userText, response, maxHistoryLength)),
                         catalog, maxHistoryLength)
  {
    RememberAppends(s.history, userText, response, maxHistoryLength);
    RememberPaired(s.history, userText, response, maxHistoryLength);
  }

  /** The user has a session and it holds a character. */
  predicate HasCharacter(sessions: map<UserId, Session>, user: UserId)
  {
    user in sessions && sessions[user].character.Some?
  }

  class ChatBot {
    const catalog: map<string, Character>
    const maxHistoryLength: nat
    const provider: OpenRouterProvider
    var sessions: map<UserId, Session>
    var states: map<UserId, ChatState>

    /** Every session is valid, and a user in the chatting state has a session with a
        character. */
    ghost predicate Valid()
      reads this
    {
      && maxHistoryLength >= 1
      && provider.maxHistoryLength == maxHistoryLength
      && (forall u :: u in sessions ==> SessionValid(sessions[u], catalog, maxHistoryLength))
      && (forall u :: u in states && states[u] == Chatting ==> u in sessions && sessions[u].character.Some?)
    }

    constructor (config: Config, catalog: map<string, Character>)
      requires config.maxHistoryLength >= 1
      ensures Valid()
      ensures this.catalog == catalog && maxHistoryLength == config.maxHistoryLength
      ensures fresh(provider) && provider.model == ResolveModel(config.modelName)
      ensures provider.apiKey == config.apiKey && provider.maxTokens == config.maxTokens
      ensures provider.maxHistoryLength == config.maxHistoryLength
      ensures sessions == map[] && states == map[]
    {
      this.catalog := catalog;
      maxHistoryLength := config.maxHistoryLength;
      provider := new OpenRouterProvider(config);
      sessions := map[];
      states := map[];
    }

    /** `/start`: a session is created only for a user without one; an existing session
        is kept as it is. The user is then choosing a character. */
    method CmdStart(user: UserId) returns (answer: Answer)
      requires Valid()
      modifies this
      ensures Valid()
      ensures user in old(sessions) ==> sessions == old(sessions)
      ensures user !in old(sessions) ==> sessions == old(sessions)[user := NewSession]
      ensures states == old(states)[user := ChoosingCharacter]
      ensures answer == Welcome
    {
      if user !in sessions {
        sessions := sessions[user := NewSession];
      }
      states := states[user := ChoosingCharacter];
      answer := Welcome;
    }

    /** `/change`: only the state changes. */
    method CmdChangeCharacter(user: UserId) returns (answer: Answer)
      requires Valid()
      modifies this
      ensures Valid()
      ensures sessions == old(sessions)
      ensures states == old(states)[user := ChoosingCharacter]
      ensures answer == ChooseNewCharacter
    {
      states := states[user := ChoosingCharacter];
      answer := ChooseNewCharacter;
    }

    /** A character button: an unknown id changes nothing; a known one replaces the
        user's whole session by a fresh one with that character and starts chatting. */
    method SelectCharacter(user: UserId, characterId: string) returns (answer: Answer)
      requires Valid()
      modifies this
      ensures Valid()
      ensures characterId !in catalog ==>
                sessions == old(sessions) && states == old(states) && answer == CharacterNotFound
      ensures characterId in catalog ==>
                && sessions == old(sessions)[user := Session(Some(characterId), Some(catalog[characterId]), [])]
                && states == old(states)[user := Chatting]
                && answer == Greeting(catalog[characterId].name, catalog[characterId].greeting)
    {
      if characterId !in catalog {
        answer := CharacterNotFound;
        return;
      }
      var character := catalog[characterId];
      sessions := sessions[user := Session(Some(characterId), Some(character), [])];
      states := states[user := Chatting];
      answer := Greeting(character.name, character.greeting);
    }

    /** The menu's change button: only the state changes. */
    method CallbackChangeCharacter(user: UserId) returns (answer: Answer)
      requires Valid()
      modifies this
      ensures Valid()
      ensures sessions == old(sessions)
      ensures states == old(states)[user := ChoosingCharacter]
      ensures answer == ChooseNewCharacter
    {
      states := states[user := ChoosingCharacter];
      answer := ChooseNewCharacter;
    }

    /** The menu's clear button: the user's history is emptied and the rest of the session
        kept; a user without a session gets none. */
    method CallbackClearHistory(user: UserId) returns (answer: Answer)
      requires Valid()
      modifies this
      ensures Valid()
      ensures user in old(sessions) ==> sessions == old(sessions)[user := old(sessions)[user].(history := [])]
      ensures user !in old(sessions) ==> sessions == old(sessions)
      ensures states == old(states)
      ensures answer == HistoryCleared
    {
      if user in sessions {
        sessions := sessions[user := sessions[user].(history := [])];
      }
      answer := HistoryCleared;
    }

    /** The info handler: the character's details and the number of stored turns, or a
        request to choose a character first. */
    method CallbackCharacterInfo(user: UserId) returns (answer: Answer)
      ensures answer.CharacterDetails? <==> HasCharacter(sessions, user)
      ensures answer.CharacterDetails? ==>
                var c := sessions[user].character.value;
                answer == CharacterDetails(c.emoji, c.name, c.description, |sessions[user].history|)
      ensures !answer.CharacterDetails? ==> answer == ChooseCharacterFirst
    {
      if user !in sessions || sessions[user].character.None? {
        answer := ChooseCharacterFirst;
        return;
      }
      var c := sessions[user].character.value;
      answer := CharacterDetails(c.emoji, c.name, c.description, |sessions[user].history|);
    }

    /** A message while chatting. Without a character nothing is sent to the provider.
        Otherwise the provider gets the character's prompt, the history window and the
        text; if the call raises the history is kept, and if it returns a value (real
        content or an apology string) the pair is remembered and the value is the reply. */
    method HandleChatMessage(user: UserId, text: string, transport: Transport)
      returns (request: Option<Request>, answer: Answer)
      requires Valid()
      modifies this
      ensures Valid()
      ensures states == old(states)
      ensures !HasCharacter(old(sessions), user) ==>
                request == None && sessions == old(sessions) && answer == StartFirst
      ensures HasCharacter(old(sessions), user) ==> request.Some?
      ensures HasCharacter(old(sessions), user) ==>
                var s := old(sessions)[user];
                var msgs := request.value.messages;
                && request.value.model == provider.model
                && request.value.maxTokens == provider.maxTokens
                && |msgs| == 2 + Min(maxHistoryLength, |s.history|)
                && msgs[0] == Turn(System, JStr(s.character.value.systemPrompt))
                && msgs[1..|msgs| - 1] == Last(s.history, maxHistoryLength)
                && msgs[|msgs| - 1] == UserTurn(text)
      ensures HasCharacter(old(sessions), user) && Respond(transport).Raise? ==>
                sessions == old(sessions) && answer == Apology
      ensures HasCharacter(old(sessions), user) && Respond(transport).Ok? ==>
                answer == Reply(Respond(transport).value)
      ensures HasCharacter(old(sessions), user) && Respond(transport).Ok? ==>
                var s := old(sessions)[user];
                sessions == old(sessions)[user := s.(history := Remember(s.history, text, Respond(transport).value, maxHistoryLength))]
    {
      if user !in sessions || sessions[user].character.None? {
        request := None;
        answer := StartFirst;
        return;
      }
      var session := sessions[user];
      var character := session.character.value;
      var sent, response := provider.GenerateResponse(character.systemPrompt, session.history, text, transport);
      request := Some(sent);
      if response.Raise? {
        answer := Apology;
        return;
      }
      StoreExchange(user, text, response.value);
      answer := Reply(response.value);
    }

    /** The history update after a returned value: the user turn and the reply are
        appended, and the list is cut to its last `2 * maxHistoryLength` turns when it
        is longer. Only this user's history changes. */
    method StoreExchange(user: UserId, text: string, reply: Json)
      requires Valid() && HasCharacter(sessions, user)
      modifies this
      ensures Valid()
      ensures states == old(states)
      ensures var s := old(sessions)[user];
              sessions == old(sessions)[user := s.(history := Remember(s.history, text, reply, maxHistoryLength))]
    {
      var session := sessions[user];
      var history := session.history + [UserTurn(text), AssistantTurn(reply)];
      if |history| > maxHistoryLength * 2 {
        history := SliceFrom(history, -(maxHistoryLength * 2));
      }
      assert history == Remember(session.history, text, reply, maxHistoryLength);
      RememberKeepsSessionValid(session, text, reply, catalog, maxHistoryLength);
      sessions := sessions[user := session.(history := history)];
    }

    /** A message while choosing a character. */
    method HandleMessageWithoutCharacter(user: UserId) returns (answer: Answer)
      ensures answer == ChooseFirst
    {
      answer := ChooseFirst;
    }

    /** One update, given to the first registered handler that accepts it: the commands
        come before the state handlers, and a message from a user without a state is not
        handled. Only a message in the chatting state can reach the provider. */
    method Dispatch(event: Event, transport: Transport) returns (request: Option<Request>, answer: Answer)
      requires Valid()
      modifies this
      ensures Valid()
      ensures request.Some? ==>
                event.TextMessage? && event.user in old(states) && old(states)[event.user] == Chatting
      ensures event.TextMessage? && event.user in old(states) && old(states)[event.user] == ChoosingCharacter ==>
                sessions == old(sessions) && states == old(states) && answer == ChooseFirst
      ensures event.TextMessage? && event.user !in old(states) ==>
                sessions == old(sessions) && states == old(states) && answer == Unanswered
      ensures event.TextMessage? && event.user in old(states) && old(states)[event.user] == Chatting ==>
                && states == old(states)
                && request.Some?
                && request.value.model == provider.model
                && request.value.maxTokens == provider.maxTokens
                && var s := old(sessions)[event.user];
                   var msgs := request.value.messages;
                   && |msgs| == 2 + Min(maxHistoryLength, |s.history|)
                   && msgs[0] == Turn(System, JStr(s.character.value.systemPrompt))
                   && msgs[1..|msgs| - 1] == Last(s.history, maxHistoryLength)
                   && msgs[|msgs| - 1] == UserTurn(event.text)
      ensures event.TextMessage? && event.user in old(states) && old(states)[event.user] == Chatting &&
              Respond(transport).Raise? ==>
                sessions == old(sessions) && answer == Apology
      ensures event.TextMessage? && event.user in old(states) && old(states)[event.user] == Chatting &&
              Respond(transport).Ok? ==>
                var s := old(sessions)[event.user];
                && answer == Reply(Respond(transport).value)
                && sessions == old(sessions)[event.user :=
                     s.(history := Remember(s.history, event.text, Respond(transport).value, maxHistoryLength))]
      ensures event.StartCommand? ==>
                && states == old(states)[event.user := ChoosingCharacter]
                && (event.user in old(sessions) ==> sessions == old(sessions))
                && (event.user !in old(sessions) ==> sessions == old(sessions)[event.user := NewSession])
      ensures event.MenuCommand? ==> sessions == old(sessions) && states == old(states) && answer == Menu
      ensures event.ChangeCommand? ==>
                sessions == old(sessions) && states == old(states)[event.user := ChoosingCharacter]
      ensures event.CallbackQuery? && RouteCallback(event.data).SelectCharacter? ==>
                var id := RouteCallback(event.data).characterId;
                && (id !in catalog ==> sessions == old(sessions) && states == old(states))
                && (id in catalog ==>
                      && sessions == old(sessions)[event.user := Session(Some(id), Some(catalog[id]), [])]
                      && states == old(states)[event.user := Chatting])
      ensures event.CallbackQuery? && RouteCallback(event.data) == ChangeCharacter ==>
                sessions == old(sessions) && states == old(states)[event.user := ChoosingCharacter]
      ensures event.CallbackQuery? && RouteCallback(event.data) == ClearHistory ==>
                && states == old(states)
                && (event.user in old(sessions) ==>
                      sessions == old(sessions)[event.user := old(sessions)[event.user].(history := [])])
                && (event.user !in old(sessions) ==> sessions == old(sessions))
      ensures event.CallbackQuery? && RouteCallback(event.data) == Unrouted ==>
                sessions == old(sessions) && states == old(states) && answer == Unanswered
      ensures event.CallbackQuery? && event.data == "char_info" ==>
                answer != ChooseCharacterFirst && !answer.CharacterDetails?
    {
      request := None;
      match event
      case StartCommand(user) =>
        answer := CmdStart(user);
      case MenuCommand(user) =>
        answer := Menu;
      case ChangeCommand(user) =>
        answer := CmdChangeCharacter(user);
      case TextMessage(user, text) =>
        if user !in states {
          answer := Unanswered;
        } else if states[user] == Chatting {
          request, answer := HandleChatMessage(user, text, transport);
        } else {
          answer := HandleMessageWithoutCharacter(user);
        }
      case CallbackQuery(user, data) =>
        match RouteCallback(data)
        case SelectCharacter(id) =>
          answer := SelectCharacter(user, id);
        case ChangeCharacter =>
          answer := CallbackChangeCharacter(user);
        case ClearHistory =>
          answer := CallbackClearHistory(user);
        case CharacterInfo =>
          answer := CallbackCharacterInfo(user);
        case Unrouted =>
          answer := Unanswered;
    }
  }

  /** The first steps of a user, as a client of the handlers sees them: a message
      before `/start` is not handled, a message while choosing reaches no provider, and
      an unknown character id is refused. */
  method ChoosingScenario()
  {
    var luna := Character("Luna", "*", "Hello", "A witch", "You are Luna");
    var bot := new ChatBot(Config("key", "mythomax", 500, 2), map["luna" := luna]);
    assert bot.provider.model == "gryphe/mythomax-l2-13b";
    assert bot.provider.maxTokens == 500 && bot.provider.apiKey == "key";

    var request, answer := bot.Dispatch(TextMessage(7, "hi"), Failed);
    assert request.None? && answer == Unanswered && bot.sessions == map[];

    request, answer := bot.Dispatch(StartCommand(7), Failed);
    assert bot.sessions == map[7 := NewSession] && bot.states == map[7 := ChoosingCharacter];

    ChoosingUserScenario(bot, 7);
  }

  /** A user who is choosing: a message reaches no provider, and a button for an id
      that is not in the table changes nothing. */
  method ChoosingUserScenario(bot: ChatBot, user: UserId)
    requires bot.Valid() && "nobody" !in bot.catalog
    requires user in bot.states && bot.states[user] == ChoosingCharacter
    modifies bot
  {
    var sessions, states := bot.sessions, bot.states;
    var request, answer := bot.Dispatch(TextMessage(user, "hi"), Failed);
    assert request.None? && answer == ChooseFirst;
    assert bot.sessions == sessions && bot.states == states;

    NotOccursWithoutFirstChar(CharPrefix, "nobody");
    CharacterButtonRoutes("nobody");
    request, answer := bot.Dispatch(CallbackQuery(user, CharacterCallback("nobody")), Failed);
    assert bot.sessions == sessions && bot.states == states;
  }

  /** A chat with one character, as a client of the handlers sees it: choosing the
      character starts an empty history, a round trip that yields `a` (such as one that
      receives `CompletionReply(a)`) is remembered with its question, and a call that
      raises leaves the history as it was. */
  method ChattingScenario(bot: ChatBot, user: UserId, id: string, transport: Transport, a: Json)
    requires bot.Valid() && id in bot.catalog
    requires Respond(transport) == Ok(a)
    modifies bot
  {
    var answer := bot.SelectCharacter(user, id);
    assert HasCharacter(bot.sessions, user) && bot.sessions[user].history == [];
    var request;
    request, answer := bot.HandleChatMessage(user, "hi", transport);
    assert answer == Reply(a);
    assert bot.sessions[user].history == Remember([], "hi", a, bot.maxHistoryLength);
    RememberAppends([], "hi", a, bot.maxHistoryLength);
    assert bot.sessions[user].history == [UserTurn("hi"), AssistantTurn(a)];
    var kept := bot.sessions[user].history;

    request, answer := bot.HandleChatMessage(user, "more", Failed);
    assert answer == Apology && bot.sessions[user].history == kept;
  }

}
