/** The AI chat page (src/pages/Chat/index.tsx): the chat list, the active
    chat, its messages with the typing marker, and the selection used for bulk
    deletion. Each handler is one atomic step; what the network returned is a
    parameter, as are `Date.now()` and the locale-formatted creation time. */
module ChatPage {
  import opened Wrappers
  import opened Strings
  import opened Js
  import opened Seqs
  import opened ApiHandlers

  datatype Role = System | User | Assistant

  /** The parts of `AIChatSchema` the page uses. */
  datatype Chat = Chat(chatId: string, title: string)

  /** `UIMessage`; `isTyping` is false where the source leaves it unset. */
  datatype UIMessage = UIMessage(id: string, role: Role, text: string, isTyping: bool)

  /** `AIChatHistorySchema`: the stored messages of one chat. */
  datatype HistoryMessage = HistoryMessage(role: Role, text: string)
  datatype History = History(chatId: string, messages: seq<HistoryMessage>)

  const TypingId := "typing"
  const TypingText := "Печатает..."
  const NoAnswerText := "Извините, не удалось получить ответ"
  const SendErrorText := "Извините, произошла ошибка при отправке сообщения. Попробуйте еще раз."
  const NewChatTitle := "Новый чат"
  const UntitledChatTitle := "Чат с ИИ"

  /** `if (activeChat)`: a chat id is set and is not the empty string. */
  predicate IsSet(active: Option<string>) {
    active.Some? && active.value != []
  }

  // ------------------------------------------------------------ selection

  /** `prev.filter(id => id !== chatId)`. */
  function Unselect(selection: seq<string>, chatId: string): (r: seq<string>)
    ensures forall x :: x in r <==> x in selection && x != chatId
  {
    Filter(selection, (x: string) => x != chatId)
  }

  /** `toggleChatSelection`: removes the id when present, else appends it. */
  function Toggle(selection: seq<string>, chatId: string): (r: seq<string>)
    ensures chatId in r <==> chatId !in selection
    ensures forall x :: x != chatId ==> (x in r <==> x in selection)
    ensures chatId !in selection ==> r == selection + [chatId]
  {
    if chatId in selection then Unselect(selection, chatId) else selection + [chatId]
  }

  /** Toggling keeps the selection free of duplicates. */
  lemma ToggleNoDuplicates(selection: seq<string>, chatId: string)
    requires NoDuplicates(selection)
    ensures NoDuplicates(Toggle(selection, chatId))
  {
    if chatId in selection {
      FilterNoDuplicates(selection, (x: string) => x != chatId);
    } else {
      AppendNoDuplicates(selection, chatId);
    }
  }

  /** Toggling an id twice selects the same chats as before; an id that was
      not selected leaves the list exactly as it was. */
  lemma ToggleTwice(selection: seq<string>, chatId: string)
    requires NoDuplicates(selection)
    ensures forall x :: x in Toggle(Toggle(selection, chatId), chatId) <==> x in selection
    ensures NoDuplicates(Toggle(Toggle(selection, chatId), chatId))
    ensures chatId !in selection ==> Toggle(Toggle(selection, chatId), chatId) == selection
  {
    ToggleNoDuplicates(selection, chatId);
    ToggleNoDuplicates(Toggle(selection, chatId), chatId);
    if chatId !in selection {
      var keep := (x: string) => x != chatId;
      FilterAppend(selection, [chatId], keep);
      FilterKeepsAll(selection, keep);
      assert Filter([chatId], keep) == [];
    }
  }

  // ------------------------------------------------------------ chat list

  /** `chats.filter(chat => chat.chat_id !== chatId)`. */
  function RemoveChat(chats: seq<Chat>, chatId: string): (r: seq<Chat>)
    ensures forall c :: c in r <==> c in chats && c.chatId != chatId
  {
    Filter(chats, (c: Chat) => c.chatId != chatId)
  }

  /** `chats.filter(chat => !selectedChats.includes(chat.chat_id))`. */
  function RemoveChats(chats: seq<Chat>, ids: seq<string>): (r: seq<Chat>)
    ensures forall c :: c in r <==> c in chats && c.chatId !in ids
  {
    Filter(chats, (c: Chat) => c.chatId !in ids)
  }

  /** The active chat after the chats in `removed` are gone: unchanged when it
      was not among them, else the first remaining chat, else none. */
  function NextActive(active: Option<string>, removed: bool, remaining: seq<Chat>): (r: Option<string>)
    ensures !removed ==> r == active
    ensures removed && remaining != [] ==> r == Some(remaining[0].chatId)
    ensures removed && remaining == [] ==> r.None?
  {
    if !removed then active
    else if remaining != [] then Some(remaining[0].chatId)
    else None
  }

  /** Index `i` holds the first chat with id `chatId`. */
  predicate FirstWithId(chats: seq<Chat>, chatId: string, i: int) {
    0 <= i < |chats| && chats[i].chatId == chatId && forall j :: 0 <= j < i ==> chats[j].chatId != chatId
  }

  /** `chats.find(c => c.chat_id === chatId)`. */
  function Find(chats: seq<Chat>, chatId: string): (r: Option<Chat>)
    ensures r.None? <==> forall i :: 0 <= i < |chats| ==> chats[i].chatId != chatId
    ensures r.Some? ==>
      exists i :: FirstWithId(chats, chatId, i) && chats[i] == r.value
  {
    if chats == [] then None
    else if chats[0].chatId == chatId then Some(chats[0])
    else
      var r := Find(chats[1..], chatId);
      if r.Some? then
        ghost var i :| FirstWithId(chats[1..], chatId, i) && chats[1..][i] == r.value;
        assert chats[i + 1] == r.value;
        assert forall j :: 1 <= j < i + 1 ==> chats[j] == chats[1..][j - 1];
        assert FirstWithId(chats, chatId, i + 1);
        r
      else r
  }

  /** `getActiveChatTitle`: "Новый чат" with no active chat, else the
      active chat's title, else "Чат с ИИ" (chat not listed or title empty). */
  function ActiveTitle(active: Option<string>, chats: seq<Chat>): (title: string)
    ensures !IsSet(active) ==> title == NewChatTitle
    ensures IsSet(active) && Find(chats, active.value).Some? && Find(chats, active.value).value.title != [] ==>
      title == Find(chats, active.value).value.title
    ensures IsSet(active) && (Find(chats, active.value).None? || Find(chats, active.value).value.title == []) ==>
      title == UntitledChatTitle
    ensures title != []
  {
    if !IsSet(active) then NewChatTitle
    else
      var chat := Find(chats, active.value);
      if chat.Some? && chat.value.title != [] then chat.value.title else UntitledChatTitle
  }

  /** Once a created chat is prepended and made active, the header shows its
      title, or "Чат с ИИ" when that is empty; an empty id reads as no chat. */
  lemma CreatedChatTitle(c: Chat, chats: seq<Chat>)
    ensures ActiveTitle(Some(c.chatId), [c] + chats)
      == if c.chatId == [] then NewChatTitle else if c.title != [] then c.title else UntitledChatTitle
  {
    assert ([c] + chats)[0] == c;
  }

  // ------------------------------------------------------------ messages

  /** `loadChatHistory`'s mapping: one UI message per stored one, in order,
      with id `<chat_id>_<index>`. */
  function HistoryMessages(h: History): (ms: seq<UIMessage>)
    ensures |ms| == |h.messages|
    ensures forall i :: 0 <= i < |ms| ==>
      ms[i] == UIMessage(h.chatId + "_" + IntToString(i), h.messages[i].role, h.messages[i].text, false)
  {
    seq(|h.messages|, i requires 0 <= i < |h.messages| =>
      UIMessage(h.chatId + "_" + IntToString(i), h.messages[i].role, h.messages[i].text, false))
  }

  predicate NotTyping(m: UIMessage) {
    m.id != TypingId
  }

  /** No entry carries the typing marker's id. */
  predicate NoTypingMarker(ms: seq<UIMessage>) {
    forall i :: 0 <= i < |ms| ==> NotTyping(ms[i])
  }

  /** `prev.filter(msg => msg.id !== 'typing')`. */
  function WithoutTyping(ms: seq<UIMessage>): (r: seq<UIMessage>)
    ensures NoTypingMarker(r)
    ensures forall m :: m in r <==> m in ms && NotTyping(m)
  {
    var r := Filter(ms, NotTyping);
    assert forall i :: 0 <= i < |r| ==> r[i] in r;
    r
  }

  /** Loaded ids are distinct and never the typing marker's. */
  lemma HistoryIds(h: History)
    ensures NoTypingMarker(HistoryMessages(h))
    ensures forall i, j :: 0 <= i < j < |h.messages| ==> HistoryMessages(h)[i].id != HistoryMessages(h)[j].id
  {
    var ms := HistoryMessages(h);
    var k := |h.chatId|;
    forall i | 0 <= i < |ms|
      ensures NotTyping(ms[i])
    {
      assert ms[i].id[k] == '_';
    }
    forall i, j | 0 <= i < j < |ms|
      ensures ms[i].id != ms[j].id
    {
      assert ms[i].id[k + 1..] == NatToString(i);
      assert ms[j].id[k + 1..] == NatToString(j);
      if ms[i].id == ms[j].id {
        NatToStringInjective(i, j);
      }
    }
  }

  /** `Date.now().toString()`: a user message id is never the marker's. */
  lemma TimeIdNotTyping(n: int)
    ensures IntToString(n) != TypingId
  {
    var s := IntToString(n);
    if n >= 0 {
      assert IsDigit(s[0]);
    } else {
      assert s[0] == '-';
    }
  }

  /** The user's message, stamped `Date.now()`. */
  function UserMessage(text: string, sentAt: int): (m: UIMessage)
    ensures m.role == User && m.text == text && !m.isTyping && NotTyping(m)
  {
    TimeIdNotTyping(sentAt);
    UIMessage(IntToString(sentAt), User, text, false)
  }

  /** The marker shown while the answer is awaited. */
  function TypingMessage(): (m: UIMessage)
    ensures m.role == Assistant && m.isTyping && !NotTyping(m)
  {
    UIMessage(TypingId, Assistant, TypingText, true)
  }

  /** The assistant's entry for the outcome of `getAICompletion`: the first
      alternative's text, or a fixed apology when it is missing or empty;
      `None` (the call threw, or its body lacked `result`) gives the error
      entry. */
  function AnswerMessage(reply: Option<seq<string>>, repliedAt: int): (m: UIMessage)
    ensures m.role == Assistant && !m.isTyping && NotTyping(m) && m.text != []
    ensures reply.Some? && reply.value != [] && reply.value[0] != [] ==> m.text == reply.value[0]
    ensures reply.Some? && (reply.value == [] || reply.value[0] == []) ==> m.text == NoAnswerText
    ensures reply.None? ==> m.text == SendErrorText
  {
    match reply
    case Some(alternatives) =>
      var id := IntToString(repliedAt) + "_ai";
      assert id[|id| - 3] == '_';
      UIMessage(id, Assistant, if alternatives != [] && alternatives[0] != [] then alternatives[0] else NoAnswerText, false)
    case None =>
      var id := "error_" + IntToString(repliedAt);
      assert id[0] == 'e';
      UIMessage(id, Assistant, SendErrorText, false)
  }

  /** A finished exchange adds exactly the user's message and one answer to
      a list without markers. */
  lemma {:induction false} ExchangeAppendsTwo(ms: seq<UIMessage>, user: UIMessage, answer: UIMessage)
    requires NoTypingMarker(ms) && NotTyping(user)
    ensures WithoutTyping(ms + [user, TypingMessage()]) + [answer] == ms + [user, answer]
  {
    var head := ms + [user];
    var marker := [TypingMessage()];
    assert ms + [user, TypingMessage()] == head + marker;
    FilterAppend(head, marker, NotTyping);
    AppendKeepsNoMarker(ms, user);
    FilterKeepsAll(head, NotTyping);
    assert Filter(marker, NotTyping) == [] by {
      assert marker[1..] == [];
    }
    assert Filter(head + marker, NotTyping) == head;
  }

  /** Appending a message that is not the marker keeps a list free of markers. */
  lemma AppendKeepsNoMarker(ms: seq<UIMessage>, m: UIMessage)
    requires NoTypingMarker(ms) && NotTyping(m)
    ensures forall i :: 0 <= i < |ms + [m]| ==> NotTyping((ms + [m])[i])
  {
    forall i | 0 <= i < |ms + [m]|
      ensures NotTyping((ms + [m])[i])
    {
      if i < |ms| { assert (ms + [m])[i] == ms[i]; }
    }
  }

  // ------------------------------------------------------------ the page

  class ChatPage {
    var chats: seq<Chat>
    var activeChat: Option<string>
    var messages: seq<UIMessage>
    var inputMessage: string
    var sendingMessage: bool
    var creatingChat: bool
    var selectedChats: seq<string>
    var bulkMode: bool
    var sidebarOpen: bool
    var searchQuery: string

    /** The selection has no repeats, and outside a send no typing marker is
        left in the conversation. */
    predicate Valid()
      reads this
    {
      NoDuplicates(selectedChats) && (!sendingMessage ==> NoTypingMarker(messages))
    }

    constructor ()
      ensures chats == [] && activeChat.None? && messages == [] && inputMessage == []
      ensures !sendingMessage && !creatingChat && selectedChats == [] && !bulkMode
      ensures !sidebarOpen && searchQuery == []
      ensures Valid()
    {
      chats, activeChat, messages, inputMessage := [], None, [], [];
      sendingMessage, creatingChat, selectedChats, bulkMode := false, false, [], false;
      sidebarOpen, searchQuery := false, [];
    }

    /** `toggleBulkMode`. */
    method ToggleBulkMode()
      requires Valid()
      modifies this
      ensures Valid()
      ensures bulkMode == !old(bulkMode) && selectedChats == []
      ensures chats == old(chats) && activeChat == old(activeChat) && messages == old(messages)
      ensures inputMessage == old(inputMessage) && sendingMessage == old(sendingMessage)
      ensures creatingChat == old(creatingChat) && sidebarOpen == old(sidebarOpen) && searchQuery == old(searchQuery)
    {
      bulkMode := !bulkMode;
      selectedChats := [];
    }

    /** `toggleChatSelection`. */
    method ToggleChatSelection(chatId: string)
      requires Valid()
      modifies this
      ensures Valid()
      ensures selectedChats == Toggle(old(selectedChats), chatId)
      ensures chats == old(chats) && activeChat == old(activeChat) && messages == old(messages)
      ensures inputMessage == old(inputMessage) && sendingMessage == old(sendingMessage) && bulkMode == old(bulkMode)
      ensures creatingChat == old(creatingChat) && sidebarOpen == old(sidebarOpen) && searchQuery == old(searchQuery)
    {
      ToggleNoDuplicates(selectedChats, chatId);
      selectedChats := Toggle(selectedChats, chatId);
    }

    /** `loadChatHistory` with what `getChatHistory` returned (`None`: it
        threw): the mapped history, or an empty conversation. */
    method LoadChatHistory(history: Option<History>)
      requires Valid()
      modifies this
      ensures Valid()
      ensures history.Some? ==> messages == HistoryMessages(history.value)
      ensures history.None? ==> messages == []
      ensures chats == old(chats) && activeChat == old(activeChat) && selectedChats == old(selectedChats)
      ensures inputMessage == old(inputMessage) && sendingMessage == old(sendingMessage) && bulkMode == old(bulkMode)
      ensures creatingChat == old(creatingChat) && sidebarOpen == old(sidebarOpen) && searchQuery == old(searchQuery)
    {
      if history.Some? {
        HistoryIds(history.value);
        messages := HistoryMessages(history.value);
      } else {
        messages := [];
      }
    }

    /** `handleChatClick`: in bulk mode a click toggles the chat's selection;
        otherwise it opens the chat (`handleChatSelect`) and loads its
        history. */
    method HandleChatClick(chatId: string, history: Option<History>)
      requires Valid()
      modifies this
      ensures Valid()
      ensures old(bulkMode) ==>
        && selectedChats == Toggle(old(selectedChats), chatId)
        && activeChat == old(activeChat) && messages == old(messages) && sidebarOpen == old(sidebarOpen)
      ensures !old(bulkMode) ==>
        && selectedChats == old(selectedChats) && activeChat == Some(chatId) && !sidebarOpen
        && messages == (if history.Some? then HistoryMessages(history.value) else [])
      ensures chats == old(chats) && inputMessage == old(inputMessage) && sendingMessage == old(sendingMessage)
      ensures bulkMode == old(bulkMode) && creatingChat == old(creatingChat) && searchQuery == old(searchQuery)
    {
      if bulkMode {
        ToggleChatSelection(chatId);
      } else {
        activeChat := Some(chatId);
        sidebarOpen := false;
        LoadChatHistory(history);
      }
    }

    /** `handleCreateChat`, with the chat `createChat` returned (`None`: it
        threw) and the locale text of the current time. Returns the title
        requested, or `None` when a creation is already under way. */
    method HandleCreateChat(isAutoCreate: bool, created: Option<Chat>, localeNow: string) returns (requested: Option<string>)
      requires Valid()
      modifies this
      ensures Valid()
      ensures old(creatingChat) ==>
        && requested.None? && chats == old(chats) && activeChat == old(activeChat)
        && messages == old(messages) && sidebarOpen == old(sidebarOpen) && searchQuery == old(searchQuery)
        && creatingChat
      ensures !old(creatingChat) ==>
        && requested == Some(if isAutoCreate then NewChatTitle else "Чат " + localeNow)
        && !creatingChat
      ensures !old(creatingChat) && created.Some? ==>
        && chats == [created.value] + old(chats) && activeChat == Some(created.value.chatId)
        && messages == [] && !sidebarOpen
        && searchQuery == (if isAutoCreate then old(searchQuery) else [])
      ensures !old(creatingChat) && created.None? ==>
        chats == old(chats) && activeChat == old(activeChat) && messages == old(messages)
        && sidebarOpen == old(sidebarOpen) && searchQuery == old(searchQuery)
      ensures selectedChats == old(selectedChats) && bulkMode == old(bulkMode)
      ensures inputMessage == old(inputMessage) && sendingMessage == old(sendingMessage)
    {
      if creatingChat {
        requested := None;
        return;
      }
      creatingChat := true;
      var title := if isAutoCreate then NewChatTitle else "Чат " + localeNow;
      requested := Some(title);
      if created.Some? {
        var newChat := created.value;
        chats := [newChat] + chats;
        activeChat := Some(newChat.chatId);
        messages := [];
        sidebarOpen := false;
        if !isAutoCreate {
          searchQuery := [];
        }
      }
      creatingChat := false;
    }

    /** `handleDeleteChat` with what `deleteChat` settled to. On a truthy
        `success` the chat leaves the list; if it was the active one the first
        remaining chat becomes active (its messages are not reloaded), or,
        with none left, nothing is active and the conversation is emptied. */
    method HandleDeleteChat(chatId: string, result: Result<JsValue, Thrown>)
      requires Valid()
      modifies this
      ensures Valid()
      ensures var ok := result.Success? && !Nullish(result.value) && Truthy(Field(result.value, "success"));
        && (ok ==>
              && chats == RemoveChat(old(chats), chatId)
              && activeChat == NextActive(old(activeChat), old(activeChat) == Some(chatId), chats)
              && messages == (if old(activeChat) == Some(chatId) && chats == [] then [] else old(messages)))
        && (!ok ==> chats == old(chats) && activeChat == old(activeChat) && messages == old(messages))
      ensures activeChat != Some(chatId) || old(activeChat) == activeChat
      ensures selectedChats == old(selectedChats) && bulkMode == old(bulkMode) && sidebarOpen == old(sidebarOpen)
      ensures inputMessage == old(inputMessage) && sendingMessage == old(sendingMessage)
      ensures creatingChat == old(creatingChat) && searchQuery == old(searchQuery)
    {
      if result.Success? && !Nullish(result.value) && Truthy(Field(result.value, "success")) {
        var remaining := RemoveChat(chats, chatId);
        chats := remaining;
        if activeChat == Some(chatId) {
          if |remaining| > 0 {
            assert remaining[0] in remaining;
            activeChat := Some(remaining[0].chatId);
          } else {
            activeChat := None;
            messages := [];
          }
        }
      }
    }

    /** `handleBulkDelete`; `allDeleted` says whether every `deleteChat`
        call resolved (what they resolved to is not looked at). */
    method HandleBulkDelete(allDeleted: bool)
      requires Valid()
      modifies this
      ensures Valid()
      ensures old(selectedChats) == [] || !allDeleted ==>
        chats == old(chats) && activeChat == old(activeChat) && messages == old(messages)
        && selectedChats == old(selectedChats) && bulkMode == old(bulkMode)
      ensures old(selectedChats) != [] && allDeleted ==>
        && chats == RemoveChats(old(chats), old(selectedChats))
        && activeChat == NextActive(old(activeChat), IsSet(old(activeChat)) && old(activeChat).value in old(selectedChats), chats)
        && messages == (if IsSet(old(activeChat)) && old(activeChat).value in old(selectedChats) && chats == [] then [] else old(messages))
        && selectedChats == [] && !bulkMode
      ensures inputMessage == old(inputMessage) && sendingMessage == old(sendingMessage) && sidebarOpen == old(sidebarOpen)
      ensures creatingChat == old(creatingChat) && searchQuery == old(searchQuery)
    {
      if |selectedChats| == 0 || !allDeleted {
        return;
      }
      var remaining := RemoveChats(chats, selectedChats);
      chats := remaining;
      if IsSet(activeChat) && activeChat.value in selectedChats {
        if |remaining| > 0 {
          activeChat := Some(remaining[0].chatId);
        } else {
          activeChat := None;
          messages := [];
        }
      }
      selectedChats := [];
      bulkMode := false;
    }

    /** The first half of `sendMessageToChat`: the user's message and then the
        typing marker are appended, the input is cleared and sending starts. */
    method BeginSend(text: string, sentAt: int)
      requires Valid()
      modifies this
      ensures Valid()
      ensures messages == old(messages) + [UserMessage(text, sentAt), TypingMessage()]
      ensures inputMessage == [] && sendingMessage
      ensures chats == old(chats) && activeChat == old(activeChat) && selectedChats == old(selectedChats)
      ensures bulkMode == old(bulkMode) && creatingChat == old(creatingChat)
      ensures sidebarOpen == old(sidebarOpen) && searchQuery == old(searchQuery)
    {
      messages := messages + [UserMessage(text, sentAt)];
      inputMessage := [];
      sendingMessage := true;
      messages := messages + [TypingMessage()];
    }

    /** The second half: every typing marker is dropped and the one answer
        entry appended; sending ends. */
    method FinishSend(reply: Option<seq<string>>, repliedAt: int)
      requires NoDuplicates(selectedChats)
      modifies this
      ensures Valid()
      ensures messages == WithoutTyping(old(messages)) + [AnswerMessage(reply, repliedAt)]
      ensures !sendingMessage
      ensures chats == old(chats) && activeChat == old(activeChat) && selectedChats == old(selectedChats)
      ensures inputMessage == old(inputMessage) && bulkMode == old(bulkMode) && creatingChat == old(creatingChat)
      ensures sidebarOpen == old(sidebarOpen) && searchQuery == old(searchQuery)
    {
      var answer := AnswerMessage(reply, repliedAt);
      messages := WithoutTyping(messages) + [answer];
      sendingMessage := false;
    }

    /** `sendMessageToChat` as one step: from a settled conversation it ends
        with exactly the user's message and one answer added. */
    method SendMessageToChat(text: string, sentAt: int, reply: Option<seq<string>>, repliedAt: int)
      requires Valid() && !sendingMessage
      modifies this
      ensures Valid()
      ensures messages == old(messages) + [UserMessage(text, sentAt), AnswerMessage(reply, repliedAt)]
      ensures inputMessage == [] && !sendingMessage
      ensures chats == old(chats) && activeChat == old(activeChat) && selectedChats == old(selectedChats)
      ensures bulkMode == old(bulkMode) && creatingChat == old(creatingChat)
      ensures sidebarOpen == old(sidebarOpen) && searchQuery == old(searchQuery)
    {
      ExchangeAppendsTwo(messages, UserMessage(text, sentAt), AnswerMessage(reply, repliedAt));
      BeginSend(text, sentAt);
      FinishSend(reply, repliedAt);
    }

    /** `setChats(prev => [newChat, ...prev])` and `setActiveChat` for a chat
        created to hold the first message. */
    method OpenCreatedChat(newChat: Chat)
      requires Valid()
      modifies this
      ensures Valid()
      ensures chats == [newChat] + old(chats) && activeChat == Some(newChat.chatId)
      ensures newChat.chatId != [] ==>
        ActiveTitle(activeChat, chats) == if newChat.title != [] then newChat.title else UntitledChatTitle
      ensures messages == old(messages) && inputMessage == old(inputMessage) && sendingMessage == old(sendingMessage)
      ensures selectedChats == old(selectedChats) && bulkMode == old(bulkMode) && creatingChat == old(creatingChat)
      ensures sidebarOpen == old(sidebarOpen) && searchQuery == old(searchQuery)
    {
      chats := [newChat] + chats;
      activeChat := Some(newChat.chatId);
      CreatedChatTitle(newChat, old(chats));
    }

    /** `handleSendMessage`. Nothing happens for blank input or while a send
        is running. Without an active chat one is created first (`created`,
        `None` when `createChat` threw, which ends the attempt). Returns the
        chat and the trimmed text sent. */
    method HandleSendMessage(created: Option<Chat>, sentAt: int, reply: Option<seq<string>>, repliedAt: int)
      returns (sent: Option<(string, string)>)
      requires Valid()
      modifies this
      ensures Valid()
      ensures Trim(old(inputMessage)) == [] || old(sendingMessage) ==>
        sent.None? && messages == old(messages) && chats == old(chats) && activeChat == old(activeChat)
        && inputMessage == old(inputMessage) && sendingMessage == old(sendingMessage)
      ensures Trim(old(inputMessage)) != [] && !old(sendingMessage) && IsSet(old(activeChat)) ==>
        && sent == Some((old(activeChat).value, Trim(old(inputMessage))))
        && chats == old(chats) && activeChat == old(activeChat)
      ensures Trim(old(inputMessage)) != [] && !old(sendingMessage) && !IsSet(old(activeChat)) && created.Some? ==>
        && sent == Some((created.value.chatId, Trim(old(inputMessage))))
        && chats == [created.value] + old(chats) && activeChat == Some(created.value.chatId)
      ensures Trim(old(inputMessage)) != [] && !old(sendingMessage) && !IsSet(old(activeChat)) && created.None? ==>
        sent.None? && messages == old(messages) && chats == old(chats) && activeChat == old(activeChat)
        && inputMessage == old(inputMessage) && !sendingMessage
      ensures sent.Some? ==>
        messages == old(messages) + [UserMessage(sent.value.1, sentAt), AnswerMessage(reply, repliedAt)]
        && inputMessage == [] && !sendingMessage
      ensures selectedChats == old(selectedChats) && bulkMode == old(bulkMode) && creatingChat == old(creatingChat)
      ensures sidebarOpen == old(sidebarOpen) && searchQuery == old(searchQuery)
    {
      var text := Trim(inputMessage);
      if text == [] || sendingMessage {
        sent := None;
        return;
      }
      if !IsSet(activeChat) {
        sendingMessage := true;
        if created.None? {
          sendingMessage := false;
          sent := None;
          return;
        }
        var newChat := created.value;
        sendingMessage := false;
        OpenCreatedChat(newChat);
        SendMessageToChat(text, sentAt, reply, repliedAt);
        sent := Some((newChat.chatId, text));
      } else {
        SendMessageToChat(text, sentAt, reply, repliedAt);
        sent := Some((activeChat.value, text));
      }
    }
  }
}
