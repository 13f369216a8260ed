/** `MyAmazingBot`: the routing of Telegram updates to the services. The
    services themselves (and `BotMessageDispatherService`, which is not part of
    this model) are represented by which handler an update reaches. */
module TelegramBot {
  import opened JavaText

  /** `ChatType.chat_private` */
  const PrivateChat := "private"

  datatype Message = Message(text: JString, chatId: int, chatType: string)

  /** An update may carry no message at all (an edit, a callback, ...). */
  datatype Update = Update(message: Option<Message>)

  /** `GetChatIdService.index`, `StartService.index`, `StartService.about`,
      `BotMessageDispatherService.index`. */
  datatype Handler = GetChatId | Start | About | Dispatch

  /** `Message.hasText`: the text is there and is not empty. */
  predicate HasText(m: Message)
  {
    m.text.Some? && m.text.value != ""
  }

  predicate IsCommand(text: string)
  {
    text == "/get_chat_id" || text == "/start" || text == "/about"
  }

  /** `consume`: the handler an update reaches, if any. Something is handled
      exactly when the message has text that is a command or comes from a
      private chat. */
  function Consume(update: Update): (r: Option<Handler>)
    ensures r.Some? <==>
      update.message.Some? && HasText(update.message.value)
      && (IsCommand(update.message.value.text.value) || update.message.value.chatType == PrivateChat)
  {
    if update.message.Some? && HasText(update.message.value) then
      var text := update.message.value.text.value;
      if text == "/get_chat_id" then Some(GetChatId)
      else if text == "/start" then Some(Start)
      else if text == "/about" then Some(About)
      else if update.message.value.chatType == PrivateChat then Some(Dispatch)
      else None
    else None
  }

  /** An update without a message, or whose message has no text or empty
      text, causes nothing. */
  lemma NoTextNoAction(update: Update)
    requires update.message.None? || !HasText(update.message.value)
    ensures Consume(update) == None
  {
  }

  /** The three commands route by exact text, in any kind of chat. */
  lemma CommandsRoute(update: Update)
    ensures update.message.Some? && update.message.value.text == Some("/get_chat_id") <==> Consume(update) == Some(GetChatId)
    ensures update.message.Some? && update.message.value.text == Some("/start") <==> Consume(update) == Some(Start)
    ensures update.message.Some? && update.message.value.text == Some("/about") <==> Consume(update) == Some(About)
  {
  }

  /** Any other text reaches the dispatcher exactly when the chat is private,
      and is dropped otherwise. */
  lemma OtherTextOnlyInPrivate(update: Update)
    ensures Consume(update) == Some(Dispatch) <==>
      update.message.Some? && HasText(update.message.value)
      && !IsCommand(update.message.value.text.value) && update.message.value.chatType == PrivateChat
  {
  }

  /** `consumeGroup`: every update of the list, in order, exactly as `consume`. */
  function ConsumeGroup(updates: seq<Update>): (handled: seq<Option<Handler>>)
    ensures |handled| == |updates|
    decreases |updates|
  {
    if updates == [] then [] else [Consume(updates[0])] + ConsumeGroup(updates[1..])
  }

  lemma {:induction false} ConsumeGroupIsConsume(updates: seq<Update>)
    ensures forall i :: 0 <= i < |updates| ==> ConsumeGroup(updates)[i] == Consume(updates[i])
    decreases |updates|
  {
    if updates != [] {
      ConsumeGroupIsConsume(updates[1..]);
      assert forall i :: 1 <= i < |updates| ==> updates[1..][i - 1] == updates[i];
    }
  }

  /** Handling two lists one after the other is handling their concatenation. */
  lemma {:induction false} ConsumeGroupAppend(a: seq<Update>, b: seq<Update>)
    ensures ConsumeGroup(a + b) == ConsumeGroup(a) + ConsumeGroup(b)
    decreases |a|
  {
    if a != [] {
      assert (a + b)[1..] == a[1..] + b;
      ConsumeGroupAppend(a[1..], b);
      AppendAssocHandlers([Consume(a[0])], ConsumeGroup(a[1..]), ConsumeGroup(b));
    } else {
      assert a + b == b;
    }
  }

  lemma AppendAssocHandlers(x: seq<Option<Handler>>, y: seq<Option<Handler>>, z: seq<Option<Handler>>)
    ensures x + y + z == x + (y + z)
  {
  }
}
