/** Media replies and the buttons under them: `/image`, `/prodia` and
    `/speak` produce a picture or a speech clip with a regenerate button and
    a delete button; the regenerate button files a pending action under a
    fresh token, and pressing it looks the token up and produces the same
    kind of media again. Also the delete button's callback and the default
    text chat, whose only effect on the store is to overwrite the history. */
module Media {
  import opened Wrappers
  import opened Models
  import opened Db
  import opened Gate
  import Payload
  import Filters
  import Text

  /** The provider name a pending action records for each kind of media. */
  function ProviderTag(kind: MediaKind): string
  {
    match kind
    case DefaultImage => "default"
    case ProdiaImage => "prodia"
    case Speech => "speech"
  }

  /** The kind of media a recorded provider name asks for, if any. */
  function KindOfTag(tag: string): (r: Option<MediaKind>)
    ensures r.Some? <==> tag == "default" || tag == "prodia" || tag == "speech"
    ensures r.Some? ==> ProviderTag(r.value) == tag
  {
    if tag == "prodia" then Some(ProdiaImage)
    else if tag == "default" then Some(DefaultImage)
    else if tag == "speech" then Some(Speech)
    else None
  }

  /** Every kind is recovered from the name it records. */
  lemma KindOfProviderTag(kind: MediaKind)
    ensures KindOfTag(ProviderTag(kind)) == Some(kind)
  {
  }

  /** The caption under the media: the prompt, marked with the image provider. */
  function Caption(kind: MediaKind, prompt: string): (c: string)
    ensures prompt <= c
    ensures kind == Speech <==> c == prompt
    ensures kind != Speech ==> c == prompt + " (" + ProviderTag(kind) + ")"
  {
    match kind
    case DefaultImage => prompt + " (default)"
    case ProdiaImage => prompt + " (prodia)"
    case Speech => prompt
  }

  /** `make_regenerate_and_delete_markup`: file the pending action under the
      fresh token and return the two button payloads. */
  method MakeRegenerateAndDeleteMarkup(s: Store, userId: string, chatId: int, messageId: int,
                                       provider: string, prompt: string, token: string)
    returns (regenerate: string, delete: string)
    requires s.Valid() && token !in s.temps
    modifies s
    ensures s.Valid() && s.chats == old(s.chats)
    ensures s.temps == old(s.temps)[token := Temp(token, provider, prompt)]
    ensures regenerate == Payload.MediaPayload(userId, token)
    ensures delete == Payload.DeletePayload(chatId, messageId)
  {
    s.AddTemp(Temp(token, provider, prompt));
    regenerate := Payload.MediaPayload(userId, token);
    delete := Payload.DeletePayload(chatId, messageId);
  }

  /** What `text_to_image_default`, `text_to_image_prodia` or
      `text_to_speech` does for `prompt` on message `m` whose sender is
      `sender`, given whether the generator delivered (`generated`). Speech
      looks the sender's record up first, for its voice. */
  function MediaOutcome(cfg: Config, chats: map<int, Chat>, kind: MediaKind, m: Message, sender: IdValue,
                        prompt: string, token: string, generated: bool): BodyOutcome
  {
    if kind == Speech && KeyOf(sender).Err? then Threw([], KeyOf(sender).error)
    else if !generated then Threw([], Failed)
    else
      var performer :=
        if kind == Speech then Some(WithRecord(cfg, chats, KeyOf(sender).value)[KeyOf(sender).value].voice)
        else None;
      Completed([Send(Media(kind, Caption(kind, prompt), performer,
                            Payload.MediaPayload(IdText(sender), token),
                            Payload.DeletePayload(m.chatId, m.messageId)))])
  }

  /** The buttons under produced media lead back: the regenerate payload to
      the sender and the token, the delete payload to the message's ids; a
      speech clip is voiced with the sender's stored voice. */
  lemma MediaButtonsRoundTrip(cfg: Config, chats: map<int, Chat>, kind: MediaKind, m: Message, sender: IdValue,
                              prompt: string, token: string, generated: bool)
    requires ':' !in IdText(sender) && ':' !in token
    requires MediaOutcome(cfg, chats, kind, m, sender, prompt, token, generated).Completed?
    ensures var acts := MediaOutcome(cfg, chats, kind, m, sender, prompt, token, generated).actions;
            && |acts| == 1 && acts[0].Send? && acts[0].reply.Media?
            && Payload.Unpack3(acts[0].reply.regenerate) == Ok(("media", IdText(sender), token))
            && Payload.Unpack3(acts[0].reply.delete)
               == Ok(("delete", Text.IntToDecimal(m.chatId), Text.IntToDecimal(m.messageId)))
            && (kind == Speech <==> acts[0].reply.performer.Some?)
            && (kind == Speech && KeyOf(sender).value in chats ==>
                  acts[0].reply.performer == Some(chats[KeyOf(sender).value].voice))
  {
    Payload.MediaRoundTrip(IdText(sender), token);
    Payload.DeleteRoundTrip(m.chatId, m.messageId);
  }

  /** The shared media body: generate, then attach the buttons. A failure
      leaves no pending action behind. */
  method ProduceMedia(s: Store, kind: MediaKind, m: Message, sender: IdValue, prompt: string,
                      token: string, generated: bool)
    returns (out: BodyOutcome)
    requires s.Valid() && token !in s.temps
    modifies s
    ensures s.Valid()
    ensures out == MediaOutcome(s.cfg, old(s.chats), kind, m, sender, prompt, token, generated)
    ensures kind == Speech && KeyOf(sender).Ok? ==> s.chats == WithRecord(s.cfg, old(s.chats), KeyOf(sender).value)
    ensures !(kind == Speech && KeyOf(sender).Ok?) ==> s.chats == old(s.chats)
    ensures out.Completed? ==> s.temps == old(s.temps)[token := Temp(token, ProviderTag(kind), prompt)]
    ensures out.Threw? ==> s.temps == old(s.temps)
  {
    var performer: Option<string> := None;
    if kind == Speech {
      var r := s.GetOrCreate(Some(sender), None);
      if r.Err? {
        return Threw([], r.error);
      }
      performer := Some(r.value.voice);
    }
    if !generated {
      return Threw([], Failed);
    }
    var regenerate, delete :=
      MakeRegenerateAndDeleteMarkup(s, IdText(sender), m.chatId, m.messageId, ProviderTag(kind), prompt, token);
    out := Completed([Send(Media(kind, Caption(kind, prompt), performer, regenerate, delete))]);
  }

  /** `handler_formatter(text=True)`, the wrapper of the media commands. */
  const MediaFlags := Flags(true, false)

  /** The media command's body, given the argument the wrapper hands it. */
  function CommandBody(cfg: Config, chats: map<int, Chat>, kind: MediaKind, m: Message,
                       token: string, generated: bool, arg: Option<string>): BodyOutcome
  {
    match arg
    case None => Threw([], TypeError)
    case Some(prompt) => MediaOutcome(cfg, chats, kind, m, IntId(m.fromId), prompt, token, generated)
  }

  /** `text_to_image_default_handler`, `text_to_image_prodia_handler` and
      `text_to_speech_handler`, behind the active filter: the prompt is the
      command's argument, which must not be empty. */
  method MediaCommand(s: Store, kind: MediaKind, m: Message, token: string, generated: bool)
    returns (ran: bool, acts: seq<Action>)
    requires s.Valid() && token !in s.temps
    modifies s
    ensures s.Valid()
    ensures ran == ActiveOrNew(old(s.chats), m.fromId)
    ensures s.chats == WithRecord(s.cfg, old(s.chats), m.fromId)
    ensures !ran ==> acts == [] && s.temps == old(s.temps)
    ensures var pre := WithRecord(s.cfg, old(s.chats), m.fromId);
            var run := Run(MediaFlags, m.text, a => CommandBody(s.cfg, pre, kind, m, token, generated, a));
            && (ran ==> acts == run.actions)
            && (ran && run.invoked && CommandBody(s.cfg, pre, kind, m, token, generated, run.argument).Completed? ==>
                  s.temps == old(s.temps)[token := Temp(token, ProviderTag(kind), run.argument.value)])
            && (!(ran && run.invoked && CommandBody(s.cfg, pre, kind, m, token, generated, run.argument).Completed?) ==>
                  s.temps == old(s.temps))
  {
    ran := Filters.IsActive(s, Filters.FromMessage(m));
    if !ran {
      return false, [];
    }
    var prompt := Text.ExtractArguments(m.text);
    if Blank(prompt) {
      return true, [Send(TextIsRequired)];
    }
    var out := ProduceMedia(s, kind, m, IntId(m.fromId), prompt.value, token, generated);
    match out
    case Completed(a) => acts := a;
    case Threw(before, _) => acts := before + [Send(GenericError)];
  }

  // -----------------------------------------------------------------------
  // the regenerate callback

  /** Splitting a regenerate payload and looking its token up: the user id
      and the pending action, if it is still there. */
  function Regeneration(temps: map<string, Temp>, data: string): (r: Result<(string, Option<Temp>), Error>)
    ensures r.Err? <==> Payload.Unpack3(data).Err?
    ensures r.Ok? ==> r.value.0 == Payload.Unpack3(data).value.1
    ensures r.Ok? ==> (r.value.1.Some? <==> Payload.Unpack3(data).value.2 in temps)
  {
    match Payload.Unpack3(data)
    case Err(e) => Err(e)
    case Ok((_, userId, token)) => Ok((userId, if token in temps then Some(temps[token]) else None))
  }

  /** A regenerate button finds the user and the pending action it was made with. */
  lemma RegenerateRoundTrip(temps: map<string, Temp>, userId: string, token: string, provider: string, prompt: string)
    requires ':' !in userId && ':' !in token
    ensures Regeneration(temps[token := Temp(token, provider, prompt)], Payload.MediaPayload(userId, token))
            == Ok((userId, Some(Temp(token, provider, prompt))))
  {
    Payload.MediaRoundTrip(userId, token);
  }

  /** What `media_regeneration_callback_handler` does. It is not wrapped by
      `handler_formatter`, so an error is raised to the caller. */
  function RegenerateOutcome(cfg: Config, chats: map<int, Chat>, temps: map<string, Temp>, call: CallbackQuery,
                             token: string, generated: bool): BodyOutcome
  {
    match Regeneration(temps, call.data)
    case Err(e) => Threw([], e)
    case Ok((_, None)) => Completed([Send(CacheCleared)])
    case Ok((userId, Some(t))) =>
      match KindOfTag(t.provider)
      case None => Completed([])
      case Some(kind) => MediaOutcome(cfg, chats, kind, call.message, TextId(userId), t.prompt, token, generated)
  }

  /** Pressing a regenerate button whose pending action is still filed
      produces the same kind of media from the same prompt, for the user
      the button was made for. */
  lemma RegeneratePressed(cfg: Config, chats: map<int, Chat>, temps: map<string, Temp>, call: CallbackQuery,
                          kind: MediaKind, userId: string, old_token: string, prompt: string,
                          token: string, generated: bool)
    requires ':' !in userId && ':' !in old_token
    requires call.data == Payload.MediaPayload(userId, old_token)
    requires old_token in temps && temps[old_token] == Temp(old_token, ProviderTag(kind), prompt)
    ensures RegenerateOutcome(cfg, chats, temps, call, token, generated)
            == MediaOutcome(cfg, chats, kind, call.message, TextId(userId), prompt, token, generated)
  {
    RegenerateRoundTrip(temps, userId, old_token, ProviderTag(kind), prompt);
    assert temps[old_token := Temp(old_token, ProviderTag(kind), prompt)] == temps;
    KindOfProviderTag(kind);
  }

  /** A regenerate button whose pending action was cleared gets exactly one
      "cache cleared" reply. */
  lemma UnknownTokenClears(cfg: Config, chats: map<int, Chat>, temps: map<string, Temp>, call: CallbackQuery,
                           userId: string, old_token: string, token: string, generated: bool)
    requires ':' !in userId && ':' !in old_token
    requires call.data == Payload.MediaPayload(userId, old_token) && old_token !in temps
    ensures RegenerateOutcome(cfg, chats, temps, call, token, generated) == Completed([Send(CacheCleared)])
  {
    Payload.MediaRoundTrip(userId, old_token);
  }

  /** A pending action whose provider is none of the three produces nothing. */
  lemma UnknownProviderIgnored(cfg: Config, chats: map<int, Chat>, temps: map<string, Temp>, call: CallbackQuery,
                               token: string, generated: bool)
    requires Regeneration(temps, call.data).Ok? && Regeneration(temps, call.data).value.1.Some?
    requires var p := Regeneration(temps, call.data).value.1.value.provider;
             p != "default" && p != "prodia" && p != "speech"
    ensures RegenerateOutcome(cfg, chats, temps, call, token, generated) == Completed([])
  {
  }

  /** `media_regeneration_callback_handler`: the pending action is read, not
      removed, so the same button can be pressed again. */
  method MediaCallback(s: Store, call: CallbackQuery, token: string, generated: bool)
    returns (out: BodyOutcome)
    requires s.Valid() && token !in s.temps
    modifies s
    ensures s.Valid()
    ensures out == RegenerateOutcome(s.cfg, old(s.chats), old(s.temps), call, token, generated)
    ensures forall t :: t in old(s.temps) ==> t in s.temps && s.temps[t] == old(s.temps)[t]
    ensures var found := Regeneration(old(s.temps), call.data);
            var redo := found.Ok? && found.value.1.Some? && KindOfTag(found.value.1.value.provider).Some?;
            && (redo && out.Completed? ==>
                  s.temps == old(s.temps)[token := Temp(token, found.value.1.value.provider, found.value.1.value.prompt)])
            && (!(redo && out.Completed?) ==> s.temps == old(s.temps))
            && (redo && KindOfTag(found.value.1.value.provider) == Some(Speech) && KeyOf(TextId(found.value.0)).Ok? ==>
                  s.chats == WithRecord(s.cfg, old(s.chats), KeyOf(TextId(found.value.0)).value))
            && (!(redo && KindOfTag(found.value.1.value.provider) == Some(Speech) && KeyOf(TextId(found.value.0)).Ok?) ==>
                  s.chats == old(s.chats))
  {
    var fields := Payload.Unpack3(call.data);
    if fields.Err? {
      return Threw([], fields.error);
    }
    var (_, userId, uuid) := fields.value;
    var temp := s.FindTemp(uuid);
    if temp.None? {
      return Completed([Send(CacheCleared)]);
    }
    var kind := KindOfTag(temp.value.provider);
    if kind.None? {
      return Completed([]);
    }
    out := ProduceMedia(s, kind.value, call.message, TextId(userId), temp.value.prompt, token, generated);
  }

  // -----------------------------------------------------------------------
  // the delete callback

  /** `delete_callback_handler`: delete the message the payload names, then
      the message carrying the button; a failed deletion is ignored. */
  function DeleteCallback(call: CallbackQuery): (r: BodyOutcome)
    ensures r.Completed? <==> |Text.Split(call.data, ':')| == 3
    ensures r.Threw? ==> r.before == [] && r.error == UnpackMismatch
    ensures r.Completed? ==> |r.actions| == 2 && r.actions[0].DeleteMessage?
                             && r.actions[1] == Payload.DeleteOf(call.message)
                             && Text.Join([Payload.Tag(call.data), r.actions[0].chatId, r.actions[0].messageId], ':')
                                == call.data
  {
    match Payload.Unpack3(call.data)
    case Err(e) => Threw([], e)
    case Ok((_, chatId, messageId)) => Completed([DeleteMessage(chatId, messageId), Payload.DeleteOf(call.message)])
  }

  /** A delete button deletes the message it was made for, and itself. */
  lemma DeleteButtonRoundTrip(chatId: int, messageId: int, carrier: Message)
    ensures DeleteCallback(CallbackQuery(Payload.DeletePayload(chatId, messageId), carrier))
            == Completed([DeleteMessage(Text.IntToDecimal(chatId), Text.IntToDecimal(messageId)),
                          Payload.DeleteOf(carrier)])
  {
    Payload.DeleteRoundTrip(chatId, messageId);
  }

  // -----------------------------------------------------------------------
  // the text chat

  /** `handler_formatter(preserve=True)`, the wrapper of the text chat. */
  const ChatFlags := Flags(false, true)

  /** The prompt: the argument when the text is a command with a non-empty
      name, otherwise the whole text. */
  function ChatPrompt(text: Option<string>): (p: string)
    requires text.Some?
    ensures |p| <= |text.value|
    ensures var c := Text.ExtractCommand(text);
            && (c.Some? && c.value != "" ==> Text.ExtractArguments(text) == Some(p))
            && (!(c.Some? && c.value != "") ==> p == text.value)
  {
    var command := Text.ExtractCommand(text);
    if command.Some? && command.value != "" then Text.ExtractArguments(text).value else text.value
  }

  /** The chat body: the provider's reply and the conversation's new
      history, as `respond` gives them for the record and the prompt, or a
      failure of the provider. */
  function ChatBody(c: Chat, respond: (Chat, string) -> Option<(string, string)>, arg: Option<string>): BodyOutcome
  {
    if arg.None? then Threw([], TypeError)
    else match respond(c, ChatPrompt(arg))
      case None => Threw([], Failed)
      case Some((reply, _)) => Completed([Send(ChatResponse(reply))])
  }

  /** `text_chat`, behind the active and chat-command filters: a successful
      reply overwrites the record's history and changes nothing else. */
  method TextChat(s: Store, m: Message, respond: (Chat, string) -> Option<(string, string)>)
    returns (ran: bool, acts: seq<Action>)
    requires s.Valid() && m.text.Some?
    modifies s
    ensures s.Valid() && s.temps == old(s.temps)
    ensures ran <==> ActiveOrNew(old(s.chats), m.fromId) && Filters.IsChatCommand(m.text)
    ensures !ran ==> acts == [] && s.chats == WithRecord(s.cfg, old(s.chats), m.fromId)
    ensures var c := WithRecord(s.cfg, old(s.chats), m.fromId)[m.fromId];
            && (ran ==> acts == Run(ChatFlags, m.text, a => ChatBody(c, respond, a)).actions)
            && (ran && respond(c, ChatPrompt(m.text)).None? ==> s.chats == WithRecord(s.cfg, old(s.chats), m.fromId))
            && (ran && respond(c, ChatPrompt(m.text)).Some? ==>
                  s.chats == Upsert(s.cfg, old(s.chats), m.fromId, SetHistory(respond(c, ChatPrompt(m.text)).value.1)))
  {
    ran := Filters.IsActive(s, Filters.FromMessage(m));
    if !ran || !Filters.IsChatCommand(m.text) {
      return false, [];
    }
    var r := s.GetOrCreate(Some(IntId(m.fromId)), None);
    var answer := respond(r.value, ChatPrompt(m.text));
    if answer.None? {
      return true, [Send(GenericError)];
    }
    s.Update(r.value.id, SetHistory(answer.value.1));
    acts := [Send(ChatResponse(answer.value.0))];
  }
}
