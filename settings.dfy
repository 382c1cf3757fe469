/** The handlers that change one setting of the caller's record: `/intro`,
    and the three pickers `/voice`, `/provider` and `/awesome` with the
    callbacks their buttons reach. Each value is validated before it is
    stored; a picker command without a valid argument shows the picker
    instead of storing anything. */
module Settings {
  import opened Wrappers
  import opened Models
  import opened Db
  import opened Gate
  import Payload
  import Filters
  import Text

  /** `handler_formatter(text=True)`, the wrapper of `/intro`. */
  const IntroFlags := Flags(true, false)

  /** `handler_formatter(text=False, preserve=True)`, the wrapper of the pickers. */
  const PickerFlags := Flags(false, true)

  // -----------------------------------------------------------------------
  // /intro

  /** `awesome_prompts_dict.get(arg, arg)`: an awesome-prompt name stands for its prompt. */
  function IntroText(cfg: Config, arg: string): string
  {
    if arg in cfg.awesome then cfg.awesome[arg] else arg
  }

  /** What the `/intro` handler replies, given the argument it is handed. */
  function IntroBody(cfg: Config, arg: Option<string>): BodyOutcome
  {
    match arg
    case None => Threw([], TypeError)
    case Some(a) =>
      if |IntroText(cfg, a)| > 10 then Completed([Send(IntroSet)]) else Completed([Send(IntroTooShort)])
  }

  /** The intro `/intro` stores, if it stores one. */
  function IntroToStore(cfg: Config, text: Option<string>): (r: Option<string>)
    ensures r.Some? ==> |r.value| > 10 && IntroOk(cfg, r.value)
    ensures r.Some? <==> Run(IntroFlags, text, a => IntroBody(cfg, a)).actions == [Send(IntroSet)]
  {
    var arg := Text.ExtractArguments(text);
    if arg.Some? && arg.value != "" && |IntroText(cfg, arg.value)| > 10 then Some(IntroText(cfg, arg.value))
    else None
  }

  /** An awesome-prompt name given to `/intro` stores that prompt when it is
      long enough; any intro of ten characters or fewer is refused with its
      own reply. */
  lemma IntroCases(cfg: Config, text: Option<string>, a: string)
    requires Text.ExtractArguments(text) == Some(a) && a != ""
    ensures a in cfg.awesome && |cfg.awesome[a]| > 10 ==> IntroToStore(cfg, text) == Some(cfg.awesome[a])
    ensures a !in cfg.awesome && |a| > 10 ==> IntroToStore(cfg, text) == Some(a)
    ensures |IntroText(cfg, a)| <= 10 ==>
              IntroToStore(cfg, text).None?
              && Run(IntroFlags, text, x => IntroBody(cfg, x)).actions == [Send(IntroTooShort)]
  {
  }

  /** `set_chat_intro`. */
  method SetChatIntro(s: Store, m: Message) returns (acts: seq<Action>)
    requires s.Valid()
    modifies s
    ensures s.Valid() && s.temps == old(s.temps)
    ensures acts == Run(IntroFlags, m.text, a => IntroBody(s.cfg, a)).actions
    ensures IntroToStore(s.cfg, m.text).None? ==> s.chats == old(s.chats)
    ensures IntroToStore(s.cfg, m.text).Some? ==>
              s.chats == Upsert(s.cfg, old(s.chats), m.fromId, SetIntro(IntroToStore(s.cfg, m.text).value))
  {
    var arg := Text.ExtractArguments(m.text);
    if Blank(arg) {
      return [Send(TextIsRequired)];
    }
    var intro := IntroText(s.cfg, arg.value);
    if !(|intro| > 10) {
      return [Send(IntroTooShort)];
    }
    var r := s.GetOrCreate(Some(IntId(m.fromId)), None);
    s.Update(r.value.id, SetIntro(intro));
    acts := [Send(IntroSet)];
  }

  // -----------------------------------------------------------------------
  // the pickers

  datatype Setting = VoiceSetting | ProviderSetting | AwesomeSetting

  /** The values a picker offers and accepts. */
  function Keys(cfg: Config, k: Setting): seq<string>
  {
    match k
    case VoiceSetting => cfg.voices
    case ProviderSetting => Providers(cfg)
    case AwesomeSetting => cfg.awesomeKeys
  }

  /** The field change a chosen value makes. */
  function PatchFor(cfg: Config, k: Setting, key: string): (p: Patch)
    requires WellFormed(cfg) && key in Keys(cfg, k)
    ensures PatchOk(cfg, p)
  {
    match k
    case VoiceSetting => SetVoice(key)
    case ProviderSetting => SetProvider(key)
    case AwesomeSetting => SetIntro(cfg.awesome[key])
  }

  /** The reply confirming a chosen value. */
  function Confirmation(cfg: Config, k: Setting, key: string): Reply
    requires WellFormed(cfg) && key in Keys(cfg, k)
  {
    match k
    case VoiceSetting => VoiceSet(key)
    case ProviderSetting => ProviderSet(key)
    case AwesomeSetting => AwesomeIntroSet(cfg.awesome[key])
  }

  /** The command's argument when it is non-empty and one of the offered values. */
  function Chosen(cfg: Config, k: Setting, text: Option<string>): (r: Option<string>)
    ensures r.Some? ==> r.value in Keys(cfg, k) && Text.ExtractArguments(text) == r
    ensures r.None? <==> Blank(Text.ExtractArguments(text)) || Text.ExtractArguments(text).value !in Keys(cfg, k)
  {
    var arg := Text.ExtractArguments(text);
    if arg.Some? && arg.value != "" && arg.value in Keys(cfg, k) then arg else None
  }

  /** What a picker command does with the whole text it is handed: confirm a
      valid value, or delete the command and show one button per value. */
  function PickBody(cfg: Config, k: Setting, m: Message, text: Option<string>): BodyOutcome
    requires WellFormed(cfg)
  {
    match Chosen(cfg, k, text)
    case Some(key) => Completed([Send(Confirmation(cfg, k, key))])
    case None => Completed([Payload.DeleteOf(m), Send(Picker(Payload.PickerPayloads(Keys(cfg, k), IdText(IntId(m.fromId)))))])
  }

  /** The body shared by the three picker commands. */
  method PickSetting(s: Store, k: Setting, m: Message) returns (acts: seq<Action>)
    requires s.Valid()
    modifies s
    ensures s.Valid() && s.temps == old(s.temps)
    ensures acts == Run(PickerFlags, m.text, t => PickBody(s.cfg, k, m, t)).actions
    ensures Chosen(s.cfg, k, m.text).None? ==> s.chats == old(s.chats)
    ensures Chosen(s.cfg, k, m.text).Some? ==>
              s.chats == Upsert(s.cfg, old(s.chats), m.fromId, PatchFor(s.cfg, k, Chosen(s.cfg, k, m.text).value))
  {
    var userId := IdText(IntId(m.fromId));
    var arguments := Text.ExtractArguments(m.text);
    if arguments.Some? && arguments.value != "" && arguments.value in Keys(s.cfg, k) {
      ResolvePrintedId(m.fromId);
      var r := s.GetOrCreate(None, Some(TextId(userId)));
      s.Update(r.value.id, PatchFor(s.cfg, k, arguments.value));
      acts := [Send(Confirmation(s.cfg, k, arguments.value))];
    } else {
      acts := [Payload.DeleteOf(m), Send(Picker(Payload.PickerPayloads(Keys(s.cfg, k), userId)))];
    }
  }

  /** `set_new_speech_voice`: a voice is stored only when it is one of the voices. */
  method SetNewSpeechVoice(s: Store, m: Message) returns (acts: seq<Action>)
    requires s.Valid()
    modifies s
    ensures s.Valid() && s.temps == old(s.temps)
    ensures acts == Run(PickerFlags, m.text, t => PickBody(s.cfg, VoiceSetting, m, t)).actions
    ensures Chosen(s.cfg, VoiceSetting, m.text).None? ==> s.chats == old(s.chats)
    ensures Chosen(s.cfg, VoiceSetting, m.text).Some? ==>
              s.chats == Upsert(s.cfg, old(s.chats), m.fromId, SetVoice(Chosen(s.cfg, VoiceSetting, m.text).value))
  {
    acts := PickSetting(s, VoiceSetting, m);
  }

  /** `set_new_chat_provider`: a provider is stored only when it is one of
      `provider_keys + g4f_providers`. */
  method SetNewChatProvider(s: Store, m: Message) returns (acts: seq<Action>)
    requires s.Valid()
    modifies s
    ensures s.Valid() && s.temps == old(s.temps)
    ensures acts == Run(PickerFlags, m.text, t => PickBody(s.cfg, ProviderSetting, m, t)).actions
    ensures Chosen(s.cfg, ProviderSetting, m.text).None? ==> s.chats == old(s.chats)
    ensures Chosen(s.cfg, ProviderSetting, m.text).Some? ==>
              s.chats == Upsert(s.cfg, old(s.chats), m.fromId,
                                SetProvider(Chosen(s.cfg, ProviderSetting, m.text).value))
  {
    acts := PickSetting(s, ProviderSetting, m);
  }

  /** `set_awesome_prompt_as_chat_intro`, behind the active filter: an
      awesome-prompt name sets the intro to that prompt. */
  method SetAwesomeIntro(s: Store, m: Message) returns (ran: bool, acts: seq<Action>)
    requires s.Valid()
    modifies s
    ensures s.Valid() && s.temps == old(s.temps)
    ensures ran == ActiveOrNew(old(s.chats), m.fromId)
    ensures !ran ==> acts == [] && s.chats == old(s.chats)
    ensures ran ==> acts == Run(PickerFlags, m.text, t => PickBody(s.cfg, AwesomeSetting, m, t)).actions
    ensures ran && Chosen(s.cfg, AwesomeSetting, m.text).None? ==>
              s.chats == WithRecord(s.cfg, old(s.chats), m.fromId)
    ensures ran && Chosen(s.cfg, AwesomeSetting, m.text).Some? ==>
              s.chats == Upsert(s.cfg, old(s.chats), m.fromId,
                                SetIntro(s.cfg.awesome[Chosen(s.cfg, AwesomeSetting, m.text).value]))
  {
    ran := Filters.IsActive(s, Filters.FromMessage(m));
    if !ran {
      return false, [];
    }
    acts := PickSetting(s, AwesomeSetting, m);
  }

  // -----------------------------------------------------------------------
  // the picker callbacks

  /** A picker payload's value and the key of the record it is for. */
  function PickTarget(data: string): (r: Result<(string, int), Error>)
    ensures r.Ok? ==> r.value.0 == Payload.Tag(data)
  {
    match Payload.Unpack2(data)
    case Err(e) => Err(e)
    case Ok((key, userId)) =>
      match ResolveKey(None, Some(TextId(userId)))
      case Err(e) => Err(e)
      case Ok(k) => Ok((key, k))
  }

  /** A button of the picker shown to a sender reaches back to that
      sender's record with the button's value. */
  lemma PickTargetRoundTrip(key: string, m: Message)
    requires ':' !in key
    ensures PickTarget(Payload.PickPayload(key, IdText(IntId(m.fromId)))) == Ok((key, m.fromId))
  {
    Text.DecimalHasNoSeparator(m.fromId, ':');
    Payload.PickRoundTrip(key, IdText(IntId(m.fromId)));
    ResolvePrintedId(m.fromId);
  }

  /** What a picker callback does: delete the picker, then confirm, or raise. */
  function PickCallbackOutcome(cfg: Config, k: Setting, call: CallbackQuery): BodyOutcome
    requires WellFormed(cfg) && Payload.Tag(call.data) in Keys(cfg, k)
  {
    match PickTarget(call.data)
    case Err(e) => Threw([Payload.DeleteOf(call.message)], e)
    case Ok((key, _)) => Completed([Payload.DeleteOf(call.message), Send(Confirmation(cfg, k, key))])
  }

  /** The body shared by the three picker callbacks; the registered filter
      guarantees the payload's first field is one of the offered values. */
  method PickCallback(s: Store, k: Setting, call: CallbackQuery) returns (out: BodyOutcome)
    requires s.Valid() && Payload.Tag(call.data) in Keys(s.cfg, k)
    modifies s
    ensures s.Valid() && s.temps == old(s.temps)
    ensures out == PickCallbackOutcome(s.cfg, k, call)
    ensures PickTarget(call.data).Err? ==> s.chats == old(s.chats)
    ensures PickTarget(call.data).Ok? ==>
              s.chats == Upsert(s.cfg, old(s.chats), PickTarget(call.data).value.1,
                                PatchFor(s.cfg, k, PickTarget(call.data).value.0))
  {
    var deleted := Payload.DeleteOf(call.message);
    var fields := Payload.Unpack2(call.data);
    if fields.Err? {
      return Threw([deleted], fields.error);
    }
    var (key, userId) := fields.value;
    var r := s.GetOrCreate(None, Some(TextId(userId)));
    if r.Err? {
      return Threw([deleted], r.error);
    }
    s.Update(r.value.id, PatchFor(s.cfg, k, key));
    out := Completed([deleted, Send(Confirmation(s.cfg, k, key))]);
  }

  /** `set_new_speech_voice_callback_handler`. */
  method VoiceCallback(s: Store, call: CallbackQuery) returns (out: BodyOutcome)
    requires s.Valid() && Payload.Tag(call.data) in s.cfg.voices
    modifies s
    ensures s.Valid() && s.temps == old(s.temps)
    ensures out == PickCallbackOutcome(s.cfg, VoiceSetting, call)
    ensures PickTarget(call.data).Err? ==> s.chats == old(s.chats)
    ensures PickTarget(call.data).Ok? ==>
              s.chats == Upsert(s.cfg, old(s.chats), PickTarget(call.data).value.1,
                                SetVoice(PickTarget(call.data).value.0))
  {
    out := PickCallback(s, VoiceSetting, call);
  }

  /** `set_new_chat_provider_callback_handler`. */
  method ProviderCallback(s: Store, call: CallbackQuery) returns (out: BodyOutcome)
    requires s.Valid() && Payload.Tag(call.data) in Providers(s.cfg)
    modifies s
    ensures s.Valid() && s.temps == old(s.temps)
    ensures out == PickCallbackOutcome(s.cfg, ProviderSetting, call)
    ensures PickTarget(call.data).Err? ==> s.chats == old(s.chats)
    ensures PickTarget(call.data).Ok? ==>
              s.chats == Upsert(s.cfg, old(s.chats), PickTarget(call.data).value.1,
                                SetProvider(PickTarget(call.data).value.0))
  {
    out := PickCallback(s, ProviderSetting, call);
  }

  /** `set_awesome_prompt_as_chat_intro_callback_handler`. */
  method AwesomeCallback(s: Store, call: CallbackQuery) returns (out: BodyOutcome)
    requires s.Valid() && Payload.Tag(call.data) in s.cfg.awesomeKeys
    modifies s
    ensures s.Valid() && s.temps == old(s.temps)
    ensures out == PickCallbackOutcome(s.cfg, AwesomeSetting, call)
    ensures PickTarget(call.data).Err? ==> s.chats == old(s.chats)
    ensures PickTarget(call.data).Ok? ==>
              s.chats == Upsert(s.cfg, old(s.chats), PickTarget(call.data).value.1,
                                SetIntro(s.cfg.awesome[PickTarget(call.data).value.0]))
  {
    out := PickCallback(s, AwesomeSetting, call);
  }
}
