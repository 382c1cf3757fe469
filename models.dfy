/** The bot's data model: the per-chat settings record (the `chats` table),
    the pending regenerate action (the `Temp` table), the configuration the
    handlers read, the parts of a Telegram update the core looks at, and the
    errors an operation can raise. */
module Models {
  import opened Wrappers

  /** `provider_keys`: the keys of the provider map, in order. */
  const ProviderKeys: seq<string> :=
    ["opengpt", "koboldai", "phind", "llama2", "blackboxai", "perplexity", "yepchat", "auto"]

  /** Values fixed at start-up and passed to every handler. */
  datatype Config = Config(
    defaultIntro: string,      // Conversation.intro, the intro of a new record
    defaultProvider: string,   // the configured default text provider
    defaultVoice: string,      // the configured default speech voice
    adminId: int,              // the single admin id that `is_admin` compares with
    adminIds: set<string>,     // the admin ids, as text, that the owner filter tests
    voices: seq<string>,       // the speech synthesiser's voices
    g4fProviders: seq<string>, // the extra providers offered besides provider_keys
    awesomeKeys: seq<string>,  // the awesome-prompt names, in order
    awesome: map<string, string>, // awesome-prompt name to prompt text
    botUsername: string)       // the bot's own Telegram username

  /** The awesome-prompt names listed are exactly those of the prompt map. */
  predicate WellFormed(cfg: Config)
  {
    && (forall key :: key in cfg.awesomeKeys ==> key in cfg.awesome)
    && (forall key :: key in cfg.awesome ==> key in cfg.awesomeKeys)
  }

  /** `provider_keys + g4f_providers`: every provider a chat may select. */
  function Providers(cfg: Config): (ps: seq<string>)
    ensures forall p :: p in ps <==> p in ProviderKeys || p in cfg.g4fProviders
  {
    ProviderKeys + cfg.g4fProviders
  }

  /** One row of the `chats` table, keyed by `id`. */
  datatype Chat = Chat(
    id: int,
    intro: string,
    provider: string,
    voice: string,
    history: string,
    isActive: bool)

  /** One row of the pending-action table: a regenerate token and what to redo. */
  datatype Temp = Temp(uuid: string, provider: string, prompt: string)

  /** An intro the handlers can have stored: the default, one longer than
      ten characters, or an awesome prompt. */
  predicate IntroOk(cfg: Config, intro: string)
  {
    intro == cfg.defaultIntro || |intro| > 10 || intro in cfg.awesome.Values
  }

  /** A record whose voice and provider passed validation (or are the defaults). */
  predicate ChatOk(cfg: Config, c: Chat)
  {
    && IntroOk(cfg, c.intro)
    && (c.voice in cfg.voices || c.voice == cfg.defaultVoice)
    && (c.provider in Providers(cfg) || c.provider == cfg.defaultProvider)
  }

  /** Every row is filed under its own primary key and holds validated settings. */
  predicate TablesOk(cfg: Config, chats: map<int, Chat>, temps: map<string, Temp>)
  {
    && (forall k :: k in chats ==> chats[k].id == k && ChatOk(cfg, chats[k]))
    && (forall t :: t in temps ==> temps[t].uuid == t)
  }

  /** `Chat(id=id)` with the column defaults filled in. */
  function NewChat(cfg: Config, id: int): (c: Chat)
    ensures c.id == id && ChatOk(cfg, c)
    ensures c.intro == cfg.defaultIntro && c.provider == cfg.defaultProvider
    ensures c.voice == cfg.defaultVoice && c.history == "" && c.isActive
  {
    Chat(id, cfg.defaultIntro, cfg.defaultProvider, cfg.defaultVoice, "", true)
  }

  /** The fields of a Telegram message the core reads. */
  datatype Message = Message(
    chatId: int,
    messageId: int,
    fromId: int,
    chatType: string,
    text: Option<string>)

  /** A button press: its payload and the message that carried the button. */
  datatype CallbackQuery = CallbackQuery(data: string, message: Message)

  datatype Error =
    | MissingIdentity   // neither a message nor a user id was given
    | BadKey            // the store refused a non-integer key
    | UnpackMismatch    // a payload split into the wrong number of fields
    | TypeError         // an operation applied to a missing text
    | Failed            // a generation provider or the network failed

  datatype MediaKind = DefaultImage | ProdiaImage | Speech

  /** The replies the bot sends, by kind. */
  datatype Reply =
    | TextIsRequired
    | GenericError
    | IntroTooShort
    | IntroSet
    | VoiceSet(voice: string)
    | ProviderSet(provider: string)
    | AwesomeIntroSet(intro: string)
    | Picker(payloads: seq<string>)
    | ServiceSuspended
    | ServiceResumed
    | NewChatInstance
    | TablesCleared
    | CacheCleared
    | Media(kind: MediaKind, caption: string, performer: Option<string>, regenerate: string, delete: string)
    | ChatResponse(text: string)

  /** What a handler does to the outside world, in order. */
  datatype Action = Send(reply: Reply) | DeleteMessage(chatId: string, messageId: string)
}
