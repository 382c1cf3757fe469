/** The `User` wrapper over the chat record store: get-or-create by id,
    the admin test and deletion, together with the pending-action table, held
    by one `Store` object whose tables are maps updated in place. */
module Db {
  import opened Wrappers
  import opened Models
  import Text

  /** An id as the handlers pass it: an integer, or the text of one taken
      from a callback payload or from `get_user_id`. */
  datatype IdValue = IntId(n: int) | TextId(s: string)

  /** Python truthiness of the optional `user_id` argument. */
  predicate Truthy(v: Option<IdValue>)
  {
    match v
    case None => false
    case Some(IntId(n)) => n != 0
    case Some(TextId(s)) => s != ""
  }

  /** `str(id)`. */
  function IdText(v: IdValue): string
  {
    match v
    case IntId(n) => Text.IntToDecimal(n)
    case TextId(s) => s
  }

  /** The integer primary key an id is filed under: text is accepted when it
      is a decimal integer and refused otherwise. */
  function KeyOf(v: IdValue): (r: Result<int, Error>)
    ensures r.Err? ==> r.error == BadKey && v.TextId?
    ensures v.IntId? ==> r == Ok(v.n)
  {
    match v
    case IntId(n) => Ok(n)
    case TextId(s) => if Text.ParseInt(s).Some? then Ok(Text.ParseInt(s).value) else Err(BadKey)
  }

  /** Rendering an id as text and filing the text addresses the same record. */
  lemma KeyOfIdText(v: IdValue)
    ensures KeyOf(TextId(IdText(v))) == KeyOf(v)
  {
    if v.IntId? {
      Text.ParseIntToDecimal(v.n);
    }
  }

  /** The key `User(message, user_id)` works on: `user_id or message.from_user.id`,
      after the assertion that one of them is given. `sender` is the message's
      `from_user.id`, None when no message is passed. */
  function ResolveKey(sender: Option<IdValue>, userId: Option<IdValue>): (r: Result<int, Error>)
    ensures r == Err(MissingIdentity) <==> sender.None? && !Truthy(userId)
    ensures Truthy(userId) ==> r == KeyOf(userId.value)
    ensures !Truthy(userId) && sender.Some? ==> r == KeyOf(sender.value)
  {
    if !(sender.Some? || Truthy(userId)) then Err(MissingIdentity)
    else if Truthy(userId) then KeyOf(userId.value)
    else KeyOf(sender.value)
  }

  /** A user id that was printed with `str` and read back from a payload
      resolves to the same key. */
  lemma ResolvePrintedId(n: int)
    ensures ResolveKey(None, Some(TextId(Text.IntToDecimal(n)))) == Ok(n)
  {
    Text.ParseIntToDecimal(n);
  }

  /** The table after get-or-create of key k: unchanged when a row exists,
      otherwise grown by one default row. */
  function WithRecord(cfg: Config, chats: map<int, Chat>, k: int): (r: map<int, Chat>)
    ensures r.Keys == chats.Keys + {k}
    ensures forall j :: j in chats ==> r[j] == chats[j]
    ensures k !in chats ==> r[k] == NewChat(cfg, k) && |r| == |chats| + 1
  {
    if k in chats then chats else chats[k := NewChat(cfg, k)]
  }

  /** Get-or-create twice is get-or-create once. */
  lemma WithRecordIdempotent(cfg: Config, chats: map<int, Chat>, k: int)
    ensures WithRecord(cfg, WithRecord(cfg, chats, k), k) == WithRecord(cfg, chats, k)
  {
  }

  /** A single-field change a handler makes to a record. */
  datatype Patch =
    | SetIntro(intro: string)
    | SetProvider(provider: string)
    | SetVoice(voice: string)
    | SetHistory(history: string)
    | SetActive(active: bool)

  function Apply(c: Chat, p: Patch): Chat
  {
    match p
    case SetIntro(x) => c.(intro := x)
    case SetProvider(x) => c.(provider := x)
    case SetVoice(x) => c.(voice := x)
    case SetHistory(x) => c.(history := x)
    case SetActive(b) => c.(isActive := b)
  }

  /** The validation a value passes before the handlers store it. */
  predicate PatchOk(cfg: Config, p: Patch)
  {
    match p
    case SetIntro(x) => IntroOk(cfg, x)
    case SetProvider(x) => x in Providers(cfg)
    case SetVoice(x) => x in cfg.voices
    case SetHistory(_) => true
    case SetActive(_) => true
  }

  /** Get-or-create the record for k, then change one field of it. */
  function Upsert(cfg: Config, chats: map<int, Chat>, k: int, p: Patch): (r: map<int, Chat>)
    ensures r.Keys == chats.Keys + {k}
    ensures forall j :: j in chats && j != k ==> r[j] == chats[j]
    ensures r[k] == Apply(if k in chats then chats[k] else NewChat(cfg, k), p)
  {
    var m := WithRecord(cfg, chats, k);
    m[k := Apply(m[k], p)]
  }

  /** A validated change keeps every record valid and under its own key. */
  lemma UpsertKeepsTablesOk(cfg: Config, chats: map<int, Chat>, temps: map<string, Temp>, k: int, p: Patch)
    requires TablesOk(cfg, chats, temps) && PatchOk(cfg, p)
    ensures TablesOk(cfg, Upsert(cfg, chats, k, p), temps)
  {
  }

  /** What the active filter reads: an existing row's flag, or true for the
      default row it creates. */
  predicate ActiveOrNew(chats: map<int, Chat>, k: int)
  {
    k !in chats || chats[k].isActive
  }

  /** `User.is_admin`: the record's id is the configured admin id. */
  function IsAdmin(cfg: Config, c: Chat): (b: bool)
    ensures b <==> Text.IntToDecimal(c.id) == Text.IntToDecimal(cfg.adminId)
  {
    if Text.IntToDecimal(c.id) == Text.IntToDecimal(cfg.adminId) then
      Text.DecimalInjective(c.id, cfg.adminId);
      c.id == cfg.adminId
    else c.id == cfg.adminId
  }

  /** The database session: the `chats` table and the pending-action table. */
  class Store {
    const cfg: Config
    var chats: map<int, Chat>
    var temps: map<string, Temp>

    ghost predicate Valid()
      reads this
    {
      WellFormed(cfg) && TablesOk(cfg, chats, temps)
    }

    /** Freshly created, empty tables. */
    constructor (cfg: Config)
      requires WellFormed(cfg)
      ensures Valid() && this.cfg == cfg
      ensures chats == map[] && temps == map[]
    {
      this.cfg := cfg;
      chats := map[];
      temps := map[];
    }

    /** `User(message, user_id)`: the existing row for the resolved key, or a
        default row inserted under it. */
    method GetOrCreate(sender: Option<IdValue>, userId: Option<IdValue>) returns (r: Result<Chat, Error>)
      requires Valid()
      modifies this
      ensures Valid() && temps == old(temps)
      ensures r.Ok? <==> ResolveKey(sender, userId).Ok?
      ensures r.Err? ==> r.error == ResolveKey(sender, userId).error && chats == old(chats)
      ensures r.Ok? ==> r.value.id == ResolveKey(sender, userId).value
      ensures r.Ok? ==> chats == WithRecord(cfg, old(chats), r.value.id) && r.value == chats[r.value.id]
      ensures r.Ok? && r.value.id in old(chats) ==> r.value == old(chats)[r.value.id]
    {
      var key := ResolveKey(sender, userId);
      if key.Err? {
        return Err(key.error);
      }
      var k := key.value;
      if k in chats {
        r := Ok(chats[k]);
      } else {
        var c := NewChat(cfg, k);
        chats := chats[k := c];
        r := Ok(c);
      }
    }

    /** `user.chat.<field> = value` on a row that exists, with a validated value. */
    method Update(k: int, p: Patch)
      requires Valid() && k in chats && PatchOk(cfg, p)
      modifies this
      ensures Valid() && temps == old(temps)
      ensures chats == old(chats)[k := Apply(old(chats)[k], p)]
    {
      chats := chats[k := Apply(chats[k], p)];
    }

    /** `User.delete`: remove the user's row. */
    method Delete(c: Chat)
      requires Valid() && c.id in chats
      modifies this
      ensures Valid() && temps == old(temps)
      ensures chats == old(chats) - {c.id}
    {
      chats := chats - {c.id};
    }

    /** `session.add(Temp(...))`, under a token not yet in use. */
    method AddTemp(t: Temp)
      requires Valid() && t.uuid !in temps
      modifies this
      ensures Valid() && chats == old(chats)
      ensures temps == old(temps)[t.uuid := t]
    {
      temps := temps[t.uuid := t];
    }

    /** `session.query(Temp).filter_by(uuid=token).first()`. */
    method FindTemp(token: string) returns (r: Option<Temp>)
      requires Valid()
      ensures r.Some? <==> token in temps
      ensures r.Some? ==> r.value == temps[token] && r.value.uuid == token
    {
      r := if token in temps then Some(temps[token]) else None;
    }

    /** `/clear`: delete every row of both tables. */
    method Clear()
      requires Valid()
      modifies this
      ensures Valid()
      ensures chats == map[] && temps == map[]
    {
      chats := map[];
      temps := map[];
    }
  }
}
