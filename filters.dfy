/** The custom filters a handler registration names. Three are pure tests of
    the message; the active and bot-owner filters read the sender's record
    through `User(...)`, and so create it when it is missing. */
module Filters {
  import opened Wrappers
  import opened Models
  import opened Db
  import Text

  /** `IsAdminFilter.check`: holds for every chat type. */
  function IsChatAdmin(chatType: string): (r: bool)
    ensures r
  {
    if chatType == "private" then true else true
  }

  /** `IsBotTaggedFilter.check`: the text's first space-separated token is
      "@" followed by the bot's username; false when there is no text. */
  function IsBotTagged(text: Option<string>, username: string): (r: bool)
    ensures r ==> text.Some? && |text.value| > |username|
  {
    if text.Some? && text.value != "" then "@" + username == Text.Split(text.value, ' ')[0]
    else false
  }

  /** The bot is tagged exactly when the text starts with "@username" and the
      tag ends there or at a space (a username never holds a space). */
  lemma BotTaggedIff(text: Option<string>, username: string)
    requires ' ' !in username
    ensures IsBotTagged(text, username) <==>
              text.Some? && ("@" + username) <= text.value
              && (|text.value| == |username| + 1 || text.value[|username| + 1] == ' ')
  {
    if text.Some? && ("@" + username) <= text.value {
      var s, tag := text.value, "@" + username;
      var first := Text.Split(s, ' ')[0];
      if |s| == |tag| || s[|tag|] == ' ' {
        assert s == tag + s[|tag|..];
        if |s| == |tag| {
          Text.SplitPrefix(tag, "", ' ');
          assert s == tag + "";
        } else {
          Text.SplitField(tag, s[|tag| + 1..], ' ');
          assert s == tag + [' '] + s[|tag| + 1..];
        }
      }
    }
  }

  /** `IsChatCommandFilter.check`: text that is no command passes, and so
      does a command whose name is empty; a named command passes only when
      it is "chat". */
  function IsChatCommand(text: Option<string>): (r: bool)
    ensures !r <==> Text.IsCommand(text)
                    && Text.ExtractCommand(text).value != ""
                    && Text.ExtractCommand(text).value != "chat"
  {
    var command := Text.ExtractCommand(text);
    if command.Some? && command.value != "" then command.value == "chat" else true
  }

  /** What a filter is shown: a message, or a button press. */
  datatype Trigger = FromMessage(m: Message) | FromCallback(call: CallbackQuery)

  /** The message whose sender the active filter looks up: for a button
      press, the message that carried the button. */
  function SubjectMessage(u: Trigger): Message
  {
    match u
    case FromMessage(m) => m
    case FromCallback(call) => call.message
  }

  /** `IsActiveFilter.check`: the `is_active` flag of the sender's record,
      which is created first when missing. */
  method IsActive(s: Store, u: Trigger) returns (active: bool)
    requires s.Valid()
    modifies s
    ensures s.Valid() && s.temps == old(s.temps)
    ensures var k := SubjectMessage(u).fromId;
            s.chats == WithRecord(s.cfg, old(s.chats), k)
            && active == s.chats[k].isActive
            && active == ActiveOrNew(old(s.chats), k)
  {
    var m := SubjectMessage(u);
    var r := s.GetOrCreate(Some(IntId(m.fromId)), None);
    active := r.value.isActive;
  }

  /** `IsBotOwnerFilter.check`: the text of the sender's record id is one of
      the admin ids; the record is created first when missing. */
  method IsBotOwner(s: Store, m: Message) returns (owner: bool)
    requires s.Valid()
    modifies s
    ensures s.Valid() && s.temps == old(s.temps)
    ensures s.chats == WithRecord(s.cfg, old(s.chats), m.fromId)
    ensures owner <==> Text.IntToDecimal(m.fromId) in s.cfg.adminIds
  {
    var r := s.GetOrCreate(Some(IntId(m.fromId)), None);
    owner := Text.IntToDecimal(r.value.id) in s.cfg.adminIds;
  }

  /** With `admin_ids` holding just the text of `admin_id`, the owner filter
      and `User.is_admin` agree on every record. */
  lemma OwnerFilterMatchesIsAdmin(cfg: Config, c: Chat)
    requires cfg.adminIds == {Text.IntToDecimal(cfg.adminId)}
    ensures Text.IntToDecimal(c.id) in cfg.adminIds <==> IsAdmin(cfg, c)
  {
    if Text.IntToDecimal(c.id) in cfg.adminIds {
      Text.DecimalInjective(c.id, cfg.adminId);
    }
  }
}
