/** The handlers that switch a chat's service on and off or drop its data:
    `/suspend`, `/resume`, `/reset` and the owner-only `/clear`. Each runs
    inside `handler_formatter()` with no flags; none of their bodies can
    raise, so each replies exactly once when it runs. */
module Lifecycle {
  import opened Wrappers
  import opened Models
  import opened Db
  import Filters
  import Text

  /** `change_chat_status_to_inactive`, behind the active filter. */
  method Suspend(s: Store, m: Message) returns (ran: bool, acts: seq<Action>)
    requires s.Valid()
    modifies s
    ensures s.Valid() && s.temps == old(s.temps)
    ensures ran == ActiveOrNew(old(s.chats), m.fromId)
    ensures !ran ==> acts == [] && s.chats == old(s.chats)
    ensures ran ==> acts == [Send(ServiceSuspended)]
                    && s.chats == Upsert(s.cfg, old(s.chats), m.fromId, SetActive(false))
  {
    ran := Filters.IsActive(s, Filters.FromMessage(m));
    if !ran {
      return false, [];
    }
    var r := s.GetOrCreate(Some(IntId(m.fromId)), None);
    s.Update(r.value.id, SetActive(false));
    acts := [Send(ServiceSuspended)];
  }

  /** `change_chat_status_to_active`: no active filter, so it also reaches a
      suspended chat. */
  method Resume(s: Store, m: Message) returns (acts: seq<Action>)
    requires s.Valid()
    modifies s
    ensures s.Valid() && s.temps == old(s.temps)
    ensures acts == [Send(ServiceResumed)]
    ensures s.chats == Upsert(s.cfg, old(s.chats), m.fromId, SetActive(true))
  {
    var r := s.GetOrCreate(Some(IntId(m.fromId)), None);
    s.Update(r.value.id, SetActive(true));
    acts := [Send(ServiceResumed)];
  }

  /** `reset_chat`, behind the active filter: the caller's record is
      deleted and every other record is kept. */
  method Reset(s: Store, m: Message) returns (ran: bool, acts: seq<Action>)
    requires s.Valid()
    modifies s
    ensures s.Valid() && s.temps == old(s.temps)
    ensures ran == ActiveOrNew(old(s.chats), m.fromId)
    ensures !ran ==> acts == [] && s.chats == old(s.chats)
    ensures ran ==> acts == [Send(NewChatInstance)] && s.chats == old(s.chats) - {m.fromId}
  {
    ran := Filters.IsActive(s, Filters.FromMessage(m));
    if !ran {
      return false, [];
    }
    var r := s.GetOrCreate(Some(IntId(m.fromId)), None);
    s.Delete(r.value);
    DropAfterLookup(s.cfg, old(s.chats), m.fromId);
    acts := [Send(NewChatInstance)];
  }

  /** Deleting a record right after get-or-create deletes it from the table
      as it was before. */
  lemma DropAfterLookup(cfg: Config, chats: map<int, Chat>, k: int)
    ensures WithRecord(cfg, chats, k) - {k} == chats - {k}
  {
    assert (WithRecord(cfg, chats, k) - {k}).Keys == (chats - {k}).Keys;
  }

  /** `clear_chats`, behind the bot-owner filter: an owner empties both
      tables; anyone else gets no reply, only the record the filter made. */
  method ClearChats(s: Store, m: Message) returns (ran: bool, acts: seq<Action>)
    requires s.Valid()
    modifies s
    ensures s.Valid()
    ensures ran <==> Text.IntToDecimal(m.fromId) in s.cfg.adminIds
    ensures ran ==> acts == [Send(TablesCleared)] && s.chats == map[] && s.temps == map[]
    ensures !ran ==> acts == [] && s.temps == old(s.temps)
                     && s.chats == WithRecord(s.cfg, old(s.chats), m.fromId)
  {
    ran := Filters.IsBotOwner(s, m);
    if !ran {
      return false, [];
    }
    s.Clear();
    acts := [Send(TablesCleared)];
  }

  /** A suspended chat is refused by the active filter until it is resumed,
      and a resumed one passes it. */
  lemma SuspendBlocksResumeUnblocks(cfg: Config, chats: map<int, Chat>, k: int)
    ensures !ActiveOrNew(Upsert(cfg, chats, k, SetActive(false)), k)
    ensures ActiveOrNew(Upsert(cfg, chats, k, SetActive(true)), k)
  {
  }

  /** Suspending an active chat and resuming it gives back the table the
      active filter had left: nothing but the flag was touched. */
  lemma SuspendThenResume(cfg: Config, chats: map<int, Chat>, k: int)
    requires ActiveOrNew(chats, k)
    ensures Upsert(cfg, Upsert(cfg, chats, k, SetActive(false)), k, SetActive(true)) == WithRecord(cfg, chats, k)
  {
    var after := Upsert(cfg, Upsert(cfg, chats, k, SetActive(false)), k, SetActive(true));
    var pre := WithRecord(cfg, chats, k);
    assert after.Keys == pre.Keys;
    assert after[k] == pre[k];
  }

  /** A reset record comes back with the defaults, active, the next time a
      handler looks it up. */
  lemma ResetRestoresDefaults(cfg: Config, chats: map<int, Chat>, k: int)
    ensures WithRecord(cfg, chats - {k}, k)[k] == NewChat(cfg, k)
    ensures ActiveOrNew(chats - {k}, k)
  {
  }
}
