/** Callback payloads: the strings the bot puts on inline buttons, how a
    pressed button's payload is split back into fields, and which callback
    handler a payload reaches. */
module Payload {
  import opened Wrappers
  import opened Models
  import Text

  /** A picker button: `f"{key}:{user_id}"`. */
  function PickPayload(key: string, userId: string): (r: string)
    ensures r == key + ":" + userId
  {
    Text.Join([key, userId], ':')
  }

  /** One picker button per key, in the keys' order. */
  function PickerPayloads(keys: seq<string>, userId: string): (r: seq<string>)
    ensures |r| == |keys|
    ensures forall i :: 0 <= i < |keys| ==> r[i] == PickPayload(keys[i], userId)
  {
    seq(|keys|, i requires 0 <= i < |keys| => PickPayload(keys[i], userId))
  }

  /** The regenerate button: `f"media:{user_id}:{uuid}"`. */
  function MediaPayload(userId: string, token: string): (r: string)
    ensures r == "media:" + userId + ":" + token
  {
    assert ["media", userId, token][1..] == [userId, token];
    assert [userId, token][1..] == [token];
    assert Text.Join([userId, token], ':') == userId + [':'] + token;
    assert Text.Join(["media", userId, token], ':') == "media" + [':'] + (userId + [':'] + token);
    Text.Join(["media", userId, token], ':')
  }

  /** The delete button: `f"delete:{chat_id}:{message_id}"`. */
  function DeletePayload(chatId: int, messageId: int): (r: string)
    ensures r == "delete:" + Text.IntToDecimal(chatId) + ":" + Text.IntToDecimal(messageId)
  {
    var c, m := Text.IntToDecimal(chatId), Text.IntToDecimal(messageId);
    assert ["delete", c, m][1..] == [c, m];
    assert [c, m][1..] == [m];
    assert Text.Join([c, m], ':') == c + [':'] + m;
    assert Text.Join(["delete", c, m], ':') == "delete" + [':'] + (c + [':'] + m);
    Text.Join(["delete", c, m], ':')
  }

  /** `a, b = data.split(":")`: exactly two fields, or the unpacking fails. */
  function Unpack2(data: string): (r: Result<(string, string), Error>)
    ensures r.Ok? <==> |Text.Split(data, ':')| == 2
    ensures r.Err? ==> r.error == UnpackMismatch
    ensures r.Ok? ==> r.value.0 == Text.Split(data, ':')[0]
    ensures r.Ok? ==> Text.Join([r.value.0, r.value.1], ':') == data
  {
    var parts := Text.Split(data, ':');
    Text.JoinSplit(data, ':');
    if |parts| == 2 then
      assert parts == [parts[0], parts[1]];
      Ok((parts[0], parts[1]))
    else Err(UnpackMismatch)
  }

  /** `a, b, c = data.split(":")`: exactly three fields, or the unpacking fails. */
  function Unpack3(data: string): (r: Result<(string, string, string), Error>)
    ensures r.Ok? <==> |Text.Split(data, ':')| == 3
    ensures r.Err? ==> r.error == UnpackMismatch
    ensures r.Ok? ==> r.value.0 == Text.Split(data, ':')[0]
    ensures r.Ok? ==> Text.Join([r.value.0, r.value.1, r.value.2], ':') == data
  {
    var parts := Text.Split(data, ':');
    Text.JoinSplit(data, ':');
    if |parts| == 3 then
      assert parts == [parts[0], parts[1], parts[2]];
      Ok((parts[0], parts[1], parts[2]))
    else Err(UnpackMismatch)
  }

  /** A picker payload unpacks to its key and user id. */
  lemma PickRoundTrip(key: string, userId: string)
    requires ':' !in key && ':' !in userId
    ensures Unpack2(PickPayload(key, userId)) == Ok((key, userId))
  {
    Text.SplitJoin([key, userId], ':');
  }

  /** A regenerate payload unpacks to its tag, user id and token. */
  lemma MediaRoundTrip(userId: string, token: string)
    requires ':' !in userId && ':' !in token
    ensures Unpack3(MediaPayload(userId, token)) == Ok(("media", userId, token))
  {
    Text.SplitJoin(["media", userId, token], ':');
  }

  /** A delete payload unpacks to its tag and the two ids as text, and the
      texts read back as the ids. */
  lemma DeleteRoundTrip(chatId: int, messageId: int)
    ensures Unpack3(DeletePayload(chatId, messageId))
            == Ok(("delete", Text.IntToDecimal(chatId), Text.IntToDecimal(messageId)))
    ensures Text.ParseInt(Text.IntToDecimal(chatId)) == Some(chatId)
    ensures Text.ParseInt(Text.IntToDecimal(messageId)) == Some(messageId)
  {
    Text.DecimalHasNoSeparator(chatId, ':');
    Text.DecimalHasNoSeparator(messageId, ':');
    Text.SplitJoin(["delete", Text.IntToDecimal(chatId), Text.IntToDecimal(messageId)], ':');
    Text.ParseIntToDecimal(chatId);
    Text.ParseIntToDecimal(messageId);
  }

  /** Deleting a message, addressed by its chat and message ids. */
  function DeleteOf(m: Message): Action
  {
    DeleteMessage(Text.IntToDecimal(m.chatId), Text.IntToDecimal(m.messageId))
  }

  /** The callback handlers, in the order they are registered. */
  datatype Route = VoiceRoute | ProviderRoute | AwesomeRoute | MediaRoute | DeleteRoute | NoRoute

  /** `data.split(":")[0]`, the field the first three handlers test. */
  function Tag(data: string): string
  {
    Text.Split(data, ':')[0]
  }

  /** The first registered handler whose test accepts the payload. */
  function RouteCallback(cfg: Config, data: string): (r: Route)
    ensures r == VoiceRoute <==> Tag(data) in cfg.voices
    ensures r == ProviderRoute <==> Tag(data) !in cfg.voices && Tag(data) in Providers(cfg)
    ensures r == AwesomeRoute <==>
              Tag(data) !in cfg.voices && Tag(data) !in Providers(cfg) && Tag(data) in cfg.awesomeKeys
    ensures r == MediaRoute <==>
              Tag(data) !in cfg.voices && Tag(data) !in Providers(cfg) && Tag(data) !in cfg.awesomeKeys
              && "media:" <= data
    ensures r == DeleteRoute <==>
              Tag(data) !in cfg.voices && Tag(data) !in Providers(cfg) && Tag(data) !in cfg.awesomeKeys
              && !("media:" <= data) && "delete:" <= data
    ensures r == MediaRoute ==> Tag(data) == "media"
    ensures r == DeleteRoute ==> Tag(data) == "delete"
    ensures r == NoRoute ==>
              Tag(data) !in cfg.voices && Tag(data) !in Providers(cfg) && Tag(data) !in cfg.awesomeKeys
              && !("media:" <= data) && !("delete:" <= data)
  {
    var tag := Tag(data);
    if tag in cfg.voices then VoiceRoute
    else if tag in Providers(cfg) then ProviderRoute
    else if tag in cfg.awesomeKeys then AwesomeRoute
    else if "media:" <= data then
      assert data == "media" + [':'] + data[6..];
      Text.SplitField("media", data[6..], ':');
      MediaRoute
    else if "delete:" <= data then
      assert data == "delete" + [':'] + data[7..];
      Text.SplitField("delete", data[7..], ':');
      DeleteRoute
    else NoRoute
  }

  /** Every button of a picker reaches the handler of the first key set its
      key belongs to. */
  lemma PickerRoutes(cfg: Config, key: string, userId: string)
    requires ':' !in key && ':' !in userId
    ensures key in cfg.voices ==> RouteCallback(cfg, PickPayload(key, userId)) == VoiceRoute
    ensures key !in cfg.voices && key in Providers(cfg) ==>
              RouteCallback(cfg, PickPayload(key, userId)) == ProviderRoute
    ensures key !in cfg.voices && key !in Providers(cfg) && key in cfg.awesomeKeys ==>
              RouteCallback(cfg, PickPayload(key, userId)) == AwesomeRoute
  {
    Text.SplitJoin([key, userId], ':');
  }

  /** A regenerate button reaches the media handler unless "media" is also a
      voice, provider or awesome-prompt name. */
  lemma MediaPayloadRoutes(cfg: Config, userId: string, token: string)
    requires ':' !in userId && ':' !in token
    requires "media" !in cfg.voices && "media" !in Providers(cfg) && "media" !in cfg.awesomeKeys
    ensures RouteCallback(cfg, MediaPayload(userId, token)) == MediaRoute
  {
    Text.SplitJoin(["media", userId, token], ':');
    assert MediaPayload(userId, token) == "media:" + userId + ":" + token;
  }

  /** A delete button reaches the delete handler unless "delete" is also a
      voice, provider or awesome-prompt name. */
  lemma DeletePayloadRoutes(cfg: Config, chatId: int, messageId: int)
    requires "delete" !in cfg.voices && "delete" !in Providers(cfg) && "delete" !in cfg.awesomeKeys
    ensures RouteCallback(cfg, DeletePayload(chatId, messageId)) == DeleteRoute
  {
    DeleteRoundTrip(chatId, messageId);
    var c, m := Text.IntToDecimal(chatId), Text.IntToDecimal(messageId);
    assert DeletePayload(chatId, messageId) == "delete" + [':'] + Text.Join([c, m], ':');
    assert !("media:" <= DeletePayload(chatId, messageId)) by {
      assert DeletePayload(chatId, messageId)[0] == 'd';
    }
  }
}
