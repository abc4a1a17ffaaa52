/**
  The Telegram side of the script: the bot configuration read from the
  environment (ql-docker-plus.py:72-73, 82-88), the outbox of requests the
  `send` and `photo` methods post (ql-docker-plus.py:90-119), and the rule by
  which an operator's reply is accepted as a two-factor code
  (ql-docker-plus.py:271-280). HTTP itself is not modelled: a request that is
  posted is appended to an outbox.
*/
module Telegram {
  import opened Wrappers
  import opened Text

  /** The sample token from the documentation, which never counts as configured. */
  const PlaceholderToken: string := "your_tg_bot_token"

  /** Telegram's limit on the length of a photo caption. */
  const CaptionLimit: nat := 1024

  /** `Telegram.token` and `Telegram.chat_id`. */
  datatype TgConfig = TgConfig(token: string, chatId: Option<nat>) {
    /** `Telegram.ok`: a token that is not the placeholder and a chat id that is not 0. */
    predicate Ok() {
      token != "" && chatId.Some? && chatId.value != 0 && token != PlaceholderToken
    }
  }

  /** `int(s) if s and s.isdigit() else None`. */
  function ParseChatId(s: string): (r: Option<nat>)
    ensures r.Some? <==> s != [] && AllDigits(s)
  {
    if s != [] && AllDigits(s) then Some(DecimalValue(s)) else None
  }

  /** Every chat id the bot can be given round-trips through its decimal text. */
  lemma {:induction false} ChatIdRoundTrip(n: nat)
    ensures ParseChatId(NatToDecimal(n)) == Some(n)
  {
    DecimalRoundTrip(n);
  }

  /** The configuration built from the stripped `TG_BOT_TOKEN` and `TG_CHAT_ID`. */
  function FromEnv(tokenEnv: string, chatEnv: string): (cfg: TgConfig)
    ensures cfg.token == Strip(tokenEnv) && IsStripped(cfg.token)
    ensures cfg.chatId.Some? <==> Strip(chatEnv) != [] && AllDigits(Strip(chatEnv))
  {
    TgConfig(Strip(tokenEnv), ParseChatId(Strip(chatEnv)))
  }

  /** When notifications are on: both settings given, the token real, the chat id non-zero. */
  lemma {:induction false} FromEnvOkIff(tokenEnv: string, chatEnv: string)
    ensures FromEnv(tokenEnv, chatEnv).Ok() <==>
      && Strip(tokenEnv) != ""
      && Strip(tokenEnv) != PlaceholderToken
      && Strip(chatEnv) != []
      && AllDigits(Strip(chatEnv))
      && DecimalValue(Strip(chatEnv)) != 0
  {
  }

  /** A chat id written as zeros parses, but leaves notifications off (0 is falsy). */
  lemma ZeroChatIdDisables(token: string)
    ensures FromEnv(token, "000").chatId == Some(0)
    ensures !FromEnv(token, "000").Ok()
  {
    assert Strip("000") == "000";
    assert DecimalValue("000") == 10 * DecimalValue("00") + 0;
    assert DecimalValue("00") == 10 * DecimalValue("0") + 0;
    assert DecimalValue("0") == 10 * DecimalValue("") + 0;
  }

  // ---------------------------------------------------------------------------
  // Outbox

  /** A request posted to the Bot API. */
  datatype TgMessage =
    | SendMessage(chatId: nat, text: string)
    | SendPhoto(chatId: nat, path: string, caption: string)

  /** `caption[:1024]`. */
  function TruncateCaption(caption: string): (r: string)
    ensures |r| <= CaptionLimit
    ensures |r| <= |caption| && r == caption[..|r|]
    ensures |caption| <= CaptionLimit ==> r == caption
    ensures |caption| > CaptionLimit ==> |r| == CaptionLimit
  {
    if |caption| <= CaptionLimit then caption else caption[..CaptionLimit]
  }

  /** `Telegram.send`: post the text when configured; otherwise do nothing. */
  function SendText(cfg: TgConfig, outbox: seq<TgMessage>, text: string): seq<TgMessage> {
    if cfg.Ok() then outbox + [SendMessage(cfg.chatId.value, text)] else outbox
  }

  /** `Telegram.photo` for a file that exists: post it with the caption cut to the limit. */
  function SendPhotoFile(cfg: TgConfig, outbox: seq<TgMessage>, path: string, caption: string): seq<TgMessage> {
    if cfg.Ok() then outbox + [SendPhoto(cfg.chatId.value, path, TruncateCaption(caption))] else outbox
  }

  /** Every posted request goes to the configured chat of a usable bot, with a caption within the limit. */
  predicate OutboxValid(cfg: TgConfig, outbox: seq<TgMessage>) {
    forall k :: 0 <= k < |outbox| ==>
      && cfg.Ok()
      && outbox[k].chatId == cfg.chatId.value
      && (outbox[k].SendPhoto? ==> |outbox[k].caption| <= CaptionLimit)
  }

  /** Sending text keeps the outbox valid and posts at most one request. */
  lemma {:induction false} SendTextValid(cfg: TgConfig, outbox: seq<TgMessage>, text: string)
    requires OutboxValid(cfg, outbox)
    ensures OutboxValid(cfg, SendText(cfg, outbox, text))
    ensures SendText(cfg, outbox, text)[..|outbox|] == outbox
    ensures |SendText(cfg, outbox, text)| == |outbox| + (if cfg.Ok() then 1 else 0)
  {
  }

  /** Requests posted by two runs with the same configuration are valid together. */
  lemma {:induction false} OutboxValidAppend(cfg: TgConfig, first: seq<TgMessage>, second: seq<TgMessage>)
    requires OutboxValid(cfg, first) && OutboxValid(cfg, second)
    ensures OutboxValid(cfg, first + second)
  {
    var both := first + second;
    if both != [] {
      assert cfg.Ok() by {
        if first != [] {
          assert first[0] == first[0];
        } else {
          assert second[0] == second[0];
        }
      }
      forall k | 0 <= k < |both|
        ensures both[k].chatId == cfg.chatId.value
        ensures both[k].SendPhoto? ==> |both[k].caption| <= CaptionLimit
      {
        if k < |first| {
          assert both[k] == first[k];
        } else {
          assert both[k] == second[k - |first|];
        }
      }
    }
  }

  /** Sending a photo keeps the outbox valid, whatever the length of the caption. */
  lemma {:induction false} SendPhotoValid(cfg: TgConfig, outbox: seq<TgMessage>, path: string, caption: string)
    requires OutboxValid(cfg, outbox)
    ensures OutboxValid(cfg, SendPhotoFile(cfg, outbox, path, caption))
    ensures SendPhotoFile(cfg, outbox, path, caption)[..|outbox|] == outbox
  {
  }

  // ---------------------------------------------------------------------------
  // Two-factor code relay

  /** One entry of `getUpdates`: its id, the message's chat id and text when present. */
  datatype Update = Update(updateId: int, chatId: Option<int>, text: Option<string>)

  /** `re.fullmatch(r'\d{6}', s)`. */
  predicate IsSixDigits(s: string) {
    |s| == 6 && AllDigits(s)
  }

  /** The chat id of the message equals the configured one (None equals None). */
  predicate FromChat(u: Update, configured: Option<nat>) {
    match configured
    case None => u.chatId.None?
    case Some(c) => u.chatId == Some(c as int)
  }

  /** The code an update carries, if the relay accepts it. */
  function AcceptedCode(u: Update, configured: Option<nat>): (r: Option<string>)
    ensures r.Some? <==> FromChat(u, configured) && u.text.Some? && IsSixDigits(Strip(u.text.value))
    ensures r.Some? ==> r.value == Strip(u.text.value)
  {
    if FromChat(u, configured) && u.text.Some? && IsSixDigits(Strip(u.text.value))
    then Some(Strip(u.text.value))
    else None
  }

  /**
    The relay over one batch: the first accepted code, if any, and how many
    updates were processed (up to and including the accepted one).
  */
  function RelayScan(updates: seq<Update>, configured: Option<nat>): (r: (Option<string>, nat))
    ensures r.1 <= |updates|
  {
    if updates == [] then (None, 0)
    else if AcceptedCode(updates[0], configured).Some? then (AcceptedCode(updates[0], configured), 1)
    else var rest := RelayScan(updates[1..], configured); (rest.0, rest.1 + 1)
  }

  /**
    What the relay accepts: a code comes only from the last processed update,
    which is from the configured chat and whose stripped text is six digits;
    every update before it was rejected; with no code, the whole batch was seen.
  */
  lemma {:induction false} RelayScanSpec(updates: seq<Update>, configured: Option<nat>)
    ensures var (code, seen) := RelayScan(updates, configured);
      && (forall k :: 0 <= k < seen - 1 ==> AcceptedCode(updates[k], configured).None?)
      && (code.None? ==> seen == |updates| && forall k :: 0 <= k < |updates| ==> AcceptedCode(updates[k], configured).None?)
      && (code.Some? ==>
            && seen >= 1
            && AcceptedCode(updates[seen - 1], configured) == code
            && FromChat(updates[seen - 1], configured)
            && IsSixDigits(code.value))
    decreases |updates|
  {
    if updates != [] && AcceptedCode(updates[0], configured).None? {
      RelayScanSpec(updates[1..], configured);
      var (code, seen) := RelayScan(updates, configured);
      forall k | 0 <= k < seen - 1 ensures AcceptedCode(updates[k], configured).None? {
        if k > 0 {
          assert updates[k] == updates[1..][k - 1];
        }
      }
      if code.None? {
        forall k | 0 <= k < |updates| ensures AcceptedCode(updates[k], configured).None? {
          if k > 0 {
            assert updates[k] == updates[1..][k - 1];
          }
        }
      }
    }
  }

  /** Update ids strictly increase along the batch (as the Bot API delivers them). */
  predicate IncreasingIds(updates: seq<Update>) {
    forall j, k :: 0 <= j < k < |updates| ==> updates[j].updateId < updates[k].updateId
  }

  /** The offset after a batch: one past the last processed id, or unchanged. */
  function NextOffset(updates: seq<Update>, configured: Option<nat>, offset: int): int {
    var seen := RelayScan(updates, configured).1;
    if seen == 0 then offset else updates[seen - 1].updateId + 1
  }

  /**
    The offset never decreases for a batch whose ids are increasing and not
    below it, and it is past every processed update, so none is fetched again.
  */
  lemma {:induction false} OffsetAdvances(updates: seq<Update>, configured: Option<nat>, offset: int)
    requires IncreasingIds(updates)
    requires updates != [] ==> updates[0].updateId >= offset
    ensures NextOffset(updates, configured, offset) >= offset
    ensures forall k :: 0 <= k < RelayScan(updates, configured).1 ==> updates[k].updateId < NextOffset(updates, configured, offset)
  {
  }

  /** The relay loop's position in the update stream (`last_update_id`). */
  class UpdateCursor {
    var offset: int
    const chatId: Option<nat>

    constructor (chatId: Option<nat>, offset: int)
      ensures this.chatId == chatId && this.offset == offset
    {
      this.chatId := chatId;
      this.offset := offset;
    }

    /**
      Process one batch as the relay does: move the offset past each update
      seen and stop at the first accepted code.
    */
    method Poll(updates: seq<Update>) returns (code: Option<string>)
      modifies this
      ensures code == RelayScan(updates, chatId).0
      ensures offset == NextOffset(updates, chatId, old(offset))
    {
      code := None;
      var i := 0;
      while i < |updates|
        invariant 0 <= i <= |updates|
        invariant RelayScan(updates, chatId) == (var rest := RelayScan(updates[i..], chatId); (rest.0, rest.1 + i))
        invariant offset == if i == 0 then old(offset) else updates[i - 1].updateId + 1
      {
        assert updates[i..][1..] == updates[i + 1..];
        offset := updates[i].updateId + 1;
        var accepted := AcceptedCode(updates[i], chatId);
        if accepted.Some? {
          code := accepted;
          return;
        }
        i := i + 1;
      }
    }
  }
}
