/** What the POST handler promises, stated over `Dispatcher.Respond`, the requests one delivery causes. */
module DispatcherProperties {
  import opened Options
  import opened JsText
  import opened StickerEncoding
  import opened Dispatcher

  /** A message send goes to `to`; the other requests carry no recipient. */
  predicate AddressedTo(r: Request, to: string)
  {
    (r.SendText? || r.SendSticker?) ==> r.to == to
  }

  /** A delivery without a message causes no request. */
  lemma NoMessageNoRequests(p: Payload, cfg: Config, roll: real, net: Network, encode: Encoder)
    requires 0.0 <= roll < 1.0
    requires ExtractMessage(p).None?
    ensures Respond(p, cfg, roll, net, encode) == []
  {
  }

  /** Only the first entry, first change and first message of a delivery are looked at. */
  lemma OnlyFirstMessageHandled(m: Message, rest: seq<Message>, later: seq<Change>, more: seq<Entry>)
    ensures ExtractMessage(Payload([Entry([Change(Some(ChangeValue([m] + rest)))] + later)] + more)) == Some(m)
  {
  }

  lemma ThanksRepliesToSender(from: string, choices: seq<string>, roll: real, net: Network)
    requires 0.0 <= roll < 1.0
    ensures forall r :: r in ThanksReply(from, choices, roll, net) ==> AddressedTo(r, from)
  {
  }

  lemma TextRepliesToSender(msg: Message, cfg: Config, roll: real, net: Network)
    requires 0.0 <= roll < 1.0
    ensures forall r :: r in TextReply(msg, cfg, roll, net) ==> AddressedTo(r, msg.from)
  {
    match NormalizedText(msg.text)
    case None =>
    case Some(t) =>
      if IsThanks(t) {
        ThanksRepliesToSender(msg.from, StickerChoices(cfg), roll, net);
      }
  }

  lemma ImageRepliesToSender(msg: Message, net: Network, encode: Encoder)
    ensures forall r :: r in ImageReply(msg, net, encode) ==> AddressedTo(r, msg.from)
  {
    var a := ImageAttempt(msg, net, encode);
    if msg.image.Some? {
      AttemptFollowsSuccessPath(msg, net, encode);
      var path := SuccessPath(msg.image.value.id, msg.from, net, SearchedBytes(net, encode));
      assert forall r :: r in a.requests ==> r in path;
    }
  }

  /** Every message the handler sends goes back to the sender of the message it handles. */
  lemma RepliesGoToSender(p: Payload, cfg: Config, roll: real, net: Network, encode: Encoder, msg: Message)
    requires 0.0 <= roll < 1.0
    requires ExtractMessage(p) == Some(msg)
    ensures forall r :: r in Respond(p, cfg, roll, net, encode) ==> AddressedTo(r, msg.from)
  {
    if msg.msgType == TextType {
      TextRepliesToSender(msg, cfg, roll, net);
    } else if msg.msgType == ImageType {
      ImageRepliesToSender(msg, net, encode);
    }
  }

  /** A message of any type other than text and image gets exactly the greeting. */
  lemma OtherTypeGreets(p: Payload, cfg: Config, roll: real, net: Network, encode: Encoder, msg: Message)
    requires 0.0 <= roll < 1.0
    requires ExtractMessage(p) == Some(msg) && msg.msgType != TextType && msg.msgType != ImageType
    ensures Respond(p, cfg, roll, net, encode) == [SendText(msg.from, Greeting)]
  {
  }

  /** A text body that is a truthy non-string makes `trim` throw: nothing is sent. */
  lemma NonStringBodyNoRequests(p: Payload, cfg: Config, roll: real, net: Network, encode: Encoder, msg: Message)
    requires 0.0 <= roll < 1.0
    requires ExtractMessage(p) == Some(msg) && msg.msgType == TextType && msg.text == NonString(true)
    ensures Respond(p, cfg, roll, net, encode) == []
  {
  }

  /** `IsThanks` holds exactly when "obrigada" or "obrigado" occurs somewhere in the text. */
  lemma ThanksIffSubstring(t: string)
    ensures IsThanks(t) <==> exists i :: OccursAt(t, "obrigada", i) || OccursAt(t, "obrigado", i)
  {
    IncludesIffOccurs(t, "obrigada");
    IncludesIffOccurs(t, "obrigado");
  }

  lemma LowerKeepsWhitespace(c: char)
    ensures IsWhitespace(LowerChar(c)) <==> IsWhitespace(c)
  {
  }

  /** Normalising a normalised text changes nothing: the thanks test sees a fixed point. */
  lemma NormalizeIdempotent(s: string)
    ensures Normalize(Normalize(s)) == Normalize(s)
  {
    var t := Trim(s);
    var r := ToLower(t);
    if |r| > 0 {
      LowerKeepsWhitespace(t[0]);
      LowerKeepsWhitespace(t[|t| - 1]);
    }
    TrimStartOfTrimmed(r);
    assert TrimEnd(r) == r;
    assert Trim(r) == r;
    ToLowerIdempotent(t);
  }

  /** A text whose normal form is not a thank-you gets exactly the greeting. */
  lemma PlainTextGreets(p: Payload, cfg: Config, roll: real, net: Network, encode: Encoder, msg: Message, t: string)
    requires 0.0 <= roll < 1.0
    requires ExtractMessage(p) == Some(msg) && msg.msgType == TextType
    requires NormalizedText(msg.text) == Some(t) && !IsThanks(t)
    ensures Respond(p, cfg, roll, net, encode) == [SendText(msg.from, Greeting)]
  {
  }

  /** A thank-you with no sticker id configured gets exactly the configuration hint and no sticker. */
  lemma ThanksWithoutIds(p: Payload, cfg: Config, roll: real, net: Network, encode: Encoder, msg: Message, t: string)
    requires 0.0 <= roll < 1.0
    requires ExtractMessage(p) == Some(msg) && msg.msgType == TextType
    requires NormalizedText(msg.text) == Some(t) && IsThanks(t)
    requires cfg.lilaId in {None, Some("")} && cfg.doryId in {None, Some("")}
    ensures Respond(p, cfg, roll, net, encode) == [SendText(msg.from, ConfigHint)]
  {
    assert Respond(p, cfg, roll, net, encode) == ThanksReply(msg.from, StickerChoices(cfg), roll, net);
  }

  /**
   * A thank-you with a sticker id configured gets a sticker whose id is one of the
   * configured, non-empty ids; when that send fails, exactly one fallback text follows.
   */
  lemma ThanksSticker(p: Payload, cfg: Config, roll: real, net: Network, encode: Encoder, msg: Message, t: string)
    requires 0.0 <= roll < 1.0
    requires ExtractMessage(p) == Some(msg) && msg.msgType == TextType
    requires NormalizedText(msg.text) == Some(t) && IsThanks(t)
    requires (cfg.lilaId.Some? && cfg.lilaId.value != "") || (cfg.doryId.Some? && cfg.doryId.value != "")
    ensures var reply := Respond(p, cfg, roll, net, encode);
      && |reply| == (if net.succeeds(0) then 1 else 2)
      && reply[0].SendSticker? && reply[0].to == msg.from
      && reply[0].stickerId != ""
      && (Some(reply[0].stickerId) == cfg.lilaId || Some(reply[0].stickerId) == cfg.doryId)
      && (|reply| == 2 ==> reply[1] == SendText(msg.from, ThanksFallback))
  {
    assert Respond(p, cfg, roll, net, encode) == ThanksReply(msg.from, StickerChoices(cfg), roll, net);
    var ids := [cfg.lilaId, cfg.doryId];
    var choices := StickerChoices(cfg);
    var some := if cfg.lilaId.Some? && cfg.lilaId.value != "" then cfg.lilaId.value else cfg.doryId.value;
    NonEmptyIdsMembers(ids, some);
    var pick := choices[PickIndex(roll, |choices|)];
    NonEmptyIdsMembers(ids, pick);
  }

  /** With both ids configured, a draw below one half picks the first and any other draw the second. */
  lemma BothIdsSplitTheDraw(lila: string, dory: string, roll: real)
    requires lila != "" && dory != "" && 0.0 <= roll < 1.0
    ensures StickerChoices(Config(Some(lila), Some(dory))) == [lila, dory]
    ensures StickerChoices(Config(Some(lila), Some(dory)))[PickIndex(roll, 2)] == if roll < 0.5 then lila else dory
  {
    var ids := [Some(lila), Some(dory)];
    assert ids[1..] == [Some(dory)] && ids[1..][1..] == [];
    assert NonEmptyIds(ids[1..]) == [dory];
  }

  /** Every index below `n` is drawn by some value of `Math.random()`. */
  lemma PickReachesEvery(n: nat, k: nat)
    requires k < n
    ensures 0.0 <= k as real / n as real < 1.0
    ensures PickIndex(k as real / n as real, n) == k
  {
    var roll := k as real / n as real;
    assert roll * n as real == k as real;
  }

  /** Image branch: whether every step of the pipeline succeeds. */
  predicate PipelineSucceeds(msg: Message, net: Network, encode: Encoder)
  {
    && msg.image.Some?
    && QualitySearch(net.imageBytes, encode).result.Some?
    && net.succeeds(0) && net.succeeds(1) && net.succeeds(2) && net.succeeds(3) && net.succeeds(4)
  }

  /** The requests of a pipeline that runs through: look up, download, upload, send the sticker, confirm. */
  function SuccessPath(mediaId: Option<string>, from: string, net: Network, webp: Bytes): seq<Request>
  {
    [ GetMediaInfo(mediaId), GetMedia(net.mediaUrl), UploadSticker(webp),
      SendSticker(from, net.uploadedId), SendText(from, Confirmation) ]
  }

  /** The buffer the quality search produced, or the empty buffer when it threw. */
  function SearchedBytes(net: Network, encode: Encoder): Bytes
  {
    match QualitySearch(net.imageBytes, encode).result
    case Some(webp) => webp
    case None => []
  }

  /** The `try` block of the image branch issues a prefix of the success path; all of it exactly when every step succeeds. */
  lemma AttemptFollowsSuccessPath(msg: Message, net: Network, encode: Encoder)
    requires msg.image.Some?
    ensures var a := ImageAttempt(msg, net, encode);
      && |a.requests| <= 5
      && a.requests == SuccessPath(msg.image.value.id, msg.from, net, SearchedBytes(net, encode))[..|a.requests|]
      && (a.completed <==> PipelineSucceeds(msg, net, encode))
      && (a.completed ==> |a.requests| == 5)
      && (forall i :: 0 <= i < |a.requests| - 1 ==> net.succeeds(i))
      && (!a.completed ==>
            || !net.succeeds(|a.requests| - 1)
            || (|a.requests| == 2 && net.succeeds(1) && QualitySearch(net.imageBytes, encode).result.None?))
  {
  }

  /**
   * On success the image branch uploads the buffer the quality search chose, then sends
   * the sticker that references the uploaded id, then the confirmation text, and nothing else.
   */
  lemma ImageSuccess(p: Payload, cfg: Config, roll: real, net: Network, encode: Encoder, msg: Message)
    requires 0.0 <= roll < 1.0
    requires ExtractMessage(p) == Some(msg) && msg.msgType == ImageType
    requires PipelineSucceeds(msg, net, encode)
    ensures Respond(p, cfg, roll, net, encode) == SuccessPath(msg.image.value.id, msg.from, net, SearchedBytes(net, encode))
  {
  }

  /**
   * A failure at any step of the image branch stops the pipeline: the requests issued
   * are the steps of the success path up to the failing one, each once, followed by
   * exactly one apology text.
   */
  lemma ImageFailure(p: Payload, cfg: Config, roll: real, net: Network, encode: Encoder, msg: Message)
    requires 0.0 <= roll < 1.0
    requires ExtractMessage(p) == Some(msg) && msg.msgType == ImageType
    requires !PipelineSucceeds(msg, net, encode)
    ensures var reply := Respond(p, cfg, roll, net, encode);
      var k := |reply| - 1;
      && 0 <= k <= 5
      && reply[k] == SendText(msg.from, Apology)
      && multiset(reply)[SendText(msg.from, Apology)] == 1
      && (k > 0 ==>
            && msg.image.Some?
            && reply[..k] == SuccessPath(msg.image.value.id, msg.from, net, SearchedBytes(net, encode))[..k]
            && (forall i :: 0 <= i < k - 1 ==> net.succeeds(i))
            && (|| !net.succeeds(k - 1)
                || (k == 2 && net.succeeds(1) && QualitySearch(net.imageBytes, encode).result.None?)))
      && (k == 0 ==> msg.image.None?)
  {
    var reply := Respond(p, cfg, roll, net, encode);
    var a := ImageAttempt(msg, net, encode);
    assert reply == a.requests + [SendText(msg.from, Apology)];
    var k := |a.requests|;
    assert reply[..k] == a.requests;
    if msg.image.Some? {
      AttemptFollowsSuccessPath(msg, net, encode);
      var path := SuccessPath(msg.image.value.id, msg.from, net, SearchedBytes(net, encode));
      assert SendText(msg.from, Apology) !in path;
      assert forall r :: r in a.requests ==> r in path;
    }
    assert multiset(reply) == multiset(a.requests) + multiset{SendText(msg.from, Apology)};
  }

  /** When the image library throws, the `try` block stops right after the download and does not complete. */
  lemma EncodeFailureStopsAttempt(msg: Message, net: Network, encode: Encoder)
    requires QualitySearch(net.imageBytes, encode).result.None?
    ensures var a := ImageAttempt(msg, net, encode);
      |a.requests| <= 2 && !a.completed
  {
  }

  /**
   * When the lookup and the download succeed but the image library throws, the branch
   * issues the lookup, the download and the apology, and nothing else: no upload and no sticker.
   */
  lemma ImageEncodeFailure(p: Payload, cfg: Config, roll: real, net: Network, encode: Encoder, msg: Message)
    requires 0.0 <= roll < 1.0
    requires ExtractMessage(p) == Some(msg) && msg.msgType == ImageType && msg.image.Some?
    requires net.succeeds(0) && net.succeeds(1) && QualitySearch(net.imageBytes, encode).result.None?
    ensures Respond(p, cfg, roll, net, encode)
      == [GetMediaInfo(msg.image.value.id), GetMedia(net.mediaUrl), SendText(msg.from, Apology)]
  {
    assert Respond(p, cfg, roll, net, encode) == ImageReply(msg, net, encode);
  }

  /** The image branch never issues the same request twice: there is no retry. */
  lemma ImageNoRetry(p: Payload, cfg: Config, roll: real, net: Network, encode: Encoder, msg: Message)
    requires 0.0 <= roll < 1.0
    requires ExtractMessage(p) == Some(msg) && msg.msgType == ImageType
    ensures var reply := Respond(p, cfg, roll, net, encode);
      forall i, j :: 0 <= i < j < |reply| ==> reply[i] != reply[j]
  {
    assert Respond(p, cfg, roll, net, encode) == ImageReply(msg, net, encode);
    ImageReplyDistinct(msg, net, encode);
  }

  lemma ImageReplyDistinct(msg: Message, net: Network, encode: Encoder)
    ensures var reply := ImageReply(msg, net, encode);
      forall i, j :: 0 <= i < j < |reply| ==> reply[i] != reply[j]
  {
    var a := ImageAttempt(msg, net, encode);
    var apology := SendText(msg.from, Apology);
    if msg.image.None? {
      assert ImageReply(msg, net, encode) == [apology];
    } else {
      AttemptFollowsSuccessPath(msg, net, encode);
      var path := SuccessPath(msg.image.value.id, msg.from, net, SearchedBytes(net, encode));
      var n := |a.requests|;
      assert a.requests == path[..n];
      assert forall i, j :: 0 <= i < j < 5 ==> path[i] != path[j];
      assert apology !in path;
    }
  }
}
