/**
 * The `POST /webhook` handler: it takes the first message of a delivery, answers a
 * thank-you text with a sticker, turns an image into a sticker, greets otherwise, and
 * always acknowledges the delivery with status 200.
 *
 * Every network request the handler issues is recorded, in order, in a trace. Whether a
 * request succeeds is a parameter: `net.succeeds(n)` for the `n`-th request of the
 * delivery (counting from 0). What successful requests return (the media URL, the image
 * bytes, the uploaded sticker id) are parameters too, as is the random draw in [0, 1).
 */
module Dispatcher {
  import opened Options
  import opened JsText
  import opened StickerEncoding

  /** `msg.text?.body`: absent, a string, or another JSON value (truthy or falsy). */
  datatype TextBody = Absent | Str(s: string) | NonString(truthy: bool)

  /** `msg.image`, when present: its media id may itself be absent. */
  datatype MediaRef = MediaRef(id: Option<string>)

  datatype Message = Message(from: string, msgType: string, text: TextBody, image: Option<MediaRef>)

  /** The JSON body of a delivery: `entry[].changes[].value.messages[]` (an absent array is empty). */
  datatype ChangeValue = ChangeValue(messages: seq<Message>)
  datatype Change = Change(value: Option<ChangeValue>)
  datatype Entry = Entry(changes: seq<Change>)
  datatype Payload = Payload(entry: seq<Entry>)

  /** The two thank-you sticker ids read from the environment (`LILA_ID_1`, `DORY_ID_1`). */
  datatype Config = Config(lilaId: Option<string>, doryId: Option<string>)

  /** The outcomes of the network: which requests succeed, and what the successful ones return. */
  datatype Network = Network(succeeds: nat -> bool, mediaUrl: string, imageBytes: Bytes, uploadedId: string)

  /** The requests the handler issues to the messaging platform's API. */
  datatype Request =
    | SendSticker(to: string, stickerId: string)  // POST /messages, type sticker
    | SendText(to: string, body: string)          // POST /messages, type text
    | GetMediaInfo(mediaId: Option<string>)       // GET /{media id}: the download URL
    | GetMedia(url: string)                       // GET of the download URL: the image bytes
    | UploadSticker(webp: Bytes)                  // POST /media, multipart `sticker.webp`

  const ThanksFallback: string := "\U{1F49B} de nada! (mande uma imagem que viro figurinha \U{1F609})"
  const ConfigHint: string :=
    "Recebi seu \U{201C}obrigada\U{201D}! Configure THANKS_STICKER_ID1/2 para eu mandar figurinhas \U{1F60A}"
  const Greeting: string := "Oi! Manda uma foto que eu viro figurinha \U{1F60E}"
  const Confirmation: string := "\U{2705} Pra voc\U{00EA}! \U{1F339}"
  const Apology: string := "\U{274C} N\U{00E3}o consegui gerar a figurinha. Tenta outra imagem?"

  const TextType: string := "text"
  const ImageType: string := "image"

  /** `req.body?.entry?.[0]?.changes?.[0]?.value?.messages?.[0]`. */
  function ExtractMessage(p: Payload): (r: Option<Message>)
    ensures r.Some? <==>
      && |p.entry| > 0 && |p.entry[0].changes| > 0
      && p.entry[0].changes[0].value.Some? && |p.entry[0].changes[0].value.value.messages| > 0
    ensures r.Some? ==> r.value == p.entry[0].changes[0].value.value.messages[0]
  {
    if |p.entry| == 0 || |p.entry[0].changes| == 0 then None
    else match p.entry[0].changes[0].value
      case None => None
      case Some(v) => if |v.messages| == 0 then None else Some(v.messages[0])
  }

  /** `s.trim().toLowerCase()`. */
  function Normalize(s: string): string
  {
    ToLower(Trim(s))
  }

  /** `(msg.text?.body || '').trim().toLowerCase()`; `None` when `trim` is called on a truthy non-string and throws. */
  function NormalizedText(body: TextBody): (r: Option<string>)
    ensures r.None? <==> body == NonString(true)
    ensures body.Str? ==> r == Some(Normalize(body.s))
    ensures !body.Str? && r.Some? ==> r.value == ""
    ensures r.Some? ==> forall i :: 0 <= i < |r.value| ==> !IsUpper(r.value[i])
  {
    match body
    case Absent => Some("")
    case Str(s) => Some(Normalize(s))
    case NonString(truthy) => if truthy then None else Some("")
  }

  predicate IsThanks(text: string)
  {
    Includes(text, "obrigada") || Includes(text, "obrigado")
  }

  /** `[LILA_ID_1, DORY_ID_1].filter(Boolean)`. */
  function StickerChoices(cfg: Config): seq<string>
  {
    NonEmptyIds([cfg.lilaId, cfg.doryId])
  }

  /** `Math.floor(Math.random() * n)` for a draw `roll` in [0, 1): always an index below `n`. */
  function PickIndex(roll: real, n: nat): (i: nat)
    requires 0.0 <= roll < 1.0 && n > 0
    ensures i < n
  {
    var x := roll * n as real;
    assert 0.0 <= x < n as real by {
      assert roll * n as real < 1.0 * n as real;
    }
    x.Floor
  }

  /** The thank-you branch: a sticker (with a fallback text if it fails) or, with no ids, a hint. */
  function ThanksReply(from: string, choices: seq<string>, roll: real, net: Network): seq<Request>
    requires 0.0 <= roll < 1.0
  {
    if |choices| == 0 then [SendText(from, ConfigHint)]
    else
      var sticker := SendSticker(from, choices[PickIndex(roll, |choices|)]);
      if net.succeeds(0) then [sticker] else [sticker, SendText(from, ThanksFallback)]
  }

  /** The text branch. */
  function TextReply(msg: Message, cfg: Config, roll: real, net: Network): seq<Request>
    requires 0.0 <= roll < 1.0
  {
    match NormalizedText(msg.text)
    case None => []
    case Some(text) =>
      if IsThanks(text) then ThanksReply(msg.from, StickerChoices(cfg), roll, net)
      else [SendText(msg.from, Greeting)]
  }

  /** The requests of the image pipeline's `try` block, and whether the block ran to its end. */
  datatype Attempt = Attempt(requests: seq<Request>, completed: bool)

  function ImageAttempt(msg: Message, net: Network, encode: Encoder): Attempt
  {
    match msg.image
    case None => Attempt([], false)
    case Some(ref) =>
      var r1 := [GetMediaInfo(ref.id)];
      if !net.succeeds(0) then Attempt(r1, false)
      else
        var r2 := r1 + [GetMedia(net.mediaUrl)];
        if !net.succeeds(1) then Attempt(r2, false)
        else match QualitySearch(net.imageBytes, encode).result
          case None => Attempt(r2, false)
          case Some(webp) =>
            var r3 := r2 + [UploadSticker(webp)];
            if !net.succeeds(2) then Attempt(r3, false)
            else
              var r4 := r3 + [SendSticker(msg.from, net.uploadedId)];
              if !net.succeeds(3) then Attempt(r4, false)
              else Attempt(r4 + [SendText(msg.from, Confirmation)], net.succeeds(4))
  }

  /** The image branch: the pipeline, then the apology text if any step threw. */
  function ImageReply(msg: Message, net: Network, encode: Encoder): seq<Request>
  {
    var a := ImageAttempt(msg, net, encode);
    if a.completed then a.requests else a.requests + [SendText(msg.from, Apology)]
  }

  /** The requests one delivery causes. */
  function Respond(p: Payload, cfg: Config, roll: real, net: Network, encode: Encoder): seq<Request>
    requires 0.0 <= roll < 1.0
  {
    match ExtractMessage(p)
    case None => []
    case Some(msg) =>
      if msg.msgType == TextType then TextReply(msg, cfg, roll, net)
      else if msg.msgType == ImageType then ImageReply(msg, net, encode)
      else [SendText(msg.from, Greeting)]
  }

  /** Issue one request: it joins the trace, and succeeds as the network says for its position. */
  method Send(trace: seq<Request>, req: Request, net: Network) returns (after: seq<Request>, ok: bool)
    ensures after == trace + [req] && ok == net.succeeds(|trace|)
  {
    after := trace + [req];
    ok := net.succeeds(|trace|);
  }

  /** The `try` block of the image branch: each step returns early, as a throw would, when it fails. */
  method TryImagePipeline(msg: Message, net: Network, encode: Encoder) returns (trace: seq<Request>, completed: bool)
    ensures Attempt(trace, completed) == ImageAttempt(msg, net, encode)
  {
    trace, completed := [], false;
    if msg.image.None? {
      return;
    }
    var ok;
    trace, ok := Send(trace, GetMediaInfo(msg.image.value.id), net);
    if !ok {
      return;
    }
    var url := net.mediaUrl;
    trace, ok := Send(trace, GetMedia(url), net);
    if !ok {
      return;
    }
    var image := net.imageBytes;
    var webp := EncodeSticker(image, encode);
    if webp.None? {
      return;
    }
    trace, ok := Send(trace, UploadSticker(webp.value), net);
    if !ok {
      return;
    }
    var stickerId := net.uploadedId;
    trace, ok := Send(trace, SendSticker(msg.from, stickerId), net);
    if !ok {
      return;
    }
    trace, ok := Send(trace, SendText(msg.from, Confirmation), net);
    completed := ok;
  }

  /** The buffer `makeWebp` produces for the downloaded bytes, or `None` when the image library throws. */
  method EncodeSticker(image: Bytes, encode: Encoder) returns (webp: Option<Bytes>)
    ensures webp == QualitySearch(image, encode).result
  {
    var q, tried;
    webp, q, tried := MakeWebp(image, encode);
  }

  /**
   * The text branch: normalise the body, then answer a thank-you with a sticker or the
   * configuration hint, and anything else with the greeting. `threw` tells that a step
   * threw to the outer `catch`.
   */
  method HandleText(msg: Message, cfg: Config, roll: real, net: Network) returns (trace: seq<Request>, threw: bool)
    requires 0.0 <= roll < 1.0
    ensures trace == TextReply(msg, cfg, roll, net)
    ensures threw <==> trace == [] || !net.succeeds(|trace| - 1)
  {
    var text := NormalizedText(msg.text);
    if text.None? {
      trace, threw := [], true;
      return;
    }
    if IsThanks(text.value) {
      trace, threw := HandleThanks(msg.from, StickerChoices(cfg), roll, net);
      return;
    }
    var ok;
    trace, ok := Send([], SendText(msg.from, Greeting), net);
    threw := !ok;
  }

  /** A thank-you: a randomly chosen sticker, with the fallback text when it fails, or the hint when no id is configured. */
  method HandleThanks(from: string, choices: seq<string>, roll: real, net: Network) returns (trace: seq<Request>, threw: bool)
    requires 0.0 <= roll < 1.0
    ensures trace == ThanksReply(from, choices, roll, net)
    ensures |trace| > 0 && (threw <==> !net.succeeds(|trace| - 1))
  {
    var ok;
    threw := false;
    if |choices| > 0 {
      var pick := choices[PickIndex(roll, |choices|)];
      trace, ok := Send([], SendSticker(from, pick), net);
      if !ok {
        trace, ok := Send(trace, SendText(from, ThanksFallback), net);
        threw := !ok;
      }
    } else {
      trace, ok := Send([], SendText(from, ConfigHint), net);
      threw := !ok;
    }
  }

  /**
   * The POST handler. A step that throws leaves its branch through the outer `catch`;
   * every exit answers 200.
   */
  method HandlePost(p: Payload, cfg: Config, roll: real, net: Network, encode: Encoder)
    returns (status: int, trace: seq<Request>)
    requires 0.0 <= roll < 1.0
    ensures status == 200
    ensures trace == Respond(p, cfg, roll, net, encode)
  {
    trace := [];
    var ok, threw: bool;
    label handler: {
      var found := ExtractMessage(p);
      if found.None? {
        status := 200;
        return;
      }
      var msg := found.value;
      if msg.msgType == TextType {
        trace, threw := HandleText(msg, cfg, roll, net);
        if threw {
          break handler;
        }
        status := 200;
        return;
      }
      if msg.msgType == ImageType {
        var completed;
        trace, completed := TryImagePipeline(msg, net, encode);
        if !completed {
          trace, ok := Send(trace, SendText(msg.from, Apology), net);
          if !ok {
            break handler;
          }
        }
        status := 200;
        return;
      }
      trace, ok := Send(trace, SendText(msg.from, Greeting), net);
    }
    status := 200;
  }
}
