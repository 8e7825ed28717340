/**
 * The adaptive WEBP quality search of the image-to-sticker pipeline. The image
 * library's resize-and-encode step is a parameter, `encode(image, quality)`, which
 * yields the encoded buffer or `None` when the library throws.
 */
module StickerEncoding {
  import opened Options

  type Bytes = seq<bv8>

  /** The image library applied to the downloaded bytes at a WEBP quality; `None` when it throws. */
  type Encoder = (Bytes, int) -> Option<Bytes>

  /** The size a sticker should not exceed: 100 KiB. */
  const MaxStickerBytes: nat := 100 * 1024

  const StartQuality: int := 80
  const QualityStep: int := 5

  /** The loop re-encodes only while the current quality is at least this. */
  const GuardQuality: int := 40

  /** The lowest quality the search can reach: the guard is tested before the decrement. */
  const LowestQuality: int := GuardQuality - QualityStep

  /** At most this many encodes: 80, 75, ..., 35. */
  const MaxEncodes: nat := (StartQuality - LowestQuality) / QualityStep + 1

  /** The `i`-th quality of the descending scan. */
  function QualityAt(i: nat): int
  {
    StartQuality - QualityStep * i
  }

  predicate Fits(webp: Bytes)
  {
    |webp| <= MaxStickerBytes
  }

  /** The record of one search: the qualities encoded, in order, and the final buffer or the failure. */
  datatype Search = Search(tried: seq<int>, result: Option<Bytes>)

  /**
   * The search from quality `q` on, after the qualities in `done` were encoded and
   * found too large: encode at `q`; stop on a failure, on a buffer that fits, or when
   * `q` is below the guard; otherwise go on at `q - 5`.
   */
  function SearchFrom(image: Bytes, encode: Encoder, q: int, done: seq<int>): (s: Search)
    ensures |s.tried| > |done| && s.tried[..|done|] == done && s.tried[|done|] == q
    decreases q
  {
    match encode(image, q)
    case None => Search(done + [q], None)
    case Some(webp) =>
      if !Fits(webp) && q >= GuardQuality then SearchFrom(image, encode, q - QualityStep, done + [q])
      else Search(done + [q], Some(webp))
  }

  /** The whole search, starting at quality 80 with nothing encoded yet. */
  function QualitySearch(image: Bytes, encode: Encoder): Search
  {
    SearchFrom(image, encode, StartQuality, [])
  }

  /** The shape every search started at quality 80 has. */
  ghost predicate WellFormed(image: Bytes, encode: Encoder, s: Search)
  {
    var n := |s.tried|;
    && 1 <= n <= MaxEncodes
    && (forall i :: 0 <= i < n ==> s.tried[i] == QualityAt(i))
    && (forall i :: 0 <= i < n - 1 ==>
          encode(image, s.tried[i]).Some? && !Fits(encode(image, s.tried[i]).value))
    && s.result == encode(image, s.tried[n - 1])
    && (s.result.Some? ==> Fits(s.result.value) || s.tried[n - 1] == LowestQuality)
  }

  lemma {:induction false} SearchFromShape(image: Bytes, encode: Encoder, q: int, done: seq<int>)
    requires |done| < MaxEncodes && q == QualityAt(|done|)
    requires forall i :: 0 <= i < |done| ==> done[i] == QualityAt(i)
    requires forall i :: 0 <= i < |done| ==> encode(image, done[i]).Some? && !Fits(encode(image, done[i]).value)
    ensures WellFormed(image, encode, SearchFrom(image, encode, q, done))
    decreases q
  {
    var s := SearchFrom(image, encode, q, done);
    match encode(image, q)
    case None =>
      assert s == Search(done + [q], None);
    case Some(webp) =>
      if !Fits(webp) && q >= GuardQuality {
        SearchFromShape(image, encode, q - QualityStep, done + [q]);
      } else {
        assert s == Search(done + [q], Some(webp));
      }
  }

  /**
   * The search encodes at 80, 75, ... in order, at most ten times; every quality but the
   * last gave an oversized buffer; the result is the encoding at the last quality, and
   * when it exists it fits or the quality is 35.
   */
  lemma SearchShape(image: Bytes, encode: Encoder)
    ensures WellFormed(image, encode, QualitySearch(image, encode))
  {
    SearchFromShape(image, encode, StartQuality, []);
  }

  /** Every quality tried is a multiple of 5 between 35 and 80. */
  lemma QualitiesInRange(image: Bytes, encode: Encoder)
    ensures forall q :: q in QualitySearch(image, encode).tried ==>
      LowestQuality <= q <= StartQuality && q % QualityStep == 0
  {
    var s := QualitySearch(image, encode);
    SearchShape(image, encode);
    forall q | q in s.tried ensures LowestQuality <= q <= StartQuality && q % QualityStep == 0 {
      var i :| 0 <= i < |s.tried| && s.tried[i] == q;
      QualityAtInRange(i);
    }
  }

  lemma QualityAtInRange(i: nat)
    requires i < MaxEncodes
    ensures LowestQuality <= QualityAt(i) <= StartQuality && QualityAt(i) % QualityStep == 0
  {
    assert QualityAt(i) == QualityStep * (16 - i);
  }

  /**
   * The buffer returned is the encoding at the highest quality of the scan whose buffer
   * fits: no higher quality on the scan gave a fitting buffer.
   */
  lemma HighestFittingQuality(image: Bytes, encode: Encoder, j: nat)
    requires QualitySearch(image, encode).result.Some?
    requires Fits(QualitySearch(image, encode).result.value)
    requires QualityAt(j) > QualitySearch(image, encode).tried[|QualitySearch(image, encode).tried| - 1]
    ensures encode(image, QualityAt(j)).Some? && !Fits(encode(image, QualityAt(j)).value)
  {
    var s := QualitySearch(image, encode);
    SearchShape(image, encode);
    assert j < |s.tried| - 1;
    assert s.tried[j] == QualityAt(j);
  }

  /** When nothing on the scan fits, the search ends at 35 after ten encodes with the buffer encoded there. */
  lemma FloorReached(image: Bytes, encode: Encoder)
    requires forall i :: 0 <= i < MaxEncodes ==>
      encode(image, QualityAt(i)).Some? && !Fits(encode(image, QualityAt(i)).value)
    ensures |QualitySearch(image, encode).tried| == MaxEncodes
    ensures QualitySearch(image, encode).result == encode(image, LowestQuality)
  {
    var s := QualitySearch(image, encode);
    SearchShape(image, encode);
    var n := |s.tried|;
    assert s.tried[n - 1] == QualityAt(n - 1);
  }

  /** When the buffer at quality 80 fits, exactly one encode happens. */
  lemma OneEncodeWhenStartFits(image: Bytes, encode: Encoder)
    requires encode(image, StartQuality).Some? && Fits(encode(image, StartQuality).value)
    ensures QualitySearch(image, encode) == Search([StartQuality], encode(image, StartQuality))
  {
    SearchShape(image, encode);
  }

  /**
   * `makeWebp` in a loop: encode at 80, and while the buffer is over 100 KiB and the
   * quality is at least 40, lower the quality by 5 and encode again. A throw of the
   * image library ends the search with `None`.
   */
  method MakeWebp(image: Bytes, encode: Encoder) returns (webp: Option<Bytes>, q: int, tried: seq<int>)
    ensures Search(tried, webp) == QualitySearch(image, encode)
    ensures |tried| > 0 && q == tried[|tried| - 1]
    ensures WellFormed(image, encode, Search(tried, webp))
  {
    q := StartQuality;
    webp := encode(image, q);
    tried := [q];
    ghost var done: seq<int> := [];
    while webp.Some? && !Fits(webp.value) && q >= GuardQuality
      invariant tried == done + [q] && |tried| <= MaxEncodes && q == QualityAt(|done|)
      invariant webp == encode(image, q)
      invariant SearchFrom(image, encode, q, done) == QualitySearch(image, encode)
      decreases q
    {
      done := tried;
      q := q - QualityStep;
      webp := encode(image, q);
      tried := tried + [q];
    }
    SearchShape(image, encode);
  }
}
