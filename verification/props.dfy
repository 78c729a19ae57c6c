/** Property values (reborn_protocol/props.py): how each wire form is written, read and
    measured. */
module Props {
  import opened Bytes
  import opened Numerals
  import opened GTypes

  datatype Wire =
    | GByte | Raw | StringW | LongString | Void | Tile | HalfTile | TileZ | Pixel
    | Colors | EffectColors | SwordPower | PowerImage | HeadGif | EloRating | AttachNpc | ImagePart

  datatype Desc = Desc(wire: Wire, width: nat, bias: nat)

  datatype PropValue =
    | Nothing
    | IntV(n: int)
    | BytesV(b: bytes)
    | TextV(s: string)
    | TilesV(tiles: real)
    | IntsV(ns: seq<int>)
    | PowerV(power: int, image: Option<string>)
    | PairV(first: int, second: int)
    | PartV(x: int, y: int, w: int, h: int)

  // ------------------------------------------------------------ reading

  /** `_read_gbyte` */
  function ReadGByte(data: bytes, pos: nat, count: nat): (Option<int>, nat)
    requires pos <= |data|
  {
    if pos + count > |data| then (None, |data|)
    else
      var value := Fold(data[pos..pos + count]);
      (Some(if count == 5 then value % 0x1_0000_0000 else Max(0, value)), pos + count)
  }

  /** `_read_string`: nothing for an empty or truncated string; a truncated one reports
      where its length pointed. */
  function ReadString(data: bytes, pos: nat, lengthBytes: nat): (Option<string>, nat)
    requires pos <= |data|
  {
    var (length, at) := ReadGByte(data, pos, lengthBytes);
    if length.None? || length.value <= 0 then (None, at)
    else if at + length.value > |data| then (None, at + length.value)
    else (Some(Decode(data[at..at + length.value])), at + length.value)
  }

  function OrNothing(s: Option<string>): PropValue { if s.Some? then TextV(s.value) else Nothing }

  function Raised(b: byte): int { (b as int) - 32 }

  function RaisedAll(data: bytes): seq<int> {
    seq(|data|, i requires 0 <= i < |data| => Max(0, Raised(data[i])))
  }

  function SignedHalfTile(raw: int): int { if raw >= 216 then raw - 256 else raw }

  /** `decode_value` */
  function DecodeValue(d: Desc, data: bytes, pos: nat, colorsLen: nat): (PropValue, nat)
    requires pos <= |data|
  {
    var n := |data|;
    match d.wire
    case Void => (Nothing, pos)
    case GByte =>
      var (v, at) := ReadGByte(data, pos, d.width);
      (if v.Some? then IntV(v.value) else Nothing, at)
    case Raw =>
      if pos + d.width > n then (Nothing, n) else (BytesV(data[pos..pos + d.width]), pos + d.width)
    case StringW => var (s, at) := ReadString(data, pos, 1); (OrNothing(s), at)
    case LongString =>
      var (length, at) := ReadGByte(data, pos, 2);
      if length.None? || length.value < 0 then (Nothing, n)
      else (TextV(Decode(data[at..Min(at + length.value, n)])), at + length.value)
    case Tile =>
      if pos >= n then (Nothing, pos)
      else (TilesV(SignedHalfTile(Raised(data[pos])) as real / 2.0), pos + 1)
    case HalfTile =>
      if pos >= n then (Nothing, pos) else (TilesV(Raised(data[pos]) as real / 2.0), pos + 1)
    case TileZ => if pos >= n then (Nothing, pos) else (IntV(Raised(data[pos]) - 50), pos + 1)
    case Pixel =>
      var (raw, at) := ReadGByte(data, pos, 2);
      if raw.None? then (Nothing, at)
      else (TilesV((if raw.value % 2 == 1 then -(raw.value / 2) else raw.value / 2) as real / 16.0), at)
    case Colors => (IntsV(RaisedAll(data[pos..Min(pos + colorsLen, n)])), pos + colorsLen)
    case EffectColors =>
      if pos >= n then (Nothing, pos)
      else if Raised(data[pos]) == 0 then (IntsV([0]), pos + 1)
      else (IntsV(RaisedAll(data[pos..Min(pos + 5, n)])), pos + 5)
    case SwordPower =>
      if pos >= n then (PowerV(0, None), pos)
      else if Raised(data[pos]) < d.bias then (PowerV(Max(0, Raised(data[pos])), None), pos + 1)
      else
        var (image, at) := ReadString(data, pos + 1, 1);
        (PowerV(Max(0, Raised(data[pos]) - d.bias), Some(if image.Some? then image.value else "")), at)
    case PowerImage =>
      if pos >= n then (Nothing, pos)
      else
        var (image, at) := ReadString(data, pos + 1, 1);
        (PowerV(Max(0, Raised(data[pos])), image), at)
    case HeadGif =>
      if pos >= n then (Nothing, pos)
      else
        var length := Raised(data[pos]);
        if length < 100 then (IntV(length), pos + 1)
        else if pos + 1 + (length - 100) > n then (Nothing, pos + 1 + (length - 100))
        else (TextV(Decode(data[pos + 1..pos + 1 + (length - 100)])), pos + 1 + (length - 100))
    case EloRating =>
      var (packed, at) := ReadGByte(data, pos, 3);
      if packed.None? then (Nothing, at)
      else (PairV((packed.value / 512) % 4096, packed.value % 512), at)
    case AttachNpc =>
      if pos >= n then (Nothing, pos)
      else
        var (id, at) := ReadGByte(data, pos + 1, 3);
        if id.None? then (Nothing, at) else (PairV(Raised(data[pos]), id.value), at)
    case ImagePart =>
      if pos + 6 > n then (Nothing, n)
      else
        var (px, at) := ReadGByte(data, pos, 2);
        var (py, at2) := ReadGByte(data, pos + 2, 2);
        (PartV(px.value, py.value, Raised(data[pos + 4]), Raised(data[pos + 5])), pos + 6)
  }

  // ---------------------------------------------------------- measuring

  function FixedPayload(w: Wire): Option<nat> {
    match w
    case Void => Some(0)
    case Tile => Some(1)
    case HalfTile => Some(1)
    case TileZ => Some(1)
    case Pixel => Some(2)
    case EloRating => Some(3)
    case AttachNpc => Some(4)
    case ImagePart => Some(6)
    case _ => None
  }

  function MinPayload(w: Wire): nat {
    match w
    case LongString => 2
    case StringW => 1
    case EffectColors => 1
    case SwordPower => 1
    case PowerImage => 1
    case HeadGif => 1
    case _ => 0
  }

  /** `payload_len` */
  function PayloadLen(d: Desc, data: bytes, pos: nat, colorsLen: nat): int
    requires pos <= |data|
  {
    if d.wire.GByte? || d.wire.Raw? then d.width
    else if d.wire.Colors? then colorsLen
    else if FixedPayload(d.wire).Some? then FixedPayload(d.wire).value
    else Max(MinPayload(d.wire), DecodeValue(d, data, pos, colorsLen).1 - pos)
  }

  /** The reader never moves backwards, whatever the bytes. */
  lemma DecodeMovesOn(d: Desc, data: bytes, pos: nat, colorsLen: nat)
    requires pos <= |data|
    ensures DecodeValue(d, data, pos, colorsLen).1 >= pos
  {
  }

  /** The skipper is the reader: a payload that the skipper says fits is exactly what the
      reader takes. */
  lemma SkipperIsReader(d: Desc, data: bytes, pos: nat, colorsLen: nat)
    requires pos <= |data|
    requires pos + PayloadLen(d, data, pos, colorsLen) <= |data|
    ensures DecodeValue(d, data, pos, colorsLen).1 == pos + PayloadLen(d, data, pos, colorsLen)
  {
  }

  // ------------------------------------------------------------ writing

  function Trunc(r: real): int { if r >= 0.0 then r.Floor else -((-r).Floor) }

  function ClampedInts(ns: seq<int>): bytes {
    seq(|ns|, i requires 0 <= i < |ns| => Max(0, Min(ns[i], 223)) + 32)
  }

  /** A list cut or padded with zeros to `n` elements. */
  function Fit(ns: seq<int>, n: nat): (r: seq<int>)
    ensures |r| == n
  {
    if |ns| >= n then ns[..n] else ns + seq(n - |ns|, _ => 0)
  }

  /** `_gstring`: the length is written saturating, the text whole. */
  function GStringBytes(s: string, lengthBytes: nat): bytes
    requires lengthBytes >= 1
  {
    GBytes(|s|, lengthBytes) + Encode(s)
  }

  /** `_pixel`, the number before it is written. */
  function PixelRaw(pixels: int): int {
    if pixels < 0 then (-pixels) * 2 + 1 else pixels * 2
  }

  /** A half-tile byte; 223 would end the packet, so 224 stands for it. */
  function TileByte(halfTiles: int): byte {
    var h := halfTiles % 256;
    ((if h == 223 then 224 else h) + 32) % 256
  }

  function PadRaw(b: bytes, width: nat): bytes {
    if |b| >= width then b[..width] else b + seq(width - |b|, _ => 32)
  }

  /** The values `encode_value` takes for a wire form. */
  predicate Accepts(d: Desc, v: PropValue) {
    match d.wire
    case Void => true
    case GByte => v.IntV? && d.width >= 1
    case Raw => v.BytesV?
    case StringW => v.TextV?
    case LongString => v.TextV?
    case Tile => v.TilesV?
    case HalfTile => v.TilesV?
    case TileZ => v.IntV?
    case Pixel => v.TilesV?
    case Colors => v.IntsV?
    case EffectColors => v.IntsV?
    case SwordPower => v.IntV? || (v.PowerV? && v.image.Some?)
    case PowerImage => v.PowerV? && v.image.Some?
    case HeadGif => v.IntV? || v.TextV?
    case EloRating => v.PairV?
    case AttachNpc => v.PairV?
    case ImagePart => v.PartV?
  }

  /** `encode_value` */
  function EncodeValue(d: Desc, v: PropValue, colorsLen: nat): bytes
    requires Accepts(d, v)
  {
    match d.wire
    case Void => []
    case GByte => GBytes(v.n, d.width)
    case Raw => PadRaw(v.b, d.width)
    case StringW => GStringBytes(v.s, 1)
    case LongString => GStringBytes(v.s, 2)
    case Tile => [TileByte(Trunc(v.tiles * 2.0))]
    case HalfTile => GBytes(Trunc(v.tiles * 2.0), 1)
    case TileZ => GBytes(Max(-50, Min(170, v.n)) + 50, 1)
    case Pixel => GBytes(PixelRaw(Trunc(v.tiles * 16.0)), 2)
    case Colors => ClampedInts(Fit(v.ns, colorsLen))
    case EffectColors =>
      if v.ns == [] || v.ns[0] == 0 then GBytes(0, 1) else ClampedInts(Fit(v.ns, 5))
    case SwordPower =>
      if v.IntV? then GBytes(v.n, 1) else GBytes(d.bias + v.power, 1) + GStringBytes(v.image.value, 1)
    case PowerImage => GBytes(v.power, 1) + GStringBytes(v.image.value, 1)
    case HeadGif =>
      if v.IntV? then GBytes(Min(99, v.n), 1) else GBytes(100 + |v.s|, 1) + Encode(v.s)
    case EloRating => GBytes((v.first % 4096) * 512 + v.second % 512, 3)
    case AttachNpc => GBytes(v.first, 1) + GBytes(v.second, 3)
    case ImagePart => GBytes(v.x, 2) + GBytes(v.y, 2) + GBytes(v.w, 1) + GBytes(v.h, 1)
  }

  // --------------------------------------------------------- round trips

  /** The values that keep the stream aligned. Everything else is clamped, cut or padded
      into `Canonical`. */
  predicate InDomain(d: Desc, v: PropValue) {
    Accepts(d, v) &&
    match d.wire
    case StringW => |v.s| <= 223
    case LongString => |v.s| <= 28767
    case EffectColors => v.ns == [] || v.ns[0] >= 0
    case SwordPower =>
      if v.IntV? then Max(0, v.n) < d.bias <= 223
      else 0 <= v.power && d.bias <= 223 && |v.image.value| <= 223
    case PowerImage => |v.image.value| <= 223
    case HeadGif => v.IntV? || |v.s| <= 123
    case _ => true
  }

  function Latin(s: string): string { Decode(Encode(s)) }

  function ClampedList(ns: seq<int>): seq<int> {
    seq(|ns|, i requires 0 <= i < |ns| => Clamp(ns[i], 223))
  }

  /** Pixels after the two bytes saturate: the sign is the low bit. */
  function CanonicalPixels(pixels: int): int {
    var raw := Min(PixelRaw(pixels), 28767);
    if raw % 2 == 1 then -(raw / 2) else raw / 2
  }

  /** Half-tiles modulo 256 as a signed number, -33 becoming -32. */
  function CanonicalHalfTiles(h: int): int {
    if h % 256 == 223 then -32 else SignedHalfTile(h % 256)
  }

  /** What the reader gives back for a value. */
  function Canonical(d: Desc, v: PropValue, colorsLen: nat): PropValue
    requires InDomain(d, v)
  {
    match d.wire
    case Void => Nothing
    case GByte =>
      var n := Clamp(v.n, Top(d.width));
      IntV(if d.width == 5 then n % 0x1_0000_0000 else n)
    case Raw => BytesV(PadRaw(v.b, d.width))
    case StringW => if v.s == "" then Nothing else TextV(Latin(v.s))
    case LongString => TextV(Latin(v.s))
    case Tile => TilesV(CanonicalHalfTiles(Trunc(v.tiles * 2.0)) as real / 2.0)
    case HalfTile => TilesV(Clamp(Trunc(v.tiles * 2.0), 223) as real / 2.0)
    case TileZ => IntV(Max(-50, Min(170, v.n)))
    case Pixel => TilesV(CanonicalPixels(Trunc(v.tiles * 16.0)) as real / 16.0)
    case Colors => IntsV(ClampedList(Fit(v.ns, colorsLen)))
    case EffectColors =>
      if v.ns == [] || v.ns[0] == 0 then IntsV([0]) else IntsV(ClampedList(Fit(v.ns, 5)))
    case SwordPower =>
      if v.IntV? then PowerV(Max(0, v.n), None)
      else PowerV(Min(v.power, 223 - d.bias), Some(Latin(v.image.value)))
    case PowerImage =>
      PowerV(Clamp(v.power, 223), if v.image.value == "" then None else Some(Latin(v.image.value)))
    case HeadGif => if v.IntV? then IntV(Clamp(v.n, 99)) else TextV(Latin(v.s))
    case EloRating => PairV(v.first % 4096, v.second % 512)
    case AttachNpc => PairV(Clamp(v.first, 223), Clamp(v.second, 3682399))
    case ImagePart => PartV(Clamp(v.x, 28767), Clamp(v.y, 28767), Clamp(v.w, 223), Clamp(v.h, 223))
  }

  /** A number inside a buffer reads back saturated. */
  lemma GByteAt(data: bytes, pos: nat, value: int, width: nat)
    requires width >= 1 && pos + width <= |data| && data[pos..pos + width] == GBytes(value, width)
    ensures var n := Clamp(value, Top(width));
            ReadGByte(data, pos, width) ==
              (Some(if width == 5 then n % 0x1_0000_0000 else n), pos + width)
  {
    GBytesFold(value, width);
  }

  /** One lane is one raised byte. */
  lemma OneLane(value: int)
    ensures GBytes(value, 1) == [Clamp(value, 223) + 32]
  {
  }

  lemma StringAt(data: bytes, pos: nat, s: string, lengthBytes: nat)
    requires 1 <= lengthBytes <= 2 && |s| <= Top(lengthBytes)
    requires var b := GStringBytes(s, lengthBytes); pos + |b| <= |data| && data[pos..pos + |b|] == b
    ensures ReadGByte(data, pos, lengthBytes) == (Some(|s|), pos + lengthBytes)
    ensures data[pos + lengthBytes..pos + lengthBytes + |s|] == Encode(s)
    ensures ReadString(data, pos, lengthBytes) ==
            (if s == "" then None else Some(Latin(s)), pos + lengthBytes + |s|)
  {
    var b := GStringBytes(s, lengthBytes);
    assert data[pos..pos + lengthBytes] == b[..lengthBytes] == GBytes(|s|, lengthBytes);
    assert data[pos + lengthBytes..pos + lengthBytes + |s|] == b[lengthBytes..] == Encode(s);
    GByteAt(data, pos, |s|, lengthBytes);
  }

  lemma ListAt(ns: seq<int>)
    ensures RaisedAll(ClampedInts(ns)) == ClampedList(ns)
  {
  }

  /** `v`, written for `d`, stands at `pos`. */
  ghost predicate Stands(data: bytes, pos: nat, d: Desc, v: PropValue, colorsLen: nat) {
    InDomain(d, v) &&
    var b := EncodeValue(d, v, colorsLen);
    pos + |b| <= |data| && data[pos..pos + |b|] == b
  }

  /** Reading undoes writing, with `Canonical` as the exact loss. */
  ghost predicate ReadsBack(data: bytes, pos: nat, d: Desc, v: PropValue, colorsLen: nat)
    requires Stands(data, pos, d, v, colorsLen)
  {
    DecodeValue(d, data, pos, colorsLen) ==
      (Canonical(d, v, colorsLen), pos + |EncodeValue(d, v, colorsLen)|)
  }

  /** The part of a slice from `i` to `j`. */
  lemma Within(data: bytes, pos: nat, b: bytes, i: nat, j: nat)
    requires pos + |b| <= |data| && data[pos..pos + |b|] == b && i <= j <= |b|
    ensures data[pos + i..pos + j] == b[i..j]
  {
    forall k | i <= k < j ensures data[pos + k] == b[k] {
      assert data[pos..pos + |b|][k] == data[pos + k];
    }
  }

  lemma NumberBack(data: bytes, pos: nat, d: Desc, v: PropValue, colorsLen: nat)
    requires d.wire.GByte? || d.wire.HalfTile? || d.wire.TileZ?
    requires Stands(data, pos, d, v, colorsLen)
    ensures ReadsBack(data, pos, d, v, colorsLen)
  {
    if d.wire.GByte? {
      GByteAt(data, pos, v.n, d.width);
    } else if d.wire.HalfTile? {
      OneLane(Trunc(v.tiles * 2.0));
    } else {
      OneLane(Max(-50, Min(170, v.n)) + 50);
    }
  }

  lemma PixelBack(data: bytes, pos: nat, d: Desc, v: PropValue, colorsLen: nat)
    requires d.wire.Pixel? && Stands(data, pos, d, v, colorsLen)
    ensures ReadsBack(data, pos, d, v, colorsLen)
  {
    Tops();
    var pixels := Trunc(v.tiles * 16.0);
    hide Trunc, GBytes, Fold;
    GByteAt(data, pos, PixelRaw(pixels), 2);
    assert Clamp(PixelRaw(pixels), 28767) == Min(PixelRaw(pixels), 28767);
  }

  lemma Packed(r: int, q: int)
    requires 0 <= r < 4096 && 0 <= q < 512
    ensures 0 <= r * 512 + q <= 3682399
    ensures (r * 512 + q) / 512 == r && (r * 512 + q) % 512 == q
  {
  }

  lemma EloBack(data: bytes, pos: nat, d: Desc, v: PropValue, colorsLen: nat)
    requires d.wire.EloRating? && Stands(data, pos, d, v, colorsLen)
    ensures ReadsBack(data, pos, d, v, colorsLen)
  {
    hide GBytes, Fold;
    Tops();
    var r, q := v.first % 4096, v.second % 512;
    Packed(r, q);
    GByteAt(data, pos, r * 512 + q, 3);
    assert r % 4096 == r;
  }

  lemma TileBack(data: bytes, pos: nat, d: Desc, v: PropValue, colorsLen: nat)
    requires d.wire.Tile? && Stands(data, pos, d, v, colorsLen)
    ensures ReadsBack(data, pos, d, v, colorsLen)
  {
    var h := Trunc(v.tiles * 2.0);
    assert data[pos] == data[pos..pos + 1][0] == TileByte(h);
    assert SignedHalfTile(Raised(TileByte(h))) == CanonicalHalfTiles(h);
  }

  lemma ListBack(data: bytes, pos: nat, d: Desc, v: PropValue, colorsLen: nat)
    requires d.wire.Colors? || d.wire.EffectColors?
    requires Stands(data, pos, d, v, colorsLen)
    ensures ReadsBack(data, pos, d, v, colorsLen)
  {
    OneLane(0);
    if d.wire.Colors? {
      ListAt(Fit(v.ns, colorsLen));
    } else if v.ns == [] || v.ns[0] == 0 {
      assert data[pos] == data[pos..pos + 1][0];
    } else {
      ListAt(Fit(v.ns, 5));
      assert data[pos] == data[pos..pos + 5][0] == Max(0, Min(v.ns[0], 223)) + 32;
    }
  }

  lemma TextBack(data: bytes, pos: nat, d: Desc, v: PropValue, colorsLen: nat)
    requires d.wire.StringW? || d.wire.LongString? || d.wire.HeadGif?
    requires Stands(data, pos, d, v, colorsLen)
    ensures ReadsBack(data, pos, d, v, colorsLen)
  {
    Tops();
    if d.wire.StringW? {
      StringAt(data, pos, v.s, 1);
    } else if d.wire.LongString? {
      StringAt(data, pos, v.s, 2);
    } else if v.IntV? {
      OneLane(Min(99, v.n));
      assert data[pos] == data[pos..pos + 1][0];
    } else {
      var b := EncodeValue(d, v, colorsLen);
      OneLane(100 + |v.s|);
      assert data[pos] == b[0];
      Within(data, pos, b, 1, |b|);
      assert b[1..|b|] == Encode(v.s) && |b| == 1 + |v.s|;
    }
  }

  lemma PowerBack(data: bytes, pos: nat, d: Desc, v: PropValue, colorsLen: nat)
    requires d.wire.SwordPower? || d.wire.PowerImage?
    requires Stands(data, pos, d, v, colorsLen)
    ensures ReadsBack(data, pos, d, v, colorsLen)
  {
    Tops();
    var b := EncodeValue(d, v, colorsLen);
    assert data[pos] == b[0];
    if v.IntV? {
      OneLane(v.n);
    } else {
      var head := if d.wire.SwordPower? then d.bias + v.power else v.power;
      OneLane(head);
      Within(data, pos, b, 1, |b|);
      assert b[1..] == GStringBytes(v.image.value, 1);
      StringAt(data, pos + 1, v.image.value, 1);
    }
  }

  lemma PartsBack(data: bytes, pos: nat, d: Desc, v: PropValue, colorsLen: nat)
    requires d.wire.AttachNpc? || d.wire.ImagePart?
    requires Stands(data, pos, d, v, colorsLen)
    ensures ReadsBack(data, pos, d, v, colorsLen)
  {
    Tops();
    var b := EncodeValue(d, v, colorsLen);
    if d.wire.AttachNpc? {
      OneLane(v.first);
      assert data[pos] == b[0];
      Within(data, pos, b, 1, 4);
      assert b[1..4] == GBytes(v.second, 3);
      GByteAt(data, pos + 1, v.second, 3);
    } else {
      Within(data, pos, b, 0, 2);
      Within(data, pos, b, 2, 4);
      assert b[0..2] == GBytes(v.x, 2) && b[2..4] == GBytes(v.y, 2);
      GByteAt(data, pos, v.x, 2);
      GByteAt(data, pos + 2, v.y, 2);
      OneLane(v.w);
      OneLane(v.h);
      assert data[pos + 4] == b[4] && data[pos + 5] == b[5];
    }
  }

  /** Every wire form reads back its canonical value and stops where the payload ends. */
  lemma ValueReadsBack(data: bytes, pos: nat, d: Desc, v: PropValue, colorsLen: nat)
    requires Stands(data, pos, d, v, colorsLen)
    ensures ReadsBack(data, pos, d, v, colorsLen)
  {
    match d.wire
    case Void =>
    case Raw =>
    case GByte | HalfTile | TileZ => NumberBack(data, pos, d, v, colorsLen);
    case Pixel => PixelBack(data, pos, d, v, colorsLen);
    case EloRating => EloBack(data, pos, d, v, colorsLen);
    case Tile => TileBack(data, pos, d, v, colorsLen);
    case Colors | EffectColors => ListBack(data, pos, d, v, colorsLen);
    case StringW | LongString | HeadGif => TextBack(data, pos, d, v, colorsLen);
    case SwordPower | PowerImage => PowerBack(data, pos, d, v, colorsLen);
    case AttachNpc | ImagePart => PartsBack(data, pos, d, v, colorsLen);
  }

  /** Pixel coordinates survive exactly when the two bytes can hold them. */
  lemma PixelsExactIff(pixels: int)
    ensures CanonicalPixels(pixels) == pixels <==> -14383 <= pixels <= 14383
  {
  }

  /** Half-tiles survive exactly from -40 to 215, -33 excepted. */
  lemma HalfTilesExactIff(h: int)
    ensures CanonicalHalfTiles(h) == h <==> (-40 <= h <= 215 && h != -33)
  {
  }
}
