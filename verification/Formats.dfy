/** The shape of every record and message, as a grammar (src/wire.cpp, src/record.cpp): rows of fixed-width integers,
    bounded text, counted collections and length-framed parts. One encoder, one decoder and one proof serve all. */
module Formats {
  import opened Types
  import opened ByteCodec

  /** A little-endian integer of `width` bytes, accepted when below `limit`. */
  datatype Col = Col(width: nat, limit: nat)

  datatype Format =
    | Row(cols: seq<Col>)
    | Text(max: nat)
    | Both(first: Format, second: Format)
    /** A 64-bit count, then the items. `floor` is the budget the decoder demands per claimed item. */
    | Many(item: Format, floor: nat)
    /** A 32-bit length, then a body of exactly that length. */
    | Framed(body: Format)

  datatype Value = Nums(nums: seq<nat>) | Chars(text: Bytes) | Pair(first: Value,
      second: Value) | Items(items: seq<Value>)

  function RowSize(cols: seq<Col>): nat { if cols == [] then 0 else cols[0].width + RowSize(cols[1..]) }

  /** The fewest bytes a value of the format takes. */
  function MinSize(f: Format): nat {
    match f
    case Row(cols) => RowSize(cols)
    case Text(_) => 0
    case Both(x, y) => MinSize(x) + MinSize(y)
    case Many(_, _) => 8
    case Framed(_) => 4
  }

  /** Limits are representable, and no budget asks for more than its items take. */
  ghost predicate WellFormed(f: Format) {
    match f
    case Row(cols) => forall i :: 0 <= i < |cols| ==> cols[i].limit <= Pow256(cols[i].width)
    case Text(_) => true
    case Both(x, y) => WellFormed(x) && WellFormed(y)
    case Many(item, floor) => WellFormed(item) && floor <= MinSize(item)
    case Framed(body) => WellFormed(body)
  }

  // ---------------------------------------------------------------- encoding

  function EncodeRow(cols: seq<Col>, nums: seq<nat>): Bytes
    requires |nums| == |cols|
  {
    if cols == [] then [] else Le(nums[0], cols[0].width) + EncodeRow(cols[1..], nums[1..])
  }

  predicate Shaped(f: Format, v: Value) {
    match f
    case Row(cols) => v.Nums? && |v.nums| == |cols|
    case Text(_) => v.Chars?
    case Both(x, y) => v.Pair? && Shaped(x, v.first) && Shaped(y, v.second)
    case Many(item, _) => v.Items? && forall i :: 0 <= i < |v.items| ==> Shaped(item, v.items[i])
    case Framed(body) => Shaped(body, v)
  }

  /** What the encoders write. Text beyond its bound is dropped, length prefix and all (src/wire.cpp:212). */
  function Encode(f: Format, v: Value): Bytes
    requires Shaped(f, v)
    decreases f, 0
  {
    match f
    case Row(cols) => EncodeRow(cols, v.nums)
    case Text(max) => if |v.text| <= max then Le(|v.text|, 4) + v.text else []
    case Both(x, y) => Encode(x, v.first) + Encode(y, v.second)
    case Many(item, _) => Le(|v.items|, 8) + EncodeMany(item, v.items)
    case Framed(body) => Le(|Encode(body, v)|, 4) + Encode(body, v)
  }

  function EncodeMany(item: Format, items: seq<Value>): Bytes
    requires forall i :: 0 <= i < |items| ==> Shaped(item, items[i])
    decreases item, |items|
  {
    if items == [] then [] else Encode(item, items[0]) + EncodeMany(item, items[1..])
  }

  /** The value is within every bound the decoder checks. */
  ghost predicate Fits(f: Format, v: Value) {
    && Shaped(f, v)
    && match f
       case Row(cols) => forall i :: 0 <= i < |cols| ==> v.nums[i] < cols[i].limit
       case Text(max) => |v.text| <= max && |v.text| < 0x1_0000_0000
       case Both(x, y) => Fits(x, v.first) && Fits(y, v.second)
       case Many(item, _) => |v.items| <= MAX_COLLECTION && forall i :: 0 <= i < |v.items| ==> Fits(item, v.items[i])
       case Framed(body) => Fits(body, v) && |Encode(body, v)| < 0x1_0000_0000
  }

  // ---------------------------------------------------------------- decoding

  type Parsed<T> = Option<(T, Bytes)>

  function DecodeRow(cols: seq<Col>, b: Bytes): Parsed<seq<nat>> {
    if cols == [] then Some(([], b)) else
    if |b| < cols[0].width then None else
    var n := Un(b[..cols[0].width]);
    if n >= cols[0].limit then None else
    match DecodeRow(cols[1..], b[cols[0].width..])
    case None => None
    case Some((nums, rest)) => Some(([n] + nums, rest))
  }

  function Decode(f: Format, b: Bytes): Parsed<Value>
    decreases f, 0
  {
    match f
    case Row(cols) =>
      (match DecodeRow(cols, b)
       case None => None
       case Some((nums, rest)) => Some((Nums(nums), rest)))
    case Text(max) =>
      if |b| < 4 || Un(b[..4]) > max || Un(b[..4]) > |b| - 4 then None
      else Some((Chars(b[4..4 + Un(b[..4])]), b[4 + Un(b[..4])..]))
    case Both(x, y) =>
      (match Decode(x, b)
       case None => None
       case Some((v, rest)) =>
         match Decode(y, rest)
         case None => None
         case Some((w, rest')) => Some((Pair(v, w), rest')))
    case Many(item, floor) =>
      if |b| < 8 || Un(b[..8]) > MAX_COLLECTION || |b| - 8 < Un(b[..8]) * floor then None
      else
        (match DecodeMany(item, Un(b[..8]), b[8..])
         case None => None
         case Some((items, rest)) => Some((Items(items), rest)))
    case Framed(body) =>
      if |b| < 4 || Un(b[..4]) > |b| - 4 then None
      else
        (match Decode(body, b[4..4 + Un(b[..4])])
         case None => None
         case Some((v, rest)) => if rest == [] then Some((v, b[4 + Un(b[..4])..])) else None)
  }

  function DecodeMany(item: Format, count: nat, b: Bytes): Parsed<seq<Value>>
    decreases item, count
  {
    if count == 0 then Some(([], b)) else
    match Decode(item, b)
    case None => None
    case Some((v, rest)) =>
      match DecodeMany(item, count - 1, rest)
      case None => None
      case Some((vs, rest')) => Some(([v] + vs, rest'))
  }

  /** A whole message: nothing may be left over. */
  function DecodeAll(f: Format, b: Bytes): Option<Value> {
    match Decode(f, b)
    case None => None
    case Some((v, rest)) => if rest == [] then Some(v) else None
  }

  // ---------------------------------------------------------------- sizes

  lemma {:induction false} RowLength(cols: seq<Col>, nums: seq<nat>)
    requires |nums| == |cols|
    ensures |EncodeRow(cols, nums)| == RowSize(cols)
  {
    if cols != [] { RowLength(cols[1..], nums[1..]); }
  }

  lemma {:induction false} EncodingSize(f: Format, v: Value)
    requires Shaped(f, v)
    ensures MinSize(f) <= |Encode(f, v)|
    decreases f
  {
    match f
    case Row(cols) => RowLength(cols, v.nums);
    case Both(x, y) =>
      EncodingSize(x, v.first);
      EncodingSize(y, v.second);
    case _ =>
  }

  /** A genuine collection is never over its budget. */
  lemma {:induction false} BudgetFits(item: Format, items: seq<Value>, floor: nat)
    requires floor <= MinSize(item) && forall i :: 0 <= i < |items| ==> Shaped(item, items[i])
    ensures |items| * floor <= |EncodeMany(item, items)|
    decreases |items|
  {
    if items != [] {
      EncodingSize(item, items[0]);
      BudgetFits(item, items[1..], floor);
      OneMore(|items| - 1, floor);
    }
  }

  lemma OneMore(n: nat, floor: nat)
    ensures (n + 1) * floor == n * floor + floor
  {}

  // ---------------------------------------------------------------- round trip

  lemma {:induction false} RowRoundTrip(cols: seq<Col>, nums: seq<nat>, rest: Bytes)
    requires |nums| == |cols|
    requires forall i :: 0 <= i < |cols| ==> nums[i] < cols[i].limit <= Pow256(cols[i].width)
    ensures DecodeRow(cols, EncodeRow(cols, nums) + rest) == Some((nums, rest))
  {
    if cols == [] {
      assert [] + rest == rest;
    } else {
      var tail := EncodeRow(cols[1..], nums[1..]) + rest;
      RowRoundTrip(cols[1..], nums[1..], rest);
      FirstColumn(cols, nums[0], nums[1..], tail, rest);
      Assoc(Le(nums[0], cols[0].width), EncodeRow(cols[1..], nums[1..]), rest);
      assert [nums[0]] + nums[1..] == nums;
    }
  }

  lemma FirstColumn(cols: seq<Col>, n: nat, nums: seq<nat>, tail: Bytes, rest: Bytes)
    requires cols != [] && n < cols[0].limit <= Pow256(cols[0].width)
    requires DecodeRow(cols[1..], tail) == Some((nums, rest))
    ensures DecodeRow(cols, Le(n, cols[0].width) + tail) == Some(([n] + nums, rest))
  {
    LeThen(n, cols[0].width, tail);
  }

  lemma TextRoundTrip(max: nat, text: Bytes, rest: Bytes)
    requires |text| <= max && |text| < 0x1_0000_0000
    ensures Decode(Text(max), Le(|text|, 4) + text + rest) == Some((Chars(text), rest))
  {
    var b := Le(|text|, 4) + text + rest;
    Widths();
    LeThen(|text|, 4, text + rest);
    assert b == Le(|text|, 4) + (text + rest);
    assert b[4..4 + |text|] == text && b[4 + |text|..] == rest;
  }

  lemma {:induction false} ManyRoundTrip(item: Format, items: seq<Value>, rest: Bytes)
    requires WellFormed(item) && forall i :: 0 <= i < |items| ==> Shaped(item, items[i]) && Fits(item, items[i])
    ensures DecodeMany(item, |items|, EncodeMany(item, items) + rest) == Some((items, rest))
    decreases item, |items|
  {
    hide Encode, Decode, Fits, Shaped, WellFormed, DecodeMany;
    if items == [] {
      NoItems(item, rest);
    } else {
      var tail := EncodeMany(item, items[1..]) + rest;
      ManyRoundTrip(item, items[1..], rest);
      RoundTrip(item, items[0], tail);
      Assoc(Encode(item, items[0]), EncodeMany(item, items[1..]), rest);
      OneMoreItem(item, Encode(item, items[0]) + tail, items[0], tail, items[1..], rest);
      assert [items[0]] + items[1..] == items;
    }
  }

  lemma NoItems(item: Format, rest: Bytes)
    ensures DecodeMany(item, 0, EncodeMany(item, []) + rest) == Some(([], rest))
  {
    assert [] + rest == rest;
  }

  /** One item, then the others. */
  lemma OneMoreItem(item: Format, b: Bytes, v: Value, tail: Bytes, vs: seq<Value>, rest: Bytes)
    requires Decode(item, b) == Some((v, tail)) && DecodeMany(item, |vs|, tail) == Some((vs, rest))
    ensures DecodeMany(item, |vs| + 1, b) == Some(([v] + vs, rest))
  {
    hide Decode;
  }

  lemma CountedRoundTrip(item: Format, floor: nat, items: seq<Value>, rest: Bytes)
    requires WellFormed(Many(item, floor)) && Fits(Many(item, floor), Items(items))
    requires DecodeMany(item, |items|, EncodeMany(item, items) + rest) == Some((items, rest))
    ensures Decode(Many(item, floor), Encode(Many(item, floor), Items(items)) + rest) == Some((Items(items), rest))
  {
    var tail := EncodeMany(item, items) + rest;
    Widths();
    LeThen(|items|, 8, tail);
    BudgetFits(item, items, floor);
    Assoc(Le(|items|, 8), EncodeMany(item, items), rest);
  }

  lemma FramedReads(body: Format, v: Value, e: Bytes, rest: Bytes)
    requires |e| < 0x1_0000_0000 && Decode(body, e) == Some((v, []))
    ensures Decode(Framed(body), Le(|e|, 4) + e + rest) == Some((v, rest))
  {
    Widths();
    UnLe(|e|, 4);
    Middle(Le(|e|, 4), e, rest);
  }

  lemma FramedRoundTrip(body: Format, v: Value, rest: Bytes)
    requires Fits(Framed(body), v) && Decode(body, Encode(body, v)) == Some((v, []))
    ensures Decode(Framed(body), Encode(Framed(body), v) + rest) == Some((v, rest))
  {
    FramedReads(body, v, Encode(body, v), rest);
  }

  /** Decoding an encoding gives the value back, and leaves what follows it. */
  lemma {:induction false} RoundTrip(f: Format, v: Value, rest: Bytes)
    requires WellFormed(f) && Fits(f, v)
    ensures Decode(f, Encode(f, v) + rest) == Some((v, rest))
    decreases f, 0
  {
    match f
    case Row(cols) => RowRoundTrip(cols, v.nums, rest);
    case Text(max) => TextRoundTrip(max, v.text, rest);
    case Both(x, y) =>
      RoundTrip(x, v.first, Encode(y, v.second) + rest);
      RoundTrip(y, v.second, rest);
      Assoc(Encode(x, v.first), Encode(y, v.second), rest);
    case Many(item, floor) =>
      ManyRoundTrip(item, v.items, rest);
      CountedRoundTrip(item, floor, v.items, rest);
    case Framed(body) =>
      RoundTrip(body, v, []);
      assert Encode(body, v) + [] == Encode(body, v);
      FramedRoundTrip(body, v, rest);
  }

  // ---------------------------------------------------------------- canonical form

  lemma {:induction false} RowCanonical(cols: seq<Col>, b: Bytes)
    requires DecodeRow(cols, b).Some?
    ensures var (nums, rest) := DecodeRow(cols, b).value;
            |nums| == |cols| && (forall i :: 0 <= i < |cols| ==>
                nums[i] < cols[i].limit) && EncodeRow(cols, nums) + rest == b
  {
    if cols == [] {
      assert [] + b == b;
    } else {
      var w := cols[0].width;
      LeUn(b[..w]);
      RowCanonical(cols[1..], b[w..]);
      var (nums, rest) := DecodeRow(cols, b).value;
      assert nums[1..] == DecodeRow(cols[1..], b[w..]).value.0;
      assert b == b[..w] + b[w..];
      Assoc(Le(nums[0], w), EncodeRow(cols[1..], nums[1..]), rest);
    }
  }

  lemma TextCanonical(max: nat, b: Bytes)
    requires Decode(Text(max), b).Some?
    ensures var (v, rest) := Decode(Text(max), b).value; Fits(Text(max), v) && Encode(Text(max), v) + rest == b
  {
    var n := Un(b[..4]);
    Widths();
    LeUn(b[..4]);
    assert b[4..] == b[4..4 + n] + b[4 + n..];
    assert b == b[..4] + b[4..];
    Assoc(b[..4], b[4..4 + n], b[4 + n..]);
  }

  lemma {:induction false} ManyCanonical(item: Format, count: nat, b: Bytes)
    requires DecodeMany(item, count, b).Some?
    ensures var (items, rest) := DecodeMany(item, count, b).value;
            && |items| == count && (forall i :: 0 <= i < count ==> Shaped(item, items[i]) && Fits(item, items[i]))
            && EncodeMany(item, items) + rest == b
    decreases item, count
  {
    hide Decode;
    if count == 0 {
      assert [] + b == b;
    } else {
      var (v, tail) := Decode(item, b).value;
      Canonical(item, b);
      ManyCanonical(item, count - 1, tail);
      var (items, rest) := DecodeMany(item, count, b).value;
      assert items[1..] == DecodeMany(item, count - 1, tail).value.0;
      Assoc(Encode(item, v), EncodeMany(item, items[1..]), rest);
    }
  }

  lemma CountedCanonical(item: Format, floor: nat, b: Bytes)
    requires Decode(Many(item, floor), b).Some?
    requires var (items, rest) := DecodeMany(item, Un(b[..8]), b[8..]).value;
             && |items| == Un(b[..8])
             && (forall i :: 0 <= i < |items| ==> Shaped(item, items[i]) && Fits(item, items[i]))
             && EncodeMany(item, items) + rest == b[8..]
    ensures var (v, rest) := Decode(Many(item, floor), b).value;
            Fits(Many(item, floor), v) && Encode(Many(item, floor), v) + rest == b
  {
    var (v, rest) := Decode(Many(item, floor), b).value;
    Widths();
    LeUn(b[..8]);
    assert b == b[..8] + b[8..];
    Assoc(Le(|v.items|, 8), EncodeMany(item, v.items), rest);
  }

  lemma FramedCanonical(body: Format, b: Bytes)
    requires Decode(Framed(body), b).Some?
    requires var n := Un(b[..4]);
             var (v, _) := Decode(body, b[4..4 + n]).value; Fits(body, v) && Encode(body, v) == b[4..4 + n]
    ensures var (v, rest) := Decode(Framed(body), b).value; Fits(Framed(body), v) && Encode(Framed(body), v) + rest == b
  {
    var n := Un(b[..4]);
    Widths();
    LeUn(b[..4]);
    assert b[4..] == b[4..4 + n] + b[4 + n..];
    assert b == b[..4] + b[4..];
    Assoc(b[..4], b[4..4 + n], b[4 + n..]);
  }

  /** Whatever the decoder accepts is the encoding of what it returns, which is within every bound. */
  lemma {:induction false} Canonical(f: Format, b: Bytes)
    requires Decode(f, b).Some?
    ensures var (v, rest) := Decode(f, b).value; Fits(f, v) && Encode(f, v) + rest == b
    decreases f, 0
  {
    match f
    case Row(cols) => RowCanonical(cols, b);
    case Text(max) => TextCanonical(max, b);
    case Both(x, y) =>
      var (v, tail) := Decode(x, b).value;
      Canonical(x, b);
      Canonical(y, tail);
      var (w, rest) := Decode(y, tail).value;
      Assoc(Encode(x, v), Encode(y, w), rest);
    case Many(item, floor) =>
      ManyCanonical(item, Un(b[..8]), b[8..]);
      CountedCanonical(item, floor, b);
    case Framed(body) =>
      Canonical(body, b[4..4 + Un(b[..4])]);
      var (v, _) := Decode(body, b[4..4 + Un(b[..4])]).value;
      assert Encode(body, v) + [] == Encode(body, v);
      FramedCanonical(body, b);
  }

  // ---------------------------------------------------------------- whole messages

  /** Exactly the encodings of in-bounds values are accepted, each decoded to its value. */
  lemma DecodesExactly(f: Format, b: Bytes, v: Value)
    requires WellFormed(f)
    ensures DecodeAll(f, b) == Some(v) <==> Fits(f, v) && b == Encode(f, v)
  {
    if DecodeAll(f, b) == Some(v) {
      Canonical(f, b);
      assert Encode(f, v) + [] == Encode(f, v);
    }
    if Fits(f, v) && b == Encode(f, v) {
      RoundTrip(f, v, []);
      assert Encode(f, v) + [] == Encode(f, v);
    }
  }

  /** Every extension of an encoding is refused. */
  lemma ExtensionsRefused(f: Format, v: Value, extra: Bytes)
    requires WellFormed(f) && Fits(f, v) && extra != []
    ensures DecodeAll(f, Encode(f, v) + extra).None?
  {
    RoundTrip(f, v, extra);
  }

  /** Every strict prefix of an encoding is refused: what it decoded to would be a strict prefix too, and extended. */
  lemma PrefixesRefused(f: Format, v: Value, cut: nat)
    requires WellFormed(f) && Fits(f, v) && cut < |Encode(f, v)|
    ensures DecodeAll(f, Encode(f, v)[..cut]).None?
  {
    hide Decode, Encode, WellFormed;
    var e := Encode(f, v);
    var short := DecodeAll(f, e[..cut]);
    if short.Some? {
      DecodesExactly(f, e[..cut], short.value);
      DecodesExactly(f, e, v);
      SplitAt(e, cut);
      ExtensionsRefused(f, short.value, e[cut..]);
    }
  }

  // ---------------------------------------------------------------- the encoders and decoders as they run

  method WriteRow(w: ByteWriter, cols: seq<Col>, nums: seq<nat>)
    requires |nums| == |cols|
    modifies w
    ensures w.out == old(w.out) + EncodeRow(cols, nums)
  {
    var i := 0;
    while i < |cols|
      invariant i <= |cols|
      invariant w.out + EncodeRow(cols[i..], nums[i..]) == old(w.out) + EncodeRow(cols, nums)
    {
      assert cols[i..][1..] == cols[i + 1..] && nums[i..][1..] == nums[i + 1..];
      ghost var before := w.out;
      w.Integer(nums[i], cols[i].width);
      Assoc(before, Le(nums[i], cols[i].width), EncodeRow(cols[i + 1..], nums[i + 1..]));
      i := i + 1;
    }
  }

  method Write(w: ByteWriter, f: Format, v: Value)
    requires Shaped(f, v)
    modifies w
    ensures w.out == old(w.out) + Encode(f, v)
    decreases f, 2
  {
    if f.Row? { WriteRow(w, f.cols, v.nums); }
    else if f.Text? { var _ := w.Text(v.text, f.max); }
    else if f.Both? { WriteBoth(w, f.first, f.second, v); }
    else if f.Many? { WriteCounted(w, f.item, f.floor, v); }
    else { WriteFramed(w, f.body, v); }
  }

  method WriteBoth(w: ByteWriter, x: Format, y: Format, v: Value)
    requires v.Pair? && Shaped(x, v.first) && Shaped(y, v.second)
    modifies w
    ensures w.out == old(w.out) + (Encode(x, v.first) + Encode(y, v.second))
    decreases Both(x, y), 1
  {
    ghost var before := w.out;
    Write(w, x, v.first);
    Write(w, y, v.second);
    Assoc(before, Encode(x, v.first), Encode(y, v.second));
  }

  method WriteCounted(w: ByteWriter, item: Format, floor: nat, v: Value)
    requires Shaped(Many(item, floor), v)
    modifies w
    ensures w.out == old(w.out) + (Le(|v.items|, 8) + EncodeMany(item, v.items))
    decreases item, 4
  {
    ghost var before := w.out;
    w.Integer(|v.items|, 8);
    WriteMany(w, item, v.items);
    Assoc(before, Le(|v.items|, 8), EncodeMany(item, v.items));
  }

  method WriteMany(w: ByteWriter, item: Format, items: seq<Value>)
    requires forall i :: 0 <= i < |items| ==> Shaped(item, items[i])
    modifies w
    ensures w.out == old(w.out) + EncodeMany(item, items)
    decreases item, 3
  {
    var i := 0;
    while i < |items|
      invariant i <= |items|
      invariant w.out + EncodeMany(item, items[i..]) == old(w.out) + EncodeMany(item, items)
    {
      assert items[i..][1..] == items[i + 1..];
      ghost var before := w.out;
      Write(w, item, items[i]);
      Assoc(before, Encode(item, items[i]), EncodeMany(item, items[i + 1..]));
      i := i + 1;
    }
  }

  /** The body goes through a buffer of its own, so that its length can be written first. */
  method WriteFramed(w: ByteWriter, body: Format, v: Value)
    requires Shaped(body, v)
    modifies w
    ensures w.out == old(w.out) + Encode(Framed(body), v)
    decreases body, 3
  {
    var nested := new ByteWriter();
    Write(nested, body, v);
    var e := nested.out;
    assert e == [] + Encode(body, v) == Encode(body, v);
    ghost var before := w.out;
    w.Integer(|e|, 4);
    w.Raw(e);
    Assoc(before, Le(|e|, 4), e);
  }

  /** The columns the code reads one after another. */
  method ReadRow(r: ByteReader, cols: seq<Col>) returns (nums: Option<seq<nat>>)
    requires r.Valid()
    modifies r
    ensures r.Valid()
    ensures nums.Some? ==> DecodeRow(cols, old(r.Rest())) == Some((nums.value, r.Rest()))
    ensures nums.None? ==> DecodeRow(cols, old(r.Rest())).None?
    decreases |cols|
  {
    if cols == [] { return Some([]); }
    var ok, n := r.Integer(cols[0].width);
    if !ok || n >= cols[0].limit { return None; }
    var tail := ReadRow(r, cols[1..]);
    if tail.None? { return None; }
    nums := Some([n] + tail.value);
  }

  method Read(r: ByteReader, f: Format) returns (v: Option<Value>)
    requires r.Valid()
    modifies r
    ensures r.Valid()
    ensures v.Some? ==> Decode(f, old(r.Rest())) == Some((v.value, r.Rest()))
    ensures v.None? ==> Decode(f, old(r.Rest())).None?
    decreases f, 0
  {
    match f
    case Row(cols) =>
      var nums := ReadRow(r, cols);
      v := if nums.Some? then Some(Nums(nums.value)) else None;
    case Text(max) =>
      var ok, text := r.Text(max);
      v := if ok then Some(Chars(text)) else None;
    case Both(x, y) =>
      var first := Read(r, x);
      if first.None? { return None; }
      var second := Read(r, y);
      v := if second.Some? then Some(Pair(first.value, second.value)) else None;
    case Many(item, floor) =>
      var ok, count := r.Integer(8);
      if !ok || count > MAX_COLLECTION || |r.Rest()| < count * floor { return None; }
      var items := ReadMany(r, item, count);
      v := if items.Some? then Some(Items(items.value)) else None;
    case Framed(body) => v := ReadFramed(r, body);
  }

  method ReadMany(r: ByteReader, item: Format, count: nat) returns (items: Option<seq<Value>>)
    requires r.Valid()
    modifies r
    ensures r.Valid()
    ensures items.Some? ==> DecodeMany(item, count, old(r.Rest())) == Some((items.value, r.Rest()))
    ensures items.None? ==> DecodeMany(item, count, old(r.Rest())).None?
    decreases item, count
  {
    if count == 0 { return Some([]); }
    var v := Read(r, item);
    if v.None? { return None; }
    var tail := ReadMany(r, item, count - 1);
    items := if tail.Some? then Some([v.value] + tail.value) else None;
  }

  /** A nested reader over exactly the framed bytes. */
  method ReadFramed(r: ByteReader, body: Format) returns (v: Option<Value>)
    requires r.Valid()
    modifies r
    ensures r.Valid()
    ensures v.Some? ==> Decode(Framed(body), old(r.Rest())) == Some((v.value, r.Rest()))
    ensures v.None? ==> Decode(Framed(body), old(r.Rest())).None?
    decreases body, 1
  {
    hide DecodeMany;
    ghost var b := r.Rest();
    var ok, length := r.Integer(4);
    if !ok || length > |r.Rest()| { return None; }
    var nested := new ByteReader(r.Rest()[..length]);
    assert r.Rest()[..length] == b[4..4 + length];
    ok := r.Skip(length);
    v := Read(nested, body);
    if v.None? { return None; }
    var done := nested.Done();
    if !done { return None; }
    assert r.Rest() == b[4 + length..];
  }
}
