/**
 * The protobuf wire reader for generation metadata, against an encoder written from the Protocol
 * Buffers Encoding guide, sections "Base 128 Varints" and "Message Structure".
 */
module WireReader {
  import opened Prelude

  type Byte = b: int | 0 <= b < 256

  // ---- Varints ----

  /** The value at the front of the bytes and how many bytes were consumed, also when there is none. */
  function VarintOf(bytes: seq<Byte>, shift: nat): (r: (Option<nat>, nat))
    ensures r.1 <= |bytes|
    ensures r.0.Some? ==> r.1 >= 1
    decreases |bytes|
  {
    if bytes == [] || shift >= 64 then (None, 0)
    else if bytes[0] < 128 then (Some(bytes[0]), 1)
    else
      var (v, n) := VarintOf(bytes[1..], shift + 7);
      (if v.Some? then Some(bytes[0] % 128 + 128 * v.value) else None, n + 1)
  }

  function EncodeVarint(n: nat): (bytes: seq<Byte>)
    ensures |bytes| >= 1
  {
    if n < 128 then [n] else [n % 128 + 128] + EncodeVarint(n / 128)
  }

  function Power(k: nat): (p: nat)
    ensures p >= 1
  {
    if k == 0 then 1 else 128 * Power(k - 1)
  }

  lemma {:induction false} EncodedLength(n: nat, k: nat)
    requires k >= 1
    ensures |EncodeVarint(n)| <= k <==> n < Power(k)
  {
    if n < 128 {
      assert Power(k) == 128 * Power(k - 1);
    } else if k == 1 {
      assert Power(1) == 128 * Power(0);
    } else {
      EncodedLength(n / 128, k - 1);
      assert Power(k) == 128 * Power(k - 1);
    }
  }

  /** A varint is read back exactly when its last group still starts below bit 64. */
  lemma {:induction false} VarintRoundTrip(n: nat, rest: seq<Byte>, shift: nat)
    ensures shift + 7 * |EncodeVarint(n)| < 71
        ==> VarintOf(EncodeVarint(n) + rest, shift) == (Some(n), |EncodeVarint(n)|)
    ensures shift + 7 * |EncodeVarint(n)| >= 71 ==> VarintOf(EncodeVarint(n) + rest, shift).0 == None
  {
    var bytes := EncodeVarint(n) + rest;
    if n >= 128 && shift < 64 {
      VarintRoundTrip(n / 128, rest, shift + 7);
      assert bytes[1..] == EncodeVarint(n / 128) + rest;
    }
  }

  /** Ten groups of seven bits: exactly the values below 2^70 are read back, which covers 64 bits. */
  lemma VarintsBelow70BitsRoundTrip(n: nat, rest: seq<Byte>)
    ensures VarintOf(EncodeVarint(n) + rest, 0).0 == Some(n) <==> n < 0x40_0000_0000_0000_0000
    ensures n < 0x40_0000_0000_0000_0000 ==> VarintOf(EncodeVarint(n) + rest, 0).1 == |EncodeVarint(n)|
  {
    EncodedLength(n, 10);
    TenGroups();
    VarintRoundTrip(n, rest, 0);
  }

  lemma TenGroups()
    ensures Power(10) == 0x40_0000_0000_0000_0000
  {
  }

  // ---- Fields ----

  datatype Value = Absent | Number(n: nat) | Bytes(bytes: seq<Byte>)

  datatype Field = Field(number: nat, wire: nat, value: Value)

  /** The value after a tag and how many bytes it takes, or the end of what can be read. */
  function ValueOf(wire: nat, rest: seq<Byte>): (r: Option<(Value, nat)>)
    ensures r.Some? ==> r.value.1 <= |rest|
  {
    if wire == 0 then
      var (n, used) := VarintOf(rest, 0);
      Some((if n.Some? then Number(n.value) else Absent, used))
    else if wire == 1 then
      if |rest| < 8 then None else Some((Absent, 8))
    else if wire == 2 then
      var (size, used) := VarintOf(rest, 0);
      if size.None? || |rest| - used < size.value then None
      else Some((Bytes(rest[used..used + size.value]), used + size.value))
    else if wire == 5 then
      if |rest| < 4 then None else Some((Absent, 4))
    else None
  }

  /** One field at the front of the bytes: what is yielded and how far the reader gets. */
  function FieldOf(bytes: seq<Byte>): (r: Option<(Field, nat)>)
    ensures r.Some? ==> 1 <= r.value.1 <= |bytes|
  {
    var (tag, used) := VarintOf(bytes, 0);
    if tag.None? || tag.value / 8 == 0 then None
    else
      var body := ValueOf(tag.value % 8, bytes[used..]);
      if body.None? then None
      else Some((Field(tag.value / 8, tag.value % 8, body.value.0), used + body.value.1))
  }

  function FieldsOf(bytes: seq<Byte>): seq<Field> {
    if bytes == [] then [] else
    var first := FieldOf(bytes);
    if first.None? then [] else [first.value.0] + FieldsOf(bytes[first.value.1..])
  }

  // ---- The encoder ----

  datatype Item =
    | Varint(number: nat, n: nat)
    | Fixed64(number: nat, eight: seq<Byte>)
    | Length(number: nat, bytes: seq<Byte>)
    | Fixed32(number: nat, four: seq<Byte>)
  {
    /** A field number is positive, and what is written as a varint fits 64 bits. */
    predicate Valid() {
      && 1 <= number < 0x2000_0000_0000_0000
      && match this
         case Varint(_, n) => n < 0x1_0000_0000_0000_0000
         case Fixed64(_, eight) => |eight| == 8
         case Length(_, bytes) => |bytes| < 0x1_0000_0000_0000_0000
         case Fixed32(_, four) => |four| == 4
    }

    function Wire(): nat {
      match this case Varint(_, _) => 0 case Fixed64(_, _) => 1 case Length(_, _) => 2 case Fixed32(_, _) => 5
    }

    function Body(): seq<Byte> {
      match this
      case Varint(_, n) => EncodeVarint(n)
      case Fixed64(_, eight) => eight
      case Length(_, bytes) => EncodeVarint(|bytes|) + bytes
      case Fixed32(_, four) => four
    }

    function Encoded(): seq<Byte> {
      EncodeVarint(8 * number + Wire()) + Body()
    }

    function Content(): Value {
      match this case Varint(_, n) => Number(n) case Length(_, bytes) => Bytes(bytes) case _ => Absent
    }

    /** What a reader that skips fixed-width fields reports. */
    function Reported(): Field {
      Field(number, Wire(), Content())
    }
  }

  function Encode(items: seq<Item>): seq<Byte> {
    if items == [] then [] else items[0].Encoded() + Encode(items[1..])
  }

  function Reports(items: seq<Item>): seq<Field> {
    if items == [] then [] else [items[0].Reported()] + Reports(items[1..])
  }

  lemma ReadVarintBack(n: nat, rest: seq<Byte>)
    requires n < 0x1_0000_0000_0000_0000
    ensures VarintOf(EncodeVarint(n) + rest, 0) == (Some(n), |EncodeVarint(n)|)
  {
    VarintsBelow70BitsRoundTrip(n, rest);
  }

  lemma ValueRoundTrip(item: Item, rest: seq<Byte>)
    requires item.Valid()
    ensures ValueOf(item.Wire(), item.Body() + rest) == Some((item.Content(), |item.Body()|))
  {
    match item
    case Varint(_, n) => ReadVarintBack(n, rest);
    case Length(_, bytes) => LengthRoundTrip(bytes, rest);
    case _ =>
  }

  lemma LengthRoundTrip(bytes: seq<Byte>, rest: seq<Byte>)
    requires |bytes| < 0x1_0000_0000_0000_0000
    ensures ValueOf(2, EncodeVarint(|bytes|) + bytes + rest)
         == Some((Bytes(bytes), |EncodeVarint(|bytes|)| + |bytes|))
  {
    var size, all := EncodeVarint(|bytes|), EncodeVarint(|bytes|) + bytes + rest;
    assert all == size + (bytes + rest);
    ReadVarintBack(|bytes|, bytes + rest);
    assert all[|size|..|size| + |bytes|] == bytes;
  }

  lemma FieldOfTag(tag: nat, rest: seq<Byte>)
    requires 8 <= tag < 0x1_0000_0000_0000_0000
    ensures var body := ValueOf(tag % 8, rest);
            FieldOf(EncodeVarint(tag) + rest)
            == if body.None? then None
               else Some((Field(tag / 8, tag % 8, body.value.0), |EncodeVarint(tag)| + body.value.1))
  {
    ReadVarintBack(tag, rest);
    assert (EncodeVarint(tag) + rest)[|EncodeVarint(tag)|..] == rest;
  }

  lemma TagParts(number: nat, wire: nat)
    requires wire < 8
    ensures (8 * number + wire) / 8 == number && (8 * number + wire) % 8 == wire
  {
  }

  lemma FieldRoundTrip(item: Item, rest: seq<Byte>)
    requires item.Valid()
    ensures FieldOf(item.Encoded() + rest) == Some((item.Reported(), |item.Encoded()|))
  {
    var tag := 8 * item.number + item.Wire();
    var more := item.Body() + rest;
    assert item.Encoded() + rest == EncodeVarint(tag) + more;
    TagParts(item.number, item.Wire());
    FieldOfTag(tag, more);
    ValueRoundTrip(item, rest);
  }

  /** The reader undoes the encoder for any list of valid fields. */
  lemma {:induction false} FieldsRoundTrip(items: seq<Item>)
    requires forall i :: 0 <= i < |items| ==> items[i].Valid()
    ensures FieldsOf(Encode(items)) == Reports(items)
  {
    if items != [] {
      var rest := Encode(items[1..]);
      FieldRoundTrip(items[0], rest);
      assert (items[0].Encoded() + rest)[|items[0].Encoded()|..] == rest;
      FieldsRoundTrip(items[1..]);
    }
  }

  // ---- Lookups ----

  function FirstMessage(fields: seq<Field>, wanted: nat): Option<seq<Byte>> {
    if fields == [] then None
    else if fields[0].number == wanted && fields[0].wire == 2 && fields[0].value.Bytes? then Some(fields[0].value.bytes)
    else FirstMessage(fields[1..], wanted)
  }

  function FirstNumber(fields: seq<Field>, wanted: nat): Option<nat> {
    if fields == [] then None
    else if fields[0].number == wanted && fields[0].wire == 0 && fields[0].value.Number? then Some(fields[0].value.n)
    else FirstNumber(fields[1..], wanted)
  }

  lemma {:induction false} ReportedFirst(before: seq<Item>, item: Item, after: seq<Item>)
    requires forall x :: x in before ==> x.number != item.number || x.Wire() != item.Wire()
    ensures item.Varint? ==> FirstNumber(Reports(before + [item] + after), item.number) == Some(item.n)
    ensures item.Length? ==> FirstMessage(Reports(before + [item] + after), item.number) == Some(item.bytes)
    decreases |before|
  {
    var items := before + [item] + after;
    assert Reports(items) == [items[0].Reported()] + Reports(items[1..]);
    if before != [] {
      assert items[1..] == before[1..] + [item] + after;
      assert before[0] in before;
      ReportedFirst(before[1..], item, after);
    }
  }

  /** A lookup finds the first matching field of an encoded message, whatever surrounds it. */
  lemma LookupFindsTheFirst(before: seq<Item>, item: Item, after: seq<Item>)
    requires item.Valid() && (forall x :: x in before ==> x.Valid()) && (forall x :: x in after ==> x.Valid())
    requires forall x :: x in before ==> x.number != item.number || x.Wire() != item.Wire()
    ensures item.Varint? ==> FirstNumber(FieldsOf(Encode(before + [item] + after)), item.number) == Some(item.n)
    ensures item.Length? ==> FirstMessage(FieldsOf(Encode(before + [item] + after)), item.number) == Some(item.bytes)
  {
    FieldsRoundTrip(before + [item] + after);
    ReportedFirst(before, item, after);
  }

  // ---- The reader ----

  /** What has been read so far, followed by the groups that are left. */
  function Joined(sum: nat, scale: nat, rest: Option<nat>): Option<nat> {
    if rest.Some? then Some(sum + scale * rest.value) else None
  }

  lemma JoinNext(bytes: seq<Byte>, shift: nat, sum: nat, scale: nat)
    requires bytes != [] && shift < 64
    ensures var whole, group := VarintOf(bytes, shift), sum + scale * (bytes[0] % 128);
            if bytes[0] < 128 then Joined(sum, scale, whole.0) == Some(group) && whole.1 == 1
            else var rest := VarintOf(bytes[1..], shift + 7);
                 Joined(sum, scale, whole.0) == Joined(group, scale * 128, rest.0) && whole.1 == 1 + rest.1
  {
    if bytes[0] >= 128 {
      var rest := VarintOf(bytes[1..], shift + 7).0;
      if rest.Some? {
        assert scale * (bytes[0] % 128 + 128 * rest.value) == scale * (bytes[0] % 128) + scale * 128 * rest.value;
      }
    }
  }

  lemma FieldsNext(bytes: seq<Byte>)
    requires bytes != []
    ensures var one := FieldOf(bytes);
            FieldsOf(bytes) == if one.None? then [] else [one.value.0] + FieldsOf(bytes[one.value.1..])
  {
  }

  class ProtoReader {
    const payload: seq<Byte>
    var position: nat

    ghost predicate Valid()
      reads this
    {
      position <= |payload|
    }

    ghost function Rest(): seq<Byte>
      requires Valid()
      reads this
    {
      payload[position..]
    }

    constructor (payload: seq<Byte>)
      ensures Valid() && this.payload == payload && position == 0
    {
      this.payload, position := payload, 0;
    }

    method ReadVarint() returns (value: Option<nat>)
      requires Valid()
      modifies this
      ensures Valid() && position == old(position) + VarintOf(old(Rest()), 0).1
      ensures value == VarintOf(old(Rest()), 0).0
    {
      var sum: nat, scale: nat, shift: nat := 0, 1, 0;
      ghost var target := VarintOf(Rest(), 0);
      ghost var end := position + target.1;
      while position < |payload| && shift < 64
        invariant Valid()
        invariant end == position + VarintOf(Rest(), shift).1
        invariant target.0 == Joined(sum, scale, VarintOf(Rest(), shift).0)
        decreases 64 - shift
      {
        var byte: int := payload[position];
        JoinNext(Rest(), shift, sum, scale);
        assert Rest()[1..] == payload[position + 1..];
        position := position + 1;
        sum := sum + scale * (byte % 128);
        if byte < 128 {
          return Some(sum);
        }
        scale, shift := scale * 128, shift + 7;
      }
      return None;
    }

    /** Every field up to the first that cannot be read; any bytes at all end the reading in bounds. */
    method Fields() returns (fields: seq<Field>)
      requires Valid()
      modifies this
      ensures Valid() && fields == FieldsOf(old(Rest()))
    {
      fields := [];
      ghost var target := FieldsOf(Rest());
      while position < |payload|
        invariant Valid()
        invariant target == fields + FieldsOf(Rest())
        decreases |payload| - position
      {
        FieldsNext(Rest());
        var next := ReadField();
        if next.None? {
          return;
        }
        fields := fields + [next.value];
      }
    }

    method ReadField() returns (next: Option<Field>)
      requires Valid() && position < |payload|
      modifies this
      ensures Valid()
      ensures var one := FieldOf(old(Rest()));
              if one.Some? then next == Some(one.value.0) && Rest() == old(Rest())[one.value.1..]
                  && position > old(position)
              else next == None
    {
      ghost var start := Rest();
      var tag := ReadVarint();
      if tag.None? || tag.value / 8 == 0 {
        return None;
      }
      ghost var used := VarintOf(start, 0).1;
      assert start[used..] == Rest();
      var value := ReadValue(tag.value % 8);
      if value.None? {
        return None;
      }
      ghost var more := ValueOf(tag.value % 8, start[used..]).value.1;
      assert start[used..][more..] == start[used + more..];
      return Some(Field(tag.value / 8, tag.value % 8, value.value));
    }

    method ReadValue(wire: nat) returns (value: Option<Value>)
      requires Valid()
      modifies this
      ensures Valid()
      ensures var one := ValueOf(wire, old(Rest()));
              if one.Some? then value == Some(one.value.0) && Rest() == old(Rest())[one.value.1..]
                  && position >= old(position)
              else value == None
    {
      match wire
      case 0 =>
        var n := ReadVarint();
        return Some(if n.Some? then Number(n.value) else Absent);
      case 1 =>
        if position + 8 > |payload| {
          return None;
        }
        position := position + 8;
        return Some(Absent);
      case 2 =>
        var size := ReadVarint();
        if size.None? || position + size.value > |payload| {
          return None;
        }
        ghost var used := VarintOf(old(Rest()), 0).1;
        assert old(Rest())[used..used + size.value] == payload[position..position + size.value];
        value := Some(Bytes(payload[position..position + size.value]));
        position := position + size.value;
      case 5 =>
        if position + 4 > |payload| {
          return None;
        }
        position := position + 4;
        return Some(Absent);
      case _ =>
        return None;
    }
  }
}
