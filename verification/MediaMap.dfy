/** The record counter of a checkpoint's media map: length-delimited records of field 1 ('Base 128 Varints'
    and 'Length-Delimited Records' of the Protocol Buffers encoding guide), read without decoding them. */
module MediaMap {
  import opened Wrappers

  type Byte = b: nat | b < 256

  datatype Error = Invalid | Limit

  const TAG: Byte := 0x0a
  const GROUPS := 5

  // ---------------------------------------------------------------- the encoding

  /** Seven bits a byte, least significant group first, the high bit set on all but the last. */
  function Varint(n: nat): seq<Byte> {
    if n < 128 then [n] else [n % 128 + 128] + Varint(n / 128)
  }

  function Record(data: seq<Byte>): seq<Byte> {
    [TAG] + Varint(|data|) + data
  }

  function Encode(records: seq<seq<Byte>>): seq<Byte> {
    if records == [] then [] else Record(records[0]) + Encode(records[1..])
  }

  // ---------------------------------------------------------------- the counter

  /** A length of at most `groups` more bytes, and what follows it. */
  function Length(bytes: seq<Byte>, groups: nat): Option<(nat, seq<Byte>)>
    decreases groups
  {
    if groups == 0 || bytes == [] then None
    else if bytes[0] < 128 then Some((bytes[0], bytes[1..]))
    else
      match Length(bytes[1..], groups - 1)
      case None => None
      case Some((high, rest)) => Some((bytes[0] - 128 + 128 * high, rest))
  }

  lemma {:induction false} LengthShortens(bytes: seq<Byte>, groups: nat)
    ensures Length(bytes, groups).Some? ==> |Length(bytes, groups).value.1| < |bytes|
    decreases groups
  {
    if groups > 0 && bytes != [] && bytes[0] >= 128 { LengthShortens(bytes[1..], groups - 1); }
  }

  function Count(bytes: seq<Byte>, max: nat, count: nat): Result<nat, Error>
    decreases |bytes|
  {
    if bytes == [] then Ok(count)
    else if bytes[0] != TAG then Err(Invalid)
    else
      var length := Length(bytes[1..], GROUPS);
      LengthShortens(bytes[1..], GROUPS);
      if length.None? || length.value.0 > |length.value.1| then Err(Invalid)
      else if count + 1 > max then Err(Limit)
      else Count(length.value.1[length.value.0..], max, count + 1)
  }

  function Power(k: nat): nat {
    if k == 0 then 1 else 128 * Power(k - 1)
  }

  /** The inner loop: a group of seven bits at a time, up to a shift of 28. */
  method ReadLength(start: seq<Byte>) returns (r: Option<(nat, seq<Byte>)>)
    ensures r == Length(start, GROUPS)
  {
    hide Length, Reads;
    var bytes := start;
    var length: nat, unit: nat := 0, 1;
    ReadsAll(start);
    for shift := 0 to GROUPS
      invariant Reads(start, bytes, GROUPS - shift, unit, length)
    {
      ReadsOn(start, bytes, GROUPS - shift - 1, unit, length);
      if bytes == [] { return None; }
      var byte := bytes[0];
      bytes := bytes[1..];
      if byte < 128 { return Some((length + byte * unit, bytes)); }
      length, unit := length + (byte % 128) * unit, unit * 128;
    }
    ReadsNone(start, bytes, unit, length);
    return None;
  }

  /** The loop over the records. */
  method CountMediaRecords(input: seq<Byte>, max: nat) returns (r: Result<nat, Error>)
    ensures r == Count(input, max, 0)
  {
    hide Length;
    var bytes, count := input, 0;
    while bytes != []
      invariant Count(bytes, max, count) == Count(input, max, 0)
      decreases |bytes|
    {
      if bytes[0] != TAG { return Err(Invalid); }
      LengthShortens(bytes[1..], GROUPS);
      var length := ReadLength(bytes[1..]);
      if length.None? || length.value.0 > |length.value.1| { return Err(Invalid); }
      if count + 1 > max { return Err(Limit); }
      bytes, count := length.value.1[length.value.0..], count + 1;
    }
    return Ok(count);
  }

  /** Part of a length is read: its groups so far sum to `sum`, and the rest counts in units of `unit`. */
  ghost predicate Reads(start: seq<Byte>, bytes: seq<Byte>, groups: nat, unit: nat, sum: nat) {
    Length(start, GROUPS) == match Length(bytes, groups) case None => None case Some((high, rest)) =>
        Some((sum + unit * high, rest))
  }

  lemma ReadsAll(start: seq<Byte>)
    ensures Reads(start, start, GROUPS, 1, 0)
  {}

  lemma ReadsNone(start: seq<Byte>, bytes: seq<Byte>, unit: nat, sum: nat)
    requires Reads(start, bytes, 0, unit, sum)
    ensures Length(start, GROUPS).None?
  {}

  lemma ReadsOn(start: seq<Byte>, bytes: seq<Byte>, groups: nat, unit: nat, sum: nat)
    requires Reads(start, bytes, groups + 1, unit, sum)
    ensures if bytes == [] then Length(start, GROUPS).None?
            else if bytes[0] < 128 then Length(start, GROUPS) == Some((sum + bytes[0] * unit, bytes[1..]))
            else Reads(start, bytes[1..], groups, unit * 128, sum + (bytes[0] % 128) * unit)
  {
    if bytes != [] {
      if bytes[0] < 128 {
        assert unit * bytes[0] == bytes[0] * unit;
      } else {
        Times128(bytes[0], unit, bytes[1..], groups);
      }
    }
  }

  lemma Times128(byte: Byte, unit: nat, rest: seq<Byte>, groups: nat)
    requires byte >= 128
    ensures Length(rest, groups).Some? ==>
              unit * (byte - 128 + 128 * Length(rest, groups).value.0) == (byte % 128) * unit
                  + unit * 128 * Length(rest, groups).value.0
  {
    if Length(rest, groups).Some? {
      var high := Length(rest, groups).value.0;
      assert byte % 128 == byte - 128;
      assert unit * (byte - 128 + 128 * high) == unit * (byte - 128) + unit * (128 * high);
    }
  }

  // ---------------------------------------------------------------- round trip

  /** A length within the groups reads back with what follows; a longer one is not read. */
  lemma {:induction false} VarintReads(n: nat, rest: seq<Byte>, groups: nat)
    requires groups > 0
    ensures Length(Varint(n) + rest, groups) == if n < Power(groups) then Some((n, rest)) else None
    decreases groups
  {
    var bytes := Varint(n) + rest;
    if n < 128 {
      assert bytes[1..] == rest;
      PowerGrows(groups);
    } else {
      assert bytes[1..] == Varint(n / 128) + rest;
      if groups == 1 {
        assert Power(1) == 128 * Power(0);
      } else {
        VarintReads(n / 128, rest, groups - 1);
        DivPower(n, groups);
      }
    }
  }

  lemma {:induction false} PowerGrows(groups: nat)
    requires groups > 0
    ensures Power(groups) >= 128
  {
    if groups > 1 { PowerGrows(groups - 1); }
  }

  lemma DivPower(n: nat, groups: nat)
    requires groups > 0
    ensures n / 128 < Power(groups - 1) <==> n < Power(groups)
  {}

  /** What the counter owes a list of records: their number, unless a length needs more than five groups or
      there are more than `max`, whichever comes first. */
  function Owed(records: seq<seq<Byte>>, max: nat, count: nat): Result<nat, Error> {
    if records == [] then Ok(count)
    else if |records[0]| >= Power(GROUPS) then Err(Invalid)
    else if count + 1 > max then Err(Limit)
    else Owed(records[1..], max, count + 1)
  }

  lemma {:induction false} CountsEncoded(records: seq<seq<Byte>>, max: nat, count: nat)
    ensures Count(Encode(records), max, count) == Owed(records, max, count)
    decreases |records|
  {
    if records != [] {
      var data, rest := records[0], Encode(records[1..]);
      var bytes := Encode(records);
      assert bytes[1..] == Varint(|data|) + (data + rest);
      VarintReads(|data|, data + rest, GROUPS);
      assert (data + rest)[|data|..] == rest;
      CountsEncoded(records[1..], max, count + 1);
    }
  }

  lemma {:induction false} OwedIsCount(records: seq<seq<Byte>>, max: nat, count: nat)
    requires (forall r <- records :: |r| < Power(GROUPS)) && count <= max
    ensures Owed(records, max, count) == if count + |records| <= max then Ok(count + |records|) else Err(Limit)
    decreases |records|
  {
    if records != [] && count + 1 <= max { OwedIsCount(records[1..], max, count + 1); }
  }

  /** For every list of records the counter finds exactly their number when it is within the limit and the
      limit error otherwise, as long as each length fits five groups of seven bits. */
  lemma RoundTrip(records: seq<seq<Byte>>, max: nat)
    ensures (forall r <- records :: |r| < 34_359_738_368) ==>
              Count(Encode(records), max, 0) == if |records| <= max then Ok(|records|) else Err(Limit)
    ensures |records| <= max
            ==> (Count(Encode(records), max, 0) == Ok(|records|) <==> forall r <- records :: |r| < 34_359_738_368)
  {
    assert Power(GROUPS) == 34_359_738_368 by {
      assert Power(2) == 16384 && Power(3) == 2097152 && Power(4) == 268435456;
    }
    CountsEncoded(records, max, 0);
    if forall r <- records :: |r| < Power(GROUPS) {
      OwedIsCount(records, max, 0);
    } else {
      LongIsInvalid(records, max, 0);
    }
  }

  lemma {:induction false} LongIsInvalid(records: seq<seq<Byte>>, max: nat, count: nat)
    requires exists r <- records :: |r| >= Power(GROUPS)
    ensures Owed(records, max, count).Err?
    decreases |records|
  {
    var r :| r in records && |r| >= Power(GROUPS);
    if r != records[0] {
      assert r in records[1..];
      LongIsInvalid(records[1..], max, count + 1);
    }
  }

  // ---------------------------------------------------------------- any bytes

  /** A length as it stands, also one that is longer than it need be: up to five bytes, the high bit on all but
      the last. */
  predicate Header(bytes: seq<Byte>, groups: nat) {
    && 1 <= |bytes| <= groups && bytes[|bytes| - 1] < 128
    && forall i | 0 <= i < |bytes| - 1 :: bytes[i] >= 128
  }

  function Value(bytes: seq<Byte>): nat {
    if bytes == [] then 0 else bytes[0] % 128 + 128 * Value(bytes[1..])
  }

  /** A tag, a length of `k` bytes, and as many bytes as it says. */
  predicate WholeAt(bytes: seq<Byte>, k: nat) {
    && 1 <= k < |bytes| && bytes[0] == TAG && Header(bytes[1..k + 1], GROUPS)
    && |bytes| == 1 + k + Value(bytes[1..k + 1])
  }

  predicate Whole(bytes: seq<Byte>) {
    exists k | 1 <= k < |bytes| :: WholeAt(bytes, k)
  }

  predicate AllWhole(records: seq<seq<Byte>>) {
    forall r <- records :: Whole(r)
  }

  function Joined(records: seq<seq<Byte>>): seq<Byte> {
    if records == [] then [] else records[0] + Joined(records[1..])
  }

  /** Whole records, and what follows them. */
  ghost predicate Splits(bytes: seq<Byte>, records: seq<seq<Byte>>, rest: seq<Byte>) {
    AllWhole(records) && bytes == Joined(records) + rest
  }

  /** No whole record stands at the front. */
  ghost predicate Blocked(bytes: seq<Byte>) {
    bytes != [] && forall k | 0 <= k <= |bytes| :: !Whole(bytes[..k])
  }

  lemma {:induction false} HeaderReads(head: seq<Byte>, rest: seq<Byte>, groups: nat)
    requires Header(head, groups)
    ensures Length(head + rest, groups) == Some((Value(head), rest))
    decreases groups
  {
    var bytes := head + rest;
    if |head| == 1 {
      assert bytes[1..] == rest && Value(head[1..]) == 0;
    } else {
      assert bytes[1..] == head[1..] + rest;
      HeaderReads(head[1..], rest, groups - 1);
    }
  }

  lemma {:induction false} LengthHeader(bytes: seq<Byte>, groups: nat) returns (k: nat)
    requires Length(bytes, groups).Some?
    ensures k <= |bytes| && Header(bytes[..k], groups)
    ensures Length(bytes, groups) == Some((Value(bytes[..k]), bytes[k..]))
    decreases groups
  {
    if bytes[0] < 128 {
      k := 1;
      assert bytes[..1][1..] == [];
    } else {
      var more := LengthHeader(bytes[1..], groups - 1);
      k := more + 1;
      assert bytes[..k][1..] == bytes[1..][..more] && bytes[1..][more..] == bytes[k..];
    }
  }

  lemma FrontReads(record: seq<Byte>, rest: seq<Byte>, max: nat, count: nat)
    requires Whole(record)
    ensures Count(record + rest, max, count) == if count + 1 > max then Err(Limit) else Count(rest, max, count + 1)
  {
    var k :| 1 <= k < |record| && WholeAt(record, k);
    var head, data := record[1..k + 1], record[k + 1..];
    assert record[1..] == head + data && (record + rest)[1..] == record[1..] + rest;
    assert (head + data) + rest == head + (data + rest);
    HeaderReads(head, data + rest, GROUPS);
    assert (data + rest)[|data|..] == rest;
  }

  /** The counter gets past the front. */
  predicate Countable(bytes: seq<Byte>) {
    && bytes != [] && bytes[0] == TAG && Length(bytes[1..], GROUPS).Some?
    && Length(bytes[1..], GROUPS).value.0 <= |Length(bytes[1..], GROUPS).value.1|
  }

  /** A front that can be counted is a whole record. */
  lemma FrontIsWhole(bytes: seq<Byte>) returns (k: nat)
    requires Countable(bytes)
    ensures 0 < k <= |bytes| && Whole(bytes[..k])
  {
    var (length, rest) := Length(bytes[1..], GROUPS).value;
    var h := LengthHeader(bytes[1..], GROUPS);
    k := 1 + h + length;
    assert bytes[..k][1..h + 1] == bytes[1..][..h];
    assert WholeAt(bytes[..k], h);
  }

  lemma FrontIsBlocked(bytes: seq<Byte>)
    requires bytes != [] && !Countable(bytes)
    ensures Blocked(bytes)
  {
    hide Countable, Whole;
    forall k | 0 <= k <= |bytes| ensures !Whole(bytes[..k]) {
      assert bytes == bytes[..k] + bytes[k..];
      if Whole(bytes[..k]) { WholeIsCountable(bytes[..k], bytes[k..]); }
    }
  }

  lemma WholeIsCountable(record: seq<Byte>, rest: seq<Byte>)
    requires Whole(record)
    ensures Countable(record + rest)
  {
    var h :| 1 <= h < |record| && WholeAt(record, h);
    var head, data := record[1..h + 1], record[h + 1..];
    assert record[1..] == head + data && (record + rest)[1..] == record[1..] + rest;
    assert (head + data) + rest == head + (data + rest);
    HeaderReads(head, data + rest, GROUPS);
  }

  /** Where the counter stops, and why. */
  lemma {:induction false} CountStops(bytes: seq<Byte>, max: nat, count: nat)
    returns (records: seq<seq<Byte>>, rest: seq<Byte>)
    requires count <= max
    ensures Splits(bytes, records, rest)
    ensures match Count(bytes, max, count)
            case Ok(n) => rest == [] && n == count + |records| <= max
            case Err(Limit) => count + |records| == max + 1
            case Err(Invalid) => Blocked(rest) && count + |records| <= max
    decreases |bytes|
  {
    hide Count, Length, Whole, Blocked;
    records, rest := [], bytes;
    assert Count([], max, count) == Ok(count) by { NothingCounts(max, count); }
    if bytes == [] { return; }
    if !Countable(bytes) {
      FrontIsBlocked(bytes);
      BlockedInvalid(bytes, max, count);
      return;
    }
    var k := FrontIsWhole(bytes);
    FrontReads(bytes[..k], bytes[k..], max, count);
    assert bytes == bytes[..k] + bytes[k..];
    var more: seq<seq<Byte>> := [];
    rest := bytes[k..];
    if count + 1 <= max { more, rest := CountStops(bytes[k..], max, count + 1); }
    records := [bytes[..k]] + more;
    OneMoreJoined(bytes[..k], more, rest);
  }

  lemma NothingCounts(max: nat, count: nat)
    ensures Count([], max, count) == Ok(count)
  {}

  lemma OneMoreJoined(record: seq<Byte>, more: seq<seq<Byte>>, rest: seq<Byte>)
    ensures Joined([record] + more) + rest == record + (Joined(more) + rest)
  {
    assert ([record] + more)[1..] == more;
  }

  lemma {:induction false} CountOf(records: seq<seq<Byte>>, rest: seq<Byte>, max: nat, count: nat)
    requires AllWhole(records) && count <= max
    ensures Count(Joined(records) + rest, max, count)
            == if count + |records| > max then Err(Limit) else Count(rest, max, count + |records|)
    decreases |records|
  {
    hide Count, Length, Whole;
    if records == [] {
      assert Joined(records) + rest == rest;
    } else {
      var front, more := records[0], records[1..];
      OneMoreJoined(front, more, rest);
      assert [front] + more == records && front in records && forall r <- more :: r in records;
      FrontReads(front, Joined(more) + rest, max, count);
      if count + 1 <= max { CountOf(more, rest, max, count + 1); }
    }
  }

  /** On any bytes: `n` exactly when they are `n` whole records within the limit, the limit error exactly when
      more whole records than the limit stand at the front, and otherwise the error for a damaged map. */
  lemma CountsExactly(bytes: seq<Byte>, max: nat, n: nat)
    ensures Count(bytes, max, 0) == Ok(n)
            <==> n <= max && exists records :: |records| == n && Splits(bytes, records, [])
    ensures Count(bytes, max, 0) == Err(Limit)
            <==> exists records, rest :: |records| == max + 1 && Splits(bytes, records, rest)
    ensures Count(bytes, max, 0) == Err(Invalid)
            <==> exists records, rest :: |records| <= max && Splits(bytes, records, rest) && Blocked(rest)
  {
    var found, left := CountStops(bytes, max, 0);
    if records :| |records| == n && Splits(bytes, records, []) {
      CountOf(records, [], max, 0);
    }
    if records, rest :| |records| == max + 1 && Splits(bytes, records, rest) {
      CountOf(records, rest, max, 0);
    }
    if records, rest :| |records| <= max && Splits(bytes, records, rest) && Blocked(rest) {
      CountOf(records, rest, max, 0);
      BlockedInvalid(rest, max, |records|);
    }
  }

  lemma BlockedInvalid(bytes: seq<Byte>, max: nat, count: nat)
    requires Blocked(bytes)
    ensures Count(bytes, max, count) == Err(Invalid)
  {
    if Countable(bytes) { var k := FrontIsWhole(bytes); }
  }
}
