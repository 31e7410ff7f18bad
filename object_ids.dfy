/**
 * The identifiers the tasks collection uses as `_id` (primitive.ObjectID of the
 * MongoDB Go driver): twelve bytes, with the two textual forms storage.go uses —
 * the 24-digit hex form that callers pass in, and the `ObjectID("…")` form that
 * CreateTask uses as its cache key.
 */
module ObjectIds {
  import opened Outcomes

  newtype Byte = b: int | 0 <= b < 256

  /** A primitive.ObjectID: exactly twelve bytes. */
  type ObjectId = s: seq<Byte> | |s| == 12 witness [0, 0, 0, 0, 0, 0, 0, 0, 0, 0, 0, 0]

  /** The lower-case hex digit for a value below 16. */
  function HexDigit(n: int): (c: char)
    requires 0 <= n < 16
    ensures '0' <= c <= '9' || 'a' <= c <= 'f'
  {
    if n < 10 then ('0' as int + n) as char else ('a' as int + n - 10) as char
  }

  /** The value of one hex digit as encoding/hex reads it: 0-9, a-f and A-F. */
  function DigitValue(c: char): (r: Option<int>)
    ensures r.Some? ==> 0 <= r.value < 16
    ensures r.Some? <==> ('0' <= c <= '9' || 'a' <= c <= 'f' || 'A' <= c <= 'F')
    ensures ('0' <= c <= '9' || 'a' <= c <= 'f') ==> r.Some? && HexDigit(r.value) == c
    ensures 'A' <= c <= 'F' ==> r.Some? && HexDigit(r.value) == (c as int - 'A' as int + 'a' as int) as char
  {
    if '0' <= c <= '9' then Some(c as int - '0' as int)
    else if 'a' <= c <= 'f' then Some(c as int - 'a' as int + 10)
    else if 'A' <= c <= 'F' then Some(c as int - 'A' as int + 10)
    else None
  }

  predicate IsHexDigit(c: char) {
    DigitValue(c).Some?
  }

  /** Lower-case hex of a byte string, two digits per byte, high nibble first. */
  function HexOf(bs: seq<Byte>): (s: string)
    ensures |s| == 2 * |bs|
  {
    if bs == [] then ""
    else [HexDigit(bs[0] as int / 16), HexDigit(bs[0] as int % 16)] + HexOf(bs[1..])
  }

  /** hex.DecodeString: pairs of digits to bytes; an odd length or a non-digit fails. */
  function BytesOfHex(s: string): (r: Option<seq<Byte>>)
    ensures r.Some? ==> 2 * |r.value| == |s|
  {
    if s == [] then Some([])
    else if |s| == 1 then None
    else
      match (DigitValue(s[0]), DigitValue(s[1]), BytesOfHex(s[2..]))
      case (Some(hi), Some(lo), Some(rest)) => Some([(hi * 16 + lo) as Byte] + rest)
      case _ => None
  }

  /** ObjectID.Hex(): the 24-digit form callers send as a task id. */
  function Hex(id: ObjectId): (s: string)
    ensures |s| == 24
  {
    HexOf(id)
  }

  /** ObjectID.String(): the hex form wrapped as ObjectID("…"). */
  function IdString(id: ObjectId): (s: string)
    ensures |s| == 36
    ensures s[10..34] == Hex(id)
  {
    "ObjectID(\"" + Hex(id) + "\")"
  }

  /** primitive.ObjectIDFromHex: exactly 24 hex digits, else an error. */
  function ParseObjectId(s: string): (r: Result<ObjectId>)
    ensures r.Err? ==> r.error == InvalidObjectId
  {
    if |s| != 24 then Err(InvalidObjectId)
    else
      match BytesOfHex(s)
      case Some(bs) => Ok(bs)
      case None => Err(InvalidObjectId)
  }

  lemma {:induction false} BytesOfHexOf(bs: seq<Byte>)
    ensures BytesOfHex(HexOf(bs)) == Some(bs)
  {
    if bs != [] {
      var b := bs[0] as int;
      var s := HexOf(bs);
      assert s[2..] == HexOf(bs[1..]);
      BytesOfHexOf(bs[1..]);
      assert DigitValue(s[0]) == Some(b / 16);
      assert DigitValue(s[1]) == Some(b % 16);
      assert [bs[0]] + bs[1..] == bs;
    }
  }

  /** Parsing the hex form gives the id back: the hex form is the key reads and updates can resolve. */
  lemma ParseHex(id: ObjectId)
    ensures ParseObjectId(Hex(id)) == Ok(id)
  {
    BytesOfHexOf(id);
  }

  /** Distinct ids have distinct hex forms. */
  lemma HexInjective(a: ObjectId, b: ObjectId)
    ensures Hex(a) == Hex(b) ==> a == b
  {
    ParseHex(a);
    ParseHex(b);
  }

  lemma {:induction false} BytesOfHexDefined(s: string)
    ensures BytesOfHex(s).Some? <==> |s| % 2 == 0 && forall i :: 0 <= i < |s| ==> IsHexDigit(s[i])
  {
    if |s| >= 2 {
      BytesOfHexDefined(s[2..]);
      assert forall i :: 2 <= i < |s| ==> s[i] == s[2..][i - 2];
    }
  }

  /** ObjectIDFromHex accepts exactly the strings of 24 hex digits, in either case. */
  lemma ParseAccepts(s: string)
    ensures ParseObjectId(s).Ok? <==> |s| == 24 && forall i :: 0 <= i < |s| ==> IsHexDigit(s[i])
  {
    BytesOfHexDefined(s);
  }

  /** A hex letter in upper case; every other character unchanged. */
  function UpperDigit(c: char): (u: char)
    ensures DigitValue(u) == DigitValue(c)
  {
    if 'a' <= c <= 'f' then (c as int - 'a' as int + 'A' as int) as char else c
  }

  /** A string with its hex letters in upper case. */
  function Upper(s: string): (u: string)
    ensures |u| == |s| && forall i :: 0 <= i < |s| ==> u[i] == UpperDigit(s[i])
  {
    if s == [] then "" else [UpperDigit(s[0])] + Upper(s[1..])
  }

  /** hex.DecodeString reads upper- and lower-case digits alike. */
  lemma {:induction false} BytesOfHexUpper(s: string)
    ensures BytesOfHex(Upper(s)) == BytesOfHex(s)
  {
    if |s| >= 2 {
      var u := Upper(s);
      assert u[2..] == Upper(s[2..]);
      BytesOfHexUpper(s[2..]);
      assert DigitValue(u[0]) == DigitValue(s[0]) && DigitValue(u[1]) == DigitValue(s[1]);
    }
  }

  /** An id sent in upper-case hex parses to the same id as its lower-case form. */
  lemma ParseUpperHex(id: ObjectId)
    ensures ParseObjectId(Upper(Hex(id))) == Ok(id)
  {
    BytesOfHexUpper(Hex(id));
    ParseHex(id);
  }

  /** The ObjectID("…") form is never the hex form and never parses as an id. */
  lemma StringFormIsNotHex(id: ObjectId)
    ensures IdString(id) != Hex(id)
    ensures ParseObjectId(IdString(id)) == Err(InvalidObjectId)
  {
  }
}
