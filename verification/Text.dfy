/** Numbers, hashes and bytes as text, and texts as rows: decimal, and the hexadecimal and base64
    of RFC 4648, sections 8 and 4. */
module Text {
  import opened Core
  import opened HashBytes

  predicate OneLine(s: string) { '\n' !in s }

  // ---- Decimal ----

  function DigitOf(d: nat): char
    requires d < 10
  {
    ('0' as int + d) as char
  }

  function FormatUint(n: nat): string {
    if n < 10 then [DigitOf(n)] else FormatUint(n / 10) + [DigitOf(n % 10)]
  }

  function ParseDigits(s: string): Option<nat> {
    if s == [] then Some(0)
    else
      var last := s[|s| - 1];
      if !('0' <= last <= '9') then None
      else
        match ParseDigits(s[..|s| - 1])
        case None => None
        case Some(n) => Some(10 * n + (last as int - '0' as int))
  }

  function ParseUint(s: string): Option<Uint64> {
    if s == [] then None
    else
      match ParseDigits(s)
      case None => None
      case Some(n) => if n < TWO_64 then Some(n) else None
  }

  lemma {:induction false} DigitsParse(n: nat)
    ensures ParseDigits(FormatUint(n)) == Some(n) && FormatUint(n) != []
    ensures OneLine(FormatUint(n))
  {
    var s, last := FormatUint(n), DigitOf(n % 10);
    if n >= 10 {
      DigitsParse(n / 10);
      assert s[..|s| - 1] == FormatUint(n / 10);
    } else {
      assert s[..0] == [];
    }
  }

  lemma UintParses(n: Uint64)
    ensures ParseUint(FormatUint(n)) == Some(n)
  {
    DigitsParse(n);
  }

  /** The digits of the three alphabets. */
  lemma Alphabets(d: nat)
    ensures d < 10 ==> DigitOf(d) == "0123456789"[d]
    ensures d < 16 ==> HexOf(d) == "0123456789abcdef"[d]
    ensures d < 26 ==> Base64Of(d) == "ABCDEFGHIJKLMNOPQRSTUVWXYZ"[d]
    ensures 26 <= d < 52 ==> Base64Of(d) == "abcdefghijklmnopqrstuvwxyz"[d - 26]
    ensures 52 <= d < 64 ==> Base64Of(d) == "0123456789+/"[d - 52]
  {
  }

  // ---- Hexadecimal ----

  function HexOf(d: nat): char
    requires d < 16
  {
    if d < 10 then ('0' as int + d) as char else ('a' as int + d - 10) as char
  }

  function HexValue(c: char): Option<nat> {
    if '0' <= c <= '9' then Some(c as int - '0' as int)
    else if 'a' <= c <= 'f' then Some(c as int - 'a' as int + 10)
    else if 'A' <= c <= 'F' then Some(c as int - 'A' as int + 10)
    else None
  }

  function HexString(bs: seq<Byte>): string {
    if bs == [] then [] else [HexOf(bs[0] / 16), HexOf(bs[0] % 16)] + HexString(bs[1..])
  }

  function HexDecode(s: string): Option<seq<Byte>> {
    if s == [] then Some([])
    else if |s| < 2 || HexValue(s[0]).None? || HexValue(s[1]).None? then None
    else
      match HexDecode(s[2..])
      case None => None
      case Some(rest) =>
        HexBound(s[0]);
        HexBound(s[1]);
        Some([16 * HexValue(s[0]).value + HexValue(s[1]).value] + rest)
  }

  lemma HexBound(c: char)
    ensures HexValue(c).Some? ==> HexValue(c).value < 16
  {
  }

  lemma {:induction false} HexInverts(bs: seq<Byte>)
    ensures HexDecode(HexString(bs)) == Some(bs) && |HexString(bs)| == 2 * |bs| && OneLine(HexString(bs))
  {
    if bs != [] {
      HexInverts(bs[1..]);
      var s := HexString(bs);
      assert s[2..] == HexString(bs[1..]);
      assert bs == [bs[0]] + bs[1..];
    }
  }

  function HashString(h: HashT): string { HexString(ToBytes(h, 32)) }

  function HashFromString(s: string): Option<HashT> {
    if |s| != 64 then None
    else
      match HexDecode(s)
      case None => None
      case Some(bs) =>
        HexLength(s);
        FromBytesBound(bs);
        HashSize();
        Some(FromBytes(bs))
  }

  lemma {:induction false} HexLength(s: string)
    ensures HexDecode(s).Some? ==> |s| == 2 * |HexDecode(s).value|
    decreases |s|
  {
    if |s| >= 2 {
      HexLength(s[2..]);
    }
  }

  lemma HashParses(h: HashT)
    ensures HashFromString(HashString(h)) == Some(h) && OneLine(HashString(h)) && |HashString(h)| == 64
  {
    HashSize();
    HexInverts(ToBytes(h, 32));
    NumberRoundTrip(h, 32);
  }

  // ---- Base64 ----

  function Base64Of(v: nat): char
    requires v < 64
  {
    if v < 26 then ('A' as int + v) as char
    else if v < 52 then ('a' as int + v - 26) as char
    else if v < 62 then ('0' as int + v - 52) as char
    else if v == 62 then '+' else '/'
  }

  function Base64Value(c: char): Option<nat> {
    if 'A' <= c <= 'Z' then Some(c as int - 'A' as int)
    else if 'a' <= c <= 'z' then Some(c as int - 'a' as int + 26)
    else if '0' <= c <= '9' then Some(c as int - '0' as int + 52)
    else if c == '+' then Some(62) else if c == '/' then Some(63) else None
  }

  function Encode(bs: seq<Byte>): string {
    if bs == [] then []
    else if |bs| == 1 then [Base64Of(bs[0] / 4), Base64Of(bs[0] % 4 * 16), '=', '=']
    else if |bs| == 2 then
      [Base64Of(bs[0] / 4), Base64Of(bs[0] % 4 * 16 + bs[1] / 16), Base64Of(bs[1] % 16 * 4), '=']
    else
      [Base64Of(bs[0] / 4), Base64Of(bs[0] % 4 * 16 + bs[1] / 16), Base64Of(bs[1] % 16 * 4 + bs[2] / 64),
       Base64Of(bs[2] % 64)] + Encode(bs[3..])
  }

  /** Up to three bytes from the values of a group of four. */
  function Triple(a: nat, b: nat, c: nat, d: nat): seq<Byte>
    requires a < 64 && b < 64 && c < 64 && d < 64
  {
    [a * 4 + b / 16, b % 16 * 16 + c / 4, c % 4 * 64 + d]
  }

  lemma Base64Bound(c: char)
    ensures Base64Value(c).Some? ==> Base64Value(c).value < 64
  {
  }

  /** Padding only ends the last group; unused bits of the last value are not looked at. */
  function DecodeGroups(s: string): Option<seq<Byte>> {
    if s == [] then Some([])
    else if |s| < 4 || Base64Value(s[0]).None? || Base64Value(s[1]).None? then None
    else
      Base64Bound(s[0]);
      Base64Bound(s[1]);
      Base64Bound(s[2]);
      Base64Bound(s[3]);
      var a, b := Base64Value(s[0]).value, Base64Value(s[1]).value;
      if s[2..] == "==" then Some(Triple(a, b, 0, 0)[..1])
      else if Base64Value(s[2]).None? then None
      else if s[3..] == "=" then Some(Triple(a, b, Base64Value(s[2]).value, 0)[..2])
      else if Base64Value(s[3]).None? then None
      else
        match DecodeGroups(s[4..])
        case None => None
        case Some(rest) => Some(Triple(a, b, Base64Value(s[2]).value, Base64Value(s[3]).value) + rest)
  }

  predicate IsBreak(c: char) { c == '\r' || c == '\n' }

  function SkipBreaks(s: string): string {
    if s == [] then [] else (if IsBreak(s[0]) then [] else [s[0]]) + SkipBreaks(s[1..])
  }

  /** The decoder passes over line breaks wherever they are. */
  function Decode(s: string): Option<seq<Byte>> { DecodeGroups(SkipBreaks(s)) }

  lemma Base64Inverse(v: nat)
    requires v < 64
    ensures Base64Value(Base64Of(v)) == Some(v) && Base64Of(v) != '=' && !IsBreak(Base64Of(v))
  {
  }

  lemma TripleInverts(x: Byte, y: Byte, z: Byte)
    ensures x / 4 < 64 && x % 4 * 16 + y / 16 < 64 && y % 16 * 4 + z / 64 < 64 && z % 64 < 64
    ensures Triple(x / 4, x % 4 * 16 + y / 16, y % 16 * 4 + z / 64, z % 64) == [x, y, z]
  {
    Straddle16(x % 4, y / 16);
    Straddle4(y % 16, z / 64);
  }

  /** A value that straddles two bytes comes apart again. */
  lemma Straddle16(high: nat, low: nat)
    requires low < 16
    ensures (high * 16 + low) / 16 == high && (high * 16 + low) % 16 == low
  {
  }

  lemma Straddle4(high: nat, low: nat)
    requires low < 4
    ensures (high * 4 + low) / 4 == high && (high * 4 + low) % 4 == low
  {
  }

  lemma ShortInverts(x: Byte, y: Byte)
    ensures Triple(x / 4, x % 4 * 16 + y / 16, y % 16 * 4, 0)[..2] == [x, y]
    ensures Triple(x / 4, x % 4 * 16, 0, 0)[..1] == [x]
  {
    Straddle16(x % 4, 0);
    Straddle16(x % 4, y / 16);
    Straddle4(y % 16, 0);
  }

  lemma FullGroup(x: Byte, y: Byte, z: Byte, rest: string)
    ensures DecodeGroups(
      [Base64Of(x / 4), Base64Of(x % 4 * 16 + y / 16), Base64Of(y % 16 * 4 + z / 64), Base64Of(z % 64)] + rest)
         == match DecodeGroups(rest) case None => None case Some(bs) => Some([x, y, z] + bs)
  {
    TripleInverts(x, y, z);
    Base64Inverse(x / 4);
    Base64Inverse(x % 4 * 16 + y / 16);
    Base64Inverse(y % 16 * 4 + z / 64);
    Base64Inverse(z % 64);
    hide Base64Of, Base64Value, Triple;
    var s := [Base64Of(x / 4), Base64Of(x % 4 * 16 + y / 16), Base64Of(y % 16 * 4 + z / 64), Base64Of(z % 64)] + rest;
    assert s[4..] == rest;
    assert s[2..][0] == s[2] && s[3..][0] == s[3];
  }

  lemma LastOfOne(x: Byte)
    ensures DecodeGroups([Base64Of(x / 4), Base64Of(x % 4 * 16), '=', '=']) == Some([x])
  {
    ShortInverts(x, 0);
    Base64Inverse(x / 4);
    Base64Inverse(x % 4 * 16);
    hide Base64Of, Triple;
    var s := [Base64Of(x / 4), Base64Of(x % 4 * 16), '=', '='];
    assert s[2..] == "==";
  }

  lemma LastOfTwo(x: Byte, y: Byte)
    ensures DecodeGroups([Base64Of(x / 4), Base64Of(x % 4 * 16 + y / 16), Base64Of(y % 16 * 4), '=']) == Some([x, y])
  {
    ShortInverts(x, y);
    Base64Inverse(x / 4);
    Base64Inverse(x % 4 * 16 + y / 16);
    Base64Inverse(y % 16 * 4);
    hide Base64Of, Triple;
    var s := [Base64Of(x / 4), Base64Of(x % 4 * 16 + y / 16), Base64Of(y % 16 * 4), '='];
    assert s[2..][0] == s[2] && s[3..] == "=";
  }

  lemma {:induction false} GroupsInvert(bs: seq<Byte>)
    ensures DecodeGroups(Encode(bs)) == Some(bs)
  {
    hide Base64Of, Base64Value, Triple, DecodeGroups;
    if bs == [] {
      NothingDecodes();
    } else if |bs| == 1 {
      LastOfOne(bs[0]);
      assert bs == [bs[0]];
    } else if |bs| == 2 {
      LastOfTwo(bs[0], bs[1]);
      assert bs == [bs[0], bs[1]];
    } else {
      GroupsInvert(bs[3..]);
      FullGroup(bs[0], bs[1], bs[2], Encode(bs[3..]));
      assert bs == [bs[0], bs[1], bs[2]] + bs[3..];
    }
  }

  lemma NothingDecodes()
    ensures DecodeGroups("") == Some([])
  {
  }

  lemma {:induction false} EncodedLine(bs: seq<Byte>)
    ensures forall i :: 0 <= i < |Encode(bs)| ==> !IsBreak(Encode(bs)[i])
    ensures OneLine(Encode(bs))
    ensures Encode(bs) == [] <==> bs == []
  {
    if |bs| >= 3 {
      EncodedLine(bs[3..]);
      TripleInverts(bs[0], bs[1], bs[2]);
    }
  }

  lemma {:induction false} NoBreaks(s: string)
    requires forall i :: 0 <= i < |s| ==> !IsBreak(s[i])
    ensures SkipBreaks(s) == s
  {
    if s != [] {
      NoBreaks(s[1..]);
    }
  }

  lemma {:induction false} SkipBreaksConcat(a: string, b: string)
    ensures SkipBreaks(a + b) == SkipBreaks(a) + SkipBreaks(b)
    decreases |a|
  {
    if a == [] {
      assert a + b == b;
    } else {
      assert (a + b)[1..] == a[1..] + b;
      SkipBreaksConcat(a[1..], b);
    }
  }

  lemma {:induction false} Base64Inverts(bs: seq<Byte>)
    ensures Decode(Encode(bs)) == Some(bs)
  {
    hide Encode, DecodeGroups;
    EncodedLine(bs);
    NoBreaks(Encode(bs));
    GroupsInvert(bs);
  }

  /** A carriage return in the text changes nothing. */
  lemma BrokenDecodes(s: string, at: nat)
    requires at <= |s|
    ensures Decode(s[..at] + "\r" + s[at..]) == Decode(s)
  {
    hide DecodeGroups;
    SkipBreaksConcat(s[..at] + "\r", s[at..]);
    SkipBreaksConcat(s[..at], "\r");
    SkipBreaksConcat(s[..at], s[at..]);
    assert s[..at] + s[at..] == s;
    assert SkipBreaks("\r") == [] && SkipBreaks(s[..at] + "\r") == SkipBreaks(s[..at]);
  }

  // ---- Rows ----

  function Join(rows: seq<string>): string {
    if rows == [] then [] else if |rows| == 1 then rows[0] else rows[0] + "\n" + Join(rows[1..])
  }

  /** Always at least one row. */
  function Split(s: string): (rows: seq<string>)
    ensures rows != []
  {
    if s == [] then [""]
    else
      var rest := Split(s[1..]);
      if s[0] == '\n' then [""] + rest else [[s[0]] + rest[0]] + rest[1..]
  }

  function TrimLeft(s: string): string { if s != [] && s[0] == '\n' then TrimLeft(s[1..]) else s }

  function TrimRight(s: string): string {
    if s != [] && s[|s| - 1] == '\n' then TrimRight(s[..|s| - 1]) else s
  }

  function Trim(s: string): string { TrimRight(TrimLeft(s)) }

  lemma {:induction false} SplitLine(row: string, s: string)
    requires OneLine(row)
    ensures Split(row + s) == [row + Split(s)[0]] + Split(s)[1..]
    decreases |row|
  {
    if row == [] {
      assert row + s == s;
      assert [] + Split(s)[0] == Split(s)[0];
    } else {
      assert (row + s)[1..] == row[1..] + s;
      SplitLine(row[1..], s);
      assert [row[0]] + (row[1..] + Split(s)[0]) == row + Split(s)[0];
    }
  }

  lemma {:induction false} SplitJoin(rows: seq<string>)
    requires rows != [] && forall i :: 0 <= i < |rows| ==> OneLine(rows[i])
    ensures Split(Join(rows)) == rows
    decreases |rows|
  {
    if |rows| == 1 {
      SplitLine(rows[0], []);
      assert rows[0] + [] == rows[0] && rows[0] + "" == rows[0];
    } else {
      var rest := Join(rows[1..]);
      SplitJoin(rows[1..]);
      assert rows[0] + "\n" + rest == rows[0] + ("\n" + rest);
      assert ("\n" + rest)[1..] == rest;
      SplitLine(rows[0], "\n" + rest);
      assert rows[0] + "" == rows[0];
      assert rows == [rows[0]] + rows[1..];
    }
  }

  lemma {:induction false} JoinMore(rows: seq<string>, row: string)
    requires rows != []
    ensures Join(rows + [row]) == Join(rows) + "\n" + row
    decreases |rows|
  {
    if |rows| > 1 {
      assert (rows + [row])[1..] == rows[1..] + [row];
      JoinMore(rows[1..], row);
    }
  }

  /** Trimming takes empty rows off the end, and nothing else. */
  lemma {:induction false} TrimRightJoin(rows: seq<string>, n: nat)
    requires 0 < n <= |rows| && OneLine(rows[n - 1]) && rows[n - 1] != []
    requires forall i :: n <= i < |rows| ==> rows[i] == []
    ensures TrimRight(Join(rows)) == Join(rows[..n])
    decreases |rows|
  {
    if n == |rows| {
      assert rows[..n] == rows;
      LastChar(rows);
    } else {
      var front := rows[..|rows| - 1];
      assert rows == front + [""];
      JoinMore(front, "");
      assert Join(rows) == Join(front) + "\n";
      assert Join(rows)[..|Join(rows)| - 1] == Join(front);
      TrimRightJoin(front, n);
      assert front[..n] == rows[..n];
    }
  }

  lemma {:induction false} LastChar(rows: seq<string>)
    requires rows != [] && rows[|rows| - 1] != []
    ensures Join(rows) != [] && Join(rows)[|Join(rows)| - 1] == rows[|rows| - 1][|rows[|rows| - 1]| - 1]
    decreases |rows|
  {
    if |rows| > 1 {
      LastChar(rows[1..]);
    }
  }

  lemma TrimLeftJoin(rows: seq<string>)
    requires rows != [] && rows[0] != [] && OneLine(rows[0])
    ensures TrimLeft(Join(rows)) == Join(rows)
  {
    assert Join(rows)[0] == rows[0][0];
    assert rows[0][0] in rows[0];
  }

  /** What reading rows back comes to: the rows up to the last that is not empty. */
  lemma RowsBack(rows: seq<string>, n: nat)
    requires 0 < n <= |rows| && rows[0] != [] && rows[n - 1] != []
    requires forall i :: 0 <= i < |rows| ==> OneLine(rows[i])
    requires forall i :: n <= i < |rows| ==> rows[i] == []
    ensures Split(Trim(Join(rows))) == rows[..n]
  {
    TrimLeftJoin(rows);
    TrimRightJoin(rows, n);
    SplitJoin(rows[..n]);
  }
}
