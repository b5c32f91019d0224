/** Per-field coercion of source rows: `is_int`, `get_bool`, `get_str` and the
    normalising comprehension of `get_data_from` (data.py). */
module Coercion {
  import opened Values

  /** One data row as the CSV reader yields it: header name to raw text. */
  type RawRow = seq<(string, string)>

  predicate IsDigit(c: char) { '0' <= c <= '9' }

  predicate AllDigits(s: string) { forall i :: 0 <= i < |s| ==> IsDigit(s[i]) }

  function DigitValue(c: char): (d: nat)
    requires IsDigit(c)
    ensures d < 10
  {
    c as int - '0' as int
  }

  function DigitChar(d: nat): (c: char)
    requires d < 10
    ensures IsDigit(c) && DigitValue(c) == d
  {
    ('0' as int + d) as char
  }

  /** The text after an optional leading sign. */
  function Unsigned(v: string): string
  {
    if |v| > 0 && (v[0] == '+' || v[0] == '-') then v[1..] else v
  }

  /** `is_int(v)`: `int(v)` accepts `v`, that is, an optional sign followed by
      one or more decimal digits. */
  predicate IsInt(v: string)
    ensures IsInt(v) <==>
      |v| > 0 && (IsDigit(v[0]) || ((v[0] == '+' || v[0] == '-') && |v| > 1)) &&
      forall i :: 1 <= i < |v| ==> IsDigit(v[i])
  {
    |Unsigned(v)| > 0 && AllDigits(Unsigned(v))
  }

  /** The number a string of decimal digits denotes, most significant first. */
  function DigitsValue(s: string): nat
    requires AllDigits(s)
  {
    if s == [] then 0 else DigitsValue(s[..|s| - 1]) * 10 + DigitValue(s[|s| - 1])
  }

  /** `int(v)` for a string that `is_int` accepts. */
  function ParseInt(v: string): (n: int)
    requires IsInt(v)
    ensures v[0] == '-' ==> n <= 0
    ensures v[0] != '-' ==> n >= 0
  {
    if v[0] == '-' then -(DigitsValue(v[1..]) as int) else DigitsValue(Unsigned(v))
  }

  /** The shortest decimal digits of `n`. */
  function Digits(n: nat): (s: string)
    ensures |s| > 0 && AllDigits(s)
    ensures |s| > 1 ==> s[0] != '0'
  {
    if n < 10 then [DigitChar(n)] else Digits(n / 10) + [DigitChar(n % 10)]
  }

  /** `str(i)` for an `int`. */
  function IntToText(i: int): string
  {
    if i < 0 then "-" + Digits(-i) else Digits(i)
  }

  lemma {:induction false} DigitsRoundTrip(n: nat)
    ensures DigitsValue(Digits(n)) == n
  {
    var s := Digits(n);
    if n < 10 {
      assert s[..|s| - 1] == [];
    } else {
      assert s[..|s| - 1] == Digits(n / 10);
      DigitsRoundTrip(n / 10);
    }
  }

  /** The text form `str(i)` of an integer is accepted by `is_int` and parses
      back to the same integer. */
  /** A field written as `str(i)` normalises back to the integer `i`. */
  lemma CoerceIntText(i: int)
    ensures Coerce(IntToText(i)) == Int(i)
  {
    IntTextRoundTrip(i);
  }

  lemma IntTextRoundTrip(i: int)
    ensures IsInt(IntToText(i)) && ParseInt(IntToText(i)) == i
  {
    var t := IntToText(i);
    if i < 0 {
      assert t[1..] == Digits(-i);
      DigitsRoundTrip(-i);
    } else {
      assert IsDigit(t[0]);
      DigitsRoundTrip(i);
    }
  }

  /** The value a non-empty raw field becomes: `int(v) if is_int(v) else v`. */
  function Coerce(v: string): (r: Value)
    ensures r.Int? <==> IsInt(v)
    ensures r.Int? ==> r.i == ParseInt(v)
    ensures r.Text? ==> r.s == v
  {
    if IsInt(v) then Int(ParseInt(v)) else Text(v)
  }

  /** The row `get_data_from` yields for one CSV row: fields whose text is
      empty are dropped, the others are coerced, in header order. */
  function Normalize(raw: RawRow): (row: Fields)
    ensures |row| <= |raw|
    ensures IsSubsequence(Keys(row), Keys(raw))
    ensures forall i :: 0 <= i < |row| ==> row[i].1.Int? || (row[i].1.Text? && row[i].1.s != "")
  {
    if raw == [] then []
    else
      var rest := Normalize(raw[1..]);
      var row := if raw[0].1 != "" then [(raw[0].0, Coerce(raw[0].1))] + rest else rest;
      assert Keys(raw) == [raw[0].0] + Keys(raw[1..]);
      assert row != rest ==> Keys(row) == [raw[0].0] + Keys(rest);
      row
  }

  /** `bool(v)` for the values the loader handles. */
  predicate Truthy(v: Value)
  {
    match v
    case Int(i) => i != 0
    case Text(s) => s != ""
    case Bool(b) => b
    case Null => false
  }

  /** `get_bool(d, key)`: `bool(d.get(key, 0))`. */
  predicate GetBool(row: Fields, key: string)
    ensures GetBool(row, key) ==> key in Keys(row)
  {
    Truthy(match Lookup(row, key) case Some(v) => v case None => Int(0))
  }

  /** `get_str(d, key)`: `None` for a missing key (or a `None` value), the
      text form `str(v)` of the value otherwise. */
  function GetStr(row: Fields, key: string): (r: Value)
    ensures r.Null? <==> Lookup(row, key).None? || Lookup(row, key) == Some(Null)
    ensures r.Null? || r.Text?
    ensures Lookup(row, key).Some? && Lookup(row, key).value.Int? ==>
      IsInt(r.s) && ParseInt(r.s) == Lookup(row, key).value.i
    ensures Lookup(row, key).Some? && Lookup(row, key).value.Text? ==> r == Lookup(row, key).value
  {
    var found: Option<Value> := Lookup(row, key);
    match found
    case None => Null
    case Some(Null) => Null
    case Some(Int(i)) => IntTextRoundTrip(i); Text(IntToText(i))
    case Some(Text(s)) => Text(s)
    case Some(Bool(b)) => Text(if b then "True" else "False")
  }

  /** A field survives normalisation exactly when its raw text is non-empty,
      and then holds the coerced value. */
  lemma {:induction false} NormalizeLookup(raw: RawRow, key: string)
    requires DistinctKeys(raw)
    ensures Lookup(Normalize(raw), key) ==
      match Lookup(raw, key)
      case None => None
      case Some(v) => if v == "" then None else Some(Coerce(v))
  {
    if raw != [] {
      assert DistinctKeys(raw[1..]) by {
        forall i, j | 0 <= i < j < |raw[1..]| ensures raw[1..][i].0 != raw[1..][j].0 {
          assert raw[1..][i] == raw[i + 1] && raw[1..][j] == raw[j + 1];
        }
      }
      NormalizeLookup(raw[1..], key);
      if raw[0].0 == key && raw[0].1 == "" {
        assert key !in Keys(raw[1..]) by {
          forall i | 0 <= i < |raw[1..]| ensures raw[1..][i].0 != key {
            assert raw[1..][i] == raw[i + 1];
          }
        }
      }
    }
  }

  /** `get_bool` on a normalised row: false for a missing or empty field,
      otherwise true unless the field parses as the integer 0. */
  lemma BoolCoercion(raw: RawRow, key: string)
    requires DistinctKeys(raw)
    ensures GetBool(Normalize(raw), key) ==
      match Lookup(raw, key)
      case None => false
      case Some(v) => v != "" && (IsInt(v) ==> ParseInt(v) != 0)
  {
    NormalizeLookup(raw, key);
  }

  /** `get_str` on a normalised row: `None` for a missing or empty field; the
      raw text itself for a non-integer field; for an integer field, the plain
      decimal text of its value (`"007"` becomes `"7"`), which denotes the same
      integer. */
  lemma StrCoercion(raw: RawRow, key: string)
    requires DistinctKeys(raw)
    ensures Lookup(raw, key).None? || Lookup(raw, key).value == "" ==> GetStr(Normalize(raw), key) == Null
    ensures Lookup(raw, key).Some? && Lookup(raw, key).value != "" ==>
      var v := Lookup(raw, key).value;
      var r := GetStr(Normalize(raw), key);
      r.Text? && (!IsInt(v) ==> r.s == v) &&
      (IsInt(v) ==> r.s == IntToText(ParseInt(v)) && IsInt(r.s) && ParseInt(r.s) == ParseInt(v))
  {
    NormalizeLookup(raw, key);
    match Lookup(raw, key)
    case None =>
    case Some(v) =>
      if v != "" && IsInt(v) {
        IntTextRoundTrip(ParseInt(v));
      }
  }
}
