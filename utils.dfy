/**
 * The string helpers of src/utils.c. Each builds its result in a fresh
 * buffer of the exact size; a NULL argument is `None`.
 */
module Utils {
  import opened Wrappers
  import opened CStrings
  import Decimal

  /** `string_duplicate`: NULL for NULL, else a copy made with `strcpy`. */
  method StringDuplicate(str: Option<string>) returns (r: Option<string>)
    requires str.Some? ==> IsCString(str.value)
    ensures r == str
  {
    if str.None? {
      return None;
    }
    var len := |str.value|;
    var newStr := new char[len + 1];
    CopyAt(newStr, 0, str.value);
    TextOf(newStr[..], str.value);
    return Some(Text(newStr[..]));
  }

  /** The range of a C `int`. */
  const INT_MIN: int := -0x8000_0000
  const INT_MAX: int := 0x7FFF_FFFF

  /** `char buffer[12]`: room for eleven characters and the NUL. */
  const INT_BUFFER: nat := 12

  /** Any 32-bit value needs at most eleven characters, sign included. */
  lemma Int32Width(n: int)
    requires INT_MIN <= n <= INT_MAX
    ensures |Decimal.IntToString(n)| <= INT_BUFFER - 1
  {
    assert Decimal.Pow10(10) == 10_000_000_000 by {
      assert Decimal.Pow10(5) == 100_000;
    }
    if n < 0 {
      Decimal.NatLength(-n, 10);
    } else {
      Decimal.NatLength(n, 10);
    }
  }

  /** `int_to_string`: `snprintf` into the buffer, then a duplicate of it. */
  method IntToString(num: int) returns (r: Option<string>)
    requires INT_MIN <= num <= INT_MAX
    ensures r == Some(Decimal.IntToString(num)) && |r.value| <= INT_BUFFER - 1
    ensures Decimal.Atoi(r.value) == Ok(num)
  {
    var text := Decimal.IntToString(num);
    Int32Width(num);
    assert IsCString(text) by {
      assert Decimal.AllDigits(if num < 0 then text[1..] else text);
    }
    var buffer := new char[INT_BUFFER];
    CopyAt(buffer, 0, text);
    TextOf(buffer[..], text);
    r := StringDuplicate(Some(Text(buffer[..])));
    Decimal.IntRoundTrip(num);
  }

  /** `string_concat`: NULL if either is NULL, else `strcpy` then `strcat` into one buffer. */
  method StringConcat(str1: Option<string>, str2: Option<string>) returns (r: Option<string>)
    requires str1.Some? ==> IsCString(str1.value)
    requires str2.Some? ==> IsCString(str2.value)
    ensures str1.None? || str2.None? ==> r.None?
    ensures str1.Some? && str2.Some? ==> r == Some(str1.value + str2.value)
    ensures r.Some? ==> |r.value| == |str1.value| + |str2.value|
  {
    if str1.None? || str2.None? {
      return None;
    }
    var s1, s2 := str1.value, str2.value;
    var len1, len2 := |s1|, |s2|;
    var result := new char[len1 + len2 + 1];
    CopyAt(result, 0, s1);
    var end := Strlen(result);
    assert end == len1 by {
      TextOf(result[..], s1);
    }
    CopyAt(result, end, s2);
    assert result[..len1 + len2] == s1 + s2;
    TextOf(result[..], s1 + s2);
    return Some(Text(result[..]));
  }
}
