// Shared vocabulary of the model: optional values, results that stand for
// Python exceptions, the dynamic values that travel inside messages, and the
// small pieces of Python string and list semantics the library relies on
// (str(), str.zfill, int(), negative slices, str.split, os.path.join).

module Common {

  datatype Option<T> = None | Some(value: T)

  /** A computation that either returns a value or raises the named Python exception. */
  datatype Result<T> = Ok(value: T) | Err(error: string)
  {
    predicate IsOk() { Ok? }
  }

  type byte = x: int | 0 <= x < 256

  /**
   * A Python object as seen by the library: None, a bool, an int, a str, or
   * any other object (a float, a list, a dict), carried with the text that
   * str() gives for it.
   */
  datatype Value = VNone | VBool(b: bool) | VInt(i: int) | VStr(s: string) | VOther(typeName: string, text: string)

  // ---------------------------------------------------------------- decimal text

  function DigitChar(d: nat): (c: char)
    requires d < 10
    ensures '0' <= c <= '9'
  {
    ['0', '1', '2', '3', '4', '5', '6', '7', '8', '9'][d]
  }

  predicate IsDigit(c: char) { '0' <= c <= '9' }

  predicate AllDigits(s: string) { forall i :: 0 <= i < |s| ==> IsDigit(s[i]) }

  function DigitValue(c: char): (d: nat)
    requires IsDigit(c)
    ensures d < 10
  {
    (c as int) - ('0' as int)
  }

  /** The decimal digits of a natural number, as str() writes them. */
  function NatToString(n: nat): (s: string)
    decreases n
  {
    if n < 10 then [DigitChar(n)] else NatToString(n / 10) + [DigitChar(n % 10)]
  }

  lemma {:induction false} NatToStringDigits(n: nat)
    ensures |NatToString(n)| > 0 && AllDigits(NatToString(n))
    decreases n
  {
    if n >= 10 {
      NatToStringDigits(n / 10);
    }
  }

  /** The value of a non-empty run of decimal digits. */
  function DigitsValue(s: string): nat
    requires AllDigits(s)
    decreases |s|
  {
    if s == [] then 0 else DigitsValue(s[..|s| - 1]) * 10 + DigitValue(s[|s| - 1])
  }

  lemma {:induction false} DigitsValueOfNatToString(n: nat)
    ensures AllDigits(NatToString(n)) && DigitsValue(NatToString(n)) == n
    decreases n
  {
    NatToStringDigits(n);
    var s := NatToString(n);
    if n >= 10 {
      DigitsValueOfNatToString(n / 10);
      assert s[..|s| - 1] == NatToString(n / 10);
      assert DigitValue(DigitChar(n % 10)) == n % 10;
    } else {
      assert s[..0] == [];
      assert DigitValue(DigitChar(n)) == n;
    }
  }

  /** Python's str() of an int. */
  function IntToString(i: int): string
  {
    if i < 0 then "-" + NatToString(-i) else NatToString(i)
  }

  /** Python's str() of a value. */
  function Str(v: Value): string
  {
    match v
    case VNone => "None"
    case VBool(b) => if b then "True" else "False"
    case VInt(i) => IntToString(i)
    case VStr(s) => s
    case VOther(_, text) => text
  }

  /** Python's str() of a value's type, as `type(v)` prints it: `<class 'int'>`. */
  function ClassText(v: Value): (r: string)
    ensures |r| >= 10 && r[..8] == "<class '" && r[|r| - 2..] == "'>"
  {
    var name := match v
      case VNone => "NoneType"
      case VBool(_) => "bool"
      case VInt(_) => "int"
      case VStr(_) => "str"
      case VOther(typeName, _) => typeName;
    "<class '" + name + "'>"
  }

  // ---------------------------------------------------------------- int()

  predicate IsSpace(c: char) { c == ' ' || c == '\t' || c == '\n' || c == '\r' || c as int == 11 || c as int == 12 }

  function StripLeft(s: string): (r: string)
    ensures |r| <= |s| && r == s[|s| - |r|..]
    ensures r != [] ==> !IsSpace(r[0])
    decreases |s|
  {
    if s != [] && IsSpace(s[0]) then StripLeft(s[1..]) else s
  }

  function StripRight(s: string): (r: string)
    ensures |r| <= |s| && r == s[..|r|]
    ensures r != [] ==> !IsSpace(r[|r| - 1])
    decreases |s|
  {
    if s != [] && IsSpace(s[|s| - 1]) then StripRight(s[..|s| - 1]) else s
  }

  /** Python's str.strip() with no argument, for ASCII white space. */
  function Strip(s: string): string { StripRight(StripLeft(s)) }

  /**
   * Whether the characters are single underscores between other characters,
   * as Python allows between the digits of a number: none first, none last,
   * never two in a row.
   */
  predicate Grouped(s: string)
  {
    s != [] && s[0] != '_' && s[|s| - 1] != '_' && NoDoubleUnderscore(s)
  }

  predicate NoDoubleUnderscore(s: string)
    decreases |s|
  {
    |s| < 2 || (!(s[0] == '_' && s[1] == '_') && NoDoubleUnderscore(s[1..]))
  }

  /** The text with its underscores removed. */
  function Ungrouped(s: string): (r: string)
    ensures |r| <= |s| && forall i :: 0 <= i < |r| ==> r[i] != '_'
    ensures s != [] && s[0] != '_' ==> r != [] && r[0] == s[0]
  {
    if s == [] then [] else (if s[0] == '_' then [] else [s[0]]) + Ungrouped(s[1..])
  }

  /** A text without underscores is left as it is. */
  lemma {:induction false} UngroupedOfPlain(s: string)
    requires forall i :: 0 <= i < |s| ==> s[i] != '_'
    ensures Ungrouped(s) == s
    decreases |s|
  {
    if s != [] {
      UngroupedOfPlain(s[1..]);
    }
  }

  /**
   * Python's int() applied to a str, base 10: surrounding white space is
   * ignored, an optional sign, then decimal digits, which single underscores
   * may separate; anything else raises ValueError.
   */
  function PyInt(s: string): (r: Result<int>)
  {
    PyIntStripped(Strip(s))
  }

  /** int() of the text once its surrounding white space is gone. */
  function PyIntStripped(t: string): (r: Result<int>)
  {
    if t == [] then Err("ValueError")
    else
      var body := if t[0] == '-' || t[0] == '+' then t[1..] else t;
      if Grouped(body) && AllDigits(Ungrouped(body)) then
        var v := DigitsValue(Ungrouped(body));
        Ok(if t[0] == '-' then -(v as int) else v)
      else Err("ValueError")
  }

  /** A run of digits is trivially grouped, and has no underscore to drop. */
  lemma DigitsGrouped(s: string)
    requires s != [] && AllDigits(s)
    ensures Grouped(s) && Ungrouped(s) == s
  {
    forall i | 0 <= i < |s| ensures s[i] != '_' { assert IsDigit(s[i]); }
    UngroupedOfPlain(s);
  }

  /** int() reads digits grouped by underscores as the digits without them. */
  lemma PyIntOfGrouped(s: string)
    requires Grouped(s) && AllDigits(Ungrouped(s))
    ensures PyInt(s) == Ok(DigitsValue(Ungrouped(s)))
  {
    assert IsDigit(Ungrouped(s)[0]);
    assert IsDigit(s[|s| - 1]) by {
      UngroupedKeepsLast(s);
    }
    StripNoSpace(s);
  }

  /** The last character of a text that does not end in an underscore survives at the end. */
  lemma {:induction false} UngroupedKeepsLast(s: string)
    requires s != [] && s[|s| - 1] != '_'
    ensures Ungrouped(s) != [] && Ungrouped(s)[|Ungrouped(s)| - 1] == s[|s| - 1]
    decreases |s|
  {
    if |s| > 1 {
      UngroupedKeepsLast(s[1..]);
    }
  }

  /** int('1_5') == 15. */
  lemma UnderscoreExample()
    ensures PyInt("1_5") == Ok(15)
  {
    var s := "1_5";
    assert Grouped(s) && Ungrouped(s) == "15" by {
      assert Ungrouped(s[2..]) == "5";
      assert Ungrouped(s[1..]) == "5";
    }
    assert AllDigits("15") && DigitsValue("15") == 15 by {
      assert "15"[..1] == "1" && "1"[..0] == "";
    }
    PyIntOfGrouped(s);
  }

  /** int('1__0') raises: two underscores in a row. */
  lemma DoubledUnderscoreExample()
    ensures PyInt("1__0") == Err("ValueError")
  {
    var s := "1__0";
    assert s[1] == '_' && s[2] == '_';
    PyIntOfBadGrouping(s);
  }

  /** int() refuses an underscore first, last or doubled among the digits: int('1__0') raises. */
  lemma PyIntOfBadGrouping(s: string)
    requires s != [] && IsDigit(s[0]) && !IsSpace(s[|s| - 1]) && !Grouped(s)
    ensures PyInt(s) == Err("ValueError")
  {
    StripNoSpace(s);
  }

  lemma StripNoSpace(s: string)
    requires s != [] && !IsSpace(s[0]) && !IsSpace(s[|s| - 1])
    ensures Strip(s) == s
  {
    assert StripLeft(s) == s;
    assert StripRight(s) == s;
  }

  /** int() refuses text that, once stripped, starts with neither a sign nor a digit. */
  lemma PyIntOfNonNumber(s: string)
    requires s != [] && !IsSpace(s[0]) && !IsSpace(s[|s| - 1])
    requires !IsDigit(s[0]) && s[0] != '-' && s[0] != '+'
    ensures PyInt(s) == Err("ValueError")
  {
    StripNoSpace(s);
    if Grouped(s) {
      assert !IsDigit(Ungrouped(s)[0]);
    }
  }

  /** int() reads back a sign-free run of digits as its value. */
  lemma PyIntOfDigits(s: string)
    requires s != [] && AllDigits(s)
    ensures PyInt(s) == Ok(DigitsValue(s))
  {
    assert IsDigit(s[0]) && IsDigit(s[|s| - 1]);
    StripNoSpace(s);
    DigitsGrouped(s);
  }

  /** int() reads a minus sign followed by digits as the negated value of the digits. */
  lemma PyIntOfNegative(s: string)
    requires |s| >= 2 && s[0] == '-' && AllDigits(s[1..])
    ensures PyInt(s) == Ok(-(DigitsValue(s[1..]) as int))
  {
    assert IsDigit(s[1..][|s| - 2]);
    StripNoSpace(s);
    DigitsGrouped(s[1..]);
  }

  /** int(str(i)) == i. */
  lemma PyIntOfIntToString(i: int)
    ensures PyInt(IntToString(i)) == Ok(i)
  {
    if i < 0 {
      var d := NatToString(-i);
      DigitsValueOfNatToString(-i);
      NatToStringDigits(-i);
      assert ("-" + d)[1..] == d;
      PyIntOfNegative("-" + d);
    } else {
      DigitsValueOfNatToString(i);
      NatToStringDigits(i);
      PyIntOfDigits(NatToString(i));
    }
  }

  // ---------------------------------------------------------------- str.zfill

  function Repeat<T>(x: T, n: nat): (r: seq<T>)
    ensures |r| == n && forall i :: 0 <= i < n ==> r[i] == x
  {
    if n == 0 then [] else Repeat(x, n - 1) + [x]
  }

  /**
   * Python's str.zfill(width): pad with '0' on the left up to width,
   * keeping a leading sign in front of the padding.
   */
  function ZFill(s: string, width: nat): (r: string)
    ensures |r| == if |s| >= width then |s| else width
    ensures |s| >= width ==> r == s
    ensures |s| < width && (s == [] || (s[0] != '+' && s[0] != '-')) ==>
              r == Repeat('0', width - |s|) + s
    ensures |s| < width && s != [] && (s[0] == '+' || s[0] == '-') ==>
              r == [s[0]] + Repeat('0', width - |s|) + s[1..]
  {
    if |s| >= width then s
    else if s != [] && (s[0] == '+' || s[0] == '-') then [s[0]] + Repeat('0', width - |s|) + s[1..]
    else Repeat('0', width - |s|) + s
  }

  /** Two-digit zero padding keeps the value: int(str(k).zfill(2)) == k for every k >= 0. */
  lemma ZFill2OfNat(k: nat)
    ensures PyInt(ZFill(IntToString(k), 2)) == Ok(k)
  {
    DigitsValueOfNatToString(k);
    NatToStringDigits(k);
    var s := NatToString(k);
    if |s| < 2 {
      var z := ZFill(s, 2);
      assert z == ['0'] + s;
      assert AllDigits(z);
      assert z[..|z| - 1] == ['0'];
      assert ['0'][..0] == [];
      assert DigitsValue(['0']) == 0;
      PyIntOfDigits(z);
    } else {
      PyIntOfDigits(s);
    }
  }

  /** Below 100, str(k).zfill(2) is the tens digit followed by the units digit. */
  lemma TwoDigits(k: nat)
    requires k < 100
    ensures ZFill(IntToString(k), 2) == [DigitChar(k / 10), DigitChar(k % 10)]
  {
    var s := IntToString(k);
    if k >= 10 {
      assert NatToString(k / 10) == [DigitChar(k / 10)];
      assert s == [DigitChar(k / 10), DigitChar(k % 10)];
    } else {
      assert s == [DigitChar(k % 10)];
      assert ZFill(s, 2) == ['0'] + s;
    }
  }

  // ---------------------------------------------------------------- slices

  /** The index Python uses for a slice bound i on a sequence of length n. */
  function SliceIndex(i: int, n: nat): (k: nat)
    ensures k <= n
  {
    if i < 0 then (if n + i < 0 then 0 else n + i) else if i > n then n else i
  }

  /** Python's s[start:]. */
  function SliceFrom<T>(s: seq<T>, start: int): seq<T>
  {
    s[SliceIndex(start, |s|)..]
  }

  /** Python's s[:stop]. */
  function SliceTo<T>(s: seq<T>, stop: int): seq<T>
  {
    s[..SliceIndex(stop, |s|)]
  }

  /** Python's s[start:stop] with a step of one. */
  function Slice<T>(s: seq<T>, start: int, stop: int): seq<T>
  {
    var a, b := SliceIndex(start, |s|), SliceIndex(stop, |s|);
    if a <= b then s[a..b] else []
  }

  /**
   * Python's s[-n:], the idiom the library uses for "the last n items".
   * For n > 0 it is the last min(n, |s|) items; for n == 0 it is all of s,
   * because -0 is 0.
   */
  lemma LastItems<T>(s: seq<T>, n: int)
    ensures n > 0 ==> SliceFrom(s, -n) == s[|s| - (if n < |s| then n else |s|)..]
    ensures n == 0 ==> SliceFrom(s, -n) == s
    ensures n < 0 ==> SliceFrom(s, -n) == s[(if -n < |s| then -n else |s|)..]
  {
  }

  // ---------------------------------------------------------------- strings

  /** Python's `sub in s` for strings. */
  predicate Contains(s: string, sub: string)
  {
    exists i :: 0 <= i <= |s| && OccursAt(s, sub, i)
  }

  /** `sub` occurs in `s` starting at index i. */
  predicate OccursAt(s: string, sub: string, i: int)
  {
    0 <= i && i + |sub| <= |s| && s[i..i + |sub|] == sub
  }

  function Join(parts: seq<string>, sep: char): (r: string)
    decreases |parts|
  {
    if parts == [] then ""
    else if |parts| == 1 then parts[0]
    else parts[0] + [sep] + Join(parts[1..], sep)
  }

  /** Python's s.split(sep) for a one-character separator. */
  function Split(s: string, sep: char): (parts: seq<string>)
    ensures |parts| >= 1
    ensures forall i :: 0 <= i < |parts| ==> sep !in parts[i]
    decreases |s|
  {
    if s == [] then [""]
    else
      var rest := Split(s[1..], sep);
      if s[0] == sep then [""] + rest else [[s[0]] + rest[0]] + rest[1..]
  }

  /** Splitting and joining back gives the original string. */
  lemma {:induction false} JoinSplit(s: string, sep: char)
    ensures Join(Split(s, sep), sep) == s
    decreases |s|
  {
    if s != [] {
      JoinSplit(s[1..], sep);
      var rest := Split(s[1..], sep);
      if s[0] == sep {
        assert ([""] + rest)[1..] == rest;
      } else {
        var parts := [[s[0]] + rest[0]] + rest[1..];
        if |rest| == 1 {
          assert parts == [[s[0]] + rest[0]];
        } else {
          assert parts[1..] == rest[1..];
          assert Join(rest, sep) == rest[0] + [sep] + Join(rest[1..], sep);
        }
      }
    }
  }

  /** os.path.join(a, b) for a relative b. */
  function PathJoin(a: string, b: string): string
  {
    if a == [] then b else if a[|a| - 1] == '/' then a + b else a + "/" + b
  }
}
