/** The pieces of Ruby's core semantics that the OpenRubyRMK core relies on:
    `to_s` coercion of the objects it is handed, decimal conversion of
    integers, the built-in exceptions it can raise, and `Array#[]`/`Array#[]=`
    with negative indices, `nil` for missing slots and growth on store. */
module Ruby {

  datatype Option<+T> = None | Some(value: T)

  datatype Result<+T, +E> = Success(value: T) | Failure(error: E)

  /** Ruby's built-in exceptions raised by the core (messages only where the
      core writes them itself). */
  datatype CoreError =
    | ArgumentError(message: string)
    | TypeError
    | NoMethodError(methodName: string)
    | IndexError

  /** The objects the core converts with `to_s`: strings, symbols, integers and nil. */
  datatype Value = Str(s: string) | Sym(name: string) | Int(i: int) | Nil

  predicate IsDigit(c: char) { '0' <= c <= '9' }

  function DigitChar(d: nat): (c: char)
    requires d < 10
    ensures IsDigit(c) && c as int - '0' as int == d
  {
    ('0' as int + d) as char
  }

  /** `Integer#to_s` for a non-negative integer: its decimal digits, most significant first. */
  function NatToS(n: nat): (s: string)
    ensures |s| > 0
    ensures forall k :: 0 <= k < |s| ==> IsDigit(s[k])
  {
    if n < 10 then [DigitChar(n)] else NatToS(n / 10) + [DigitChar(n % 10)]
  }

  /** `Integer#to_s`: a leading minus for negative numbers, then the decimal digits. */
  function IntToS(i: int): (s: string)
    ensures |s| > 0
    ensures s[0] == '-' <==> i < 0
  {
    if i < 0 then "-" + NatToS(-i) else NatToS(i)
  }

  /** Reads a non-empty string of decimal digits back into a number. */
  function ParseDigits(s: string): (r: Option<nat>)
    ensures r.Some? ==> |s| > 0
  {
    if |s| == 0 then None
    else if !IsDigit(s[|s| - 1]) then None
    else
      var last := s[|s| - 1] as int - '0' as int;
      if |s| == 1 then Some(last)
      else match ParseDigits(s[..|s| - 1])
        case None => None
        case Some(p) => Some(p * 10 + last)
  }

  /** The inverse of `IntToS`: an optional minus followed by decimal digits. */
  function ParseDecimal(s: string): (r: Option<int>)
    ensures r.Some? ==> |s| > 0
  {
    if |s| > 0 && s[0] == '-' then
      match ParseDigits(s[1..])
      case None => None
      case Some(n) => Some(0 - n as int)
    else
      match ParseDigits(s)
      case None => None
      case Some(n) => Some(n)
  }

  lemma {:induction false} NatToSRoundTrip(n: nat)
    ensures ParseDigits(NatToS(n)) == Some(n)
  {
    if n >= 10 {
      var prefix := NatToS(n / 10);
      var s := prefix + [DigitChar(n % 10)];
      assert s[..|s| - 1] == prefix;
      NatToSRoundTrip(n / 10);
    }
  }

  /** Decimal conversion loses nothing: the id of a map can be read back from its default name. */
  lemma IntToSRoundTrip(i: int)
    ensures ParseDecimal(IntToS(i)) == Some(i)
  {
    if i < 0 {
      var s := IntToS(i);
      assert s[1..] == NatToS(-i);
      NatToSRoundTrip(-i);
    } else {
      NatToSRoundTrip(i);
    }
  }

  lemma IntToSInjective(a: int, b: int)
    ensures IntToS(a) == IntToS(b) <==> a == b
  {
    IntToSRoundTrip(a);
    IntToSRoundTrip(b);
  }

  /** `to_s`: a string is itself, a symbol its name, an integer its decimal
      form, nil the empty string. */
  function ToS(v: Value): (s: string)
    ensures v.Str? ==> s == v.s
    ensures v.Sym? ==> s == v.name
    ensures v.Int? ==> s == IntToS(v.i) && ParseDecimal(s) == Some(v.i)
    ensures v.Nil? ==> s == ""
  {
    match v
    case Str(s) => s
    case Sym(name) => name
    case Int(i) => IntToSRoundTrip(i); IntToS(i)
    case Nil => ""
  }

  /** A symbol key and the string key of the same name reach the same entry. */
  lemma SymbolAndStringAgree(name: string)
    ensures ToS(Sym(name)) == ToS(Str(name)) == name
  {
  }

  /** The slot `Array#[]` addresses with index `i` in an array of length `len`:
      negative indices count from the end; anything else out of range is none. */
  function Slot(i: int, len: nat): (r: Option<nat>)
    ensures r.Some? ==> r.value < len && (r.value == i || r.value == i + len)
    ensures r.None? <==> i >= len || i + len < 0
  {
    if 0 <= i < len then Some(i)
    else if 0 <= i + len && i < 0 then Some(i + len)
    else None
  }

  /** `Array#[]` on an array whose elements may be nil (None): nil when the
      index is out of range. */
  function Fetch<T>(a: seq<Option<T>>, i: int): (r: Option<T>)
    ensures Slot(i, |a|).None? ==> r == None
    ensures Slot(i, |a|).Some? ==> r == a[Slot(i, |a|).value]
  {
    match Slot(i, |a|)
    case None => None
    case Some(k) => a[k]
  }

  /** The slot `Array#[]=` writes for index `i`: like `Slot`, except that an
      index past the end is written in place (the array grows to it). */
  function StoreSlot(i: int, len: nat): (r: Option<nat>)
    ensures r.None? <==> i + len < 0
    ensures r.Some? && i < len ==> Slot(i, len) == r
    ensures r.Some? && i >= len ==> r.value == i
  {
    if i >= len then Some(i) else Slot(i, len)
  }

  /** `Array#[]=`: an index below `-length` raises IndexError; an index past
      the end fills the gap with nils and appends. */
  function Store<T>(a: seq<Option<T>>, i: int, v: T): (r: Result<seq<Option<T>>, CoreError>)
    ensures StoreSlot(i, |a|).None? ==> r == Failure(IndexError)
    ensures StoreSlot(i, |a|).Some? ==> r.Success?
    ensures r.Success? ==> var k := StoreSlot(i, |a|).value;
      && |r.value| == (if k < |a| then |a| else k + 1)
      && r.value[k] == Some(v)
      && (forall j :: 0 <= j < |r.value| && j != k ==> r.value[j] == (if j < |a| then a[j] else None))
  {
    if i + |a| < 0 then Failure(IndexError)
    else if i >= |a| then Success(a + seq(i - |a|, _ => None) + [Some(v)])
    else Success(a[Slot(i, |a|).value := Some(v)])
  }

  /** Reading back the index just written yields the value written, whatever
      the index (negative, in range, or past the end). */
  lemma FetchAfterStore<T>(a: seq<Option<T>>, i: int, v: T)
    requires Store(a, i, v).Success?
    ensures Fetch(Store(a, i, v).value, i) == Some(v)
  {
  }

  /** Storing at one slot leaves every other non-negative index reading as before. */
  lemma FetchOtherAfterStore<T>(a: seq<Option<T>>, i: int, v: T, j: nat)
    requires Store(a, i, v).Success?
    requires j != StoreSlot(i, |a|).value
    ensures Fetch(Store(a, i, v).value, j) == Fetch(a, j)
  {
  }

  function Reversed<T>(s: seq<T>): (r: seq<T>)
    ensures |r| == |s|
    ensures forall k :: 0 <= k < |s| ==> r[k] == s[|s| - 1 - k]
  {
    if s == [] then [] else Reversed(s[1..]) + [s[0]]
  }
}
