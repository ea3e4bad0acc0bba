/**
 * The values the scripts exchange as JSON (style rules, content trees, format
 * dictionaries), and the two numeric conversions they lean on: `str(x)` for a
 * number and `float(s)` for a string.
 *
 * A `Number` is a decimal `digits / 10^scale`, kept in the form Python prints it:
 * an `int` has scale 0 (`12`), a `float` has scale at least 1 (`12.0`, `2.54`).
 */
module Json {
  import opened Wrappers
  import opened Text

  datatype Number = Number(digits: int, scale: nat)

  /** A JSON value; an object key that is missing is modelled by the key being absent from the map. */
  datatype Value = Null | Flag(b: bool) | Num(n: Number) | Text(s: string) | List(items: seq<Value>)

  function Pow10(k: nat): (r: nat)
    ensures r > 0
  {
    if k == 0 then 1 else 10 * Pow10(k - 1)
  }

  /** The real number a decimal denotes. */
  function Real(n: Number): real {
    n.digits as real / Pow10(n.scale) as real
  }

  function Int(k: int): Number {
    Number(k, 0)
  }

  function Abs(k: int): nat {
    if k < 0 then -k else k
  }

  /** Integer division truncating toward zero, as Python's `int(a / b)` does. */
  function TruncDiv(a: int, b: nat): (r: int)
    requires b > 0
    ensures b == 1 ==> r == a
    ensures (a >= 0 ==> r >= 0) && (a <= 0 ==> r <= 0)
  {
    if a >= 0 then a / b else -((-a) / b)
  }

  /** Python truthiness of a JSON value (`if x:`). */
  predicate Truthy(v: Value) {
    match v
    case Null => false
    case Flag(b) => b
    case Num(n) => n.digits != 0
    case Text(s) => s != []
    case List(items) => items != []
  }

  /** Exactly `k` decimal digits of `v`, with leading zeros. */
  function PadDigits(v: nat, k: nat): (r: string)
    requires v < Pow10(k)
    ensures |r| == k
    ensures forall i :: 0 <= i < |r| ==> IsDigit(r[i])
  {
    if k == 0 then [] else PadDigits(v / 10, k - 1) + [DigitChar(v % 10)]
  }

  /** Python's `str(x)` for a number: an optional `-`, the integer part and, for a float, `.` and `scale` digits. */
  function Show(n: Number): (r: string)
    ensures |r| > 0
  {
    (if n.digits < 0 then "-" else "") + ShowUnsigned(Abs(n.digits), n.scale)
  }

  /** The digits of `a / 10^k`, with the decimal point `k` places from the right when `k > 0`. */
  function ShowUnsigned(a: nat, k: nat): (r: string)
    ensures |r| > 0 && IsDigit(r[0]) && IsDigit(r[|r| - 1])
  {
    if k == 0 then NatToString(a)
    else
      var p := Pow10(k);
      var f := FracPart(a, p);
      var ds := NatToString(IntPart(a, p));
      var pad := PadDigits(f, k);
      var r := ds + "." + pad;
      assert r[0] == ds[0] && r[|r| - 1] == pad[k - 1];
      r
  }

  function IntPart(a: nat, p: nat): nat
    requires p > 0
  {
    a / p
  }

  function FracPart(a: nat, p: nat): (f: nat)
    requires p > 0
    ensures f < p && a == IntPart(a, p) * p + f
  {
    a % p
  }

  /** The shortest float form: at least one fractional digit, no trailing zero after the first. */
  function Canon(n: Number): (r: Number)
    ensures r.scale >= 1
    ensures Real(r) == Real(n)
    decreases n.scale
  {
    if n.scale == 0 then
      assert Real(Number(n.digits * 10, 1)) == Real(n);
      Number(n.digits * 10, 1)
    else if n.scale > 1 && n.digits % 10 == 0 then
      var m := Number(n.digits / 10, n.scale - 1);
      assert Real(m) == Real(n) by {
        assert n.digits == m.digits * 10;
        assert Pow10(n.scale) == 10 * Pow10(m.scale);
      }
      Canon(m)
    else n
  }

  /** Python's `str(float(x))` for a number `x` in the plain (non-exponent) range. */
  function ShowFloat(n: Number): string {
    Show(Canon(n))
  }

  /** Python's `str(v)`, as an f-string interpolates a JSON value; a list shows the `repr` of its items. */
  function PyStr(v: Value): (r: string)
    ensures v.List? ==> |r| >= 2 && r[0] == '[' && r[|r| - 1] == ']'
  {
    match v
    case Null => "None"
    case Flag(b) => if b then "True" else "False"
    case Num(n) => Show(n)
    case Text(s) => s
    case List(items) => "[" + Join(seq(|items|, i requires 0 <= i < |items| => PyRepr(items[i])), ", ") + "]"
  }

  /** Python's `repr(v)`: a string in quotes with its special characters escaped, anything else as `str` shows it. */
  function PyRepr(v: Value): string {
    match v
    case Null => "None"
    case Flag(b) => if b then "True" else "False"
    case Num(n) => Show(n)
    case Text(s) => ReprText(s)
    case List(items) => "[" + Join(seq(|items|, i requires 0 <= i < |items| => PyRepr(items[i])), ", ") + "]"
  }

  /** The quote `repr` puts around a string: `"` when it holds `'` but no `"`, else `'`. */
  function QuoteOf(s: string): (q: char)
    ensures q == '"' <==> '\'' in s && '"' !in s
  {
    if '\'' in s && '"' !in s then '"' else '\''
  }

  function HexDigit(k: nat): char
    requires k < 16
  {
    "0123456789abcdef"[k]
  }

  /** A character `repr` writes as itself: printable ASCII other than the quote and the backslash, or any non-ASCII character. */
  predicate ReprPlainChar(c: char, q: char) {
    c != q && c != '\\' && ' ' <= c && c != '\U{7F}'
  }

  /** One character as `repr` writes it inside the quote `q`. */
  function ReprChar(c: char, q: char): (r: string)
    ensures r == [c] <==> ReprPlainChar(c, q)
    ensures !ReprPlainChar(c, q) ==> |r| >= 2 && r[0] == '\\'
  {
    if c == q || c == '\\' then ['\\', c]
    else if c == '\t' then "\\t"
    else if c == '\n' then "\\n"
    else if c == '\r' then "\\r"
    else if c < ' ' || c == '\U{7F}' then ['\\', 'x', HexDigit(c as int / 16), HexDigit(c as int % 16)]
    else [c]
  }

  /** The characters of `s` as `repr` writes them inside the quote `q`. */
  function ReprBody(s: string, q: char): string {
    if s == [] then [] else ReprBody(s[..|s| - 1], q) + ReprChar(s[|s| - 1], q)
  }

  /** Python's `repr(s)` for a string. */
  function ReprText(s: string): (r: string)
    ensures |r| >= 2 && r[0] == QuoteOf(s) && r[|r| - 1] == QuoteOf(s)
  {
    [QuoteOf(s)] + ReprBody(s, QuoteOf(s)) + [QuoteOf(s)]
  }

  /** A string with no character to escape is shown between quotes as it is. */
  lemma {:induction false} ReprPlain(s: string, q: char)
    requires forall i :: 0 <= i < |s| ==> ReprPlainChar(s[i], q)
    ensures ReprBody(s, q) == s
  {
    if s != [] {
      var init := s[..|s| - 1];
      ReprPlain(init, q);
      assert ReprChar(s[|s| - 1], q) == [s[|s| - 1]];
      assert s == init + [s[|s| - 1]];
    }
  }

  /** Every character that `repr` changes is escaped by a backslash, so no bare quote is left inside. */
  lemma {:induction false} ReprBodyNoBareQuote(s: string, q: char, i: nat)
    requires q == '\'' || q == '"'
    requires i < |ReprBody(s, q)| && ReprBody(s, q)[i] == q
    ensures i > 0 && ReprBody(s, q)[i - 1] == '\\'
  {
    var pre := ReprBody(s[..|s| - 1], q);
    var last := ReprChar(s[|s| - 1], q);
    assert ReprBody(s, q) == pre + last;
    if i < |pre| {
      ReprBodyNoBareQuote(s[..|s| - 1], q, i);
    } else {
      var c := s[|s| - 1];
      var k := i - |pre|;
      assert last[k] == q;
      if c == q || c == '\\' {
        assert k == 1;
      } else {
        assert false;
      }
    }
  }

  /**
   * Python's `float(s)` on a string: surrounding whitespace, an optional sign,
   * digits with at most one `.` and at least one digit. `None` stands for the
   * `ValueError` Python raises.
   */
  function Parse(s: string): (r: Option<Number>)
    ensures r.Some? ==> Strip(s) != []
  {
    var t := Strip(s);
    if t == [] then None else Signed(t)
  }

  /** `Parse` once the whitespace is gone: the sign, then the unsigned decimal. */
  function Signed(t: string): (r: Option<Number>)
    requires t != []
  {
    var neg := t[0] == '-';
    var u := if t[0] == '-' || t[0] == '+' then t[1..] else t;
    var m := ParseUnsigned(u, DigitRun(u, 0));
    if m.None? then None
    else Some(if neg then Number(-m.value.digits, m.value.scale) else m.value)
  }

  /**
   * Python's `int(s)` on a string: surrounding whitespace, an optional sign,
   * then ASCII digits only. `None` stands for the `ValueError` Python raises.
   */
  function ParseInt(s: string): (r: Option<int>)
    ensures r.Some? ==> Parse(s) == Some(Int(r.value))
    ensures '.' in Strip(s) ==> r.None?
    ensures AllSpace(s) ==> r.None?
  {
    var t := Strip(s);
    if t == [] then None else SignedWhole(t)
  }

  /** `ParseInt` once the whitespace is gone: an optional sign, then digits only. */
  function SignedWhole(t: string): (r: Option<int>)
    requires t != []
    ensures '.' in t ==> r.None?
    ensures r.Some? ==> Signed(t) == Some(Int(r.value))
  {
    var u := if t[0] == '-' || t[0] == '+' then t[1..] else t;
    if u != [] && DigitRun(u, 0) == |u| then
      assert ParseUnsigned(u, |u|) == Some(Number(DigitsValue(u), 0));
      Some(if t[0] == '-' then -(DigitsValue(u) as int) else DigitsValue(u) as int)
    else None
  }

  /** The unsigned part of `Parse`: `u` starts with `i` digits. */
  function ParseUnsigned(u: string, i: nat): (r: Option<Number>)
    requires i <= |u| && forall k :: 0 <= k < i ==> IsDigit(u[k])
    ensures r.Some? ==> r.value.digits >= 0
  {
    if i == |u| then
      if i > 0 then Some(Number(DigitsValue(u), 0)) else None
    else if u[i] == '.' then
      var j := DigitRun(u, i + 1);
      if i + 1 + j == |u| && i + j > 0 then
        Some(Number(DigitsValue(u[..i]) * Pow10(j) + DigitsValue(u[i + 1..]), j))
      else None
    else None
  }

  /** float() of a JSON value, `None` for the `ValueError`/`TypeError` Python raises. */
  function FloatOf(v: Value): (r: Option<Number>)
    ensures v.Num? ==> r == Some(v.n)
    ensures v.Null? || v.List? ==> r.None?
  {
    match v
    case Null => None
    case Flag(b) => Some(Int(if b then 1 else 0))
    case Num(n) => Some(n)
    case Text(s) => Parse(s)
    case List(_) => None
  }

  // ---------------------------------------------------------------------------
  // Printing a number and reading it back gives the same number.
  // ---------------------------------------------------------------------------

  lemma {:induction false} DigitsValueOfPad(v: nat, k: nat)
    requires v < Pow10(k)
    ensures DigitsValue(PadDigits(v, k)) == v
  {
    if k > 0 {
      var s := PadDigits(v / 10, k - 1) + [DigitChar(v % 10)];
      assert s[..|s| - 1] == PadDigits(v / 10, k - 1);
      DigitsValueOfPad(v / 10, k - 1);
    }
  }

  lemma DigitRunAll(s: string, i: nat)
    requires i <= |s| && forall k :: i <= k < |s| ==> IsDigit(s[k])
    ensures DigitRun(s, i) == |s| - i
    decreases |s| - i
  {
    if i < |s| { DigitRunAll(s, i + 1); }
  }

  lemma DigitRunStops(s: string, i: nat, j: nat)
    requires i <= j < |s| && !IsDigit(s[j])
    requires forall k :: i <= k < j ==> IsDigit(s[k])
    ensures DigitRun(s, i) == j - i
    decreases j - i
  {
    if i < j { DigitRunStops(s, i + 1, j); }
  }

  /** `float(str(x))` reads back exactly the decimal that was printed. */
  lemma {:induction false} ParseShow(n: Number)
    ensures Parse(Show(n)) == Some(n)
  {
    var a := Abs(n.digits);
    var body := ShowUnsigned(a, n.scale);
    UnsignedRoundTrip(a, n.scale);
    if n.digits < 0 {
      assert Show(n) == ['-'] + body;
      ParseMinus(body, Number(a, n.scale));
    } else {
      assert Show(n) == body;
      ParsePlain(body, Number(a, n.scale));
    }
  }

  lemma ParsePlain(u: string, m: Number)
    requires u != [] && IsDigit(u[0]) && IsDigit(u[|u| - 1])
    requires ParseUnsigned(u, DigitRun(u, 0)) == Some(m)
    ensures Parse(u) == Some(m)
  {
    DigitNotSpace(u[0]);
    DigitNotSpace(u[|u| - 1]);
    StripKeeps(u);
    SignedPlain(u, m);
  }

  lemma ParseMinus(u: string, m: Number)
    requires u != [] && IsDigit(u[|u| - 1])
    requires ParseUnsigned(u, DigitRun(u, 0)) == Some(m)
    ensures Parse(['-'] + u) == Some(Number(-m.digits, m.scale))
  {
    var s := ['-'] + u;
    DigitNotSpace(u[|u| - 1]);
    assert s[|s| - 1] == u[|u| - 1];
    StripKeeps(s);
    SignedMinus(u, m);
  }

  /** An unsigned decimal reads as itself. */
  lemma SignedPlain(u: string, m: Number)
    requires u != [] && IsDigit(u[0])
    requires ParseUnsigned(u, DigitRun(u, 0)) == Some(m)
    ensures Signed(u) == Some(m)
  {
  }

  /** A `-` in front negates the decimal that follows. */
  lemma SignedMinus(u: string, m: Number)
    requires ParseUnsigned(u, DigitRun(u, 0)) == Some(m)
    ensures Signed(['-'] + u) == Some(Number(-m.digits, m.scale))
  {
    assert (['-'] + u)[1..] == u;
  }

  lemma {:induction false} UnsignedRoundTrip(a: nat, k: nat)
    ensures ParseUnsigned(ShowUnsigned(a, k), DigitRun(ShowUnsigned(a, k), 0)) == Some(Number(a, k))
  {
    var u := ShowUnsigned(a, k);
    if k == 0 {
      DigitRunAll(u, 0);
      DigitsValueOfNat(a);
    } else {
      var p := Pow10(k);
      var f := FracPart(a, p);
      var ds := NatToString(IntPart(a, p));
      var pad := PadDigits(f, k);
      assert u == ds + "." + pad;
      DigitRunStops(u, 0, |ds|);
      assert u[..|ds|] == ds;
      assert u[|ds| + 1..] == pad;
      DigitRunAll(u, |ds| + 1);
      DigitsValueOfNat(IntPart(a, p));
      DigitsValueOfPad(f, k);
    }
  }

  /** The characters `str(x)` prints are digits, `-` and `.`. */
  lemma ShowChars(n: Number)
    ensures forall i :: 0 <= i < |Show(n)| ==> IsDigit(Show(n)[i]) || Show(n)[i] in "-."
  {
    var a := Abs(n.digits);
    var u := ShowUnsigned(a, n.scale);
    UnsignedChars(a, n.scale);
    var sign: string := if n.digits < 0 then "-" else "";
    var r := Show(n);
    assert r == sign + u;
    forall i | 0 <= i < |r|
      ensures IsDigit(r[i]) || r[i] in "-."
    {
      if i < |sign| {
        assert r[i] == '-';
      } else {
        assert r[i] == u[i - |sign|];
      }
    }
  }

  lemma UnsignedChars(a: nat, k: nat)
    ensures forall i :: 0 <= i < |ShowUnsigned(a, k)| ==> IsDigit(ShowUnsigned(a, k)[i]) || ShowUnsigned(a, k)[i] == '.'
  {
    if k > 0 {
      var p := Pow10(k);
      var ds := NatToString(IntPart(a, p));
      var pad := PadDigits(FracPart(a, p), k);
      var u := ShowUnsigned(a, k);
      assert u == ds + "." + pad;
      forall i | 0 <= i < |u|
        ensures IsDigit(u[i]) || u[i] == '.'
      {
        if i < |ds| {
          assert u[i] == ds[i];
        } else if i > |ds| {
          assert u[i] == pad[i - |ds| - 1];
        }
      }
    }
  }

  /** A float form is already canonical. */
  lemma {:induction false} CanonCanon(n: Number)
    ensures Canon(Canon(n)) == Canon(n)
    decreases n.scale
  {
    if n.scale > 1 && n.digits % 10 == 0 {
      CanonCanon(Number(n.digits / 10, n.scale - 1));
    }
  }
}
