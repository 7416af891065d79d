/** Request parameters as the query layer receives them, and the few pieces of
    Python semantics it relies on: truthiness, `dict.get`, `int()` on a
    parameter, `str.split(' ')`, `' '.join` and `str.strip()`. */
module PyValues {

  datatype Option<T> = None | Some(value: T)

  /** The exceptions the query layer can raise on odd parameter values. */
  datatype Error = TypeError | AttributeError | KeyError

  datatype Result<T> = Ok(value: T) | Err(error: Error)

  /** One value of the request parameter map (`kwargs`). Lists may hold any
      value, as they do once `to_url` has accumulated values into them. */
  datatype Param = PNone | PStr(s: string) | PInt(i: int) | PBool(b: bool) | PList(items: seq<Param>)

  type Kwargs = map<string, Param>

  /** `kwargs.get(key, default)` */
  function Get(kwargs: Kwargs, key: string, default: Param): Param
  {
    if key in kwargs then kwargs[key] else default
  }

  /** Python truthiness: None, '', 0, False and [] are false. */
  predicate Truthy(p: Param)
    ensures !Truthy(p) <==> p in {PNone, PStr(""), PInt(0), PBool(false), PList([])}
  {
    match p
    case PNone => false
    case PStr(s) => s != ""
    case PInt(i) => i != 0
    case PBool(b) => b
    case PList(items) => items != []
  }

  /** `p or q` */
  function Or(p: Param, q: Param): Param
  {
    if Truthy(p) then p else q
  }

  function Max(a: int, b: int): int
  {
    if a < b then b else a
  }

  // ---------------------------------------------------------------------
  // Strings

  /** The whitespace `unicode.strip()` and `int()` remove from a request
      value (parameters arrive as unicode strings): Python 2's unicode
      whitespace, the ASCII controls TAB to CR and FS to US included. */
  predicate IsSpace(c: char)
  {
    || c == ' ' || '\t' <= c <= '\r' || '\U{1C}' <= c <= '\U{1F}'
    || c == '\U{85}' || c == '\U{A0}' || c == '\U{1680}' || c == '\U{180E}'
    || '\U{2000}' <= c <= '\U{200A}' || c == '\U{2028}' || c == '\U{2029}'
    || c == '\U{202F}' || c == '\U{205F}' || c == '\U{3000}'
  }

  /** `not term.strip()`: the term is empty or all whitespace. */
  predicate IsBlank(t: string)
    ensures IsBlank(t) <==> TrimRight(TrimLeft(t)) == ""
  {
    TrimLeftBlank(t);
    forall i :: 0 <= i < |t| ==> IsSpace(t[i])
  }

  /** Stripping the left side empties exactly the all-whitespace strings;
      what it leaves starts with a non-space. */
  lemma {:induction false} TrimLeftBlank(t: string)
    ensures TrimLeft(t) == "" <==> forall i :: 0 <= i < |t| ==> IsSpace(t[i])
    ensures TrimLeft(t) != "" ==> !IsSpace(TrimLeft(t)[0])
    ensures TrimRight(TrimLeft(t)) == "" <==> TrimLeft(t) == ""
  {
    if |t| > 0 && IsSpace(t[0]) {
      TrimLeftBlank(t[1..]);
      assert forall i :: 1 <= i < |t| ==> t[i] == t[1..][i - 1];
    }
    if TrimLeft(t) != "" {
      TrimRightKeepsFirst(TrimLeft(t));
    }
  }

  /** Stripping the right side of a string that starts with a non-space
      leaves that character. */
  lemma {:induction false} TrimRightKeepsFirst(x: string)
    requires |x| > 0 && !IsSpace(x[0])
    ensures |TrimRight(x)| > 0
    decreases |x|
  {
    if IsSpace(x[|x| - 1]) {
      TrimRightKeepsFirst(x[..|x| - 1]);
    }
  }

  predicate IsDigit(c: char)
  {
    '0' <= c <= '9'
  }

  predicate AllDigits(s: string)
  {
    forall i :: 0 <= i < |s| ==> IsDigit(s[i])
  }

  function TrimLeft(s: string): string
  {
    if |s| > 0 && IsSpace(s[0]) then TrimLeft(s[1..]) else s
  }

  function TrimRight(s: string): string
  {
    if |s| > 0 && IsSpace(s[|s| - 1]) then TrimRight(s[..|s| - 1]) else s
  }

  /** `s.split(sep)`: the pieces between separators, empty pieces kept, so
      there is always at least one piece and none contains `sep`. */
  function Split(s: string, sep: char): (pieces: seq<string>)
    ensures |pieces| >= 1
    ensures forall i :: 0 <= i < |pieces| ==> sep !in pieces[i]
  {
    if |s| == 0 then [""]
    else if s[0] == sep then [""] + Split(s[1..], sep)
    else
      var rest := Split(s[1..], sep);
      [[s[0]] + rest[0]] + rest[1..]
  }

  /** `sep.join(pieces)` */
  function Join(pieces: seq<string>, sep: char): string
  {
    if |pieces| == 0 then ""
    else if |pieces| == 1 then pieces[0]
    else pieces[0] + [sep] + Join(pieces[1..], sep)
  }

  lemma {:induction false} JoinPrepend(c: char, rest: seq<string>, sep: char)
    requires |rest| >= 1
    ensures Join([[c] + rest[0]] + rest[1..], sep) == [c] + Join(rest, sep)
  {
    var head := [[c] + rest[0]] + rest[1..];
    assert head[1..] == rest[1..];
  }

  /** Joining the pieces of a split gives back the original string. */
  lemma {:induction false} JoinSplit(s: string, sep: char)
    ensures Join(Split(s, sep), sep) == s
  {
    if |s| == 0 {
    } else if s[0] == sep {
      var rest := Split(s[1..], sep);
      JoinSplit(s[1..], sep);
      assert ([""] + rest)[1..] == rest;
      assert s == [sep] + s[1..];
    } else {
      var rest := Split(s[1..], sep);
      JoinSplit(s[1..], sep);
      JoinPrepend(s[0], rest, sep);
      assert s == [s[0]] + s[1..];
    }
  }

  /** A string without the separator is a single piece, and a separator
      after such a string starts the next piece. */
  lemma {:induction false} SplitPrefix(x: string, y: string, sep: char)
    requires sep !in x
    ensures Split(x, sep) == [x]
    ensures Split(x + [sep] + y, sep) == [x] + Split(y, sep)
  {
    if |x| == 0 {
      assert x + [sep] + y == [sep] + y;
      assert ([sep] + y)[1..] == y;
    } else {
      SplitPrefix(x[1..], y, sep);
      assert (x + [sep] + y)[1..] == x[1..] + [sep] + y;
      assert [x[0]] + x[1..] == x;
    }
  }

  /** Splitting a join of separator-free pieces gives back the pieces. */
  lemma {:induction false} SplitJoin(pieces: seq<string>, sep: char)
    requires |pieces| >= 1
    requires forall i :: 0 <= i < |pieces| ==> sep !in pieces[i]
    ensures Split(Join(pieces, sep), sep) == pieces
  {
    SplitPrefix(pieces[0], "", sep);
    if |pieces| > 1 {
      SplitJoin(pieces[1..], sep);
      SplitPrefix(pieces[0], Join(pieces[1..], sep), sep);
      assert [pieces[0]] + pieces[1..] == pieces;
    }
  }

  // ---------------------------------------------------------------------
  // Integers

  function DigitValue(c: char): nat
    requires IsDigit(c)
  {
    c as int - '0' as int
  }

  function DigitChar(d: nat): char
    requires d < 10
  {
    ('0' as int + d) as char
  }

  /** The value of a run of decimal digits, most significant first. */
  function DigitsValue(ds: string): nat
    requires AllDigits(ds)
  {
    if |ds| == 0 then 0 else DigitsValue(ds[..|ds| - 1]) * 10 + DigitValue(ds[|ds| - 1])
  }

  /** The decimal digits of `n` without leading zeros (`str(n)` for n >= 0). */
  function NatToDigits(n: nat): (ds: string)
    ensures |ds| >= 1 && AllDigits(ds)
  {
    if n < 10 then [DigitChar(n)] else NatToDigits(n / 10) + [DigitChar(n % 10)]
  }

  /** `str(n)` */
  function IntToString(n: int): string
  {
    if n < 0 then "-" + NatToDigits(-n) else NatToDigits(n)
  }

  /** `s.strip()` */
  function Strip(s: string): string
  {
    TrimRight(TrimLeft(s))
  }

  /** A stripped number without its sign. Python 2's `int()` takes the sign
      and then skips whitespace before the digits, so `'- 5'` is -5. */
  function Unsigned(t: string): string
  {
    if |t| > 0 && (t[0] == '-' || t[0] == '+') then TrimLeft(t[1..]) else t
  }

  /** `int(s)` on a string: whitespace around the number and between the
      sign and the digits is ignored; the digits are decimal, at least one;
      anything else raises ValueError, modelled as None. */
  function ParseInt(s: string): (r: Option<int>)
    ensures r.Some? <==> |Unsigned(Strip(s))| > 0 && AllDigits(Unsigned(Strip(s)))
    ensures r.Some? ==>
      r.value == if Strip(s)[0] == '-' then 0 - DigitsValue(Unsigned(Strip(s))) else DigitsValue(Unsigned(Strip(s)))
  {
    var t := Strip(s);
    var u := Unsigned(t);
    if |u| > 0 && AllDigits(u) then
      Some(if t[0] == '-' then 0 - DigitsValue(u) else DigitsValue(u))
    else None
  }

  /** Leading whitespace is skipped whatever follows it. */
  lemma {:induction false} TrimLeftBlankPrefix(w: string, x: string)
    requires IsBlank(w)
    ensures TrimLeft(w + x) == TrimLeft(x)
  {
    if |w| > 0 {
      assert (w + x)[1..] == w[1..] + x;
      assert IsSpace(w[0]);
      TrimLeftBlankPrefix(w[1..], x);
    } else {
      assert w + x == x;
    }
  }

  /** Trailing whitespace is dropped whatever precedes it. */
  lemma {:induction false} TrimRightBlankSuffix(x: string, w: string)
    requires IsBlank(w)
    ensures TrimRight(x + w) == TrimRight(x)
    decreases |w|
  {
    if |w| > 0 {
      assert (x + w)[..|x + w| - 1] == x + w[..|w| - 1];
      assert IsSpace(w[|w| - 1]);
      TrimRightBlankSuffix(x, w[..|w| - 1]);
    } else {
      assert x + w == x;
    }
  }

  /** The texts `int()` accepts: whitespace, an optional sign, whitespace,
      decimal digits, whitespace. Each reads as its digits' value, negated
      after `-`. */
  lemma ParseIntForms(w1: string, sign: string, w2: string, ds: string, w3: string)
    requires IsBlank(w1) && IsBlank(w2) && IsBlank(w3)
    requires sign == "" || sign == "+" || sign == "-"
    requires |ds| > 0 && AllDigits(ds)
    ensures ParseInt(w1 + sign + w2 + ds + w3) == Some(if sign == "-" then 0 - DigitsValue(ds) else DigitsValue(ds))
  {
    if sign == "" {
      assert w1 + sign + w2 + ds + w3 == (w1 + w2) + ds + w3;
      BlankConcat(w1, w2);
      ParseIntUnsignedForm(w1 + w2, ds, w3);
    } else {
      ParseIntSignedForm(w1, sign[0], w2, ds, w3);
      assert [sign[0]] == sign;
    }
  }

  /** Two blank texts make a blank text. */
  lemma BlankConcat(a: string, b: string)
    requires IsBlank(a) && IsBlank(b)
    ensures IsBlank(a + b)
  {
    assert forall i :: 0 <= i < |a + b| ==> IsSpace((a + b)[i]) by {
      forall i | 0 <= i < |a + b|
        ensures IsSpace((a + b)[i])
      {
        if i < |a| { assert (a + b)[i] == a[i]; } else { assert (a + b)[i] == b[i - |a|]; }
      }
    }
  }

  /** Digits between blanks read as their value. */
  lemma ParseIntUnsignedForm(w1: string, ds: string, w3: string)
    requires IsBlank(w1) && IsBlank(w3)
    requires |ds| > 0 && AllDigits(ds)
    ensures ParseInt(w1 + ds + w3) == Some(DigitsValue(ds))
  {
    StripUnsigned(w1, ds, w3);
    ParseIntOfDigits(w1 + ds + w3, ds);
  }

  /** A sign, blanks and digits between blanks read as the signed value. */
  lemma ParseIntSignedForm(w1: string, sign: char, w2: string, ds: string, w3: string)
    requires IsBlank(w1) && IsBlank(w2) && IsBlank(w3)
    requires sign == '+' || sign == '-'
    requires |ds| > 0 && AllDigits(ds)
    ensures ParseInt(w1 + [sign] + w2 + ds + w3) ==
      Some(if sign == '-' then 0 - DigitsValue(ds) else DigitsValue(ds))
  {
    StripSigned(w1, sign, w2, ds, w3);
    ParseIntOfSigned(w1 + [sign] + w2 + ds + w3, sign, w2, ds);
  }

  /** Conversely, every text `int()` accepts has that shape: anything else
      raises. */
  lemma ParseIntOnlyForms(s: string)
    requires ParseInt(s).Some?
    ensures exists w1, sign, w2, ds, w3 ::
      s == w1 + sign + w2 + ds + w3 && IsBlank(w1) && IsBlank(w2) && IsBlank(w3) &&
      (sign == "" || sign == "+" || sign == "-") && |ds| > 0 && AllDigits(ds)
  {
    var l := TrimLeft(s);
    var t := TrimRight(l);
    TrimLeftSplit(s);
    TrimRightSplit(l);
    var w1, w3 := s[..|s| - |l|], l[|t|..];
    assert s == w1 + t + w3;
    SignedShape(s, w1, t, w3);
  }

  /** A stripped text whose unsigned part is digits splits into an optional
      sign, blanks and those digits. */
  lemma SignedShape(s: string, w1: string, t: string, w3: string)
    requires s == w1 + t + w3 && IsBlank(w1) && IsBlank(w3)
    requires |Unsigned(t)| > 0 && AllDigits(Unsigned(t))
    ensures exists w1, sign, w2, ds, w3 ::
      s == w1 + sign + w2 + ds + w3 && IsBlank(w1) && IsBlank(w2) && IsBlank(w3) &&
      (sign == "" || sign == "+" || sign == "-") && |ds| > 0 && AllDigits(ds)
  {
    var u := Unsigned(t);
    if |t| > 0 && (t[0] == '-' || t[0] == '+') {
      var w2 := SignSplit(t);
      assert s == w1 + [t[0]] + w2 + u + w3;
      assert [t[0]] == "-" || [t[0]] == "+";
    } else {
      assert s == w1 + "" + "" + u + w3;
      assert IsBlank("");
    }
  }

  /** A signed text is its sign, the blanks after it, and its unsigned
      part. */
  lemma SignSplit(t: string) returns (w2: string)
    requires |t| > 0 && (t[0] == '-' || t[0] == '+')
    ensures t == [t[0]] + w2 + Unsigned(t) && IsBlank(w2)
  {
    TrimLeftSplit(t[1..]);
    w2 := t[1..][..|t| - 1 - |Unsigned(t)|];
    assert t[1..] == w2 + Unsigned(t);
  }

  /** What stripping on the left removes is whitespace, and it leaves a
      suffix. */
  lemma {:induction false} TrimLeftSplit(x: string)
    ensures |TrimLeft(x)| <= |x|
    ensures x == x[..|x| - |TrimLeft(x)|] + TrimLeft(x)
    ensures IsBlank(x[..|x| - |TrimLeft(x)|])
  {
    if |x| > 0 && IsSpace(x[0]) {
      TrimLeftSplit(x[1..]);
      var k := |x| - |TrimLeft(x)|;
      assert x[..k] == [x[0]] + x[1..][..k - 1];
      assert forall i :: 0 <= i < k ==> IsSpace(x[..k][i]) by {
        forall i | 0 <= i < k
          ensures IsSpace(x[..k][i])
        {
          if i > 0 { assert x[..k][i] == x[1..][..k - 1][i - 1]; }
        }
      }
    } else {
      assert x[..0] == "";
    }
  }

  /** What stripping on the right removes is whitespace, and it leaves a
      prefix. */
  lemma {:induction false} TrimRightSplit(x: string)
    ensures |TrimRight(x)| <= |x|
    ensures x == TrimRight(x) + x[|TrimRight(x)|..]
    ensures IsBlank(x[|TrimRight(x)|..])
    decreases |x|
  {
    if |x| > 0 && IsSpace(x[|x| - 1]) {
      var y := x[..|x| - 1];
      TrimRightSplit(y);
      var k := |TrimRight(x)|;
      assert x[k..] == y[k..] + [x[|x| - 1]];
      assert forall i :: 0 <= i < |x| - k ==> IsSpace(x[k..][i]) by {
        forall i | 0 <= i < |x| - k
          ensures IsSpace(x[k..][i])
        {
          if i < |y| - k { assert x[k..][i] == y[k..][i]; }
        }
      }
    } else {
      assert x[|x|..] == "";
    }
  }

  /** A blank text raises. */
  lemma ParseIntBlank(s: string)
    requires IsBlank(s)
    ensures ParseInt(s).None?
  {
    assert Strip(s) == "";
  }

  /** Bare digits read as their value. */
  lemma ParseIntDigits(ds: string)
    requires |ds| > 0 && AllDigits(ds)
    ensures ParseInt(ds) == Some(DigitsValue(ds))
  {
    assert ds == "" + ds + "";
    ParseIntUnsignedForm("", ds, "");
  }

  /** A sign directly before digits applies to their value. */
  lemma ParseIntSignedDigits(s: string)
    requires |s| > 1 && (s[0] == '-' || s[0] == '+') && AllDigits(s[1..])
    ensures ParseInt(s) == Some(if s[0] == '-' then 0 - DigitsValue(s[1..]) else DigitsValue(s[1..]))
  {
    assert s == "" + [s[0]] + "" + s[1..] + "";
    ParseIntSignedForm("", s[0], "", s[1..], "");
  }

  /** A text that strips to digits reads as their value. */
  lemma ParseIntOfDigits(s: string, ds: string)
    requires |ds| > 0 && AllDigits(ds) && Strip(s) == ds
    ensures ParseInt(s) == Some(DigitsValue(ds))
  {
    assert Unsigned(ds) == ds by {
      assert IsDigit(ds[0]);
    }
  }

  /** A text that strips to a sign, blanks and digits reads as the digits'
      value, negated after `-`. */
  lemma ParseIntOfSigned(s: string, sign: char, w2: string, ds: string)
    requires sign == '+' || sign == '-'
    requires IsBlank(w2) && |ds| > 0 && AllDigits(ds)
    requires Strip(s) == [sign] + w2 + ds
    ensures ParseInt(s) == Some(if sign == '-' then 0 - DigitsValue(ds) else DigitsValue(ds))
  {
    UnsignedSigned(sign, w2, ds);
  }

  /** Dropping the sign of a signed text drops the blanks after it too. */
  lemma UnsignedSigned(sign: char, w2: string, ds: string)
    requires sign == '+' || sign == '-'
    requires IsBlank(w2) && |ds| > 0 && AllDigits(ds)
    ensures Unsigned([sign] + w2 + ds) == ds
  {
    var t := [sign] + w2 + ds;
    assert t[0] == sign && t[1..] == w2 + ds;
    assert Unsigned(t) == TrimLeft(w2 + ds);
    TrimLeftBlankPrefix(w2, ds);
    assert !IsSpace(ds[0]) by {
      assert IsDigit(ds[0]);
    }
    assert TrimLeft(ds) == ds;
  }

  /** Blanks around unsigned digits are stripped. */
  lemma StripUnsigned(w1: string, ds: string, w3: string)
    requires IsBlank(w1) && IsBlank(w3)
    requires |ds| > 0 && AllDigits(ds)
    ensures Strip(w1 + ds + w3) == ds
  {
    StripAround(w1, ds, w3);
  }

  /** Blanks around a signed number are stripped; what follows the sign is
      the blanks and the digits. */
  lemma StripSigned(w1: string, sign: char, w2: string, ds: string, w3: string)
    requires IsBlank(w1) && IsBlank(w3)
    requires sign == '+' || sign == '-'
    requires |ds| > 0 && AllDigits(ds)
    ensures Strip(w1 + [sign] + w2 + ds + w3) == [sign] + w2 + ds
    ensures ([sign] + w2 + ds)[1..] == w2 + ds
  {
    var body := [sign] + w2 + ds;
    assert body[1..] == w2 + ds;
    assert body[0] == sign && !IsSpace(body[0]);
    assert !IsSpace(body[|body| - 1]) by {
      assert body[|body| - 1] == ds[|ds| - 1];
    }
    assert w1 + [sign] + w2 + ds + w3 == w1 + body + w3;
    StripAround(w1, body, w3);
  }

  /** Blanks around a text that starts and ends with a non-space are
      stripped. */
  lemma StripAround(w1: string, body: string, w3: string)
    requires IsBlank(w1) && IsBlank(w3)
    requires |body| > 0 && !IsSpace(body[0]) && !IsSpace(body[|body| - 1])
    ensures Strip(w1 + body + w3) == body
  {
    assert w1 + body + w3 == w1 + (body + w3);
    assert TrimLeft(w1 + body + w3) == body + w3 by {
      TrimLeftBlankPrefix(w1, body + w3);
      assert (body + w3)[0] == body[0];
    }
    TrimRightBlankSuffix(body, w3);
  }

  /** What stripping on the right leaves is a prefix, and ends in a non-space
      unless empty. */
  lemma {:induction false} TrimRightShape(x: string)
    ensures |TrimRight(x)| <= |x| && TrimRight(x) == x[..|TrimRight(x)|]
    ensures TrimRight(x) != "" ==> !IsSpace(TrimRight(x)[|TrimRight(x)| - 1])
    decreases |x|
  {
    if |x| > 0 && IsSpace(x[|x| - 1]) {
      TrimRightShape(x[..|x| - 1]);
    }
  }

  /** Stripping twice is stripping once, so `int()` ignores surrounding
      whitespace. */
  lemma ParseIntStrip(s: string)
    ensures Strip(Strip(s)) == Strip(s)
    ensures ParseInt(s) == ParseInt(Strip(s))
  {
    var l := TrimLeft(s);
    var t := TrimRight(l);
    TrimLeftBlank(s);
    TrimRightShape(l);
    if t != "" {
      assert t[0] == l[0];
      assert TrimLeft(t) == t;
      assert TrimRight(t) == t;
    }
  }

  /** `int(p)` on a parameter value: None when Python raises (ValueError for an
      unparseable string, TypeError for None or a list). */
  function PyInt(p: Param): (r: Option<int>)
    ensures p.PNone? || p.PList? ==> r.None?
    ensures p.PInt? ==> r == Some(p.i)
    ensures p.PBool? ==> r == Some(if p.b then 1 else 0)
    ensures p.PStr? ==> r == ParseInt(p.s)
    ensures forall n :: p == PStr(IntToString(n)) ==> r == Some(n)
  {
    assert forall n :: p == PStr(IntToString(n)) ==> ParseInt(p.s) == Some(n) by {
      forall n | p == PStr(IntToString(n)) {
        ParseIntToString(n);
      }
    }
    match p
    case PStr(s) => ParseInt(s)
    case PInt(i) => Some(i)
    case PBool(b) => Some(if b then 1 else 0)
    case PNone => None
    case PList(_) => None
  }

  lemma {:induction false} DigitsValueOfNat(n: nat)
    ensures DigitsValue(NatToDigits(n)) == n
  {
    if n >= 10 {
      DigitsValueOfNat(n / 10);
      var ds := NatToDigits(n);
      assert ds[..|ds| - 1] == NatToDigits(n / 10);
    }
  }

  /** `int(str(n)) == n` for every integer. */
  lemma ParseIntToString(n: int)
    ensures ParseInt(IntToString(n)) == Some(n)
  {
    var s := IntToString(n);
    var ds := NatToDigits(if n < 0 then -n else n);
    assert IsDigit(ds[0]) && IsDigit(ds[|ds| - 1]);
    assert TrimLeft(s) == s;
    assert TrimRight(s) == s;
    DigitsValueOfNat(if n < 0 then -n else n);
    if n < 0 {
      assert s[1..] == ds;
    }
  }
}
