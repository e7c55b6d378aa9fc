/** The request path of backend/services/routeOptimizerService.js: Brazilian-format number
    parsing, rescaling of the CSV fleet counts to the training scale, the distance fallback, the
    policy's choice with the small-parcel bike override, and the time and price of the answer. */
module RouteOptimizer {
  import opened Common
  import opened Scores
  import opened Env
  import opened Pricing
  import opened Policy

  // ----- JavaScript values and strings -----

  datatype JsNumber = NaN | Num(v: real)

  /** The values `parseBRFloat` distinguishes: null, undefined, a number or a string. */
  datatype JsValue = JsNull | JsUndefined | JsNum(n: JsNumber) | JsStr(s: string)

  /** The white space `String.prototype.trim` removes (the Latin-1 and byte-order-mark part). */
  predicate IsJsSpace(c: char)
  {
    c == ' ' || c == '\t' || c == '\n' || c == '\r' || c == '\U{000B}' || c == '\U{000C}'
    || c == '\U{00A0}' || c == '\U{FEFF}' || c == '\U{2028}' || c == '\U{2029}'
  }

  predicate AllSpace(s: string)
  {
    forall i :: 0 <= i < |s| ==> IsJsSpace(s[i])
  }

  /** `s` without its leading white space. */
  function TrimStart(s: string): (r: string)
    ensures |r| <= |s| && r == s[|s| - |r|..]
    ensures AllSpace(s[..|s| - |r|])
    ensures r == [] || !IsJsSpace(r[0])
    ensures r == [] <==> AllSpace(s)
  {
    if s != [] && IsJsSpace(s[0]) then
      var r := TrimStart(s[1..]);
      SpaceCons(s, |s| - |r|);
      r
    else s
  }

  /** A white-space character before white space is white space. */
  lemma SpaceCons(s: string, n: nat)
    requires s != [] && IsJsSpace(s[0]) && 1 <= n <= |s|
    requires AllSpace(s[1..][..n - 1]) && (s[1..][n - 1..] == [] <==> AllSpace(s[1..]))
    ensures AllSpace(s[..n]) && (s[n..] == [] <==> AllSpace(s))
  {
    forall k | 0 <= k < n ensures IsJsSpace(s[..n][k]) {
      if k > 0 {
        assert s[..n][k] == s[1..][..n - 1][k - 1];
      }
    }
    if AllSpace(s) {
      forall k | 0 <= k < |s| - 1 ensures IsJsSpace(s[1..][k]) {
        assert s[1..][k] == s[k + 1];
      }
    }
    if AllSpace(s[1..]) {
      forall k | 0 <= k < |s| ensures IsJsSpace(s[k]) {
        if k > 0 {
          assert s[k] == s[1..][k - 1];
        }
      }
    }
    assert s[1..][n - 1..] == s[n..];
  }

  /** `s` without its trailing white space. */
  function TrimEnd(s: string): (r: string)
    ensures |r| <= |s| && r == s[..|r|]
    ensures AllSpace(s[|r|..])
    ensures r == [] || !IsJsSpace(r[|r| - 1])
    ensures r == [] <==> AllSpace(s)
  {
    if s != [] && IsJsSpace(s[|s| - 1]) then TrimEnd(s[..|s| - 1]) else s
  }

  /** The number of white-space characters `s` starts with. */
  function LeadingSpace(s: string): (n: nat)
    ensures n <= |s| && AllSpace(s[..n])
  {
    |s| - |TrimStart(s)|
  }

  /** `s.trim()`: leading and trailing white space removed; empty exactly when `s` is blank.
      It is the window of `s` after its leading white space and before its trailing one. */
  function Trim(s: string): (r: string)
    ensures LeadingSpace(s) + |r| <= |s|
    ensures r == s[LeadingSpace(s)..LeadingSpace(s) + |r|] && AllSpace(s[LeadingSpace(s) + |r|..])
    ensures r == [] || (!IsJsSpace(r[0]) && !IsJsSpace(r[|r| - 1]))
    ensures r == [] <==> AllSpace(s)
  {
    var t := TrimStart(s);
    var r := TrimEnd(t);
    SuffixPrefixWindow(s, t, r, LeadingSpace(s));
    r
  }

  /** A prefix `r` of the suffix `t` of `s` from `i` is the window of `s` from `i`, and what
      follows it in `t` is what follows it in `s`. */
  lemma SuffixPrefixWindow(s: string, t: string, r: string, i: nat)
    requires i <= |s| && t == s[i..] && |r| <= |t| && r == t[..|r|] && AllSpace(t[|r|..])
    ensures r == s[i..i + |r|] && AllSpace(s[i + |r|..])
  {
    forall k | 0 <= k < |r| ensures r[k] == s[i + k] {
      assert r[k] == t[k];
    }
    assert s[i + |r|..] == t[|r|..];
  }

  /** A string that neither starts nor ends with white space is its own trim. */
  lemma TrimOfTrimmed(s: string)
    requires s != [] && !IsJsSpace(s[0]) && !IsJsSpace(s[|s| - 1])
    ensures Trim(s) == s
  {
  }

  /** JavaScript `s.indexOf(c)` for one character. */
  function IndexOfChar(s: string, c: char): (i: int)
    ensures -1 <= i < |s|
    ensures i >= 0 ==> s[i] == c && c !in s[..i]
    ensures i == -1 <==> c !in s
  {
    if s == [] then -1
    else if s[0] == c then 0
    else
      var k := IndexOfChar(s[1..], c);
      if k == -1 then -1 else k + 1
  }

  /** `s.replace(/\./g, "")`: every '.' removed, everything else kept in order. */
  function RemoveDots(s: string): (r: string)
    ensures '.' !in r
    ensures |r| <= |s|
    ensures '.' !in s ==> r == s
    ensures forall c :: c != '.' ==> (c in r <==> c in s)
  {
    if s == [] then []
    else (if s[0] == '.' then [] else [s[0]]) + RemoveDots(s[1..])
  }

  /** Removing points works piece by piece: with RemoveDots of a single character (empty for '.',
      the character itself otherwise) this fixes RemoveDots on every string. */
  lemma {:induction false} RemoveDotsAppend(a: string, b: string)
    ensures RemoveDots(a + b) == RemoveDots(a) + RemoveDots(b)
  {
    if a != [] {
      assert (a + b)[1..] == a[1..] + b;
      RemoveDotsAppend(a[1..], b);
    } else {
      assert a + b == b;
    }
  }

  /** `s.replace(",", ".")`: a string pattern replaces only the first occurrence. */
  function ReplaceFirstComma(s: string): (r: string)
    ensures |r| == |s|
    ensures ',' !in s ==> r == s
    ensures ',' in s ==> r[IndexOfChar(s, ',')] == '.'
    ensures forall j :: 0 <= j < |s| && j != IndexOfChar(s, ',') ==> r[j] == s[j]
  {
    var i := IndexOfChar(s, ',');
    if i == -1 then s else s[i := '.']
  }

  /** The string normalisation of `parseBRFloat`: drop thousands separators, then make the first
      decimal comma a point. */
  function NormalizeBR(s: string): (r: string)
  {
    ReplaceFirstComma(RemoveDots(s))
  }

  /** After normalisation there is at most one '.', and only where the first ',' was. */
  lemma NormalizeBRPoints(s: string)
    ensures IndexOfChar(RemoveDots(s), ',') == -1 ==> '.' !in NormalizeBR(s)
    ensures IndexOfChar(RemoveDots(s), ',') >= 0 ==>
              IndexOfChar(NormalizeBR(s), '.') == IndexOfChar(RemoveDots(s), ',')
              && '.' !in NormalizeBR(s)[IndexOfChar(RemoveDots(s), ',') + 1..]
  {
    var t := RemoveDots(s);
    var i := IndexOfChar(t, ',');
    var r := NormalizeBR(s);
    if i >= 0 {
      assert r[..i] == t[..i];
      assert forall j :: i < j < |r| ==> r[j] == t[j] && t[j] in t;
    } else {
      assert forall j :: 0 <= j < |r| ==> r[j] == t[j] && t[j] in t;
    }
  }

  // ----- decimal numbers -----

  predicate IsDigit(c: char) { '0' <= c <= '9' }

  predicate AllDigits(s: string)
  {
    forall i :: 0 <= i < |s| ==> IsDigit(s[i])
  }

  function DigitValue(c: char): nat
    requires IsDigit(c)
  {
    (c as int - '0' as int) as nat
  }

  /** The value of a string of decimal digits, most significant first; 0 for the empty string. */
  function DigitsValue(s: string): (n: nat)
    requires AllDigits(s)
  {
    if s == [] then 0 else 10 * DigitsValue(s[..|s| - 1]) + DigitValue(s[|s| - 1])
  }

  function Pow10(k: nat): (p: nat)
    ensures p >= 1
  {
    if k == 0 then 1 else 10 * Pow10(k - 1)
  }

  /** The value of digits `a`, a point and digits `b`. */
  function DecimalValue(a: string, b: string): real
    requires AllDigits(a) && AllDigits(b)
  {
    DigitsValue(a) as real + DigitsValue(b) as real / Pow10(|b|) as real
  }

  /** A plain decimal literal: an optional sign, digits, an optional point and digits, with at
      least one digit in all; `None` for anything else. */
  function ParseDecimal(s: string): (r: Option<real>)
    ensures s == [] ==> r.None?
    ensures r.Some? && s[0] != '-' && s[0] != '+' ==>
              var k := IndexOfChar(s, '.');
              (k == -1 ==> AllDigits(s) && r.value == DigitsValue(s) as real)
              && (k >= 0 ==> AllDigits(s[..k]) && AllDigits(s[k + 1..]) && r.value == DecimalValue(s[..k], s[k + 1..]))
    ensures s != [] && AllDigits(s) ==> r == Some(DigitsValue(s) as real)
  {
    if s == [] then None
    else
      var body := if s[0] == '-' || s[0] == '+' then s[1..] else s;
      match ParseUnsigned(body)
      case Some(v) => Some(if s[0] == '-' then -v else v)
      case None => None
  }

  /** The unsigned part of a decimal literal: digits, an optional point and digits, at least one
      digit in all. */
  function ParseUnsigned(body: string): Option<real>
  {
    var k := IndexOfChar(body, '.');
    var a := if k == -1 then body else body[..k];
    var b := if k == -1 then [] else body[k + 1..];
    if AllDigits(a) && AllDigits(b) && |a| + |b| > 0 then Some(DecimalValue(a, b)) else None
  }

  /** JavaScript `Number(s)` for the decimal strings this service reads: white space around the
      literal is ignored and a blank string is 0. */
  function NumberOf(s: string): (n: JsNumber)
    ensures AllSpace(s) ==> n == Num(0.0)
  {
    var t := Trim(s);
    if t == [] then Num(0.0)
    else match ParseDecimal(t)
      case Some(v) => Num(v)
      case None => NaN
  }

  /** `parseBRFloat(value, fallback)`. */
  function ParseBRFloat(value: JsValue, fallback: real): (r: real)
    ensures value.JsNull? || value.JsUndefined? ==> r == fallback
    ensures value == JsNum(NaN) ==> r == fallback
    ensures value.JsNum? && value.n.Num? ==> r == value.n.v
    ensures value.JsStr? && AllSpace(value.s) ==> r == fallback
  {
    match value
    case JsNull => fallback
    case JsUndefined => fallback
    case JsNum(n) => (match n case NaN => fallback case Num(x) => x)
    case JsStr(s) =>
      var str := Trim(s);
      if str == [] then fallback
      else
        match NumberOf(NormalizeBR(str))
        case NaN => fallback
        case Num(x) => x
  }

  /** A character that is not white space survives trimming. */
  lemma TrimKeeps(s: string, c: char)
    requires c in s && !IsJsSpace(c)
    ensures c in Trim(s)
  {
    var r, n := Trim(s), LeadingSpace(s);
    var front, back := s[..n], s[n + |r|..];
    assert s == front + r + back;
    NotInSpace(front, c);
    NotInSpace(back, c);
  }

  /** White space holds no character that is not white space. */
  lemma NotInSpace(t: string, c: char)
    requires AllSpace(t) && !IsJsSpace(c)
    ensures c !in t
  {
  }

  /** A character that is neither a digit, a sign nor a point makes a literal malformed. */
  lemma ParseDecimalRejects(t: string, c: char)
    requires c in t && !IsDigit(c) && c != '.' && c != '+' && c != '-'
    ensures ParseDecimal(t).None?
  {
    var body := if t[0] == '-' || t[0] == '+' then t[1..] else t;
    var j :| 0 <= j < |body| && body[j] == c by {
      var i :| 0 <= i < |t| && t[i] == c;
      if body != t {
        assert i > 0 && body[i - 1] == c;
      }
    }
    var k := IndexOfChar(body, '.');
    if k == -1 {
      assert !AllDigits(body);
    } else if j < k {
      assert body[..k][j] == c;
    } else {
      assert j > k && body[k + 1..][j - k - 1] == c;
    }
  }

  /** The fallback path: a string holding a character that no number can contain (not a digit,
      sign, point, comma or white space) reads as the fallback. */
  lemma ParseBRFloatBadChar(s: string, fallback: real, c: char)
    requires c in s && !IsDigit(c) && c != '.' && c != ',' && c != '+' && c != '-' && !IsJsSpace(c)
    ensures ParseBRFloat(JsStr(s), fallback) == fallback
  {
    var str := Trim(s);
    TrimKeeps(s, c);
    var t := RemoveDots(str);
    var u := NormalizeBR(str);
    var j :| 0 <= j < |t| && t[j] == c;
    assert j != IndexOfChar(t, ',');
    assert u[j] == c;
    TrimKeeps(u, c);
    ParseDecimalRejects(Trim(u), c);
  }

  /** "abc" is not a number, so it reads as the fallback. */
  lemma ParseBRFloatTextExample(fallback: real)
    ensures ParseBRFloat(JsStr("abc"), fallback) == fallback
  {
    ParseBRFloatBadChar("abc", fallback, 'a');
  }

  /** Digits contain no point, no comma and no white space. */
  lemma DigitsAreNotSeparators(a: string)
    requires AllDigits(a)
    ensures forall i :: 0 <= i < |a| ==> a[i] != '.' && a[i] != ',' && !IsJsSpace(a[i])
    ensures '.' !in a && ',' !in a
  {
    assert forall i :: 0 <= i < |a| ==> IsDigit(a[i]);
  }

  /** The first occurrence of a separator `sep` in `a + [sep] + b`, with `a` made of digits and
      `sep` not a digit, is at position |a|. */
  lemma SeparatorAfterDigits(a: string, sep: char, b: string)
    requires AllDigits(a) && !IsDigit(sep)
    ensures IndexOfChar(a + [sep] + b, sep) == |a|
  {
    var s := a + [sep] + b;
    assert s[..|a|] == a;
    assert s[|a|] == sep;
    assert sep !in a by {
      assert forall i :: 0 <= i < |a| ==> IsDigit(a[i]);
    }
    var i := IndexOfChar(s, sep);
  }

  /** Digits, a comma and digits hold no point, so dropping points leaves them unchanged. */
  lemma DigitsCommaHaveNoPoint(a: string, b: string)
    requires AllDigits(a) && AllDigits(b)
    ensures RemoveDots(a + "," + b) == a + "," + b
  {
    var s := a + "," + b;
    DigitsAreNotSeparators(a);
    DigitsAreNotSeparators(b);
    assert forall i :: 0 <= i < |s| ==> s[i] != '.' by {
      assert forall i :: 0 <= i < |a| ==> s[i] == a[i];
      assert forall i :: |a| < i < |s| ==> s[i] == b[i - |a| - 1];
    }
    assert '.' !in s;
  }

  /** `a,b` normalises to `a.b`. */
  lemma NormalizeDigitsComma(a: string, b: string)
    requires AllDigits(a) && AllDigits(b)
    ensures NormalizeBR(a + "," + b) == a + "." + b
  {
    var s := a + "," + b;
    DigitsCommaHaveNoPoint(a, b);
    SeparatorAfterDigits(a, ',', b);
    assert ReplaceFirstComma(s) == s[|a| := '.'];
    UpdateBetween(a, ',', '.', b);
  }

  /** Replacing the character between `a` and `b` gives `a`, the new character and `b`. */
  lemma UpdateBetween(a: string, x: char, y: char, b: string)
    ensures (a + [x] + b)[|a| := y] == a + [y] + b
  {
    var s, t := (a + [x] + b)[|a| := y], a + [y] + b;
    forall i | 0 <= i < |t| ensures s[i] == t[i] {
      if i > |a| {
        assert s[i] == b[i - |a| - 1];
      }
    }
  }

  /** `a.b` with digits on both sides and at least one digit in all is the decimal `a.b`
      ("5." and ".5" included). */
  lemma ParseDigitsPoint(a: string, b: string)
    requires AllDigits(a) && AllDigits(b) && |a| + |b| > 0
    ensures ParseDecimal(a + "." + b) == Some(DecimalValue(a, b))
  {
    var t := a + "." + b;
    SeparatorAfterDigits(a, '.', b);
    assert t[0] != '-' && t[0] != '+' by {
      if a != [] { assert t[0] == a[0] && IsDigit(a[0]); } else { assert t[0] == '.'; }
    }
    assert t[..|a|] == a && t[|a| + 1..] == b;
  }

  /** A leading '-' negates the unsigned literal that follows. */
  lemma ParseNegated(t: string)
    requires t == [] || (t[0] != '-' && t[0] != '+')
    ensures ParseDecimal("-" + t) == (match ParseDecimal(t) case Some(v) => Some(-v) case None => None)
  {
    var neg := "-" + t;
    assert neg[0] == '-' && neg[1..] == t;
  }

  /** A leading '+' changes nothing. */
  lemma ParsePlusSign(t: string)
    requires t == [] || (t[0] != '-' && t[0] != '+')
    ensures ParseDecimal("+" + t) == ParseDecimal(t)
  {
    var pos := "+" + t;
    assert pos[0] == '+' && pos[1..] == t;
  }

  /** `Number("a.b")` with digits on both sides, neither side empty, is the decimal `a.b`. */
  lemma NumberOfDecimal(a: string, b: string)
    requires AllDigits(a) && AllDigits(b) && a != [] && b != []
    ensures NumberOf(a + "." + b) == Num(DecimalValue(a, b))
  {
    var t := a + "." + b;
    DigitsAreNotSeparators(a);
    DigitsAreNotSeparators(b);
    assert t[0] == a[0] && t[|t| - 1] == b[|b| - 1];
    TrimOfTrimmed(t);
    ParseDigitsPoint(a, b);
  }

  /** A Brazilian decimal `a,b` (digits, a comma, digits) parses to the value of `a.b`. */
  lemma ParseBRDecimal(a: string, b: string, fallback: real)
    requires AllDigits(a) && AllDigits(b) && a != [] && b != []
    ensures ParseBRFloat(JsStr(a + "," + b), fallback) == DecimalValue(a, b)
  {
    var s := a + "," + b;
    DigitsAreNotSeparators(a);
    DigitsAreNotSeparators(b);
    assert s[0] == a[0] && s[|s| - 1] == b[|b| - 1];
    TrimOfTrimmed(s);
    NormalizeDigitsComma(a, b);
    NumberOfDecimal(a, b);
  }

  /** `Number` of a string of digits is its value. */
  lemma NumberOfDigits(a: string)
    requires AllDigits(a) && a != []
    ensures NumberOf(a) == Num(DigitsValue(a) as real)
  {
    DigitsAreNotSeparators(a);
    TrimOfTrimmed(a);
  }

  /** A plain integer string such as "20" reads as its value. */
  lemma ParseBRInteger(a: string, fallback: real)
    requires AllDigits(a) && a != []
    ensures ParseBRFloat(JsStr(a), fallback) == DigitsValue(a) as real
  {
    DigitsAreNotSeparators(a);
    TrimOfTrimmed(a);
    assert RemoveDots(a) == a;
    assert ReplaceFirstComma(a) == a;
    NumberOfDigits(a);
  }

  /** A thousands point is dropped: `a.b,c` (digits around a point and a comma) reads as the
      decimal with integer part `ab` and fraction `c`. */
  lemma ParseBRThousands(a: string, b: string, c: string, fallback: real)
    requires AllDigits(a) && AllDigits(b) && AllDigits(c) && a != [] && c != []
    ensures ParseBRFloat(JsStr(a + "." + b + "," + c), fallback) == DecimalValue(a + b, c)
  {
    var s := a + "." + b + "," + c;
    var tail := b + "," + c;
    DigitsAreNotSeparators(a);
    DigitsAreNotSeparators(c);
    assert s[0] == a[0] && s[|s| - 1] == c[|c| - 1];
    TrimOfTrimmed(s);
    ThousandsShape(a, b, c);
    var x := ['.'] + tail;
    assert s == a + x;
    DigitsCommaHaveNoPoint(b, c);
    assert RemoveDots(x) == tail by {
      RemoveDotsAppend(['.'], tail);
      assert RemoveDots(['.']) == [] by { assert ['.'][1..] == []; }
      assert [] + tail == tail;
    }
    assert RemoveDots(s) == a + tail by {
      RemoveDotsAppend(a, x);
      assert RemoveDots(a) == a;
    }
    DigitsConcat(a, b);
    assert NormalizeBR(s) == (a + b) + "." + c by {
      NormalizeDigitsComma(a + b, c);
    }
    NumberOfDecimal(a + b, c);
    ParseBRTrimmed(s, fallback, DecimalValue(a + b, c));
  }

  /** A string that is its own trim reads as whatever `Number` makes of its normalised form. */
  lemma ParseBRTrimmed(s: string, fallback: real, v: real)
    requires s != [] && Trim(s) == s && NumberOf(NormalizeBR(s)) == Num(v)
    ensures ParseBRFloat(JsStr(s), fallback) == v
  {
  }

  lemma DigitsConcat(a: string, b: string)
    requires AllDigits(a) && AllDigits(b)
    ensures AllDigits(a + b)
  {
    assert forall i :: 0 <= i < |a + b| ==> (a + b)[i] == if i < |a| then a[i] else b[i - |a|];
  }

  /** Regrouping `a.b,c` around its thousands point. */
  lemma ThousandsShape(a: string, b: string, c: string)
    ensures a + "." + b + "," + c == a + (['.'] + (b + "," + c))
    ensures a + (b + "," + c) == a + b + "," + c
  {
    var s := a + "." + b + "," + c;
    var t := a + (['.'] + (b + "," + c));
    assert |s| == |t|;
    forall i | 0 <= i < |s| ensures s[i] == t[i] {
      if i < |a| {
      } else if i == |a| {
      } else if i < |a| + 1 + |b| {
      } else if i == |a| + 1 + |b| {
      } else {
      }
    }
  }

  /** The example of the service's own comment: "39,77" reads as 39.77. */
  lemma ParseBRFloatExample()
    ensures ParseBRFloat(JsStr("39,77"), 0.0) == 39.77
  {
    var s := "39,77";
    var a, b := "39", "77";
    assert s == a + "," + b by {
      assert |s| == 5;
      assert s[0] == '3' && s[1] == '9' && s[2] == ',' && s[3] == '7' && s[4] == '7';
    }
    assert AllDigits(a) && AllDigits(b);
    assert DigitsValue(a) == 39 by { assert a[..1] == "3"; }
    assert DigitsValue(b) == 77 by { assert b[..1] == "7"; }
    assert |b| == 2 && Pow10(2) == 100;
    ParseBRDecimal(a, b, 0.0);
  }

  /** A thousands point and a decimal comma: "1.234,56" reads as 1234.56. */
  lemma ParseBRThousandsExample()
    ensures ParseBRFloat(JsStr("1.234,56"), 0.0) == 1234.56
  {
    var a, b, c := "1", "234", "56";
    var ab, d2, d3 := "1234", "12", "123";
    assert ab == a + b;
    assert DigitsValue(a) == 1 by { assert a[..0] == []; }
    assert DigitsValue(d2) == 12 by { assert d2[..1] == a; }
    assert DigitsValue(d3) == 123 by { assert d3[..2] == d2; }
    assert DigitsValue(ab) == 1234 by { assert ab[..3] == d3; }
    assert DigitsValue(c) == 56 by { assert c[..1] == "5"; }
    assert |c| == 2 && Pow10(2) == 100;
    assert "1.234,56" == a + "." + b + "," + c;
    assert AllDigits(a) && AllDigits(b) && AllDigits(c);
    ParseBRThousands(a, b, c, 0.0);
  }

  /** A plain integer cell: "20" reads as 20. */
  lemma ParseBRIntegerExample()
    ensures ParseBRFloat(JsStr("20"), 5.0) == 20.0
  {
    var a := "20";
    assert AllDigits(a);
    assert DigitsValue(a) == 20 by { assert a[..1] == "2"; }
    ParseBRInteger(a, 5.0);
  }

  /** A string of points only normalises to the empty string, which `Number` reads as 0: the
      fallback is not used. */
  lemma PointsOnlyReadAsZero()
    ensures ParseBRFloat(JsStr("."), 20.0) == 0.0
  {
    assert Trim(".") == ".";
    assert RemoveDots(".") == "";
  }

  // ----- fleet rescaling -----

  /** The vehicle counts of the latest CSV row; a missing field is `None`. */
  datatype RawVeiculos = RawVeiculos(motos: Option<real>, bikes: Option<real>, vans: Option<real>,
                                     caminhoes: Option<real>, total: Option<real>)

  /** `x || 0` on a number: a missing count (or 0) reads as 0. */
  function CountOrZero(o: Option<real>): real
  {
    if o.Some? then o.value else 0.0
  }

  /** `total_veiculos || (sum of the counts) || 1`: the first non-zero of the three. */
  function CsvTotal(raw: RawVeiculos): (t: real)
    ensures t != 0.0
  {
    var sum := CountOrZero(raw.motos) + CountOrZero(raw.bikes) + CountOrZero(raw.vans) + CountOrZero(raw.caminhoes);
    if raw.total.Some? && raw.total.value != 0.0 then raw.total.value
    else if sum != 0.0 then sum
    else 1.0
  }

  /** One count rescaled so that the whole fleet corresponds to MAX_FLEET vehicles. */
  function Rescale(count: real, total: real): int
    requires total != 0.0
  {
    MathRound(count * (MAX_FLEET / total))
  }

  /** `normalizarDisponibilidadeCSV`. */
  function NormalizarDisponibilidadeCSV(raw: RawVeiculos): (f: Fleet)
    ensures f.motos == Some(Rescale(CountOrZero(raw.motos), CsvTotal(raw)))
    ensures f.bikes == Some(Rescale(CountOrZero(raw.bikes), CsvTotal(raw)))
    ensures f.vans == Some(Rescale(CountOrZero(raw.vans), CsvTotal(raw)))
    ensures f.caminhoes == Some(Rescale(CountOrZero(raw.caminhoes), CsvTotal(raw)))
  {
    var total := CsvTotal(raw);
    Fleet(Some(Rescale(CountOrZero(raw.motos), total)), Some(Rescale(CountOrZero(raw.bikes), total)),
          Some(Rescale(CountOrZero(raw.vans), total)), Some(Rescale(CountOrZero(raw.caminhoes), total)))
  }

  predicate NonNegativeCounts(raw: RawVeiculos)
  {
    CountOrZero(raw.motos) >= 0.0 && CountOrZero(raw.bikes) >= 0.0
    && CountOrZero(raw.vans) >= 0.0 && CountOrZero(raw.caminhoes) >= 0.0
  }

  /** A share `c` of a total `t` with 0 <= c <= t rescales into [0, 50]. */
  lemma RescaleShare(c: real, t: real)
    requires 0.0 <= c <= t && t > 0.0
    ensures 0 <= Rescale(c, t) <= 50
  {
    var x := c * (MAX_FLEET / t);
    assert x == MAX_FLEET * (c / t);
    assert c / t <= 1.0;
    MathRoundMonotone(0.0, x);
    MathRoundMonotone(x, 50.0);
    assert MathRound(0.0) == 0;
    assert MathRound(50.0) == 50;
  }

  /** Without `total_veiculos` and with non-negative counts, every rescaled count is in [0, 50]. */
  lemma RescaledCountsInRange(raw: RawVeiculos)
    requires raw.total.None? && NonNegativeCounts(raw)
    ensures NonNegativeFleet(NormalizarDisponibilidadeCSV(raw))
    ensures OrZero(NormalizarDisponibilidadeCSV(raw).motos) <= 50 && OrZero(NormalizarDisponibilidadeCSV(raw).bikes) <= 50
    ensures OrZero(NormalizarDisponibilidadeCSV(raw).vans) <= 50 && OrZero(NormalizarDisponibilidadeCSV(raw).caminhoes) <= 50
  {
    var t := CsvTotal(raw);
    var m, b, v, c := CountOrZero(raw.motos), CountOrZero(raw.bikes), CountOrZero(raw.vans), CountOrZero(raw.caminhoes);
    if m + b + v + c == 0.0 {
      assert m == 0.0 && b == 0.0 && v == 0.0 && c == 0.0 && t == 1.0;
    }
    RescaleShare(m, t);
    RescaleShare(b, t);
    RescaleShare(v, t);
    RescaleShare(c, t);
  }

  /** Rescaling keeps the order of two counts under the same positive total. */
  lemma RescaleMonotone(c1: real, c2: real, t: real)
    requires c1 <= c2 && t > 0.0
    ensures Rescale(c1, t) <= Rescale(c2, t)
  {
    var f := MAX_FLEET / t;
    assert c2 * f - c1 * f == (c2 - c1) * f;
    MathRoundMonotone(c1 * f, c2 * f);
  }

  // ----- distance, time and the request -----

  /** The latest route average, 5 when missing or 0. */
  function AverageOrDefault(avgRoute: Option<real>): real
  {
    if avgRoute.Some? && avgRoute.value != 0.0 then avgRoute.value else 5.0
  }

  /** The distance of the request: the one supplied, or `max(1, avg * (0.5 + draw))` with `avg` the
      latest route average (5 when missing or 0) and `draw` the `Math.random()` value: between
      0.5 and 1.5 times the average, and at least 1. */
  function ResolveDistance(distancia: Option<real>, avgRoute: Option<real>, draw: real): (d: real)
    requires 0.0 <= draw < 1.0
    ensures distancia.Some? ==> d == distancia.value
    ensures distancia.None? ==> d >= 1.0
    ensures distancia.None? ==>
              MaxReal(1.0, 0.5 * AverageOrDefault(avgRoute)) <= d <= MaxReal(1.0, 1.5 * AverageOrDefault(avgRoute))
    ensures distancia.None? && (avgRoute.None? || avgRoute.value == 0.0) ==> 1.0 <= d < 7.5
  {
    match distancia
    case Some(x) => x
    case None =>
      var avg := AverageOrDefault(avgRoute);
      DistanceBetween(avg, draw);
      MaxReal(1.0, avg * (0.5 + draw))
  }

  /** A product of non-negative reals is non-negative. */
  lemma MulNonNegative(a: real, b: real)
    requires 0.0 <= a && 0.0 <= b
    ensures 0.0 <= a * b
  {
  }

  /** `max(1, avg * (0.5 + draw))` lies between `max(1, avg / 2)` and `max(1, 1.5 * avg)`. */
  lemma DistanceBetween(avg: real, draw: real)
    requires 0.0 <= draw < 1.0
    ensures MaxReal(1.0, 0.5 * avg) <= MaxReal(1.0, avg * (0.5 + draw)) <= MaxReal(1.0, 1.5 * avg)
    ensures avg == 5.0 ==> MaxReal(1.0, avg * (0.5 + draw)) < 7.5
  {
    var x := avg * (0.5 + draw);
    var y := avg * draw;
    assert x == 0.5 * avg + y;
    if avg >= 0.0 {
      assert 0.0 <= y;
      MulNonNegative(avg, 1.0 - draw);
      assert avg - y == avg * (1.0 - draw);
      assert avg == 5.0 ==> y < avg;
      assert 0.5 * avg <= x <= 1.5 * avg;
    } else {
      MulNonNegative(-avg, draw);
      assert -y == (-avg) * draw;
      assert x <= 0.5 * avg < 1.0;
    }
  }

  /** Approximate speeds of the time estimate: bike 15, moto 40, anything else 60 km/h. */
  function TravelSpeed(vehicle: string): (kmh: real)
    ensures kmh == 15.0 || kmh == 40.0 || kmh == 60.0
  {
    if vehicle == "bike" then 15.0 else if vehicle == "moto" then 40.0 else 60.0
  }

  /** `Math.round(distKm / speed * 60)`: travel time in whole minutes. */
  function TempoEstimadoMin(vehicle: string, distKm: real): (m: int)
    ensures m as real - 0.5 <= distKm / TravelSpeed(vehicle) * 60.0 < m as real + 0.5
  {
    MathRound(distKm / TravelSpeed(vehicle) * 60.0)
  }

  /** On the same distance a bike never gets a shorter estimate than a moto, nor a moto than a
      van or truck. */
  lemma SlowerVehicleLongerTime(distKm: real)
    requires distKm >= 0.0
    ensures TempoEstimadoMin("bike", distKm) >= TempoEstimadoMin("moto", distKm) >= TempoEstimadoMin("van", distKm)
    ensures TempoEstimadoMin("van", distKm) == TempoEstimadoMin("caminhao", distKm)
  {
    MathRoundMonotone(distKm / 40.0 * 60.0, distKm / 15.0 * 60.0);
    MathRoundMonotone(distKm / 60.0 * 60.0, distKm / 40.0 * 60.0);
  }

  /** The request; defaults of the source apply to an absent cargo type and urgency. */
  datatype Request = Request(origem: string, destino: string, tipoCarga: Option<string>,
                             urgencia: Option<bool>, distancia: Option<real>)

  /** The fields of the latest vehicle-data row the service reads. */
  datatype SnapshotRow = SnapshotRow(veiculos: RawVeiculos, custoMoto: JsValue, custoBike: JsValue,
                                     custoVan: JsValue, custoCaminhao: JsValue)

  /** The answer of `obterMelhorRota`. */
  datatype RouteResult = RouteResult(origem: string, destino: string, tipoCarga: string, urgencia: bool,
                                     escolha: string, distanciaKm: real, tempoEstimadoMin: int,
                                     precoEstimado: real, qvals: seq<Score>, meta: string)

  /** Q-values of the served network for one state. */
  type QScores = q: seq<Score> | |q| == N_ACTIONS witness [NegInf, NegInf, NegInf, NegInf]

  /** The operating costs of the service: each field parsed as a Brazilian number, with the
      training defaults as fallbacks. */
  function ServiceBaseCosts(row: SnapshotRow): (m: map<string, real>)
    ensures m.Keys == {"moto", "bike", "van", "caminhao"}
    ensures m["moto"] == ParseBRFloat(row.custoMoto, 20.0) && m["bike"] == ParseBRFloat(row.custoBike, 5.0)
    ensures m["van"] == ParseBRFloat(row.custoVan, 100.0) && m["caminhao"] == ParseBRFloat(row.custoCaminhao, 200.0)
  {
    map["moto" := ParseBRFloat(row.custoMoto, 20.0), "bike" := ParseBRFloat(row.custoBike, 5.0),
        "van" := ParseBRFloat(row.custoVan, 100.0), "caminhao" := ParseBRFloat(row.custoCaminhao, 200.0)]
  }

  /** The business override: a non-urgent small parcel over at most 5 km goes by bike whenever a
      bike is available. */
  predicate BikeOverride(urgencia: bool, tipoCarga: string, distKm: real, disponibilidade: Fleet)
  {
    !urgencia && tipoCarga == "pequena" && distKm <= 5.0 && OrZero(disponibilidade.bikes) > 0
  }

  /** `obterMelhorRota`; `predict` is the served network, `row` the latest data row and `draw` the
      random value of the distance fallback. */
  method ObterMelhorRota(req: Request, row: SnapshotRow, avgRoute: Option<real>, draw: real,
                         predict: seq<real> -> QScores)
    returns (res: RouteResult)
    requires 0.0 <= draw < 1.0
    ensures var tipoCarga := if req.tipoCarga.Some? then req.tipoCarga.value else "pequena";
            var urgencia := req.urgencia.Some? && req.urgencia.value;
            var distKm := ResolveDistance(req.distancia, avgRoute, draw);
            var disponibilidade := NormalizarDisponibilidadeCSV(row.veiculos);
            var q := predict(BuildState(distKm, urgencia, tipoCarga, Some(disponibilidade)));
            && res.tipoCarga == tipoCarga && res.urgencia == urgencia
            && res.origem == req.origem && res.destino == req.destino && res.meta == "DQN"
            && (BikeOverride(urgencia, tipoCarga, distKm, disponibilidade) ==>
                  res.escolha == "bike" && res.qvals == q[1 := PlusOne(MaxScore(q))])
            && (!BikeOverride(urgencia, tipoCarga, distKm, disponibilidade) ==>
                  res.escolha == VEHICLES[MaskedChoice(q, tipoCarga)] && res.qvals == q)
            && res.distanciaKm == ToFixed2(distKm)
            && res.tempoEstimadoMin == TempoEstimadoMin(res.escolha, distKm)
            && res.precoEstimado == AplicarPricing(ComputeCost(res.escolha, distKm, ServiceBaseCosts(row), urgencia,
                                                               tipoCarga, Some(disponibilidade)), urgencia, 0.0)
    ensures res.escolha in VEHICLES && res.precoEstimado >= MIN_PRICE
  {
    var tipoCarga := if req.tipoCarga.Some? then req.tipoCarga.value else "pequena";
    var urgencia := req.urgencia.Some? && req.urgencia.value;

    // 1) distance
    var distKm := ResolveDistance(req.distancia, avgRoute, draw);

    // 2) state
    var disponibilidade := NormalizarDisponibilidadeCSV(row.veiculos);
    var state := BuildState(distKm, urgencia, tipoCarga, Some(disponibilidade));

    // 3) policy, then the override
    var actionIndex, vehicle, qvals := EscolherMelhorAcao(predict(state), tipoCarga);
    var bikeIndex := 1;
    assert VEHICLES[bikeIndex] == "bike";
    if !urgencia && tipoCarga == "pequena" && distKm <= 5.0 && OrZero(disponibilidade.bikes) > 0 {
      actionIndex := bikeIndex;
      vehicle := "bike";
      var maxQ := MaxScore(qvals);
      qvals := qvals[bikeIndex := PlusOne(maxQ)];
    }

    // 4) cost, time and price
    var baseCosts := ServiceBaseCosts(row);
    var custo := ComputeCost(vehicle, distKm, baseCosts, urgencia, tipoCarga, Some(disponibilidade));
    var precoEstimado := AplicarPricing(custo, urgencia, 0.0);
    ToFixed2OfCents(precoEstimado);
    res := RouteResult(req.origem, req.destino, tipoCarga, urgencia, vehicle, ToFixed2(distKm),
                       TempoEstimadoMin(vehicle, distKm), ToFixed2(precoEstimado), qvals, "DQN");
  }

  /** Under the override the bike's reported Q-value beats every other reported one. */
  lemma OverrideMakesBikeBest(q: QScores)
    requires q[0].Fin? || q[1].Fin? || q[2].Fin? || q[3].Fin?
    ensures var r := q[1 := PlusOne(MaxScore(q))];
            forall j :: 0 <= j < N_ACTIONS && j != 1 ==> Above(r[1], r[j])
  {
    var m := MaxScore(q);
    assert !AllNegInf(q) by {
      if q[0].Fin? { assert q[0] != NegInf; }
      else if q[1].Fin? { assert q[1] != NegInf; }
      else if q[2].Fin? { assert q[2] != NegInf; }
      else { assert q[3] != NegInf; }
    }
    MaxScoreIsFirstMax(q);
    forall j | 0 <= j < N_ACTIONS && j != 1
      ensures Above(PlusOne(m), q[j])
    {
      MaxScoreBounds(q, j);
    }
  }

  /** Large cargo never leaves the service as moto or bike while the network gives the van or the
      truck a finite score: the override needs small cargo, and the mask handles the rest. */
  lemma LargeCargoServedByVanOrTruck(q: QScores, distKm: real, disponibilidade: Fleet)
    requires q[2].Fin? || q[3].Fin?
    ensures !BikeOverride(false, "grande", distKm, disponibilidade)
    ensures !BikeOverride(true, "grande", distKm, disponibilidade)
    ensures VEHICLES[MaskedChoice(q, "grande")] in {"van", "caminhao"}
  {
    LargeCargoNeverSmallVehicle(q);
  }
}
