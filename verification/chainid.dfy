/** Chain identifiers: `normalizeChainId` as the provider applies it to the
    argument of `wallet_switchEthereumChain`, the `Number.parseInt` it relies
    on, and the QUANTITY encoding `eth_chainId` answers with (a `0x` prefix,
    lower-case hex digits, no leading zeros, `0x0` for zero). */
module ChainId {
  import opened Values

  /** What `normalizeChainId` hands back: an integer, `NaN`, a thrown
      TypeError, or an input it passes through untouched (undefined, a
      boolean). */
  datatype Normalized =
    | Number(n: int)
    | NotANumber
    | TypeErrorThrown
    | Passthrough(v: Json)

  // ---------------------------------------------------------------- digits

  predicate IsDigit(c: char, radix: nat) {
    if radix == 16 then
      ('0' <= c <= '9') || ('a' <= c <= 'f') || ('A' <= c <= 'F')
    else
      '0' <= c <= '9'
  }

  predicate AllDigits(z: string, radix: nat) {
    forall i :: 0 <= i < |z| ==> IsDigit(z[i], radix)
  }

  function DigitValue(c: char): (d: nat)
    ensures IsDigit(c, 16) ==> d < 16
    ensures IsDigit(c, 10) ==> d < 10
  {
    if '0' <= c <= '9' then (c - '0') as nat
    else if 'a' <= c <= 'f' then (c - 'a') as nat + 10
    else if 'A' <= c <= 'F' then (c - 'A') as nat + 10
    else 0
  }

  /** The number a digit string denotes in `radix`, most significant first. */
  function Numeral(z: string, radix: nat): nat
  {
    if |z| == 0 then 0
    else Numeral(z[..|z| - 1], radix) * radix + DigitValue(z[|z| - 1])
  }

  /** The longest prefix of `w` made of `radix` digits. */
  function DigitPrefix(w: string, radix: nat): (z: string)
    ensures z <= w && AllDigits(z, radix)
    ensures |z| < |w| ==> !IsDigit(w[|z|], radix)
  {
    if |w| > 0 && IsDigit(w[0], radix) then [w[0]] + DigitPrefix(w[1..], radix)
    else []
  }

  // ------------------------------------------------------------ whitespace

  /** The characters ECMAScript's WhiteSpace and LineTerminator productions
      admit, which `trim` and `parseInt` strip. */
  predicate IsSpace(c: char) {
    c == ' ' || c == '\t' || c == '\n' || c == '\r' || c == '\U{000B}' || c == '\U{000C}'
    || c == '\U{00A0}' || c == '\U{1680}' || ('\U{2000}' <= c <= '\U{200A}')
    || c == '\U{2028}' || c == '\U{2029}' || c == '\U{202F}' || c == '\U{205F}'
    || c == '\U{3000}' || c == '\U{FEFF}'
  }

  function TrimStart(s: string): (t: string)
    ensures |t| <= |s| && t == s[|s| - |t|..]
    ensures |t| > 0 ==> !IsSpace(t[0])
  {
    if |s| > 0 && IsSpace(s[0]) then TrimStart(s[1..]) else s
  }

  function TrimEnd(s: string): (t: string)
    ensures |t| <= |s| && t == s[..|t|]
    ensures |t| > 0 ==> !IsSpace(t[|t| - 1])
  {
    if |s| > 0 && IsSpace(s[|s| - 1]) then TrimEnd(s[..|s| - 1]) else s
  }

  /** `String.prototype.trim`. */
  function Trim(s: string): string {
    TrimEnd(TrimStart(s))
  }

  // ------------------------------------------------------------- parseInt

  /** `Number.parseInt(s, radix)` for radix 10 or 16: skip leading white
      space, take an optional sign, drop a `0x`/`0X` prefix when the radix is
      16, then read the longest run of digits; no digits is `NaN` (`None`). */
  function ParseInt(s: string, radix: nat): (r: Option<int>)
    requires radix == 10 || radix == 16
  {
    var t := TrimStart(s);
    if |t| > 0 && (t[0] == '-' || t[0] == '+') then
      match ParseMagnitude(t[1..], radix)
      case None => None
      case Some(m) =>
        var v: int := m;
        Some(if t[0] == '-' then -v else v)
    else
      match ParseMagnitude(t, radix)
      case None => None
      case Some(m) => Some(m)
  }

  /** The unsigned part of `parseInt`: drop a `0x`/`0X` prefix in radix 16,
      then read the longest run of digits. */
  function ParseMagnitude(u: string, radix: nat): Option<nat> {
    var w := if radix == 16 && |u| >= 2 && u[0] == '0' && (u[1] == 'x' || u[1] == 'X') then u[2..] else u;
    var z := DigitPrefix(w, radix);
    if |z| == 0 then None else Some(Numeral(z, radix))
  }

  /** The radix test of `normalizeChainId`: the trimmed string starts with
      lower-case `0x`. */
  predicate HexPrefixed(s: string) {
    var t := Trim(s);
    |t| >= 2 && t[..2] == "0x"
  }

  /** `normalizeChainId`: unwrap `{chainId}` objects (as often as they nest),
      parse strings in the radix their prefix selects, convert big integers
      and return numbers unchanged. */
  function Normalize(v: Json): (r: Normalized)
    ensures v.Num? ==> r == Number(v.n)
    ensures v.BigInt? ==> r == Number(v.i)
    ensures v.Null? ==> r == TypeErrorThrown
    ensures (v.Undefined? || v.Bool?) ==> r == Passthrough(v)
    ensures r.Passthrough? ==> r.v.Undefined? || r.v.Bool?
    ensures (v.Obj? && "chainId" !in v.fields) || v.Arr? ==> r == Passthrough(Undefined)
  {
    match v
    case Obj(fields) => if "chainId" in fields then Normalize(fields["chainId"]) else Passthrough(Undefined)
    case Arr(_) => Passthrough(Undefined)
    case Null => TypeErrorThrown
    case Str(s) =>
      (match ParseInt(s, if HexPrefixed(s) then 16 else 10)
       case Some(n) => Number(n)
       case None => NotANumber)
    case BigInt(i) => Number(i)
    case Num(n) => Number(n)
    case _ => Passthrough(v)
  }

  // ------------------------------------------------------------- encodings

  function HexChar(d: nat): (c: char)
    requires d < 16
    ensures IsDigit(c, 16) && DigitValue(c) == d
    ensures !('A' <= c <= 'F')
  {
    if d < 10 then ('0' as int + d) as char else ('a' as int + d - 10) as char
  }

  function DecChar(d: nat): (c: char)
    requires d < 10
    ensures IsDigit(c, 10) && DigitValue(c) == d
  {
    ('0' as int + d) as char
  }

  /** Lower-case hex digits of `n` without leading zeros. */
  function HexDigits(n: nat): string
    decreases n
  {
    if n < 16 then [HexChar(n)] else HexDigits(n / 16) + [HexChar(n % 16)]
  }

  /** Decimal digits of `n` without leading zeros. */
  function DecDigits(n: nat): string
    decreases n
  {
    if n < 10 then [DecChar(n)] else DecDigits(n / 10) + [DecChar(n % 10)]
  }

  /** `ethers.toQuantity` on a non-negative integer. */
  function Quantity(n: nat): string {
    "0x" + HexDigits(n)
  }

  /** The QUANTITY shape: a `0x` prefix followed by at least one lower-case
      hex digit, and no leading zero unless the value is zero. */
  predicate IsQuantity(q: string) {
    && |q| >= 3 && q[..2] == "0x"
    && AllDigits(q[2..], 16)
    && (forall i :: 2 <= i < |q| ==> !('A' <= q[i] <= 'F'))
    && (q[2] == '0' ==> q == "0x0")
  }

  // --------------------------------------------------------------- lemmas

  /** Appending one digit multiplies by the radix and adds the digit. */
  lemma ValueSnoc(a: string, c: char, radix: nat)
    ensures Numeral(a + [c], radix) == Numeral(a, radix) * radix + DigitValue(c)
  {
    assert (a + [c])[..|a + [c]| - 1] == a;
  }

  /** `HexDigits` produces what a QUANTITY carries after its prefix: at least
      one lower-case hex digit, a leading zero only for zero itself. */
  lemma {:induction false} HexDigitsShape(n: nat)
    ensures |HexDigits(n)| >= 1 && AllDigits(HexDigits(n), 16)
    ensures forall i :: 0 <= i < |HexDigits(n)| ==> !('A' <= HexDigits(n)[i] <= 'F')
    ensures HexDigits(n)[0] == '0' <==> n == 0
    ensures n == 0 ==> HexDigits(n) == "0"
    decreases n
  {
    if n < 16 {
      assert DigitValue('0') == 0;
      assert DigitValue(HexChar(n)) == n;
      assert n == 0 ==> HexChar(n) == '0';
    } else {
      HexDigitsShape(n / 16);
      var a, c := HexDigits(n / 16), HexChar(n % 16);
      assert HexDigits(n) == a + [c];
      assert (a + [c])[0] == a[0];
      forall i | 0 <= i < |a + [c]|
        ensures IsDigit((a + [c])[i], 16) && !('A' <= (a + [c])[i] <= 'F')
      {
        if i < |a| { assert (a + [c])[i] == a[i]; }
      }
    }
  }

  /** `Quantity` always yields a well-formed QUANTITY. */
  lemma QuantityWellFormed(n: nat)
    ensures IsQuantity(Quantity(n))
    ensures Quantity(n) == "0x0" <==> n == 0
  {
    HexDigitsShape(n);
    var q := Quantity(n);
    assert q[2..] == HexDigits(n);
    forall i | 2 <= i < |q| ensures !('A' <= q[i] <= 'F') {
      assert q[i] == HexDigits(n)[i - 2];
    }
    if n != 0 {
      assert q[2] == HexDigits(n)[0];
    }
  }

  /** Reading back the hex digits of `n` gives `n`. */
  lemma {:induction false} HexDigitsValue(n: nat)
    ensures Numeral(HexDigits(n), 16) == n
    decreases n
  {
    if n < 16 {
      ValueSnoc([], HexChar(n), 16);
      assert [] + [HexChar(n)] == [HexChar(n)];
    } else {
      HexDigitsValue(n / 16);
      ValueSnoc(HexDigits(n / 16), HexChar(n % 16), 16);
    }
  }

  /** Reading back the decimal digits of `n` gives `n`; they are all digits. */
  lemma {:induction false} DecDigitsValue(n: nat)
    ensures |DecDigits(n)| >= 1 && AllDigits(DecDigits(n), 10)
    ensures Numeral(DecDigits(n), 10) == n
    decreases n
  {
    if n < 10 {
      ValueSnoc([], DecChar(n), 10);
      assert [] + [DecChar(n)] == [DecChar(n)];
    } else {
      DecDigitsValue(n / 10);
      var a, c := DecDigits(n / 10), DecChar(n % 10);
      ValueSnoc(a, c, 10);
      forall i | 0 <= i < |a + [c]| ensures IsDigit((a + [c])[i], 10) {
        if i < |a| { assert (a + [c])[i] == a[i]; }
      }
    }
  }

  /** On a string made only of digits, the digit run is the whole string. */
  lemma {:induction false} DigitPrefixOfDigits(z: string, radix: nat)
    requires AllDigits(z, radix)
    ensures DigitPrefix(z, radix) == z
    decreases |z|
  {
    if |z| > 0 {
      assert AllDigits(z[1..], radix) by {
        forall i | 0 <= i < |z[1..]| ensures IsDigit(z[1..][i], radix) {
          assert z[1..][i] == z[i + 1];
        }
      }
      DigitPrefixOfDigits(z[1..], radix);
      assert [z[0]] + z[1..] == z;
    }
  }

  /** A string without white space at either end is left alone by `trim`. */
  lemma TrimUnpadded(s: string)
    requires |s| > 0 && !IsSpace(s[0]) && !IsSpace(s[|s| - 1])
    ensures TrimStart(s) == s && Trim(s) == s
  {
  }

  /** Without leading white space or a sign, `parseInt` is its unsigned part. */
  lemma ParseUnsigned(s: string, radix: nat)
    requires radix == 10 || radix == 16
    requires |s| > 0 && !IsSpace(s[0]) && s[0] != '-' && s[0] != '+'
    ensures ParseMagnitude(s, radix).Some? ==> ParseInt(s, radix) == Some(ParseMagnitude(s, radix).value as int)
  {
    assert TrimStart(s) == s;
  }

  /** `parseInt` in radix 16 reads a `0x`-prefixed digit string whole. */
  lemma ParseHexDigits(ds: string)
    requires |ds| > 0 && AllDigits(ds, 16)
    ensures ParseInt("0x" + ds, 16) == Some(Numeral(ds, 16) as int)
  {
    var s := "0x" + ds;
    assert s[0] == '0' && s[1] == 'x' && s[2..] == ds;
    DigitPrefixOfDigits(ds, 16);
    assert ParseMagnitude(s, 16) == Some(Numeral(ds, 16));
    assert !IsSpace('0');
    ParseUnsigned(s, 16);
  }

  /** `parseInt` in radix 10 reads a decimal digit string whole. */
  lemma ParseDecDigits(ds: string)
    requires |ds| > 0 && AllDigits(ds, 10)
    ensures ParseInt(ds, 10) == Some(Numeral(ds, 10) as int)
  {
    assert '0' <= ds[0] <= '9';
    assert ds[0] != '-' && ds[0] != '+' && !IsSpace(ds[0]);
    DigitPrefixOfDigits(ds, 10);
    assert ParseMagnitude(ds, 10) == Some(Numeral(ds, 10));
    ParseUnsigned(ds, 10);
  }

  /** A `0x`-prefixed hex string, whatever its case or leading zeros,
      normalises to the number its digits denote. */
  lemma HexStringNormalizes(ds: string)
    requires |ds| > 0 && AllDigits(ds, 16)
    ensures Normalize(Str("0x" + ds)) == Number(Numeral(ds, 16))
  {
    var s := "0x" + ds;
    assert s[0] == '0' && s[1] == 'x';
    assert IsDigit(s[|s| - 1], 16) by { assert s[|s| - 1] == ds[|ds| - 1]; }
    TrimUnpadded(s);
    assert HexPrefixed(s);
    ParseHexDigits(ds);
  }

  /** A decimal digit string normalises to the number it denotes. */
  lemma DecStringNormalizes(ds: string)
    requires |ds| > 0 && AllDigits(ds, 10)
    ensures Normalize(Str(ds)) == Number(Numeral(ds, 10))
  {
    assert IsDigit(ds[0], 10) && IsDigit(ds[|ds| - 1], 10);
    TrimUnpadded(ds);
    assert !HexPrefixed(ds) by {
      if |ds| >= 2 {
        assert IsDigit(ds[1], 10) && ds[..2][1] == ds[1];
      }
    }
    ParseDecDigits(ds);
    assert ParseInt(ds, 10) == Some(Numeral(ds, 10) as int);
  }

  /** `parseInt` keeps a leading minus sign. */
  lemma ParseSigned(s: string, radix: nat)
    requires radix == 10 || radix == 16
    requires |s| > 0 && s[0] == '-' && ParseMagnitude(s[1..], radix).Some?
    ensures ParseInt(s, radix) == Some(-(ParseMagnitude(s[1..], radix).value as int))
  {
    assert !IsSpace(s[0]);
    assert TrimStart(s) == s;
  }

  /** On `-` followed by decimal digits, `parseInt` gives the negated value. */
  lemma ParseNegativeDecimal(s: string)
    requires |s| > 1 && s[0] == '-' && AllDigits(s[1..], 10)
    ensures ParseInt(s, 10) == Some(-(Numeral(s[1..], 10) as int))
  {
    MagnitudeOfDigits(s[1..], 10);
    ParseSigned(s, 10);
  }

  /** The unsigned part of `parseInt` reads a decimal digit string whole. */
  lemma MagnitudeOfDigits(ds: string, radix: nat)
    requires radix == 10 && |ds| > 0 && AllDigits(ds, radix)
    ensures ParseMagnitude(ds, radix) == Some(Numeral(ds, radix))
  {
    DigitPrefixOfDigits(ds, radix);
  }

  /** A minus sign before a decimal digit string negates it, so `"-5"`
      normalises to -5, not to 5. */
  lemma NegativeDecimalNormalizes(s: string)
    requires |s| > 1 && s[0] == '-' && AllDigits(s[1..], 10)
    ensures Normalize(Str(s)) == Number(-(Numeral(s[1..], 10) as int))
  {
    assert IsDigit(s[|s| - 1], 10) by { assert s[|s| - 1] == s[1..][|s| - 2]; }
    TrimUnpadded(s);
    assert !HexPrefixed(s) by { assert s[..2][0] == '-'; }
    ParseNegativeDecimal(s);
  }

  /** A `{chainId: x}` wrapper normalises exactly like `x`, whatever `x` is,
      so wrappers unwrap at any depth. */
  lemma WrappedNormalizesLikeInner(x: Json)
    ensures Normalize(Record("chainId", x)) == Normalize(x)
    ensures Normalize(Record("chainId", Record("chainId", x))) == Normalize(x)
  {
  }

  /** A string that starts with neither white space, a sign, nor a decimal
      digit (a network name such as "mainnet", say) is `NaN`. */
  lemma NoLeadingDigitIsNaN(s: string)
    requires |s| > 0 && !IsSpace(s[0]) && s[0] != '-' && s[0] != '+' && !IsDigit(s[0], 10)
    ensures Normalize(Str(s)) == NotANumber
  {
    assert TrimStart(s) == s;
    assert !HexPrefixed(s) by {
      var t := Trim(s);
      assert t == TrimEnd(s) && (|t| > 0 ==> t[0] == s[0]);
      if |t| >= 2 { assert t[..2][0] == s[0]; }
    }
    assert DigitPrefix(s, 10) == [];
    assert ParseMagnitude(s, 10) == None;
  }

  /** Every way of writing a non-negative chain id that `normalizeChainId`
      accepts — its QUANTITY, its decimal string, the number itself, a big
      integer, or any of these wrapped as `{chainId: ...}` — normalises to it. */
  lemma NormalizeRoundTrip(n: nat)
    ensures Normalize(Str(Quantity(n))) == Number(n)
    ensures Normalize(Str(DecDigits(n))) == Number(n)
    ensures Normalize(Num(n)) == Number(n) && Normalize(BigInt(n)) == Number(n)
    ensures Normalize(Record("chainId", Str(Quantity(n)))) == Number(n)
    ensures Normalize(Record("chainId", Str(DecDigits(n)))) == Number(n)
  {
    QuantityNormalizes(n);
    DecimalNormalizes(n);
    assert Get(Record("chainId", Str(Quantity(n))), "chainId") == Str(Quantity(n));
    assert Get(Record("chainId", Str(DecDigits(n))), "chainId") == Str(DecDigits(n));
  }

  /** The QUANTITY half of the round trip. */
  lemma QuantityNormalizes(n: nat)
    ensures Normalize(Str(Quantity(n))) == Number(n)
  {
    HexDigitsShape(n);
    HexDigitsValue(n);
    HexStringNormalizes(HexDigits(n));
  }

  /** The decimal-string half of the round trip. */
  lemma DecimalNormalizes(n: nat)
    ensures Normalize(Str(DecDigits(n))) == Number(n)
  {
    DecDigitsValue(n);
    DecStringNormalizes(DecDigits(n));
  }
}
