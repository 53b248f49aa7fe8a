/** Printing integers (genint, putint, putstr in lib/printfmt.c) and reading them back (strtol in lib/string.c), in
    64-bit arithmetic. */
module Numbers {

  const LIMIT: nat := 0x1_0000_0000_0000_0000
  const HALF: int := 0x8000_0000_0000_0000
  const BUFSIZE: nat := 30

  /** "0123456789abcdef"[d] */
  function Digit(d: nat): (c: char)
    requires d < 16
  {
    "0123456789abcdef"[d]
  }

  /** The value strtol gives to a character, 99 if it ends the number. */
  function Value(c: char): nat
  {
    if '0' <= c <= '9' then (c as int - '0' as int)
    else if 'a' <= c <= 'z' then (c as int - 'a' as int) + 10
    else if 'A' <= c <= 'Z' then (c as int - 'A' as int) + 10
    else 99
  }

  lemma DigitValue(d: nat)
    requires d < 16
    ensures Value(Digit(d)) == d && Digit(d) != ' ' && Digit(d) != '\t' && Digit(d) != '-' && Digit(d) != '+'
    ensures Digit(d) != 'x' && (Digit(d) == '0' <==> d == 0)
  {
  }

  /* ---------- printing ---------- */

  /** The text genint writes: an optional sign, then the digits, most significant first. */
  function Text(num: nat, base: nat, sign: string): (s: string)
    requires 2 <= base <= 16
  {
    (if num >= base then Text(num / base, base, sign) else sign) + [Digit(num % base)]
  }

  lemma TextDef(num: nat, base: nat, sign: string)
    requires 2 <= base <= 16
    ensures num >= base ==> num / base < num && Text(num, base, sign) == Text(num / base, base, sign) + [Digit(num % base)]
    ensures num < base ==> Text(num, base, sign) == sign + [Digit(num)] && num % base == num
  {
    if num >= base { Smaller(num, base); } else { Same(num, base); }
  }

  lemma Smaller(num: nat, base: nat)
    requires 2 <= base <= num
    ensures num / base < num
  {
    var q := num / base;
    assert num >= base * q >= 2 * q;
  }

  lemma Same(num: nat, base: nat)
    requires num < base
    ensures num % base == num
  {
  }

  /** genint, writing into buf from position p on. */
  method Genint(buf: array<char>, p: nat, num: nat, base: nat, sign: string) returns (q: nat)
    requires 2 <= base <= 16 && |sign| <= 1 && p + |Text(num, base, sign)| <= buf.Length
    modifies buf
    ensures q == p + |Text(num, base, sign)| && buf[..q] == old(buf[..p]) + Text(num, base, sign)
    decreases num
  {
    q := p;
    TextDef(num, base, sign);
    if num >= base {
      q := Genint(buf, p, num / base, base, sign);
    } else if |sign| > 0 {
      q := Put(buf, q, sign[0]);
      assert sign == [sign[0]];
    }
    q := Put(buf, q, Digit(num % base));
  }

  /** *p++ = c */
  method Put(buf: array<char>, p: nat, c: char) returns (q: nat)
    requires p < buf.Length
    modifies buf
    ensures q == p + 1 && buf[..q] == old(buf[..p]) + [c]
  {
    buf[p] := c;
    q := p + 1;
  }

  /** A number below 8^n has at most n digits in any base from 8 on. */
  lemma {:induction false} TextLength(num: nat, base: nat, sign: string, n: nat)
    requires 8 <= base <= 16 && n >= 1 && num < Pow8(n)
    ensures |Text(num, base, sign)| <= |sign| + n
    decreases n
  {
    if num >= base {
      assert num / base <= num / 8 < Pow8(n - 1) by { Quotient(num, base); }
      TextLength(num / base, base, sign, n - 1);
    }
  }

  lemma Quotient(num: nat, base: nat)
    requires base >= 8
    ensures num / base <= num / 8
  {
    var q := num / base;
    assert num >= base * q >= 8 * q;
  }

  function Pow8(n: nat): nat { if n == 0 then 1 else 8 * Pow8(n - 1) }

  lemma {:induction false} Pow8Sum(a: nat, b: nat)
    ensures Pow8(a + b) == Pow8(a) * Pow8(b)
  {
    if a > 0 {
      Pow8Sum(a - 1, b);
      Assoc(Pow8(a - 1), Pow8(b));
    }
  }

  lemma Assoc(p: nat, q: nat)
    ensures 8 * (p * q) == (8 * p) * q
  {
  }

  /** No 64-bit number with a sign overruns the buffer. */
  lemma BufferFits(num: nat, base: nat, sign: string)
    requires num < LIMIT && 8 <= base <= 16 && |sign| <= 1
    ensures |Text(num, base, sign)| <= 23 < BUFSIZE
  {
    Pow8Sum(11, 11);
    Pow8Sum(5, 6);
    assert Pow8(5) == 32768 && Pow8(6) == 262144;
    TextLength(num, base, sign, 22);
  }

  function Blanks(n: int): (s: string)
    ensures |s| == if n > 0 then n else 0
    ensures forall i :: 0 <= i < |s| ==> s[i] == ' '
  {
    if n <= 0 then "" else [' '] + Blanks(n - 1)
  }

  /** What putint prints, padded with blanks on the left or (F_RPAD) on the right. */
  function Printed(num: nat, base: nat, sign: string, width: int, rpad: bool): string
    requires 2 <= base <= 16
  {
    var t := Text(num, base, sign);
    if rpad then t + Blanks(width - |t|) else Blanks(width - |t|) + t
  }

  /** putpad: pad up to the field width, which is used up afterwards. */
  method Putpad(out: string, width: int) returns (out': string, width': int)
    ensures out' == out + Blanks(width) && width' < 0
  {
    out', width' := out, width - 1;
    ghost var k := 0;
    while width' >= 0
      invariant width' == width - 1 - k && k >= 0 && (k > 0 ==> k <= width) && out' == out + Blanks(k)
      decreases width'
    {
      BlanksMore(k);
      out' := out' + [' '];
      width' := width' - 1;
      k := k + 1;
    }
  }

  lemma {:induction false} BlanksMore(k: nat)
    ensures Blanks(k + 1) == Blanks(k) + [' ']
  {
    if k > 0 { BlanksMore(k - 1); }
  }

  /** putint with putstr: out is what putch has received. */
  method Putint(out: string, num: nat, base: nat, sign: string, width: int, rpad: bool) returns (out': string)
    requires num < LIMIT && 8 <= base <= 16 && |sign| <= 1
    ensures out' == out + Printed(num, base, sign, width, rpad)
  {
    BufferFits(num, base, sign);
    var buf := new char[BUFSIZE];
    var p := Genint(buf, 0, num, base, sign);
    var w := width - p;
    out' := out;
    if !rpad {
      out', w := Putpad(out', w);
    }
    var k := 0;
    ghost var before := out';
    while k < p
      invariant k <= p && out' == before + buf[..k]
    {
      out' := out' + [buf[k]];
      k := k + 1;
    }
    out', w := Putpad(out', w);
  }

  /* ---------- reading ---------- */

  /** Character i of a terminated string. */
  function Char(s: string, i: nat): char { if i < |s| then s[i] else 0 as char }

  predicate IsDigit(s: string, i: nat, base: nat) { Value(Char(s, i)) < base }

  /** The value of a long that holds x. */
  function Long(x: int): (v: int)
    ensures -HALF <= v < HALF && (-HALF <= x < HALF ==> v == x)
  {
    (x + HALF) % LIMIT - HALF
  }

  /** strtol: the value, and where the number ends. */
  method Strtol(s: string, base0: nat) returns (val: int, end: nat)
    requires base0 == 0 || 2 <= base0 <= 36
    ensures (val, end) == Parse(s, base0)
  {
    var neg, i: nat := false, 0;
    while Char(s, i) == ' ' || Char(s, i) == '\t'
      invariant i <= |s| && SkipBlanks(s, i) == SkipBlanks(s, 0)
      decreases |s| - i
    {
      i := i + 1;
    }
    if Char(s, i) == '+' {
      i := i + 1;
    } else if Char(s, i) == '-' {
      i, neg := i + 1, true;
    }
    var base := base0;
    if (base == 0 || base == 16) && Char(s, i) == '0' && Char(s, i + 1) == 'x' {
      i, base := i + 2, 16;
    } else if base == 0 && Char(s, i) == '0' {
      i, base := i + 1, 8;
    } else if base == 0 {
      base := 10;
    }
    val, end := StrtolDigits(s, i, base);
    if neg { val := Long(-val); }
  }

  /** The digits loop of strtol. */
  method StrtolDigits(s: string, start: nat, base: nat) returns (val: int, end: nat)
    requires base <= 36
    ensures (val, end) == LongDigits(s, start, base, 0)
  {
    val, end := 0, start;
    while IsDigit(s, end, base)
      invariant start <= end && LongDigits(s, start, base, 0) == LongDigits(s, end, base, val)
      decreases |s| - end
    {
      var dig := Value(Char(s, end));
      end, val := end + 1, Long(val * base + dig);
    }
  }

  function SkipBlanks(s: string, i: nat): (k: nat)
    decreases |s| - i
  {
    if i < |s| && (s[i] == ' ' || s[i] == '\t') then SkipBlanks(s, i + 1) else i
  }

  /** The digits of the base from position i on, after val has been read. */
  function Digits(s: string, i: nat, base: nat, val: int): (int, nat)
    requires base <= 36
    decreases |s| - i
  {
    if i < |s| && Value(s[i]) < base then Digits(s, i + 1, base, val * base + Value(s[i])) else (val, i)
  }

  /** The same in 64-bit arithmetic, which wraps around. */
  function LongDigits(s: string, i: nat, base: nat, val: int): (int, nat)
    requires base <= 36
    decreases |s| - i
  {
    if i < |s| && Value(s[i]) < base then LongDigits(s, i + 1, base, Long(val * base + Value(s[i]))) else (val, i)
  }

  lemma LongOf(x: int, k: int)
    ensures Long(x + LIMIT * k) == Long(x)
  {
  }

  /** One more digit: it makes no difference whether what stands before has wrapped around already. */
  lemma LongStep(val: int, base: nat, d: nat)
    ensures Long(Long(val) * base + d) == Long(val * base + d)
  {
    hide Long;
    var k := LongApart(val);
    Distribute(val, k, base);
    LongOf(val * base + d, k * base);
  }

  lemma LongApart(val: int) returns (k: int)
    ensures Long(val) == val + LIMIT * k
  {
    k := -((val + HALF) / LIMIT);
  }

  lemma Distribute(val: int, k: int, base: int)
    ensures (val + LIMIT * k) * base == val * base + LIMIT * (k * base)
  {
  }

  lemma LongNegated(x: int)
    ensures Long(-Long(x)) == Long(-x)
  {
  }

  /** Wrapping around on the way is wrapping around at the end. */
  lemma {:induction false} WrapsOnce(s: string, i: nat, base: nat, val: int)
    requires base <= 36
    ensures LongDigits(s, i, base, Long(val)) == (Long(Digits(s, i, base, val).0), Digits(s, i, base, val).1)
    decreases |s| - i
  {
    hide Long;
    if i < |s| && Value(s[i]) < base {
      LongStep(val, base, Value(s[i]));
      WrapsOnce(s, i + 1, base, val * base + Value(s[i]));
    }
  }

  lemma LongRead(s: string, i: nat, base: nat, num: int)
    requires base <= 36 && Digits(s, i, base, 0).0 == num
    ensures LongDigits(s, i, base, 0).0 == Long(num) && Long(-LongDigits(s, i, base, 0).0) == Long(-num)
  {
    WrapsOnce(s, i, base, 0);
    LongNegated(num);
  }

  function Parse(s: string, base0: nat): (int, nat)
    requires base0 == 0 || 2 <= base0 <= 36
  {
    var i := SkipBlanks(s, 0);
    var neg := Char(s, i) == '-';
    var j := if Char(s, i) == '+' || neg then i + 1 else i;
    var hex := (base0 == 0 || base0 == 16) && Char(s, j) == '0' && Char(s, j + 1) == 'x';
    var base := if hex then 16 else if base0 != 0 then base0 else if Char(s, j) == '0' then 8 else 10;
    var k := if hex then j + 2 else if base0 == 0 && Char(s, j) == '0' then j + 1 else j;
    var r := LongDigits(s, k, base, 0);
    (if neg then Long(-r.0) else r.0, r.1)
  }

  /* ---------- reading what was printed ---------- */

  /** The digits of num continue any number read so far. */
  lemma {:induction false} ReadText(pre: string, num: nat, base: nat, post: string, val: int)
    requires 2 <= base <= 16
    ensures Digits(pre + Text(num, base, "") + post, |pre|, base, val)
         == Digits(pre + Text(num, base, "") + post, |pre| + |Text(num, base, "")|, base, val * Scale(num, base) + num)
    decreases num
  {
    hide Digits, Digit, Value, Text, Scale;
    var d := Digit(num % base);
    DigitValue(num % base);
    TextDef(num, base, "");
    if num >= base {
      var t, q, r := Text(num / base, base, ""), num / base, num % base;
      ReadText(pre, q, base, [d] + post, val);
      Regroup(pre, t, [d], post);
      DigitStep(pre + t + ([d] + post), |pre| + |t|, base, val * Scale(q, base) + q, d);
      ScaleDef(num, base);
      ReadValue(val, Scale(q, base), q, base, r, num);
    } else {
      ScaleDef(num, base);
      assert Text(num, base, "") == [d];
      DigitStep(pre + [d] + post, |pre|, base, val, d);
    }
  }

  lemma ScaleDef(num: nat, base: nat)
    requires base >= 2
    ensures Scale(num, base) == if num >= base then Scale(num / base, base) * base else base
  {
  }

  lemma ReadValue(val: int, p: nat, q: nat, base: nat, r: nat, num: nat)
    requires base >= 2 && q == num / base && r == num % base
    ensures (val * p + q) * base + r == val * (p * base) + num
  {
    Shift(val, p, q, base, r);
    Euclid(num, base);
  }

  lemma Regroup(a: string, b: string, c: string, d: string)
    ensures a + (b + c) + d == a + b + (c + d)
  {
  }

  lemma Euclid(n: nat, b: nat)
    requires b > 0
    ensures n == n / b * b + n % b
  {
  }

  lemma DigitStep(s: string, i: nat, base: nat, val: int, d: char)
    requires i < |s| && s[i] == d && Value(d) < base <= 36
    ensures Digits(s, i, base, val) == Digits(s, i + 1, base, val * base + Value(d))
  {
  }

  /** The power of the base by which the digits of num move what stands before them. */
  function Scale(num: nat, base: nat): nat
    requires base >= 2
  {
    if num >= base then Scale(num / base, base) * base else base
  }

  lemma Shift(val: int, p: nat, q: nat, base: nat, r: nat)
    ensures (val * p + q) * base + r == val * (p * base) + (q * base + r)
  {
  }

  lemma {:induction false} TextSign(num: nat, base: nat, sign: string)
    requires 2 <= base <= 16
    ensures Text(num, base, sign) == sign + Text(num, base, "")
    decreases num
  {
    hide Text;
    TextDef(num, base, sign);
    TextDef(num, base, "");
    if num >= base {
      TextSign(num / base, base, sign);
      assert sign + Text(num / base, base, "") + [Digit(num % base)] == sign + (Text(num / base, base, "") + [Digit(num % base)]);
    }
  }

  predicate Plain(t: string)
  {
    && |t| > 0 && t[0] != ' ' && t[0] != '\t' && t[0] != '-' && t[0] != '+' && (|t| > 1 ==> t[1] != 'x')
  }

  /** The first digit of a number, and what follows it, never look like the 0x prefix, a blank or a sign. */
  lemma {:induction false} TextStart(num: nat, base: nat)
    requires 2 <= base <= 16
    ensures Plain(Text(num, base, ""))
    decreases num
  {
    DigitValue(num % base);
    if num >= base { TextStart(num / base, base); }
  }

  lemma {:induction false} SkipOver(n: int, rest: string, i: nat)
    requires i <= |Blanks(n)| && (rest == "" || (rest[0] != ' ' && rest[0] != '\t'))
    ensures SkipBlanks(Blanks(n) + rest, i) == |Blanks(n)|
    decreases |Blanks(n)| - i
  {
    var s := Blanks(n) + rest;
    if i < |Blanks(n)| {
      assert s[i] == ' ';
      SkipOver(n, rest, i + 1);
    } else if rest != "" {
      assert s[i] == rest[0];
    }
  }

  function Abs(x: int): nat { if x < 0 then -x else x }

  /** The field: as wide as asked, or as long as the number, which stands on the right, or on the left if so flagged; the rest is
      blank. */
  lemma {:induction false} Field(num: nat, base: nat, sign: string, width: int, rpad: bool)
    requires 2 <= base <= 16
    ensures var t, f := Text(num, base, sign), Printed(num, base, sign, width, rpad);
      && |f| == (if width > |t| then width else |t|)
      && (if rpad then f[..|t|] == t && AllSpaces(f[|t|..]) else f[|f| - |t|..] == t && AllSpaces(f[..|f| - |t|]))
  {
    var t := Text(num, base, sign);
    BlanksAre(width - |t|);
    var f, b := Printed(num, base, sign, width, rpad), Blanks(width - |t|);
    assert if rpad then f[|t|..] == b else f[..|f| - |t|] == b;
  }

  predicate AllSpaces(s: string) { forall i :: 0 <= i < |s| ==> s[i] == ' ' }

  lemma {:induction false} BlanksAre(n: int)
    ensures |Blanks(n)| == (if n > 0 then n else 0) && AllSpaces(Blanks(n))
    decreases n
  {
    if n > 0 { BlanksAre(n - 1); }
  }

  /** The digits of a number, up to the padding. */
  lemma ReadDigits(pre: string, num: nat, base: nat, post: string)
    requires 2 <= base <= 16 && forall k :: 0 <= k < |post| ==> post[k] == ' '
    ensures Digits(pre + Text(num, base, "") + post, |pre|, base, 0).0 == num
  {
    hide Digits, Text;
    var u := Text(num, base, "");
    ReadText(pre, num, base, post, 0);
    DigitsEnd(pre + u + post, |pre| + |u|, base, num, post);
  }

  /** Reading back what was printed for a sign and an absolute value gives the long that holds the number. */
  lemma ReadPrinted(num: nat, sign: string, base: nat, width: int, rpad: bool)
    requires 2 <= base <= 16 && (sign == "" || sign == "-")
    ensures Parse(Printed(num, base, sign, width, rpad), base).0 == Long(if sign == "-" then 0 - num else num)
  {
    hide Parse, Digits, LongDigits, SkipBlanks, Text, Plain, Long;
    var t, u := Text(num, base, sign), Text(num, base, "");
    TextSign(num, base, sign);
    TextStart(num, base);
    var pads := Blanks(width - |t|);
    var pre := if rpad then "" else pads;
    var post := if rpad then pads else "";
    NoPad(pads, sign + u, rpad);
    PlainStart(sign, u, post);
    SkipPre(width - |t|, rpad, sign + u + post);
    ReadBack(pre, num, sign, base, post);
  }

  lemma ReadBack(pre: string, num: nat, sign: string, base: nat, post: string)
    requires 2 <= base <= 16 && (sign == "" || sign == "-") && forall k :: 0 <= k < |post| ==> post[k] == ' '
    requires Plain(Text(num, base, "")) && SkipBlanks(pre + (sign + Text(num, base, "") + post), 0) == |pre|
    ensures Parse(pre + (sign + Text(num, base, "") + post), base).0 == Long(if sign == "-" then 0 - num else num)
  {
    hide Parse, Digits, LongDigits, SkipBlanks, Text, Plain, Long;
    var u := Text(num, base, "");
    var s := pre + (sign + u + post);
    Regroup3(pre, sign, u, post);
    ReadDigits(pre + sign, num, base, post);
    LongRead(s, |pre + sign|, base, num);
    ParseIs(s, |pre|, sign, u, post, base);
  }

  /** Reading back a printed number, in its base, gives the number, for every long, width and either padding. */
  lemma RoundTrip(x: int, base: nat, width: int, rpad: bool)
    requires 2 <= base <= 16 && -HALF <= x < HALF
    ensures Parse(Printed(Abs(x), base, if x < 0 then "-" else "", width, rpad), base).0 == x
  {
    hide Parse, Printed;
    ReadPrinted(Abs(x), if x < 0 then "-" else "", base, width, rpad);
  }

  lemma Regroup3(a: string, b: string, c: string, d: string)
    ensures a + b + c + d == a + (b + c + d)
    ensures (a + (b + c + d))[|a + b| + |c|..] == d && (a + (b + c + d))[|a|..] == b + c + d
  {
  }

  /** Where Parse starts reading digits. */
  lemma ParseIs(s: string, n: nat, sign: string, u: string, post: string, base: nat)
    requires 2 <= base <= 16 && n + |sign + u + post| == |s| && s[n..] == sign + u + post && SkipBlanks(s, 0) == n
    requires (sign == "" || sign == "-") && Plain(u) && (forall k :: 0 <= k < |post| ==> post[k] == ' ')
    ensures Parse(s, base) == var r := LongDigits(s, n + |sign|, base, 0); (if sign == "-" then Long(-r.0) else r.0, r.1)
  {
    hide LongDigits, SkipBlanks, Value;
    var w := sign + u + post;
    assert forall k :: 0 <= k < |w| ==> Char(s, n + k) == w[k] by {
      forall k | 0 <= k < |w| ensures Char(s, n + k) == w[k] { assert s[n..][k] == s[n + k]; }
    }
    var j := n + |sign|;
    assert Char(s, j) == w[|sign|] == u[0];
    assert Char(s, j + 1) != 'x' by {
      if |u| > 1 { assert Char(s, j + 1) == w[|sign| + 1] == u[1]; }
      else if |post| > 0 { assert Char(s, j + 1) == w[|sign| + 1] == post[0]; }
    }
    if sign == "-" { assert Char(s, n) == w[0] == '-'; }
  }

  lemma NoPad(pads: string, t: string, rpad: bool)
    ensures (if rpad then "" else pads) + (t + (if rpad then pads else "")) == if rpad then t + pads else pads + t
  {
  }

  lemma PlainStart(sign: string, u: string, post: string)
    requires (sign == "" || sign == "-") && Plain(u)
    ensures var w := sign + u + post; w != "" && w[0] != ' ' && w[0] != '\t'
  {
  }

  lemma SkipPre(n: int, rpad: bool, rest: string)
    requires rest != "" && rest[0] != ' ' && rest[0] != '\t'
    ensures var pre := if rpad then "" else Blanks(n); SkipBlanks(pre + rest, 0) == |pre|
  {
    if !rpad { SkipOver(n, rest, 0); }
  }

  /** The number ends at the padding or at the end of the string. */
  lemma DigitsEnd(s: string, i: nat, base: nat, val: int, post: string)
    requires i <= |s| && s[i..] == post && base <= 36 && forall k :: 0 <= k < |post| ==> post[k] == ' '
    ensures Digits(s, i, base, val) == (val, i)
  {
    if i < |s| { assert s[i] == post[0]; }
  }

  /* ---------- which numerals strtol reads ---------- */

  predicate IsBlank(c: char) { c == ' ' || c == '\t' }
  predicate AllBlank(t: string) { forall i :: 0 <= i < |t| ==> IsBlank(t[i]) }
  predicate IsNumeral(ds: string, base: nat) { forall i :: 0 <= i < |ds| ==> Value(ds[i]) < base }

  /** The number that digits stand for. */
  function Number(ds: string, base: nat): nat
  {
    if ds == "" then 0 else Number(ds[..|ds| - 1], base) * base + Value(ds[|ds| - 1])
  }

  /** The prefixes, and the base they stand for; what follows must not make it another prefix. */
  predicate PrefixFor(prefix: string, base0: nat, base: nat, after: string)
  {
    || (prefix == "0x" && (base0 == 0 || base0 == 16) && base == 16)
    || (prefix == "0" && base0 == 0 && base == 8 && (after == "" || after[0] != 'x'))
    || (prefix == "" && base == (if base0 == 0 then 10 else base0) && (base0 == 0 ==> after == "" || after[0] != '0')
        && (base0 == 16 ==> |after| < 2 || after[0] != '0' || after[1] != 'x'))
  }

  /** A string taken apart as strtol does: blanks, sign, prefix, digits of the base, and the rest. */
  datatype Numeral = Numeral(blanks: string, sign: string, prefix: string, base: nat, ds: string, rest: string) {
    predicate Ok(base0: nat)
    {
      && AllBlank(blanks) && (sign == "" || sign == "+" || sign == "-")
      && PrefixFor(prefix, base0, base, ds + rest) && IsNumeral(ds, base) && (rest == "" || Value(rest[0]) >= base)
      && (sign == "" ==> var w := prefix + (ds + rest); w == "" || (!IsBlank(w[0]) && w[0] != '+' && w[0] != '-'))
    }
    function Whole(): string { blanks + (sign + (prefix + (ds + rest))) }
    function End(): nat { |blanks| + |sign| + |prefix| + |ds| }
    function Signed(): int { if sign == "-" then 0 - Number(ds, base) else Number(ds, base) }
  }

  lemma {:induction false} SkipAll(blanks: string, w: string, i: nat)
    requires AllBlank(blanks) && i <= |blanks| && (w == "" || !IsBlank(w[0]))
    ensures SkipBlanks(blanks + w, i) == |blanks|
    decreases |blanks| - i
  {
    var s := blanks + w;
    if i < |blanks| {
      assert s[i] == blanks[i];
      SkipAll(blanks, w, i + 1);
    } else if w != "" {
      assert s[i] == w[0];
    }
  }

  lemma {:induction false} DigitsUpTo(pre: string, ds: string, rest: string, base: nat, k: nat)
    requires base <= 36 && IsNumeral(ds, base) && k <= |ds|
    ensures Digits(pre + (ds + rest), |pre|, base, 0) == Digits(pre + (ds + rest), |pre| + k, base, Number(ds[..k], base))
    decreases k
  {
    hide Digits, Value;
    if k > 0 {
      var s, t := pre + (ds + rest), ds[..k];
      DigitsUpTo(pre, ds, rest, base, k - 1);
      assert s[|pre| + (k - 1)] == ds[k - 1] && t[..k - 1] == ds[..k - 1];
      DigitStep(s, |pre| + (k - 1), base, Number(ds[..k - 1], base), ds[k - 1]);
    }
  }

  lemma DigitsAre(pre: string, ds: string, rest: string, base: nat)
    requires base <= 36 && IsNumeral(ds, base) && (rest == "" || Value(rest[0]) >= base)
    ensures Digits(pre + (ds + rest), |pre|, base, 0) == (Number(ds, base), |pre| + |ds|)
  {
    hide Digits, Value, Number, IsNumeral;
    DigitsUpTo(pre, ds, rest, base, |ds|);
    assert ds[..|ds|] == ds;
    DigitsStop(pre + ds, rest, base, Number(ds, base));
    SameTail(pre, ds, rest);
  }

  lemma DigitsStop(pre: string, rest: string, base: nat, val: int)
    requires base <= 36 && (rest == "" || Value(rest[0]) >= base)
    ensures Digits(pre + rest, |pre|, base, val) == (val, |pre|)
  {
    hide Value;
    if rest != "" { assert (pre + rest)[|pre|] == rest[0]; }
  }

  /** The value is that of the digits in the base, with the sign, wrapped around into a long; the number ends behind its digits. */
  lemma ReadsNumeral(n: Numeral, base0: nat)
    requires n.Ok(base0) && (base0 == 0 || 2 <= base0 <= 36)
    ensures Parse(n.Whole(), base0) == (Long(n.Signed()), n.End())
  {
    hide Digits, LongDigits, Long, SkipBlanks, Value, Number, Parse, AllBlank, IsNumeral, PrefixFor;
    var s, pre := n.Whole(), n.blanks + n.sign + n.prefix;
    WhereItStarts(n, base0);
    NumeralParts(n);
    DigitsAre(pre, n.ds, n.rest, n.base);
    LongZero();
    WrapsOnce(s, |pre|, n.base, 0);
    LongNegated(Number(n.ds, n.base));
  }

  lemma NumeralParts(n: Numeral)
    ensures n.Whole() == n.blanks + n.sign + n.prefix + (n.ds + n.rest)
    ensures n.Whole() == n.blanks + (n.sign + (n.prefix + (n.ds + n.rest)))
  {
    var s, after := n.Whole(), n.ds + n.rest;
    SameTail(n.blanks, n.sign, n.prefix + after);
    SameTail(n.blanks + n.sign, n.prefix, after);
  }

  /** Blanks, sign and prefix are recognized. */
  lemma WhereItStarts(n: Numeral, base0: nat)
    requires n.Ok(base0) && (base0 == 0 || 2 <= base0 <= 36)
    ensures 2 <= n.base <= 36
    ensures Parse(n.Whole(), base0) ==
      var r := LongDigits(n.Whole(), |n.blanks + n.sign + n.prefix|, n.base, 0); (if n.sign == "-" then Long(-r.0) else r.0, r.1)
  {
    hide Digits, LongDigits, Long, SkipBlanks, Value, Number, AllBlank, IsNumeral, Char, Parse, PrefixFor, PrefixSeen;
    var s, body, j := n.Whole(), n.prefix + (n.ds + n.rest), |n.blanks| + |n.sign|;
    SignFirst(n.sign, body);
    SkipAll(n.blanks, n.sign + body, 0);
    SameTail(n.blanks, n.sign, body);
    HeadChars(n.blanks + n.sign, n.prefix, n.ds + n.rest, base0, n.base);
    CharPast(n.blanks, n.sign + body);
    ParseFrom(s, |n.blanks|, n.sign, n.prefix, base0, n.base);
  }

  /** What the characters say about the prefix. */
  predicate PrefixSeen(c0: char, c1: char, prefix: string, base0: nat, base: nat)
  {
    var hex := (base0 == 0 || base0 == 16) && c0 == '0' && c1 == 'x';
    && prefix == (if hex then "0x" else if base0 == 0 && c0 == '0' then "0" else "")
    && base == (if hex then 16 else if base0 == 0 then (if c0 == '0' then 8 else 10) else base0)
  }

  lemma ParseFrom(s: string, i: nat, sign: string, prefix: string, base0: nat, base: nat)
    requires (base0 == 0 || 2 <= base0 <= 36) && SkipBlanks(s, 0) == i && (sign == "" || sign == "+" || sign == "-")
    requires (Char(s, i) == '+' <==> sign == "+") && (Char(s, i) == '-' <==> sign == "-")
    requires PrefixSeen(Char(s, i + |sign|), Char(s, i + |sign| + 1), prefix, base0, base)
    ensures 2 <= base <= 36
    ensures Parse(s, base0) == var r := LongDigits(s, i + |sign| + |prefix|, base, 0); (if sign == "-" then Long(-r.0) else r.0, r.1)
  {
    hide LongDigits, Long, SkipBlanks, Char;
  }

  lemma CharPast(a: string, b: string)
    ensures Char(a + b, |a|) == Char(b, 0)
  {
  }

  lemma SignFirst(sign: string, body: string)
    requires sign == "" || sign == "+" || sign == "-"
    requires sign == "" ==> body == "" || (!IsBlank(body[0]) && body[0] != '+' && body[0] != '-')
    ensures sign + body == "" || !IsBlank((sign + body)[0])
    ensures (Char(sign + body, 0) == '+' <==> sign == "+") && (Char(sign + body, 0) == '-' <==> sign == "-")
  {
  }

  lemma LongZero()
    ensures Long(0) == 0
  {
  }

  lemma SameTail(a: string, b: string, c: string)
    ensures a + (b + c) == a + b + c
  {
  }

  /** The characters that decide about the prefix. */
  lemma HeadChars(pre: string, prefix: string, after: string, base0: nat, base: nat)
    requires PrefixFor(prefix, base0, base, after)
    ensures var s, j := pre + (prefix + after), |pre|; PrefixSeen(Char(s, j), Char(s, j + 1), prefix, base0, base)
  {
    var s, j := pre + (prefix + after), |pre|;
    assert prefix == "0" ==> Char(s, j + 1) == Char(after, 0);
    assert prefix == "" ==> Char(s, j) == Char(after, 0) && Char(s, j + 1) == Char(after, 1);
  }

  /** Every string is such a numeral, if need be without digits, so this says what strtol returns for all strings. */
  lemma EveryString(s: string, base0: nat) returns (n: Numeral)
    requires base0 == 0 || 2 <= base0 <= 36
    ensures n.Ok(base0) && n.Whole() == s
  {
    hide Value, IsNumeral, PrefixFor;
    var i := SplitWhile(s, IsBlank);
    var w := s[i..];
    var sign := if w != "" && (w[0] == '+' || w[0] == '-') then [w[0]] else "";
    var prefix, base, ds, rest := SplitPrefix(w[|sign|..], base0);
    n := Numeral(s[..i], sign, prefix, base, ds, rest);
    assert sign + w[|sign|..] == w && s[..i] + w == s;
  }

  lemma SplitPrefix(v: string, base0: nat) returns (prefix: string, base: nat, ds: string, rest: string)
    requires base0 == 0 || 2 <= base0 <= 36
    ensures prefix + (ds + rest) == v && PrefixFor(prefix, base0, base, ds + rest)
    ensures IsNumeral(ds, base) && (rest == "" || Value(rest[0]) >= base)
  {
    hide Value, IsNumeral;
    prefix, base := "", base0;
    if (base0 == 0 || base0 == 16) && |v| >= 2 && v[0] == '0' && v[1] == 'x' {
      prefix, base := "0x", 16;
    } else if base0 == 0 {
      prefix, base := if v != "" && v[0] == '0' then "0" else "", if v != "" && v[0] == '0' then 8 else 10;
    }
    var u, b := v[|prefix|..], base;
    ds, rest := SplitDigits(u, b);
    assert prefix + u == v;
  }

  lemma SplitDigits(u: string, base: nat) returns (ds: string, rest: string)
    ensures ds + rest == u && IsNumeral(ds, base) && (rest == "" || Value(rest[0]) >= base)
  {
    hide Value;
    var k := SplitWhile(u, c => Value(c) < base);
    ds, rest := u[..k], u[k..];
  }

  /** How far all characters have a property. */
  lemma SplitWhile(s: string, p: char -> bool) returns (k: nat)
    ensures k <= |s| && (forall i :: 0 <= i < k ==> p(s[i])) && (k < |s| ==> !p(s[k]))
  {
    k := 0;
    while k < |s| && p(s[k])
      invariant k <= |s| && forall i :: 0 <= i < k ==> p(s[i])
    {
      k := k + 1;
    }
  }

  /** Capital letters. */
  function Upper(t: string): (u: string)
    ensures |u| == |t|
  {
    seq(|t|, i requires 0 <= i < |t| => if 'a' <= t[i] <= 'z' then (t[i] as int - 'a' as int + 'A' as int) as char else t[i])
  }

  /** Capital letters are the same digits. */
  lemma {:induction false} UpperSame(ds: string, base: nat)
    requires IsNumeral(ds, base) && base <= 36
    ensures IsNumeral(Upper(ds), base) && Number(Upper(ds), base) == Number(ds, base)
    decreases |ds|
  {
    if ds != "" {
      var t := ds[..|ds| - 1];
      UpperSame(t, base);
      assert Upper(ds)[..|ds| - 1] == Upper(t);
    }
  }

  /** The digits that genint writes stand for the number. */
  lemma {:induction false} TextNumber(num: nat, base: nat)
    requires 2 <= base <= 16
    ensures IsNumeral(Text(num, base, ""), base) && Number(Text(num, base, ""), base) == num
    decreases num
  {
    hide Text, Value, Digit, Number, IsNumeral;
    TextDef(num, base, "");
    DigitValue(num % base);
    Euclid(num, base);
    var t := if num >= base then Text(num / base, base, "") else "";
    if num >= base { TextNumber(num / base, base); } else { NoDigits(base); }
    OneMore(t, Digit(num % base), base);
  }

  lemma NoDigits(base: nat)
    ensures IsNumeral("", base) && Number("", base) == 0
  {
  }

  lemma OneMore(t: string, c: char, base: nat)
    requires IsNumeral(t, base) && Value(c) < base
    ensures IsNumeral(t + [c], base) && Number(t + [c], base) == Number(t, base) * base + Value(c)
  {
    assert (t + [c])[..|t + [c]| - 1] == t;
  }

  /** A long in hexadecimal with the prefix 0x, in octal with a leading 0, or in decimal, in small or capital letters, is read back
      when the base is left open, up to the first character that is no digit. */
  lemma RoundTripOpen(x: int, base: nat, upper: bool, blanks: string, plus: bool, rest: string)
    requires -HALF <= x < HALF && (base == 8 || base == 16 || (base == 10 && x != 0)) && AllBlank(blanks)
    requires rest == "" || Value(rest[0]) >= base
    ensures var prefix := if base == 16 then "0x" else if base == 8 then "0" else "";
            var sign := if x < 0 then "-" else if plus then "+" else "";
            var ds := if upper then Upper(Text(Abs(x), base, "")) else Text(Abs(x), base, "");
      Parse(blanks + (sign + (prefix + (ds + rest))), 0) == (x, |blanks| + |sign| + |prefix| + |ds|)
  {
    hide Text, Value, Parse, Number, Digit;
    var t := Text(Abs(x), base, "");
    var ds := if upper then Upper(t) else t;
    TextNumber(Abs(x), base);
    UpperSame(t, base);
    FirstDigit(Abs(x), base);
    var n := Numeral(blanks, if x < 0 then "-" else if plus then "+" else "", if base == 16 then "0x" else if base == 8 then "0" else "", base, ds, rest);
    assert (ds + rest)[0] == ds[0];
    ReadsNumeral(n, 0);
  }

  /** A number other than 0 does not start with 0, and its first digit, capital or not, is no blank, sign or x. */
  lemma {:induction false} FirstDigit(num: nat, base: nat)
    requires 2 <= base <= 16
    ensures Text(num, base, "") != "" && StartsNumber(Text(num, base, "")[0], num) && StartsNumber(Upper(Text(num, base, ""))[0], num)
    decreases num
  {
    hide Text, Digit, Value;
    TextDef(num, base, "");
    DigitValue(num % base);
    LowerDigit(num % base);
    if num >= base {
      FirstDigit(num / base, base);
      var t := Text(num / base, base, "");
      assert Text(num, base, "")[0] == t[0];
    }
  }

  predicate StartsNumber(c: char, num: nat)
  {
    !IsBlank(c) && c != '+' && c != '-' && c != 'x' && (num != 0 ==> c != '0')
  }

  lemma LowerDigit(d: nat)
    requires d < 16
    ensures '0' <= Digit(d) <= '9' || 'a' <= Digit(d) <= 'f'
  {
  }
}
