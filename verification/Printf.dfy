/** The formatted printing of the guest programs: a bounded output stream, numbers written
    through a local buffer that is filled backwards and then reversed, and `vsnprintf`. */
module Printf {
  import Radix

  const NUL: char := '\0'
  const LONG: nat := 0x8000_0000_0000_0000
  const DIGITS: string := "0123456789abcdef"

  // ---------- What is printed, and what reading it back gives ----------

  /** The string a pointer to `s` denotes: everything before the first NUL. */
  function CString(s: string): (r: string)
    ensures |r| <= |s| && r == s[..|r|] && NUL !in r
    ensures NUL in s ==> |r| < |s| && s[|r|] == NUL
  {
    if s == "" || s[0] == NUL then "" else [s[0]] + CString(s[1..])
  }

  lemma {:induction false} CStringIs(s: string, k: nat)
    requires k < |s| && s[k] == NUL && NUL !in s[..k]
    ensures CString(s) == s[..k]
  {
    if k > 0 {
      assert s[..k][1..] == s[1..][..k - 1];
      CStringIs(s[1..], k - 1);
    }
  }

  /** The digits of a positive number, most significant first; none for zero. */
  function Digits(n: nat, base: nat): string
    requires 2 <= base <= 16
  {
    if n == 0 then "" else Digits(n / base, base) + [DIGITS[n % base]]
  }

  function Numeral(n: int, base: nat): string
    requires 2 <= base <= 16
  {
    if n == 0 then "0" else if n < 0 then "-" + Digits(-n, base) else Digits(n, base)
  }

  /** Reading a digit, independently of the table. */
  function DigitValue(c: char): nat {
    if '0' <= c <= '9' then (c - '0') as nat else if 'a' <= c <= 'f' then 10 + (c - 'a') as nat else 16
  }

  function Value(s: string, base: nat): nat {
    if s == "" then 0 else Value(s[..|s| - 1], base) * base + DigitValue(s[|s| - 1])
  }

  function Parse(s: string, base: nat): int {
    if s != "" && s[0] == '-' then -(Value(s[1..], base) as int) else Value(s, base)
  }

  lemma DigitReads(d: nat)
    requires d < 16
    ensures DigitValue(DIGITS[d]) == d && DIGITS[d] != NUL && DIGITS[d] != '-'
  {
  }

  lemma DigitsStep(n: nat, base: nat)
    requires n > 0 && 2 <= base <= 16
    ensures Digits(n, base) == Digits(n / base, base) + [DIGITS[n % base]]
  {
  }

  lemma Division(n: nat, base: nat)
    requires n > 0 && base >= 2
    ensures n == n / base * base + n % base && n / base < n
  {
    Radix.MulBound(n / base, base - 1);
  }

  lemma ValueStep(s: string, c: char, base: nat)
    ensures Value(s + [c], base) == Value(s, base) * base + DigitValue(c)
  {
    hide DigitValue;
    assert (s + [c])[..|s|] == s;
  }

  lemma {:induction false} DigitsRead(n: nat, base: nat)
    requires 2 <= base <= 16
    ensures Value(Digits(n, base), base) == n
  {
    if n > 0 {
      ReadStep(n, base);
    }
  }

  lemma ReadStep(n: nat, base: nat)
    requires n > 0 && 2 <= base <= 16
    ensures Value(Digits(n, base), base) == n
    decreases n, 0
  {
    hide DigitValue, Value, Digits;
    DigitsStep(n, base);
    Division(n, base);
    var q, r := n / base, n % base;
    ValueStep(Digits(q, base), DIGITS[r], base);
    DigitReads(r);
    DigitsRead(q, base);
  }

  lemma {:induction false} DigitsPlain(n: nat, base: nat)
    requires 2 <= base <= 16
    ensures NUL !in Digits(n, base) && '-' !in Digits(n, base)
    ensures n > 0 ==> Digits(n, base) != "" && Digits(n, base)[0] != '0'
    decreases n, 1
  {
    if n > 0 {
      PlainDigits(n, base);
    }
  }

  lemma PlainDigits(n: nat, base: nat)
    requires n > 0 && 2 <= base <= 16
    ensures NUL !in Digits(n, base) && '-' !in Digits(n, base)
    ensures Digits(n, base) != "" && Digits(n, base)[0] != '0'
    decreases n, 0
  {
    hide Digits;
    DigitsStep(n, base);
    Division(n, base);
    DigitReads(n % base);
    DigitReads(0);
    DigitsPlain(n / base, base);
    if n / base == 0 {
      DigitsZero(base);
    }
  }

  /** What is printed for a number reads back as that number, has no superfluous zeros and
      holds no NUL. */
  lemma NumeralReads(n: int, base: nat)
    requires 2 <= base <= 16
    ensures Parse(Numeral(n, base), base) == n
    ensures NUL !in Numeral(n, base)
    ensures n != 0 ==> Numeral(n, base)[if n < 0 then 1 else 0] != '0'
  {
    DigitsRead(if n < 0 then -n else n, base);
    DigitsPlain(if n < 0 then -n else n, base);
    if n < 0 {
      assert Numeral(n, base)[1..] == Digits(-n, base);
    } else if n == 0 {
      assert "0"[..0] == "";
    }
  }

  // ---------- How many digits ----------

  function Pow(base: nat, k: nat): nat {
    if k == 0 then 1 else base * Pow(base, k - 1)
  }

  lemma DivBelow(n: nat, d: nat, m: nat)
    requires d > 0
    ensures n / d < m <==> n < d * m
  {
    var q := n / d;
    assert n == q * d + n % d;
    if q < m {
      Radix.MulBound(m - q, d);
      assert (m - q) * d == m * d - q * d;
    } else if q > m {
      Radix.MulBound(q - m, d);
      assert (q - m) * d == q * d - m * d;
    }
  }

  /** A number has at most `k` digits exactly if it is below the k-th power of the base. */
  lemma {:induction false} DigitCount(n: nat, base: nat, k: nat)
    requires 2 <= base <= 16
    ensures |Digits(n, base)| <= k <==> n < Pow(base, k)
    decreases k, 1
  {
    if n > 0 && k > 0 {
      DigitCountStep(n, base, k);
    } else if n > 0 {
      hide Digits;
      DigitsStep(n, base);
    } else {
      PowPositive(base, k);
    }
  }

  lemma DigitCountStep(n: nat, base: nat, k: nat)
    requires 2 <= base <= 16 && n > 0 && k > 0
    ensures |Digits(n, base)| <= k <==> n < Pow(base, k)
    decreases k, 0
  {
    hide Digits;
    DigitsStep(n, base);
    DigitCount(n / base, base, k - 1);
    DivBelow(n, base, Pow(base, k - 1));
  }

  lemma {:induction false} PowPositive(base: nat, k: nat)
    requires base > 0
    ensures Pow(base, k) > 0
  {
    if k > 0 {
      PowPositive(base, k - 1);
    }
  }

  lemma {:induction false} PowMonotone(a: nat, b: nat, k: nat)
    requires a <= b
    ensures Pow(a, k) <= Pow(b, k)
  {
    if k > 0 {
      PowMonotone(a, b, k - 1);
      MulMonotone(a, b, Pow(a, k - 1), Pow(b, k - 1));
    }
  }

  lemma MulMonotone(a: nat, b: nat, x: nat, y: nat)
    requires a <= b && x <= y
    ensures a * x <= b * y
  {
    assert (b - a) * y >= 0 && a * (y - x) >= 0;
  }

  lemma Pow7Is()
    ensures Pow(7, 23) > Radix.WORD
  {
    assert Pow(7, 6) == 117649 by {
      assert Pow(7, 3) == 343;
    }
    assert Pow(7, 12) == 117649 * Pow(7, 6) by {
      assert Pow(7, 9) == 343 * Pow(7, 6);
    }
    assert Pow(7, 18) == 117649 * Pow(7, 12) by {
      assert Pow(7, 15) == 343 * Pow(7, 12);
    }
    assert Pow(7, 23) == 16807 * Pow(7, 18) by {
      assert Pow(7, 21) == 343 * Pow(7, 18);
    }
  }

  lemma Pow6Is()
    ensures Pow(6, 24) < LONG
  {
    assert Pow(6, 6) == 46656 by {
      assert Pow(6, 3) == 216;
    }
    assert Pow(6, 12) == 46656 * Pow(6, 6) by {
      assert Pow(6, 9) == 216 * Pow(6, 6);
    }
    assert Pow(6, 18) == 46656 * Pow(6, 12) by {
      assert Pow(6, 15) == 216 * Pow(6, 12);
    }
    assert Pow(6, 24) == 46656 * Pow(6, 18) by {
      assert Pow(6, 21) == 216 * Pow(6, 18);
    }
  }

  /** Every 64-bit number has at most 23 digits to a base of at least 7. */
  lemma WordDigits(n: nat, base: nat)
    requires 7 <= base <= 16 && n < Radix.WORD
    ensures |Digits(n, base)| <= 23
  {
    hide Pow, Digits;
    Pow7Is();
    PowMonotone(7, base, 23);
    DigitCount(n, base, 23);
  }

  /** To a base of at most 6 the largest number of 63 bits and more has at least 25. */
  lemma ManyDigits(n: nat, base: nat)
    requires 2 <= base <= 6 && n >= LONG - 1
    ensures |Digits(n, base)| >= 25
  {
    hide Pow, Digits;
    Pow6Is();
    PowMonotone(base, 6, 24);
    DigitCount(n, base, 24);
  }

  /** The 25 characters of `print_unsigned` hold every number with its NUL exactly for bases from 7 up. */
  lemma UnsignedFits(base: nat)
    requires 2 <= base <= 16
    ensures (forall n | 0 <= n < Radix.WORD :: |Numeral(n, base)| < 25) <==> base >= 7
    ensures base < 7 ==> |Numeral(Radix.WORD - 1, base)| >= 25
  {
    hide Digits;
    if base >= 7 {
      forall n: nat | n < Radix.WORD
        ensures |Numeral(n, base)| < 25
      {
        WordDigits(n, base);
      }
    } else {
      var n := Radix.WORD - 1;
      ManyDigits(n, base);
      assert |Numeral(n, base)| >= 25;
    }
  }

  /** The 26 characters of `print_int` hold every number with sign and NUL exactly for bases from 7 up. */
  lemma IntFits(base: nat)
    requires 2 <= base <= 16
    ensures (forall n | 0 - LONG < n < LONG :: |Numeral(n, base)| < 26) <==> base >= 7
    ensures base < 7 ==> |Numeral(1 - LONG, base)| >= 26
  {
    hide Digits;
    if base >= 7 {
      forall n | 0 - LONG < n < LONG
        ensures |Numeral(n, base)| < 26
      {
        WordDigits(if n < 0 then -n else n, base);
      }
    } else {
      var n := 1 - LONG;
      ManyDigits(-n, base);
      assert |Numeral(n, base)| >= 26;
    }
  }

  // ---------- The local buffer ----------

  function Flip(s: string): string {
    seq(|s|, i requires 0 <= i < |s| => s[|s| - 1 - i])
  }

  lemma FlipEmpty(s: string)
    ensures s == "" ==> Flip(s) == ""
  {
  }

  lemma FlipStep(s: string, c: char)
    ensures Flip(s + [c]) == [c] + Flip(s) && |Flip(s + [c])| == |Flip(s)| + 1
  {
  }

  lemma DigitsZero(base: nat)
    requires 2 <= base <= 16
    ensures Digits(0, base) == ""
  {
  }

  /** The loop that takes off digits, lowest first. */
  method PutDigits(buf: array<char>, value: nat, base: nat) returns (p: nat)
    requires 2 <= base <= 16 && |Digits(value, base)| <= buf.Length
    modifies buf
    ensures p == |Digits(value, base)| && Flip(buf[..p]) == Digits(value, base)
  {
    hide Digits, Flip;
    var n: nat := value;
    p := 0;
    FlipEmpty(buf[..p]);
    while n > 0
      invariant p <= buf.Length && Digits(value, base) == Digits(n, base) + Flip(buf[..p])
      invariant |Flip(buf[..p])| == p
    {
      DigitsStep(n, base);
      Division(n, base);
      ghost var done := buf[..p];
      buf[p] := DIGITS[n % base];
      assert buf[..p + 1] == done + [DIGITS[n % base]];
      FlipStep(done, DIGITS[n % base]);
      n := n / base;
      p := p + 1;
    }
    DigitsZero(base);
  }

  /** The loop that reverses the first `p` characters in place. */
  method FlipInPlace(buf: array<char>, p: nat)
    requires p <= buf.Length
    modifies buf
    ensures buf[..p] == Flip(old(buf[..p]))
  {
    var i := 0;
    while i < p / 2
      invariant 0 <= i <= p / 2
      invariant forall k | 0 <= k < p :: buf[k] == if k < i || p - 1 - k < i then old(buf[p - 1 - k]) else old(buf[k])
    {
      var tmp := buf[i];
      buf[i] := buf[p - 1 - i];
      buf[p - 1 - i] := tmp;
      i := i + 1;
    }
  }

  // ---------- The stream ----------

  /** How much of a text is kept in a buffer of the given size. */
  function Kept(text: string, size: int): (k: nat)
    ensures k <= |text|
  {
    if size < 1 || |text| < size - 1 then |text| else size - 1
  }

  class Stream {
    const buffer: array<char>
    const size: int
    var at: nat
    var remain: int
    var added: nat
    /** Everything added so far, whether or not there was room for it. */
    ghost var text: string
    ghost const before: string

    /** The buffer holds what fits of the text and is otherwise untouched. A size below 1 sets no
        bound: `remain` starts below 0 and never gets to 0. */
    ghost predicate Valid()
      reads this, buffer
    {
      && |before| == buffer.Length && added == |text|
      && at == Kept(text, size) < buffer.Length
      && remain == size - 1 - at
      && buffer[..at] == text[..at]
      && buffer[at..] == before[at..]
    }

    /** Nothing more than `k` characters and the NUL leaves the buffer. */
    ghost predicate Room(k: nat)
      reads this
    {
      if size >= 1 then size <= buffer.Length else |text| + k < buffer.Length
    }

    constructor (buffer: array<char>, size: int)
      requires buffer.Length >= 1
      ensures this.buffer == buffer && this.size == size && before == buffer[..]
      ensures Valid() && text == ""
    {
      this.buffer, this.size, at, remain, added := buffer, size, 0, size - 1, 0;
      text, before := "", buffer[..];
    }

    /** `addchar` */
    method AddChar(c: char)
      requires Valid() && Room(1)
      modifies this`at, this`remain, this`added, this`text, buffer
      ensures Valid() && text == old(text) + [c]
    {
      ghost var done, left := buffer[..at], buffer[at..];
      if remain != 0 {
        assert at == |text| && left[1..] == before[at + 1..];
        buffer[at] := c;
        at := at + 1;
        remain := remain - 1;
        assert buffer[..at] == done + [c] && buffer[at..] == left[1..];
      }
      added := added + 1;
      text := text + [c];
      assert text[..at] == buffer[..at];
    }

    /** `print_str` */
    method PrintStr(s: string)
      requires Valid() && NUL in s && Room(|CString(s)|)
      modifies this`at, this`remain, this`added, this`text, buffer
      ensures Valid() && text == old(text) + CString(s)
    {
      hide Valid;
      var i := 0;
      while s[i] != NUL
        invariant i <= |CString(s)| && Valid() && text == old(text) + CString(s)[..i]
        decreases |s| - i
      {
        assert CString(s)[..i + 1] == CString(s)[..i] + [s[i]];
        AddChar(s[i]);
        i := i + 1;
      }
      assert CString(s)[..i] == CString(s);
    }

    /** `print_int`, for numbers it can negate and whose numeral the local buffer can hold. */
    method PrintInt(n: int, base: nat)
      requires Valid() && 0 - LONG < n < LONG && 2 <= base <= 16 && |Numeral(n, base)| < 26 && Room(|Numeral(n, base)|)
      modifies this`at, this`remain, this`added, this`text, buffer
      ensures Valid() && text == old(text) + Numeral(n, base)
    {
      hide Valid, Room;
      var buf := new char[26];
      var m := if n < 0 then -n else n;
      var p := PutDigits(buf, m, base);
      ghost var digits := buf[..p];
      if n < 0 {
        buf[p] := '-';
        p := p + 1;
        assert buf[..p] == digits + "-";
      }
      if p == 0 {
        buf[p] := '0';
        p := p + 1;
      }
      assert Flip(buf[..p]) == Numeral(n, base);
      FlipInPlace(buf, p);
      Finish(buf, p, n, base);
    }

    /** `print_unsigned` */
    method PrintUnsigned(n: nat, base: nat)
      requires Valid() && n < Radix.WORD && 2 <= base <= 16 && |Numeral(n, base)| < 25 && Room(|Numeral(n, base)|)
      modifies this`at, this`remain, this`added, this`text, buffer
      ensures Valid() && text == old(text) + Numeral(n, base)
    {
      hide Valid, Room;
      var buf := new char[25];
      var p := PutDigits(buf, n, base);
      if p == 0 {
        buf[p] := '0';
        p := p + 1;
      }
      assert Flip(buf[..p]) == Numeral(n, base);
      FlipInPlace(buf, p);
      Finish(buf, p, n, base);
    }

    /** The end of both: terminate the local buffer and print it. */
    method Finish(buf: array<char>, p: nat, ghost n: int, base: nat)
      requires Valid() && buf != buffer && p < buf.Length && 2 <= base <= 16 && buf[..p] == Numeral(n, base)
      requires Room(|Numeral(n, base)|)
      modifies this`at, this`remain, this`added, this`text, buffer, buf
      ensures Valid() && text == old(text) + Numeral(n, base)
    {
      hide Valid, Room, Numeral;
      buf[p] := NUL;
      NumeralReads(n, base);
      assert buf[..][..p] == Numeral(n, base) && buf[..][p] == NUL;
      CStringIs(buf[..], p);
      PrintStr(buf[..]);
    }

    /** The last lines of `vsnprintf`. */
    method Terminate() returns (r: nat)
      requires Valid()
      modifies this`added, buffer
      ensures r == |text| + 1 && buffer[..] == text[..Kept(text, size)] + [NUL] + before[Kept(text, size) + 1..]
    {
      assert buffer[at + 1..] == before[at + 1..] by {
        assert buffer[at..][1..] == before[at..][1..];
      }
      buffer[at] := NUL;
      assert buffer[..] == buffer[..at] + [NUL] + buffer[at + 1..];
      added := added + 1;
      r := added;
    }
  }

  // ---------- vsnprintf ----------

  /** A variable argument. */
  datatype Arg = Int(n: int) | Pointer(a: nat) | Str(s: string)

  /** Whether directive `%c` consumes an argument. */
  predicate Takes(c: char) {
    c == 'd' || c == 'x' || c == 'p' || c == 's'
  }

  /** Directive `%c` finds an argument of its type, if it needs one. */
  predicate Fits(c: char, args: seq<Arg>) {
    Takes(c) ==>
      && args != []
      && match args[0]
         case Int(n) => (c == 'd' || c == 'x') && -0x8000_0000 <= n < 0x8000_0000
         case Pointer(a) => c == 'p' && a < Radix.WORD
         case Str(s) => c == 's' && NUL in s
  }

  /** An `int` converted to `unsigned long`. */
  function Extended(n: int): int {
    if n < 0 then n + Radix.WORD else n
  }

  /** What directive `%c` shows. */
  function Shown(c: char, args: seq<Arg>): string
    requires Fits(c, args)
  {
    match c
    case 'd' => Numeral(args[0].n, 10)
    case 'x' => Numeral(Extended(args[0].n), 16)
    case 'p' => "0x" + Numeral(args[0].a, 16)
    case 's' => CString(args[0].s)
    case _ => [c]
  }

  function Rest(c: char, args: seq<Arg>): seq<Arg>
    requires Fits(c, args)
  {
    if Takes(c) then args[1..] else args
  }

  predicate Matches(f: string, args: seq<Arg>)
    decreases |f|
  {
    if f == "" || f == "%" then true
    else if f[0] != '%' then Matches(f[1..], args)
    else Fits(f[1], args) && Matches(f[2..], Rest(f[1], args))
  }

  /** The text a format stands for. */
  function Expansion(f: string, args: seq<Arg>): string
    requires Matches(f, args)
    decreases |f|
  {
    if f == "" || f == "%" then ""
    else if f[0] != '%' then [f[0]] + Expansion(f[1..], args)
    else Shown(f[1], args) + Expansion(f[2..], Rest(f[1], args))
  }

  /** A text with its percent signs doubled. */
  function Escaped(s: string): string {
    if s == "" then "" else (if s[0] == '%' then "%%" else [s[0]]) + Escaped(s[1..])
  }

  /** Every text can be printed literally. */
  lemma {:induction false} EscapedPrints(s: string)
    ensures Matches(Escaped(s), []) && Expansion(Escaped(s), []) == s
  {
    if s != "" {
      EscapedPrints(s[1..]);
      var e := Escaped(s);
      if s[0] == '%' {
        assert e[2..] == Escaped(s[1..]);
      } else {
        assert e[1..] == Escaped(s[1..]);
      }
    }
  }

  lemma PlainStep(f: string, args: seq<Arg>)
    requires f != "" && f[0] != '%' && Matches(f, args)
    ensures Matches(f[1..], args) && Expansion(f, args) == [f[0]] + Expansion(f[1..], args)
  {
  }

  lemma DirectiveStep(f: string, args: seq<Arg>)
    requires |f| >= 2 && f[0] == '%' && Matches(f, args)
    ensures Fits(f[1], args) && Matches(f[2..], Rest(f[1], args))
    ensures Expansion(f, args) == Shown(f[1], args) + Expansion(f[2..], Rest(f[1], args))
  {
  }

  lemma ShownReads(c: char, args: seq<Arg>)
    requires Takes(c) && Fits(c, args)
    ensures var t := Shown(c, args);
            match args[0]
            case Int(n) => if c == 'd' then Parse(t, 10) == n else c == 'x' && Parse(t, 16) == n % Radix.WORD
            case Pointer(a) => c == 'p' && |t| >= 2 && t[..2] == "0x" && Parse(t[2..], 16) == a
            case Str(s) => c == 's' && |t| < |s| && NUL !in t && t + [NUL] <= s
  {
    hide Parse, Numeral;
    match args[0]
    case Int(n) =>
      NumeralReads(n, 10);
      NumeralReads(Extended(n), 16);
    case Pointer(a) =>
      NumeralReads(a, 16);
      assert Shown(c, args)[2..] == Numeral(a, 16);
    case Str(s) =>
  }

  /** What each directive prints, by reading it back, and what is left for the rest: `%d` a decimal
      numeral, `%x` a hexadecimal one of the number modulo 2^64, `%p` the same after "0x", `%s` the
      string up to its NUL, and anything else itself. */
  lemma DirectiveReads(c: char, f: string, args: seq<Arg>) returns (t: string)
    requires Matches("%" + [c] + f, args)
    ensures var rest := if c in {'d', 'x', 'p', 's'} then 1 else 0;
            && rest <= |args| && Matches(f, args[rest..])
            && Expansion("%" + [c] + f, args) == t + Expansion(f, args[rest..])
    ensures c == 'd' ==> args[0].Int? && Parse(t, 10) == args[0].n
    ensures c == 'x' ==> args[0].Int? && Parse(t, 16) == args[0].n % Radix.WORD
    ensures c == 'p' ==> args[0].Pointer? && |t| >= 2 && t[..2] == "0x" && Parse(t[2..], 16) == args[0].a
    ensures c == 's' ==> args[0].Str? && |t| < |args[0].s| && NUL !in t && t + [NUL] <= args[0].s
    ensures c !in {'d', 'x', 'p', 's'} ==> t == [c]
  {
    var fmt := "%" + [c] + f;
    assert fmt[2..] == f && args[0..] == args;
    DirectiveStep(fmt, args);
    t := Shown(c, args);
    hide Matches, Expansion, Parse;
    if Takes(c) {
      hide Shown;
      ShownReads(c, args);
    }
  }

  lemma EndStep(args: seq<Arg>)
    ensures Matches("", args) && Expansion("", args) == "" && Matches("%", args) && Expansion("%", args) == ""
  {
  }

  /** The `switch` of `vsnprintf`, but for the end of the format. */
  method Directive(s: Stream, c: char, args: seq<Arg>) returns (rest: seq<Arg>)
    requires s.Valid() && c != NUL && Fits(c, args) && s.Room(|Shown(c, args)|)
    modifies s`at, s`remain, s`added, s`text, s.buffer
    ensures s.Valid() && s.text == old(s.text) + Shown(c, args) && rest == Rest(c, args)
  {
    hide Numeral, Digits, s.Valid;
    rest := args;
    match c
    case '%' => s.AddChar('%');
    case 'd' =>
      IntFits(10);
      s.PrintInt(args[0].n, 10);
      rest := args[1..];
    case 'x' =>
      UnsignedFits(16);
      s.PrintUnsigned(Extended(args[0].n), 16);
      rest := args[1..];
    case 'p' =>
      UnsignedFits(16);
      CStringIs("0x\0", 2);
      s.PrintStr("0x\0");
      s.PrintUnsigned(args[0].a, 16);
      rest := args[1..];
    case 's' =>
      s.PrintStr(args[0].s);
      rest := args[1..];
    case _ => s.AddChar(c);
  }

  /** The loop of `vsnprintf`. */
  method Format(s: Stream, fmt: string, args: seq<Arg>)
    requires s.Valid() && NUL in fmt && Matches(CString(fmt), args) && s.Room(|Expansion(CString(fmt), args)|)
    modifies s`at, s`remain, s`added, s`text, s.buffer
    ensures s.Valid() && s.text == old(s.text) + Expansion(CString(fmt), args)
  {
    hide Fits, Shown, Rest, Matches, Expansion, CString, s.Valid;
    ghost var f := CString(fmt);
    var i, rest := 0, args;
    assert f[0..] == f;
    while fmt[i] != NUL
      invariant i <= |f| && s.Valid() && Matches(f[i..], rest)
      invariant s.text + Expansion(f[i..], rest) == old(s.text) + Expansion(f, args)
      decreases |f| - i
    {
      ghost var left := Expansion(f[i..], rest);
      assert |s.text| + |left| == |old(s.text)| + |Expansion(f, args)|;
      var c := fmt[i];
      i := i + 1;
      if c != '%' {
        assert f[i - 1..][1..] == f[i..];
        PlainStep(f[i - 1..], rest);
        s.AddChar(c);
        continue;
      }
      c := fmt[i];
      i := i + 1;
      if c == NUL {
        i := i - 1;
        assert f[i - 1..] == "%" && f[i..] == "";
        EndStep(rest);
      } else {
        assert f[i - 2..][2..] == f[i..];
        DirectiveStep(f[i - 2..], rest);
        rest := Directive(s, c, rest);
      }
    }
    assert f[i..] == "";
    EndStep(rest);
  }

  /** `vsnprintf`: the longest prefix of the expansion that fits, a NUL, nothing else; and the
      length of the whole expansion with its NUL. A size below 1 puts no bound on what is
      written, so that the buffer has to hold it all. */
  method Vsnprintf(buf: array<char>, size: int, fmt: string, args: seq<Arg>) returns (r: nat)
    requires NUL in fmt && Matches(CString(fmt), args)
    requires if size >= 1 then size <= buf.Length else |Expansion(CString(fmt), args)| < buf.Length
    modifies buf
    ensures var full := Expansion(CString(fmt), args);
            var kept := Kept(full, size);
            r == |full| + 1 && buf[..] == full[..kept] + [NUL] + old(buf[..])[kept + 1..]
  {
    hide Matches, Expansion, CString;
    var s := new Stream(buf, size);
    Format(s, fmt, args);
    assert s.text == Expansion(CString(fmt), args);
    r := s.Terminate();
  }
}
