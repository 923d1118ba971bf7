/** ParseLSN: the text of a PostgreSQL WAL position to its 64-bit value. */
module Lsn {
  import opened Objects

  const WORD := 0x1_0000_0000
  const MODULUS := 0x1_0000_0000_0000_0000

  function Digit(c: char): Option<nat> {
    if '0' <= c <= '9' then Some((c - '0') as nat)
    else if 'a' <= c <= 'f' then Some(10 + (c - 'a') as nat)
    else if 'A' <= c <= 'F' then Some(10 + (c - 'A') as nat)
    else None
  }

  predicate IsHex(s: string) {
    forall i :: 0 <= i < |s| ==> Digit(s[i]).Some?
  }

  function HexValue(s: string): nat
    requires IsHex(s)
  {
    if s == "" then 0 else 16 * HexValue(s[..|s| - 1]) + Digit(s[|s| - 1]).value
  }

  /** A word of an LSN: one or more hex digits whose value fits 32 bits. */
  predicate IsWord(s: string) {
    s != "" && IsHex(s) && HexValue(s) < WORD
  }

  /** strings.Cut at the first '/': the index, or |s| when there is none. */
  function CutAt(s: string): (i: nat)
    ensures i <= |s|
    ensures i < |s| ==> s[i] == '/'
    ensures forall j :: 0 <= j < i ==> s[j] != '/'
  {
    if s == "" || s[0] == '/' then 0 else 1 + CutAt(s[1..])
  }

  /** strconv.ParseUint(s, 16, 32). */
  function ParseWord(s: string): (r: Option<nat>)
    ensures r.Some? ==> r.value < WORD
  {
    if IsWord(s) then Some(HexValue(s)) else None
  }

  /** (hi << 32) + lo in uint64 arithmetic, that is modulo 2^64: nothing wraps. */
  function Join(hi: nat, lo: nat): (v: nat)
    requires hi < WORD && lo < WORD
    ensures v == hi * 0x1_0000_0000 + lo < 0x1_0000_0000_0000_0000
  {
    assert hi * WORD + lo < MODULUS;
    ((hi * WORD) % MODULUS + lo) % MODULUS
  }

  function ParsePair(hi: string, lo: string): Result<nat> {
    match (ParseWord(hi), ParseWord(lo))
    case (Some(h), Some(l)) => Ok(Join(h, l))
    case _ => Err(Failed)
  }

  function ParseLSN(s: string): Result<nat> {
    var i := CutAt(s);
    if i == |s| || i == 0 || i + 1 == |s| then Err(Failed) else ParsePair(s[..i], s[i + 1..])
  }

  lemma {:induction false} CutOfPair(hi: string, lo: string)
    requires IsHex(hi)
    ensures CutAt(hi + "/" + lo) == |hi|
  {
    var s := hi + "/" + lo;
    assert s[|hi|] == '/';
    assert forall j :: 0 <= j < |hi| ==> s[j] == hi[j] && Digit(s[j]).Some?;
  }

  lemma {:induction false} PairIsCut(hi: string, lo: string)
    requires IsHex(hi) && hi != "" && lo != ""
    ensures ParseLSN(hi + "/" + lo) == ParsePair(hi, lo)
  {
    var s := hi + "/" + lo;
    CutOfPair(hi, lo);
    assert s[..|hi|] == hi && s[|hi| + 1..] == lo;
  }

  /** Every pair of words is accepted, leading zeros and either case included, and
      the value is high * 2^32 + low without wrap-around. */
  lemma {:induction false} ParseAccepts(hi: string, lo: string)
    requires IsWord(hi) && IsWord(lo)
    ensures ParseLSN(hi + "/" + lo) == Ok(HexValue(hi) * WORD + HexValue(lo))
    ensures HexValue(hi) * WORD + HexValue(lo) < MODULUS
  {
    PairIsCut(hi, lo);
  }

  /** Nothing else is accepted. */
  lemma {:induction false} ParseAcceptsOnly(s: string) returns (hi: string, lo: string)
    requires ParseLSN(s).Ok?
    ensures s == hi + "/" + lo && IsWord(hi) && IsWord(lo)
    ensures ParseLSN(s) == Ok(HexValue(hi) * WORD + HexValue(lo))
  {
    var i := CutAt(s);
    hi, lo := s[..i], s[i + 1..];
    assert s == hi + "/" + lo;
    ParseAccepts(hi, lo);
  }

  /** Values order as the pairs (high word, low word). */
  lemma {:induction false} ParseOrders(hi: string, lo: string, hi': string, lo': string)
    requires IsWord(hi) && IsWord(lo) && IsWord(hi') && IsWord(lo')
    ensures var a, b := ParseLSN(hi + "/" + lo), ParseLSN(hi' + "/" + lo');
            a.Ok? && b.Ok? && (a.value < b.value <==>
              HexValue(hi) < HexValue(hi') || (HexValue(hi) == HexValue(hi') && HexValue(lo) < HexValue(lo')))
  {
    ParseAccepts(hi, lo);
    ParseAccepts(hi', lo');
  }

  // ---- Rendering ----

  const UPPER := "0123456789ABCDEF"
  const LOWER := "0123456789abcdef"

  /** The digits are these and no others. */
  lemma {:induction false} DigitExactly(c: char, d: nat)
    requires d < 16
    ensures Digit(c) == Some(d) <==> c == UPPER[d] || c == LOWER[d]
    ensures Digit(c).Some? ==> Digit(c).value < 16
  {
  }

  function HexDigit(d: nat, lower: bool): (c: char)
    requires d < 16
    ensures Digit(c) == Some(d)
  {
    DigitExactly(if lower then LOWER[d] else UPPER[d], d);
    if lower then LOWER[d] else UPPER[d]
  }

  /** The canonical rendering of a number, in upper or lower case. */
  function Hex(n: nat, lower: bool): (s: string)
    ensures s != "" && IsHex(s) && HexValue(s) == n
  {
    var last := [HexDigit(n % 16, lower)];
    if n < 16 then
      assert last[..0] == "";
      last
    else
      var s := Hex(n / 16, lower) + last;
      assert s[..|s| - 1] == Hex(n / 16, lower);
      s
  }

  function Zeros(k: nat): (s: string)
    ensures |s| == k && IsHex(s) && forall i :: 0 <= i < k ==> s[i] == '0'
  {
    seq(k, i => '0')
  }

  lemma {:induction false} LeadingZeros(k: nat, s: string)
    requires IsHex(s)
    ensures IsHex(Zeros(k) + s) && HexValue(Zeros(k) + s) == HexValue(s)
    decreases k + |s|
  {
    var t := Zeros(k) + s;
    if s != "" {
      LeadingZeros(k, s[..|s| - 1]);
      assert t[..|t| - 1] == Zeros(k) + s[..|s| - 1];
    } else if k > 0 {
      LeadingZeros(k - 1, s);
      assert t[..|t| - 1] == Zeros(k - 1) + s;
    }
  }

  /** ParseLSN inverts the rendering of every pair of 32-bit words, in either case, with
      the low word padded to any width. */
  lemma {:induction false} RenderedPair(hi: nat, lo: nat, pad: nat, lower: bool)
    requires hi < WORD && lo < WORD
    ensures ParseLSN(Hex(hi, lower) + "/" + (Zeros(pad) + Hex(lo, lower))) == Ok(hi * WORD + lo)
  {
    PaddedPair(Hex(hi, lower), Hex(lo, lower), pad);
  }

  lemma {:induction false} PaddedPair(hi: string, lo: string, pad: nat)
    requires IsWord(hi) && IsWord(lo)
    ensures ParseLSN(hi + "/" + (Zeros(pad) + lo)) == Ok(HexValue(hi) * WORD + HexValue(lo))
  {
    LeadingZeros(pad, lo);
    ParseAccepts(hi, Zeros(pad) + lo);
  }

  lemma {:induction false} TwoWords(v: nat)
    requires v < 0x1_0000_0000_0000_0000
    ensures v / WORD < WORD && v % WORD < WORD && v / WORD * WORD + v % WORD == v
  {
  }

  /** So it inverts the rendering of every 64-bit position. */
  lemma {:induction false} RenderThenParse(v: nat, pad: nat, lower: bool)
    requires v < 0x1_0000_0000_0000_0000
    ensures ParseLSN(Hex(v / WORD, lower) + "/" + (Zeros(pad) + Hex(v % WORD, lower))) == Ok(v)
  {
    TwoWords(v);
    RenderedPair(v / WORD, v % WORD, pad, lower);
  }
}
