/** Shared value types and the handful of Python string and number built-ins the
    rest of the model relies on, each written out so that its edge cases are
    visible (Python slicing with a negative stop, `str.replace` on every
    occurrence, `random.randint`'s inclusive bounds). */
module Common {

  datatype Option<+T> = None | Some(value: T)

  /** The tri-state result the probes return: Python `True`, `False` or `None`. */
  datatype Availability = Available | Unavailable | Undetermined {
    /** Python truthiness: only `True` is truthy. */
    predicate Truthy() { this == Available }
  }

  // ---------------------------------------------------------------------------
  // random.randint

  /** `random.randint(lo, hi)`: the random source is the arbitrary `draw`. */
  function RandInt(lo: int, hi: int, draw: int): (r: int)
    requires lo <= hi
    ensures lo <= r <= hi
  {
    lo + draw % (hi - lo + 1)
  }

  /** Every value in the band is produced by some draw, so the model of
      `randint` excludes nothing the real one can return. */
  lemma RandIntCovers(lo: int, hi: int, v: int)
    requires lo <= v <= hi
    ensures RandInt(lo, hi, v - lo) == v
  {
  }

  // ---------------------------------------------------------------------------
  // Characters and strings

  predicate IsDigit(c: char) { '0' <= c <= '9' }

  predicate AllDigits(s: string) { forall i :: 0 <= i < |s| ==> IsDigit(s[i]) }

  /** `str.isdigit()` over ASCII digits: false on the empty string. */
  predicate IsDigitString(s: string) { |s| > 0 && AllDigits(s) }

  /** `str.isspace()` for the characters the model knows about. */
  predicate IsSpace(c: char) {
    c == ' ' || c == '\t' || c == '\n' || c == '\r' || c == '\U{0B}' || c == '\U{0C}'
    || ('\U{1C}' <= c <= '\U{1F}') || c == '\U{85}' || c == '\U{A0}'
  }

  /** `str.lower()` for ASCII and the basic Cyrillic block. */
  function LowerChar(c: char): (r: char)
    ensures IsSpace(c) ==> r == c
  {
    if 'A' <= c <= 'Z' then (c as int + 32) as char
    else if 'А' <= c <= 'Я' then (c as int + 32) as char
    else if 'Ѐ' <= c <= 'Џ' then (c as int + 80) as char
    else c
  }

  function Lower(s: string): (r: string)
    ensures |r| == |s|
    ensures forall i :: 0 <= i < |s| ==> r[i] == LowerChar(s[i])
  {
    if s == [] then [] else [LowerChar(s[0])] + Lower(s[1..])
  }

  function StripLeft(s: string): (r: string)
    ensures r == [] || !IsSpace(r[0])
    ensures |r| <= |s| && r == s[|s| - |r|..]
  {
    if s != [] && IsSpace(s[0]) then StripLeft(s[1..]) else s
  }

  function StripRight(s: string): (r: string)
    ensures r == [] || !IsSpace(r[|r| - 1])
    ensures |r| <= |s| && r == s[..|r|]
  {
    if s != [] && IsSpace(s[|s| - 1]) then StripRight(s[..|s| - 1]) else s
  }

  /** `str.strip()` with no arguments. */
  function Strip(s: string): string {
    StripRight(StripLeft(s))
  }

  predicate StartsWith(s: string, prefix: string) {
    |prefix| <= |s| && s[..|prefix|] == prefix
  }

  predicate Contains(s: string, c: char) { exists i :: 0 <= i < |s| && s[i] == c }

  /** Python `s[:k]` for any integer `k`: a negative stop counts from the end. */
  function PySliceTo(s: string, k: int): (r: string)
    ensures |r| <= |s| && r == s[..|r|]
    ensures 0 <= k ==> |r| == if k <= |s| then k else |s|
    ensures k < 0 ==> |r| == if |s| + k < 0 then 0 else |s| + k
  {
    if 0 <= k then (if k <= |s| then s[..k] else s)
    else if |s| + k < 0 then []
    else s[..|s| + k]
  }

  /** `sep.join(parts)`. */
  function Join(parts: seq<string>, sep: string): string {
    if |parts| == 0 then ""
    else if |parts| == 1 then parts[0]
    else parts[0] + sep + Join(parts[1..], sep)
  }

  /** `s.replace(old, "")`: every non-overlapping occurrence of `pat`, left to
      right, is removed. */
  function RemoveAll(s: string, pat: string): (r: string)
    requires pat != []
    ensures |r| <= |s|
    decreases |s|
  {
    if |s| < |pat| then s
    else if s[..|pat|] == pat then RemoveAll(s[|pat|..], pat)
    else [s[0]] + RemoveAll(s[1..], pat)
  }

  // ---------------------------------------------------------------------------
  // Decimal rendering, as `str(n)` and f-strings do it

  function DigitChar(d: nat): (c: char)
    requires d < 10
    ensures IsDigit(c)
  {
    ('0' as int + d) as char
  }

  function DigitValue(c: char): (d: nat)
    requires IsDigit(c)
    ensures d < 10 && DigitChar(d) == c
  {
    (c as int - '0' as int) as nat
  }

  /** `str(n)` for a natural number. */
  function NatToString(n: nat): (r: string)
    ensures IsDigitString(r)
  {
    if n < 10 then [DigitChar(n)] else NatToString(n / 10) + [DigitChar(n % 10)]
  }

  /** `str(n)` for any integer (chat ids of groups are negative). */
  function IntToString(n: int): (r: string)
    ensures |r| > 0
    ensures n < 0 <==> r[0] == '-'
  {
    if n < 0 then "-" + NatToString(-n) else NatToString(n)
  }

  // ---------------------------------------------------------------------------
  // Interruptible waits

  /** The ticks slept by a loop of `wait` sleeps that checks a
      stop flag before each one and breaks once it is set; `stopFrom` is the first
      check that finds it set. */
  function TicksBeforeStop(wait: nat, stopFrom: Option<nat>): (t: nat)
    ensures t <= wait
    ensures t < wait <==> stopFrom.Some? && stopFrom.value < wait
    ensures stopFrom.None? ==> t == wait
  {
    if stopFrom.Some? && stopFrom.value < wait then stopFrom.value else wait
  }

  /** The tick loop itself. */
  method WaitTicks(wait: nat, stopFrom: Option<nat>) returns (ticks: nat)
    ensures ticks == TicksBeforeStop(wait, stopFrom)
  {
    ticks := 0;
    while ticks < wait && !(stopFrom.Some? && stopFrom.value <= ticks)
      invariant ticks <= wait
      invariant stopFrom.Some? ==> ticks <= stopFrom.value
    {
      ticks := ticks + 1;
    }
  }
}
