/** Values shared by the orchestration loop and the tools: optional values,
    Python truthiness, `str.join`, the decimal rendering of integers, tool
    definitions and the outcome of running a tool. */
module Common {

  datatype Option<+T> = None | Some(value: T) {
    /** `d.get(key, default)` when the key may be missing. */
    function GetOr(default: T): T {
      match this
      case Some(v) => v
      case None => default
    }
  }

  /** Python truthiness of an optional string: `None` and `""` are false. */
  predicate Truthy(s: Option<string>) {
    s.Some? && s.value != ""
  }

  /** Python truthiness of an optional integer: `None` and `0` are false. */
  predicate TruthyInt(n: Option<int>) {
    n.Some? && n.value != 0
  }

  /** `sep.join(parts)`. */
  function Join(sep: string, parts: seq<string>): (r: string)
    ensures |parts| == 1 ==> r == parts[0]
  {
    if |parts| == 0 then ""
    else if |parts| == 1 then parts[0]
    else parts[0] + sep + Join(sep, parts[1..])
  }

  /** Appending to a sequence leaves its elements where they are and puts the
      new one last. */
  lemma ElementOfAppend<T>(s: seq<T>, x: T, j: nat)
    requires j <= |s|
    ensures (s + [x])[j] == if j < |s| then s[j] else x
  {
  }

  function DigitChar(d: nat): (c: char)
    requires d < 10
    ensures '0' <= c <= '9'
  {
    "0123456789"[d]
  }

  /** Decimal digits of a natural number, as Python's `str(n)` writes them. */
  function NatToString(n: nat): string
    decreases n
  {
    if n < 10 then [DigitChar(n)] else NatToString(n / 10) + [DigitChar(n % 10)]
  }

  /** Python's `str(i)` (and `f"{i}"`) for an integer. */
  function IntToString(i: int): string
  {
    if i < 0 then "-" + NatToString(-i) else NatToString(i)
  }

  /** `NatToString` writes a non-empty string of digits without a leading zero. */
  lemma {:induction false} NatToStringIsCanonical(n: nat)
    ensures |NatToString(n)| > 0
    ensures forall i :: 0 <= i < |NatToString(n)| ==> '0' <= NatToString(n)[i] <= '9'
    ensures |NatToString(n)| > 1 ==> NatToString(n)[0] != '0'
    decreases n
  {
    if n >= 10 {
      NatToStringIsCanonical(n / 10);
    }
  }

  /** `IntToString` writes a minus sign exactly for negative numbers. */
  lemma IntToStringSign(i: int)
    ensures |IntToString(i)| > 0
    ensures (IntToString(i)[0] == '-') <==> i < 0
  {
    NatToStringIsCanonical(if i < 0 then -i else i);
  }

  /** The value of one decimal digit (other characters count as zero). */
  function DigitValue(c: char): nat
  {
    if '0' <= c <= '9' then (c - '0') as nat else 0
  }

  /** The value of a string of decimal digits: the inverse of `NatToString`. */
  function DigitsValue(s: string): nat
    decreases |s|
  {
    if s == [] then 0 else 10 * DigitsValue(s[..|s| - 1]) + DigitValue(s[|s| - 1])
  }

  lemma {:induction false} NatToStringRoundTrip(n: nat)
    ensures DigitsValue(NatToString(n)) == n
    decreases n
  {
    var s := NatToString(n);
    if n >= 10 {
      NatToStringRoundTrip(n / 10);
      assert s[..|s| - 1] == NatToString(n / 10);
    }
  }

  /** The part of a tool's schema that the registry and the model request use;
      the parameter schema itself is not modelled. */
  datatype ToolDefinition = ToolDefinition(name: Option<string>, description: string)

  /** A value passed as a keyword argument to a tool. */
  datatype ArgValue = Str(s: string) | Int(i: int) | Null

  /** Python truthiness of an argument value. */
  predicate ArgTruthy(v: ArgValue) {
    match v
    case Str(s) => s != ""
    case Int(i) => i != 0
    case Null => false
  }

  /** `str(v)`, as an f-string renders an argument value. */
  function ArgText(v: ArgValue): string {
    match v
    case Str(s) => s
    case Int(i) => IntToString(i)
    case Null => "None"
  }

  /** The keyword arguments of a tool call (`**kwargs`). */
  type Args = map<string, ArgValue>

  /** Running a tool either returns its text or raises with a message (`str(e)`). */
  datatype ToolOutcome = Done(text: string) | Raise(detail: string)
}
