/** The part of Python's value model that the monitor relies on: the values a
    data source returns, Python truthiness, `str()` of those values, the
    data-source reference written in the configuration and the registry of
    data-source functions (the attributes of the system_info module). */
module PyValues {

  datatype Option<T> = None | Some(value: T) {
    /** `d.get(key, default)` once the lookup has been done. */
    function GetOr(default: T): T {
      if Some? then value else default
    }
  }

  /** The Python exceptions the modelled code can raise and does not catch. */
  datatype PyError =
    | ZeroDivisionError
    | IndexError
    | KeyError
    | TypeError
    | AttributeError
    | ValueError

  /** A computation that returns a value or raises. */
  datatype Result<T> = Ok(value: T) | Err(error: PyError) {
    predicate IsFailure() {
      Err?
    }
    function PropagateFailure<U>(): Result<U>
      requires Err?
    {
      Err(error)
    }
    function Extract(): T
      requires Ok?
    {
      value
    }
  }

  /** A Python value as a data source returns it, or as the YAML configuration
      holds it (dictionaries apart, see DataRef). */
  datatype Value =
    | NoneV
    | BoolV(b: bool)
    | IntV(i: int)
    | StrV(s: string)
    | ListV(items: seq<Value>)
    | TupleV(items: seq<Value>)

  /** `not v` in Python. */
  predicate Falsy(v: Value) {
    match v
    case NoneV => true
    case BoolV(b) => !b
    case IntV(i) => i == 0
    case StrV(s) => s == ""
    case ListV(xs) => xs == []
    case TupleV(xs) => xs == []
  }

  predicate IsDigit(c: char) {
    '0' <= c <= '9'
  }

  predicate AllDigits(s: string) {
    forall k :: 0 <= k < |s| ==> IsDigit(s[k])
  }

  function DigitChar(d: int): (c: char)
    requires 0 <= d < 10
    ensures IsDigit(c) && c as int - '0' as int == d
  {
    ('0' as int + d) as char
  }

  /** Python's decimal rendering of a non-negative integer. */
  function NatToString(n: nat): (s: string)
    ensures |s| >= 1 && AllDigits(s)
    ensures s[0] == '0' ==> n == 0 && s == "0"
    decreases n
  {
    if n < 10 then [DigitChar(n)] else NatToString(n / 10) + [DigitChar(n % 10)]
  }

  /** The value of a string of decimal digits. */
  function ParseDigits(s: string): nat
    requires AllDigits(s)
    decreases |s|
  {
    if s == [] then 0 else 10 * ParseDigits(s[..|s| - 1]) + (s[|s| - 1] as int - '0' as int)
  }

  /** Reading back the decimal rendering gives the number: so the rendering
      never maps two numbers to the same text. */
  lemma {:induction false} ParseNatToString(n: nat)
    ensures ParseDigits(NatToString(n)) == n
    decreases n
  {
    var s := NatToString(n);
    if n >= 10 {
      ParseNatToString(n / 10);
      assert s[..|s| - 1] == NatToString(n / 10);
    }
  }

  lemma NatToStringInjective(a: nat, b: nat)
    requires NatToString(a) == NatToString(b)
    ensures a == b
  {
    ParseNatToString(a);
    ParseNatToString(b);
  }

  /** Python's `str()` of an int. */
  function IntToString(i: int): (s: string)
    ensures |s| >= 1
  {
    if i < 0 then "-" + NatToString(-i) else NatToString(i)
  }

  function JoinComma(parts: seq<string>): string {
    if parts == [] then ""
    else if |parts| == 1 then parts[0]
    else parts[0] + ", " + JoinComma(parts[1..])
  }

  /** `str(v)` when `quoted` is false, `repr(v)` when it is true (strings are
      quoted with single quotes; Python's choice of other quotes and its
      escapes are not modelled). Containers render their items with repr. */
  function Render(v: Value, quoted: bool): string
    decreases v
  {
    match v
    case NoneV => "None"
    case BoolV(b) => if b then "True" else "False"
    case IntV(i) => IntToString(i)
    case StrV(s) => if quoted then "'" + s + "'" else s
    case ListV(xs) =>
      "[" + JoinComma(seq(|xs|, k requires 0 <= k < |xs| => Render(xs[k], true))) + "]"
    case TupleV(xs) =>
      "(" + JoinComma(seq(|xs|, k requires 0 <= k < |xs| => Render(xs[k], true)))
      + (if |xs| == 1 then "," else "") + ")"
  }

  /** Python's `str(v)`. */
  function Str(v: Value): string {
    Render(v, false)
  }

  /** The `data_source` entry of a widget, as the YAML loader produces it: a
      dictionary (`{name: ..., args: [...]}`) or any other YAML value (a
      bare name is a string; a missing entry is None). */
  datatype DataRef =
    | RefValue(v: Value)
    | RefDict(entries: map<string, Value>)

  /** `not data_source`. */
  predicate RefFalsy(r: DataRef) {
    match r
    case RefValue(v) => Falsy(v)
    case RefDict(e) => e == map[]
  }

  /** What calling a data-source function does. */
  datatype CallResult = Returned(v: Value) | Raised

  /** An attribute of the system_info module: a callable (a function, or a
      class such as the imported `datetime`) or any other object. */
  datatype Attr = Callable(call: seq<Value> -> CallResult) | NotCallable

  /** The attributes of the system_info module, by name. */
  type Registry = map<string, Attr>

  /** `func(*args)`: the positional arguments a value spreads into, or None
      when it is not iterable (Python raises TypeError inside the call). */
  function Spread(args: Value): (r: Option<seq<Value>>)
    ensures args.ListV? || args.TupleV? ==> r == Some(args.items)
    ensures r.None? <==> !(args.ListV? || args.TupleV? || args.StrV?)
  {
    match args
    case ListV(xs) => Some(xs)
    case TupleV(xs) => Some(xs)
    case StrV(s) => Some(seq(|s|, k requires 0 <= k < |s| => StrV([s[k]])))
    case _ => None
  }

  /** `func(*args)` inside the data fetchers' `try`: a raised exception,
      including the TypeError of a non-iterable `args`, comes back as None. */
  function Invoke(call: seq<Value> -> CallResult, args: Value): (r: Option<Value>)
    ensures Spread(args).None? ==> r.None?
  {
    match Spread(args)
    case None => None
    case Some(argv) =>
      match call(argv)
      case Returned(v) => Some(v)
      case Raised => None
  }
}
