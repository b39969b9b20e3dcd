/** PHP values as the validation engine sees them, and the few pieces of PHP's
    runtime the engine relies on. */
module Values {

  datatype Option<+T> = None | Some(value: T)

  /** A PHP value. Floats are carried as an uninterpreted handle: their
      arithmetic, parsing and printing belong to the runtime (see Builtins).
      Arrays are keyed maps; an object is given by the map of its public
      properties, which is what the engine's array cast exposes. */
  datatype Value =
    | VNull
    | VBool(b: bool)
    | VInt(i: int)
    | VFloat(f: int)
    | VStr(s: string)
    | VArr(entries: map<string, Value>)
    | VObj(props: map<string, Value>)

  /** The PHP library functions whose grammar or representation is not part
      of the model. Each field is the observable answer of one built-in. */
  datatype Builtins = Builtins(
    // string conversion of a float, as filter_var performs it
    floatText: int -> string,
    // whether the float is 0.0 or -0.0 (what empty() tests)
    floatIsZero: int -> bool,
    // truthiness of filter_var($v, FILTER_VALIDATE_FLOAT)
    floatFilter: Value -> bool,
    // filter_var($s, FILTER_VALIDATE_EMAIL) returned the address
    isEmail: string -> bool,
    // filter_var($s, FILTER_VALIDATE_URL) returned the URL
    isUrl: string -> bool,
    // date_create($v): a timestamp, or None where it returns false
    dateCreate: Value -> Option<int>,
    // PHP's `<` when the operands are not both integers
    mixedLess: (Value, Value) -> bool
  )

  /** The i-th extra argument of a predicate; a missing one takes the
      parameter default NULL. */
  function Param(params: seq<Value>, i: nat): Value
  {
    if i < |params| then params[i] else VNull
  }

  /** PHP's empty(). */
  predicate IsEmpty(v: Value, b: Builtins)
  {
    match v
    case VNull => true
    case VBool(x) => !x
    case VInt(n) => n == 0
    case VFloat(f) => b.floatIsZero(f)
    case VStr(s) => s == "" || s == "0"
    case VArr(m) => |m| == 0
    case VObj(_) => false
  }

  /** ASCII lower-casing, as the case-insensitive comparisons of the boolean
      filter perform it. */
  function LowerChar(c: char): char
  {
    if 'A' <= c <= 'Z' then (c as int + 32) as char else c
  }

  function LowerAscii(s: string): (r: string)
    ensures |r| == |s|
    ensures forall i :: 0 <= i < |s| ==> r[i] == LowerChar(s[i])
  {
    seq(|s|, i requires 0 <= i < |s| => LowerChar(s[i]))
  }

  predicate IsDigit(c: char)
  {
    '0' <= c <= '9'
  }

  function Digit(d: nat): (c: char)
    requires d < 10
    ensures IsDigit(c)
  {
    ('0' as int + d) as char
  }

  /** Decimal text of a natural number, most significant digit first. */
  function NatText(n: nat): (r: string)
    ensures |r| >= 1
    ensures forall i :: 0 <= i < |r| ==> IsDigit(r[i])
    ensures |r| == 1 <==> n < 10
    ensures r[|r| - 1] == Digit(n % 10)
  {
    if n < 10 then [Digit(n)] else NatText(n / 10) + [Digit(n % 10)]
  }

  /** PHP's string conversion of an integer. */
  function IntText(n: int): (r: string)
    ensures |r| >= 1
    ensures forall i :: 0 <= i < |r| ==> IsDigit(r[i]) || r[i] == '-'
    ensures n < 0 <==> r[0] == '-'
  {
    if n < 0 then "-" + NatText(-n) else NatText(n)
  }

  /** The only integer whose text is "1" is 1. */
  lemma IntTextIsOne(n: int)
    ensures IntText(n) == "1" <==> n == 1
  {
    if IntText(n) == "1" {
      assert n >= 0;
      var t := NatText(n);
      assert |t| == 1;
      assert n < 10;
      assert t[0] == Digit(n % 10);
    }
  }

  /** Lower-casing leaves the text of an integer alone. */
  lemma LowerIntText(n: int)
    ensures LowerAscii(IntText(n)) == IntText(n)
  {
    var t := IntText(n);
    var l := LowerAscii(t);
    forall i | 0 <= i < |t|
      ensures l[i] == t[i]
    {
      assert IsDigit(t[i]) || t[i] == '-';
    }
  }
}
