/** The nine checks of the engine and the closed dispatch over kinds that
    replaces the engine's by-name method lookup. Each predicate yields the
    truthiness of what the corresponding PHP method returns, which is what
    the engine folds and logs. */
module Predicates {
  import opened Values
  import opened Rules

  /** Tokens the boolean filter reads as true (after lower-casing). */
  const TRUTHY_TOKENS: set<string> := {"1", "true", "on", "yes"}

  /** PHP's `<` as the INTEGER bounds use it: exact on two integers, the
      runtime's loose comparison otherwise. */
  function LooseLess(x: Value, y: Value, b: Builtins): bool
  {
    if x.VInt? && y.VInt? then x.i < y.i else b.mixedLess(x, y)
  }

  /** PHP's `<` on two results of date_create: timestamps compare, and the
      failure value false compares as a boolean below any object. */
  function DateLess(x: Option<int>, y: Option<int>): bool
  {
    match (x, y)
    case (Some(s), Some(t)) => s < t
    case (None, Some(_)) => true
    case _ => false
  }

  /** The text the boolean filter examines: scalars are converted to
      strings, arrays and objects are rejected outright. */
  function FilterText(v: Value, b: Builtins): Option<string>
  {
    match v
    case VNull => Some("")
    case VBool(x) => Some(if x then "1" else "")
    case VInt(n) => Some(IntText(n))
    case VFloat(f) => Some(b.floatText(f))
    case VStr(s) => Some(s)
    case VArr(_) => None
    case VObj(_) => None
  }

  predicate ValidateString(v: Value)
  {
    v.VStr?
  }

  predicate ValidateInteger(v: Value, min: Value, max: Value, b: Builtins)
  {
    v.VInt? && (min.VNull? || LooseLess(min, v, b)) && (max.VNull? || LooseLess(v, max, b))
  }

  /** filter_var's boolean filter answers true only for a truthy token; any
      other input, including a falsy token, answers false. */
  predicate ValidateBoolean(v: Value, b: Builtins)
  {
    match FilterText(v, b)
    case Some(t) => LowerAscii(t) in TRUTHY_TOKENS
    case None => false
  }

  predicate ValidateFloat(v: Value, b: Builtins)
  {
    b.floatFilter(v)
  }

  predicate ValidateEmail(v: Value, b: Builtins)
  {
    v.VStr? && b.isEmail(v.s)
  }

  predicate ValidateUrl(v: Value, b: Builtins)
  {
    v.VStr? && b.isUrl(v.s)
  }

  predicate ValidateDateTime(v: Value, min: Value, max: Value, b: Builtins)
  {
    && v.VStr?
    && b.dateCreate(v).Some?
    && (min.VNull? || DateLess(b.dateCreate(min), b.dateCreate(v)))
    && (max.VNull? || DateLess(b.dateCreate(v), b.dateCreate(max)))
  }

  predicate ValidateNotEmpty(v: Value, b: Builtins)
  {
    !IsEmpty(v, b)
  }

  predicate ValidateExpression(v: Value)
  {
    v.VBool?
  }

  /** Dispatch on the kind; the value comes first, then the rule's extra
      arguments, of which INTEGER and DATETIME read two and the rest none. */
  predicate Check(kind: Kind, v: Value, params: seq<Value>, b: Builtins)
  {
    match kind
    case StringRule => ValidateString(v)
    case IntegerRule => ValidateInteger(v, Param(params, 0), Param(params, 1), b)
    case BooleanRule => ValidateBoolean(v, b)
    case FloatRule => ValidateFloat(v, b)
    case EmailRule => ValidateEmail(v, b)
    case UrlRule => ValidateUrl(v, b)
    case DateTimeRule => ValidateDateTime(v, Param(params, 0), Param(params, 1), b)
    case NotEmptyRule => ValidateNotEmpty(v, b)
    case ExpressionRule => ValidateExpression(v)
  }

  /** STRING is a pure type test. */
  lemma StringIsTypeTest(v: Value, params: seq<Value>, b: Builtins)
    ensures Check(StringRule, v, params, b) <==> v.VStr?
  {
  }

  /** With integer (or absent) bounds, INTEGER holds exactly for an integer
      strictly between them. */
  lemma IntegerBoundsExclusive(v: Value, params: seq<Value>, b: Builtins)
    requires Param(params, 0).VNull? || Param(params, 0).VInt?
    requires Param(params, 1).VNull? || Param(params, 1).VInt?
    ensures Check(IntegerRule, v, params, b) <==>
              && v.VInt?
              && (Param(params, 0).VInt? ==> Param(params, 0).i < v.i)
              && (Param(params, 1).VInt? ==> v.i < Param(params, 1).i)
  {
  }

  /** Whatever the bounds, only an integer passes INTEGER. */
  lemma IntegerNeedsInt(v: Value, params: seq<Value>, b: Builtins)
    requires !v.VInt?
    ensures !Check(IntegerRule, v, params, b)
  {
  }

  /** BOOLEAN passes exactly for `true`, the integer 1, and strings (or
      float texts) that are a truthy token in any letter case. */
  lemma BooleanOnlyTruthy(v: Value, params: seq<Value>, b: Builtins)
    ensures Check(BooleanRule, v, params, b) <==>
              || v == VBool(true)
              || v == VInt(1)
              || (v.VStr? && LowerAscii(v.s) in TRUTHY_TOKENS)
              || (v.VFloat? && LowerAscii(b.floatText(v.f)) in TRUTHY_TOKENS)
  {
    match v
    case VInt(n) =>
      LowerIntText(n);
      IntTextIsOne(n);
    case VBool(x) =>
      assert LowerAscii("1") == "1";
      assert LowerAscii("") == "";
    case VNull =>
      assert LowerAscii("") == "";
    case _ =>
  }

  /** The falsy tokens, and the usual spellings of false, fail BOOLEAN:
      the filter's false answer is taken as the verdict. */
  lemma BooleanFalseTokensFail(params: seq<Value>, b: Builtins)
    ensures !Check(BooleanRule, VStr("false"), params, b)
    ensures !Check(BooleanRule, VStr("0"), params, b)
    ensures !Check(BooleanRule, VStr("off"), params, b)
    ensures !Check(BooleanRule, VStr("no"), params, b)
    ensures !Check(BooleanRule, VStr(""), params, b)
    ensures !Check(BooleanRule, VBool(false), params, b)
  {
    assert LowerAscii("false") == "false";
    assert LowerAscii("0") == "0";
    assert LowerAscii("off") == "off";
    assert LowerAscii("no") == "no";
    assert LowerAscii("") == "";
  }

  /** Truthy tokens pass BOOLEAN in any letter case. */
  lemma BooleanTruthyTokensPass(params: seq<Value>, b: Builtins)
    ensures Check(BooleanRule, VStr("1"), params, b)
    ensures Check(BooleanRule, VStr("TRUE"), params, b)
    ensures Check(BooleanRule, VStr("On"), params, b)
    ensures Check(BooleanRule, VStr("yes"), params, b)
    ensures Check(BooleanRule, VBool(true), params, b)
  {
    assert LowerAscii("1") == "1";
    assert LowerAscii("TRUE") == "true";
    assert LowerAscii("On") == "on";
    assert LowerAscii("yes") == "yes";
  }

  /** EMAIL and URL reject every non-string before consulting the filter. */
  lemma EmailUrlNeedString(v: Value, params: seq<Value>, b: Builtins)
    requires !v.VStr?
    ensures !Check(EmailRule, v, params, b)
    ensures !Check(UrlRule, v, params, b)
  {
  }

  /** With every date parseable, DATETIME holds exactly for a value strictly
      between the given bounds. */
  lemma DateTimeBoundsExclusive(s: string, params: seq<Value>, b: Builtins)
    requires b.dateCreate(VStr(s)).Some?
    requires Param(params, 0).VNull? || b.dateCreate(Param(params, 0)).Some?
    requires Param(params, 1).VNull? || b.dateCreate(Param(params, 1)).Some?
    ensures Check(DateTimeRule, VStr(s), params, b) <==>
              && (!Param(params, 0).VNull? ==>
                    b.dateCreate(Param(params, 0)).value < b.dateCreate(VStr(s)).value)
              && (!Param(params, 1).VNull? ==>
                    b.dateCreate(VStr(s)).value < b.dateCreate(Param(params, 1)).value)
  {
  }

  /** An unparseable lower bound is passed over (false compares below the
      date), while an unparseable upper bound makes DATETIME fail. */
  lemma DateTimeUnparseableBounds(s: string, bound: Value, b: Builtins)
    requires b.dateCreate(VStr(s)).Some?
    requires !bound.VNull? && b.dateCreate(bound).None?
    ensures Check(DateTimeRule, VStr(s), [bound], b)
    ensures !Check(DateTimeRule, VStr(s), [VNull, bound], b)
  {
  }

  /** DATETIME fails for anything that is not a parseable string. */
  lemma DateTimeNeedsParseableString(v: Value, params: seq<Value>, b: Builtins)
    requires !v.VStr? || b.dateCreate(v).None?
    ensures !Check(DateTimeRule, v, params, b)
  {
  }

  /** NOT_EMPTY fails exactly on the values empty() accepts: null, false,
      0, a float zero, "", "0" and the empty array. Objects always pass. */
  lemma NotEmptyExactly(v: Value, params: seq<Value>, b: Builtins)
    ensures !Check(NotEmptyRule, v, params, b) <==>
              || v == VNull
              || v == VBool(false)
              || v == VInt(0)
              || v == VStr("")
              || v == VStr("0")
              || v == VArr(map[])
              || (v.VFloat? && b.floatIsZero(v.f))
  {
  }

  /** NOT_EMPTY on the values the engine's test uses and their neighbours. */
  lemma NotEmptyRejects(params: seq<Value>, b: Builtins)
    ensures !Check(NotEmptyRule, VStr(""), params, b)
    ensures !Check(NotEmptyRule, VStr("0"), params, b)
    ensures !Check(NotEmptyRule, VInt(0), params, b)
    ensures !Check(NotEmptyRule, VBool(false), params, b)
    ensures !Check(NotEmptyRule, VNull, params, b)
    ensures !Check(NotEmptyRule, VArr(map[]), params, b)
    ensures Check(NotEmptyRule, VStr("notnull"), params, b)
    ensures Check(NotEmptyRule, VObj(map[]), params, b)
  {
  }

  /** EXPRESSION is a type test on booleans: false passes as well as true. */
  lemma ExpressionAcceptsAnyBool(v: Value, params: seq<Value>, b: Builtins)
    ensures Check(ExpressionRule, v, params, b) <==> v.VBool?
    ensures Check(ExpressionRule, VBool(false), params, b)
  {
  }
}
