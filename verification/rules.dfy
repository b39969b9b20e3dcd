/** Validation kinds and the immutable rule triple (Validator.php, class
    ValidationRule and the VALIDATE_* constants). */
module Rules {
  import opened Values

  /** The nine kinds of check, in the order of their numbers 1..9. */
  datatype Kind =
    | StringRule
    | IntegerRule
    | BooleanRule
    | FloatRule
    | EmailRule
    | UrlRule
    | DateTimeRule
    | NotEmptyRule
    | ExpressionRule

  /** The kind's number. It is also the code a failed check is logged with. */
  function Code(k: Kind): (n: int)
    ensures 1 <= n <= 9
  {
    match k
    case StringRule => 1
    case IntegerRule => 2
    case BooleanRule => 3
    case FloatRule => 4
    case EmailRule => 5
    case UrlRule => 6
    case DateTimeRule => 7
    case NotEmptyRule => 8
    case ExpressionRule => 9
  }

  /** The kind a number names, if any. */
  function FromCode(n: int): (r: Option<Kind>)
    ensures r.Some? <==> 1 <= n <= 9
    ensures r.Some? ==> Code(r.value) == n
  {
    if n == 1 then Some(StringRule)
    else if n == 2 then Some(IntegerRule)
    else if n == 3 then Some(BooleanRule)
    else if n == 4 then Some(FloatRule)
    else if n == 5 then Some(EmailRule)
    else if n == 6 then Some(UrlRule)
    else if n == 7 then Some(DateTimeRule)
    else if n == 8 then Some(NotEmptyRule)
    else if n == 9 then Some(ExpressionRule)
    else None
  }

  /** Numbers and kinds are in one-to-one correspondence. */
  lemma CodeRoundTrip(k: Kind)
    ensures FromCode(Code(k)) == Some(k)
  {
  }

  lemma CodeInjective(k1: Kind, k2: Kind)
    ensures Code(k1) == Code(k2) <==> k1 == k2
  {
  }

  /** The failure text logged for each kind. */
  function FailureText(k: Kind): string
  {
    match k
    case StringRule => "Input is not a string."
    case IntegerRule => "Input is not an integer."
    case BooleanRule => "Input is not a boolean."
    case FloatRule => "Input is not a float."
    case EmailRule => "Input is not an E-Mail."
    case UrlRule => "Input is not an URL."
    case DateTimeRule => "Input is not a DateTime."
    case NotEmptyRule => "Input is empty."
    case ExpressionRule => "Expression failed."
  }

  /** One registered rule: the field key, the kind, and the extra arguments
      handed to the kind's predicate after the value. */
  datatype Rule = Rule(key: string, kind: Kind, additional: seq<Value>)
}
