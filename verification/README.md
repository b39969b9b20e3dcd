# Validator — a Dafny model of the rule-evaluation engine

The `Dansnet\Validator` PHP class checks a record (an array or an object) against
an ordered list of rules. Each rule names a field key, one of nine validation
kinds (STRING, INTEGER, BOOLEAN, FLOAT, EMAIL, URL, DATETIME, NOT_EMPTY,
EXPRESSION, numbered 1..9) and extra arguments. `validate` clears the result log,
then runs every rule in registration order. A missing key reads as `""`. The
engine logs one `ValidationMessage` per rule and returns the AND of all outcomes.
`getResultSuccess` and `getResultErrors` filter the log on code `CODE_OK` (0).

This project models that engine in Dafny 4.11 as immutable data and pure functions:

- `values.dfy` (`Values`): a PHP value (`VNull | VBool | VInt | VFloat | VStr | VArr | VObj`),
  `empty()`, PHP's integer-to-text conversion, ASCII lower-casing, and `Builtins`,
  a record of the PHP library answers the engine consumes but whose grammar is not
  modelled (float filter, e-mail and URL filters, `date_create`, float printing,
  loose `<` on mixed types).
- `rules.dfy` (`Rules`): the `Kind` datatype with its numbers, the failure-text
  table, and the rule triple `Rule(key, kind, additional)`.
- `predicates.dfy` (`Predicates`): the nine checks and `Check`, a total `match`
  on the kind. It replaces the by-name dispatch table.
- `messages.dfy` (`Messages`): the result entry, the append-only `MessageList`
  with `CreateMessage`, and the order-preserving success and error views.
- `engine.dfy` (`Engine`): the engine state `Validator(rules, messages)`,
  `AddRule`, the fold `RunRules` behind `validateArray`, `ValidateObject`,
  `Validate`, and the result accessors.
- `scenario.dfy` (`Scenario`): the repository's PHPUnit test replayed on the model.

Details of the code that the model keeps:

- `validate` returns plain `false` with an empty log for input that is neither
  an array nor an object (Validator.php:90-98).
- A failed entry's code is the rule's kind number (Validator.php:135, 372). The
  `CODE_NOT_*` constants (Validator.php:309-318) are never used.
- The BOOLEAN failure text is "Input is not a boolean." (Validator.php:37).
- The public `validateArray` does not clear the log; only `validate` does. Called
  on its own, it appends to whatever the log holds (Validator.php:118-138).
- The doc comment of `validateArray` says a missing key yields FALSE. The code
  instead reads a missing key as `""` (Validator.php:124), so a STRING rule on a
  missing key passes.

## Model

| member | source | states |
|---|---|---|
| Rules.Code | Validator.php:12-20 | every kind has a number in 1..9, so a failure code is never CODE_OK |
| Rules.FromCode | Validator.php:12-20 | exactly the numbers 1..9 name a kind, and the kind named has that number |
| Rules.CodeRoundTrip | Validator.php:12-20 | decoding a kind's number gives back the kind |
| Rules.CodeInjective | Validator.php:12-20 | distinct kinds have distinct numbers |
| Values.IntTextIsOne | Validator.php:164-166 | the only integer whose PHP text is "1" is 1, which is why only the integer 1 passes BOOLEAN |
| Predicates.StringIsTypeTest | Validator.php:145-147 | STRING passes exactly for string values |
| Predicates.IntegerBoundsExclusive | Validator.php:154-156 | with integer or absent bounds, INTEGER passes exactly for an integer strictly above min and strictly below max |
| Predicates.IntegerNeedsInt | Validator.php:154-156 | whatever the bounds, a non-integer fails INTEGER |
| Predicates.BooleanOnlyTruthy | Validator.php:158-166 | BOOLEAN passes exactly for true, the integer 1, and strings or float texts equal to "1", "true", "on" or "yes" in any letter case |
| Predicates.BooleanFalseTokensFail | Validator.php:164-166 | "false", "0", "off", "no", "" and false all fail BOOLEAN, because the filter's false answer is the verdict |
| Predicates.BooleanTruthyTokensPass | Validator.php:158-166 | truthy tokens pass in any letter case ("TRUE", "On") and so does true |
| Predicates.EmailUrlNeedString | Validator.php:195-206 | EMAIL and URL reject every non-string without consulting the filter |
| Predicates.DateTimeBoundsExclusive | Validator.php:184-188 | with all dates parseable, DATETIME passes exactly for a date strictly after min and strictly before max |
| Predicates.DateTimeUnparseableBounds | Validator.php:184-188 | an unparseable min bound is passed over, because false compares below a date; an unparseable max bound makes the check fail |
| Predicates.DateTimeNeedsParseableString | Validator.php:184-188 | a non-string, or a string date_create rejects, fails DATETIME |
| Predicates.NotEmptyExactly | Validator.php:213-215 | for every value, NOT_EMPTY fails exactly when empty() holds: null, false, 0, a float zero, "", "0" or the empty array |
| Predicates.NotEmptyRejects | Validator.php:213-215 | NOT_EMPTY fails on "", "0", 0, false, null and the empty array, and passes on "notnull" and on an object |
| Predicates.ExpressionAcceptsAnyBool | Validator.php:222-224 | EXPRESSION is a type test: any boolean passes, false included, and nothing else does |
| Messages.Successes | Validator.php:238-247 | the success view holds only log entries with code CODE_OK, and every such entry |
| Messages.Errors | Validator.php:253-262 | the error view holds only log entries with a nonzero code, and every such entry |
| Messages.MessageList.CreateMessage | Validator.php:371-376 | appends one entry and keeps earlier ones; a passed check lands in the success view with "Input is valid", a failed one carries the offered code and text, and lands in the error view when that code is nonzero |
| Messages.SuccessesAppend | Validator.php:238-247 | filtering the log for successes keeps log order |
| Messages.ErrorsAppend | Validator.php:253-262 | filtering the log for errors keeps log order |
| Messages.ViewsPartition | Validator.php:238-262 | the success and error views split the log: their sizes add up to its size and together they hold its entries |
| Messages.NoErrorsIffAllOk | Validator.php:238-262 | the error view is empty exactly when every entry passed, which is exactly when the success view is the whole log |
| Engine.AddRule | Validator.php:70-72 | one rule is added at the end, earlier rules and the log are unchanged |
| Engine.AddRulesAppends | Validator.php:70-81 | registering a list of rules yields exactly the old rules followed by the new ones, with no de-duplication |
| Engine.DuplicateRulesBothLogged | Validator.php:70-72 | the same rule registered twice is logged twice, as two equal entries |
| Engine.EntryForMeaning | Validator.php:371-376 | an entry carries its rule's key; its code is CODE_OK exactly when the rule passed; a failure carries the kind's number and the kind's text |
| Engine.RunRules | Validator.php:118-138 | the rule loop logs one entry per rule in rule order after the existing log and returns the AND of all outcomes, with no short-circuit |
| Engine.ValidateArray | Validator.php:118-138 | validateArray keeps the rules, appends the entries for all rules, and returns true exactly when every rule passes |
| Engine.ValidateObject | Validator.php:106-109 | a non-object gives false and changes nothing; an object is validated through its public properties |
| Engine.Validate | Validator.php:90-98 | validate empties the log first; a record leaves exactly one entry per rule, and the result is true exactly when all pass; any other input gives false and an empty log |
| Engine.ValidateLogShape | Validator.php:121-136 | after validating a record, entry i carries rule i's key and has code CODE_OK exactly when rule i passed, and there are as many entries as rules |
| Engine.ResultMatchesViews | Validator.php:230-262 | the verdict is true exactly when the error view is empty, exactly when the success view is the whole log, and the views' sizes add up to the rule count |
| Engine.NoRulesVacuous | Validator.php:118-138 | with no rules, a record validates to true and the log is empty |
| Engine.ValidateForgetsEarlierRuns | Validator.php:90-98 | the outcome of validate depends only on the rules and the input, never on the log of an earlier run |
| Engine.ValidateIdempotent | Validator.php:90-98 | validating the same input again reproduces the same log and verdict |
| Engine.AbsentKeyReadsEmptyString | Validator.php:124 | a missing key reads as the empty string: adding it with "" changes no entry and no verdict |
| Engine.NullIsNotAbsent | Validator.php:124 | a key present with null is not read as "": STRING passes on a missing key and fails on a null one |
| Engine.AddRuleExtendsRun | Validator.php:118-138 | one more rule adds exactly one entry at the end of the log and ANDs its outcome into the verdict |
| Engine.AddFailingRuleCounts | Validator.php:238-262 | after an all-pass run, one more failing rule makes the verdict false and is the single entry of the error view |
| Scenario.FifteenRulesRegistered | test/ValidatorTest.php:9-29 | the test's fifteen addRule calls leave fifteen rules in call order |
| Scenario.OkFieldsTable | test/ValidatorTest.php:71-83 | the value each rule reads from the well-formed mock, and "" for the member it lacks |
| Scenario.OkValuesPass | test/ValidatorTest.php:71-83 | each value of the well-formed mock meets each check the test registers for it, given the library's answers on the test inputs |
| Scenario.OkMockPassesAll | test/ValidatorTest.php:35 | every one of the fifteen rules passes on the well-formed mock |
| Scenario.OkMockValidates | test/ValidatorTest.php:35 | validating the well-formed mock gives true with fifteen entries, all successes |
| Scenario.BrokenMockFails | test/ValidatorTest.php:85-119 | replacing one mock field by a value its rule rejects makes the run fail while all fifteen rules are still logged |
| Scenario.NoStringMockFails | test/ValidatorTest.php:36 | a float in the string field fails the run |
| Scenario.NoIntegerMockFails | test/ValidatorTest.php:37 | a float in the integer field fails the run |
| Scenario.NoNumberMockFails | test/ValidatorTest.php:38 | a non-number in the float field fails the run |
| Scenario.NoEmailMockFails | test/ValidatorTest.php:39 | a non-address in the e-mail field fails the run |
| Scenario.NoUrlMockFails | test/ValidatorTest.php:40 | a non-URL in the URL field fails the run |
| Scenario.NullMockFails | test/ValidatorTest.php:41 | null in the not-empty field fails the run |
| Scenario.MissingMemberFails | test/ValidatorTest.php:43-55 | a sixteenth NOT_EMPTY rule on a missing member makes the run false with sixteen entries: fifteen successes and one error |

## Left out

- The grammars behind `filter_var` (float, e-mail, URL) and `date_create` are
  library code the model cannot see. Their answers are the fields of `Builtins`,
  passed in as a parameter.
- `date_create` is treated as a pure function. Relative dates such as "now" or
  "" depend on the clock, and the engine calls `date_create` several times per rule.
- Float values are uninterpreted handles. Their printing, their zero test and
  the float filter's truthiness (a parsed `0.0` fails FLOAT) belong to `Builtins`.
- PHP's loose `<` between operands that are not both integers (an INTEGER bound
  given as a string or a float) is the `Builtins.mixedLess` field.
- Predicates.BooleanOnlyTruthy: whitespace that the boolean filter trims around
  a token is not modelled, so `" yes "` fails in the model.
- The `(array)` cast of an object is not modelled. An object is given directly
  by the map of its public properties, so private-property name mangling is out.
- PHP array keys are strings only here. PHP's conversion of numeric string keys
  to integer keys is not modelled.
- Rule kinds are the nine `Kind` values. A number outside 1..9 passed to
  `addRule` makes PHP's dispatch lookup fail at `validate` time, and that
  runtime failure is not modelled.
- `ValidationMessageList::addMessage` (Validator.php:382-384) is never called by
  the engine and is not modelled.
- `ValidationMessage` has one getter, `getCode` (Validator.php:344). `key` and
  `msg` have no getters in the source. The model exposes all three as fields
  of the `Message` datatype.
- PHP integers are 64-bit, while `VInt` is unbounded. The engine does no
  arithmetic on values and compares integers exactly, so the width does not
  change any outcome; overflow to float on input is not modelled.
- Object identity and mutation are not modelled. The engine is a value, and each
  operation returns the new state.
