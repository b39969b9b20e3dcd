/** The engine's own test suite (test/ValidatorTest.php) replayed on the
    model: fifteen rules over a mock object, then a sixteenth rule for a
    member the object does not have. */
module Scenario {
  import opened Values
  import opened Rules
  import opened Predicates
  import opened Messages
  import opened Engine

  /** Handle standing for the float 33.545 of the mock object. */
  const MOCK_FLOAT: int := 33545

  /** The answers the PHP built-ins give on the test's inputs: the float,
      address and URL of the mock are accepted, the broken ones are not, and
      the three dates parse in calendar order. */
  predicate TestBuiltins(b: Builtins)
  {
    && b.floatFilter(VFloat(MOCK_FLOAT))
    && !b.floatFilter(VStr("s1.29999"))
    && b.isEmail("max.mustermann@web.de")
    && !b.isEmail("s1.29999")
    && b.isUrl("http://google.de")
    && !b.isUrl("test.ss-")
    && b.dateCreate(VStr("2016-05-03")).Some?
    && b.dateCreate(VStr("2016-06-03")).Some?
    && b.dateCreate(VStr("2016-07-03")).Some?
    && b.dateCreate(VStr("2016-05-03")).value < b.dateCreate(VStr("2016-06-03")).value
    && b.dateCreate(VStr("2016-06-03")).value < b.dateCreate(VStr("2016-07-03")).value
  }

  /** The fifteen rules of the test, in registration order. */
  function TestRules(): seq<Rule>
  {
    [ Rule("mystring", StringRule, []),
      Rule("myinteger", IntegerRule, []),
      Rule("myinteger", IntegerRule, [VInt(5)]),
      Rule("myinteger", IntegerRule, [VNull, VInt(30)]),
      Rule("myinteger", IntegerRule, [VInt(5), VInt(30)]),
      Rule("myboolean", BooleanRule, []),
      Rule("mynumber", FloatRule, []),
      Rule("myemail", EmailRule, []),
      Rule("myurl", UrlRule, []),
      Rule("mydate", DateTimeRule, []),
      Rule("mydate", DateTimeRule, [VStr("2016-05-03")]),
      Rule("mydate", DateTimeRule, [VNull, VStr("2016-07-03")]),
      Rule("mydate", DateTimeRule, [VStr("2016-05-03"), VStr("2016-07-03")]),
      Rule("mynullvalue", NotEmptyRule, []),
      Rule("myexpression", ExpressionRule, []) ]
  }

  function TestValidator(): Validator
  {
    AddRules(New(), TestRules())
  }

  /** The public properties of the well-formed mock object. */
  function OkFields(): map<string, Value>
  {
    map[
      "myinteger" := VInt(10),
      "mystring" := VStr("teststring"),
      "mydate" := VStr("2016-06-03"),
      "mynumber" := VFloat(MOCK_FLOAT),
      "myemail" := VStr("max.mustermann@web.de"),
      "myurl" := VStr("http://google.de"),
      "mynullvalue" := VStr("notnull"),
      "myexpression" := VBool(true),
      "myboolean" := VBool(true)
    ]
  }

  /** Fifteen addRule calls leave fifteen rules, in the order given. */
  lemma FifteenRulesRegistered()
    ensures GetRules(TestValidator()) == TestRules()
    ensures |GetRules(TestValidator())| == 15
  {
    AddRulesAppends(New(), TestRules());
  }

  /** What each rule of the test reads from the well-formed mock. */
  lemma OkFieldsTable()
    ensures FieldValue(OkFields(), "mystring") == VStr("teststring")
    ensures FieldValue(OkFields(), "myinteger") == VInt(10)
    ensures FieldValue(OkFields(), "myboolean") == VBool(true)
    ensures FieldValue(OkFields(), "mynumber") == VFloat(MOCK_FLOAT)
    ensures FieldValue(OkFields(), "myemail") == VStr("max.mustermann@web.de")
    ensures FieldValue(OkFields(), "myurl") == VStr("http://google.de")
    ensures FieldValue(OkFields(), "mydate") == VStr("2016-06-03")
    ensures FieldValue(OkFields(), "mynullvalue") == VStr("notnull")
    ensures FieldValue(OkFields(), "myexpression") == VBool(true)
    ensures FieldValue(OkFields(), "notexistingmember") == VStr("")
  {
  }

  /** The values of the well-formed mock meet the checks the rules ask for. */
  lemma OkValuesPass(b: Builtins)
    requires TestBuiltins(b)
    ensures Check(StringRule, VStr("teststring"), [], b)
    ensures Check(IntegerRule, VInt(10), [], b)
    ensures Check(IntegerRule, VInt(10), [VInt(5)], b)
    ensures Check(IntegerRule, VInt(10), [VNull, VInt(30)], b)
    ensures Check(IntegerRule, VInt(10), [VInt(5), VInt(30)], b)
    ensures Check(BooleanRule, VBool(true), [], b)
    ensures Check(FloatRule, VFloat(MOCK_FLOAT), [], b)
    ensures Check(EmailRule, VStr("max.mustermann@web.de"), [], b)
    ensures Check(UrlRule, VStr("http://google.de"), [], b)
    ensures Check(DateTimeRule, VStr("2016-06-03"), [], b)
    ensures Check(DateTimeRule, VStr("2016-06-03"), [VStr("2016-05-03")], b)
    ensures Check(DateTimeRule, VStr("2016-06-03"), [VNull, VStr("2016-07-03")], b)
    ensures Check(DateTimeRule, VStr("2016-06-03"), [VStr("2016-05-03"), VStr("2016-07-03")], b)
    ensures Check(NotEmptyRule, VStr("notnull"), [], b)
    ensures Check(ExpressionRule, VBool(true), [], b)
  {
    assert LowerAscii("1") == "1";
  }

  /** The well-formed mock passes every rule. */
  lemma OkMockPassesAll(b: Builtins)
    requires TestBuiltins(b)
    ensures AllPass(TestRules(), OkFields(), b)
  {
    var rules := TestRules();
    var data := OkFields();
    OkFieldsTable();
    OkValuesPass(b);
    forall i | 0 <= i < |rules|
      ensures Passes(rules[i], data, b)
    {
      assert i in {0, 1, 2, 3, 4, 5, 6, 7, 8, 9, 10, 11, 12, 13, 14};
    }
  }

  /** The well-formed mock validates, logging one success per rule. */
  lemma OkMockValidates(v: Validator, b: Builtins)
    requires v.rules == TestRules() && TestBuiltins(b)
    ensures Validate(v, VObj(OkFields()), b).1
    ensures |GetResult(Validate(v, VObj(OkFields()), b).0)| == 15
    ensures |GetResultSuccess(Validate(v, VObj(OkFields()), b).0)| == 15
  {
    OkMockPassesAll(b);
    ResultMatchesViews(v, VObj(OkFields()), b);
  }

  /** Replacing one field of the well-formed mock by a value that rule i
      rejects makes the run fail, although every other rule still runs. */
  lemma BrokenMockFails(v: Validator, b: Builtins, key: string, bad: Value, i: nat)
    requires v.rules == TestRules()
    requires i < 15 && TestRules()[i].key == key
    requires !Check(TestRules()[i].kind, bad, TestRules()[i].additional, b)
    ensures !Validate(v, VObj(OkFields()[key := bad]), b).1
    ensures |GetResult(Validate(v, VObj(OkFields()[key := bad]), b).0)| == 15
  {
    var data := OkFields()[key := bad];
    assert FieldValue(data, key) == bad;
    assert !Passes(v.rules[i], data, b);
  }

  /** The broken mocks of the test each fail: a float for the string and for
      the integer, null for the member that must not be empty, and a
      non-number, a non-address and a non-URL. */
  lemma NoStringMockFails(v: Validator, b: Builtins)
    requires v.rules == TestRules()
    ensures !Validate(v, VObj(OkFields()["mystring" := VFloat(129999)]), b).1
  {
    BrokenMockFails(v, b, "mystring", VFloat(129999), 0);
  }

  lemma NoIntegerMockFails(v: Validator, b: Builtins)
    requires v.rules == TestRules()
    ensures !Validate(v, VObj(OkFields()["myinteger" := VFloat(129999)]), b).1
  {
    BrokenMockFails(v, b, "myinteger", VFloat(129999), 1);
  }

  lemma NullMockFails(v: Validator, b: Builtins)
    requires v.rules == TestRules()
    ensures !Validate(v, VObj(OkFields()["mynullvalue" := VNull]), b).1
  {
    BrokenMockFails(v, b, "mynullvalue", VNull, 13);
  }

  lemma NoNumberMockFails(v: Validator, b: Builtins)
    requires v.rules == TestRules() && TestBuiltins(b)
    ensures !Validate(v, VObj(OkFields()["mynumber" := VStr("s1.29999")]), b).1
  {
    BrokenMockFails(v, b, "mynumber", VStr("s1.29999"), 6);
  }

  lemma NoEmailMockFails(v: Validator, b: Builtins)
    requires v.rules == TestRules() && TestBuiltins(b)
    ensures !Validate(v, VObj(OkFields()["myemail" := VStr("s1.29999")]), b).1
  {
    BrokenMockFails(v, b, "myemail", VStr("s1.29999"), 7);
  }

  lemma NoUrlMockFails(v: Validator, b: Builtins)
    requires v.rules == TestRules() && TestBuiltins(b)
    ensures !Validate(v, VObj(OkFields()["myurl" := VStr("test.ss-")]), b).1
  {
    BrokenMockFails(v, b, "myurl", VStr("test.ss-"), 8);
  }

  /** A sixteenth rule on a member the mock lacks reads "", fails NOT_EMPTY,
      and leaves sixteen entries: fifteen successes and one error. */
  lemma MissingMemberFails(v: Validator, b: Builtins)
    requires v.rules == TestRules() && TestBuiltins(b)
    ensures var w := AddRule(v, "notexistingmember", NotEmptyRule, []);
            var res := Validate(w, VObj(OkFields()), b);
            && !res.1
            && |GetResult(res.0)| == 16
            && |GetResultSuccess(res.0)| == 15
            && |GetResultErrors(res.0)| == 1
  {
    OkMockPassesAll(b);
    OkFieldsTable();
    AddFailingRuleCounts(v, "notexistingmember", NotEmptyRule, [], VObj(OkFields()), b);
  }
}
