/** The validation engine (Validator.php, class Validator): an ordered rule
    list, a result log, and the fold that runs every rule against a record. */
module Engine {
  import opened Values
  import opened Rules
  import opened Predicates
  import opened Messages

  /** The engine's state: the registered rules and the log of the last run. */
  datatype Validator = Validator(rules: seq<Rule>, messages: MessageList)

  function New(): Validator
  {
    Validator([], MessageList([]))
  }

  /** Registers one rule at the end of the list. Nothing is checked and
      nothing is merged: equal rules are kept side by side. */
  function AddRule(v: Validator, key: string, kind: Kind, params: seq<Value>): (r: Validator)
    ensures |r.rules| == |v.rules| + 1
    ensures r.rules[..|v.rules|] == v.rules
    ensures r.rules[|v.rules|] == Rule(key, kind, params)
    ensures r.messages == v.messages
  {
    v.(rules := v.rules + [Rule(key, kind, params)])
  }

  /** Registers a list of rules one addRule call at a time. */
  function AddRules(v: Validator, added: seq<Rule>): Validator
    decreases |added|
  {
    if added == [] then v
    else AddRules(AddRule(v, added[0].key, added[0].kind, added[0].additional), added[1..])
  }

  /** Registration order is kept and every call adds one rule. */
  lemma {:induction false} AddRulesAppends(v: Validator, added: seq<Rule>)
    ensures AddRules(v, added).rules == v.rules + added
    ensures |AddRules(v, added).rules| == |v.rules| + |added|
    ensures AddRules(v, added).messages == v.messages
    decreases |added|
  {
    if added != [] {
      var v' := AddRule(v, added[0].key, added[0].kind, added[0].additional);
      AddRulesAppends(v', added[1..]);
      assert v'.rules == v.rules + [added[0]];
      assert added == [added[0]] + added[1..];
    }
  }

  function GetRules(v: Validator): seq<Rule>
  {
    v.rules
  }

  /** The value a rule reads: the record's entry, or "" when the key is absent. */
  function FieldValue(data: map<string, Value>, key: string): Value
  {
    if key in data then data[key] else VStr("")
  }

  /** The outcome of one rule on one record. */
  predicate Passes(rule: Rule, data: map<string, Value>, b: Builtins)
  {
    Check(rule.kind, FieldValue(data, rule.key), rule.additional, b)
  }

  /** The entry logged for one rule on one record. */
  function EntryFor(rule: Rule, data: map<string, Value>, b: Builtins): Message
  {
    MakeMessage(Passes(rule, data, b), rule.key, Code(rule.kind), FailureText(rule.kind))
  }

  /** Reference for a run: entry i belongs to rule i. */
  function Entries(rules: seq<Rule>, data: map<string, Value>, b: Builtins): (r: seq<Message>)
  {
    seq(|rules|, i requires 0 <= i < |rules| => EntryFor(rules[i], data, b))
  }

  /** Reference for the verdict: every rule passes. */
  predicate AllPass(rules: seq<Rule>, data: map<string, Value>, b: Builtins)
  {
    forall i :: 0 <= i < |rules| ==> Passes(rules[i], data, b)
  }

  /** An entry carries its rule's key; its code is CODE_OK exactly when the
      rule passed; a failure carries the kind's number and the kind's text. */
  lemma EntryForMeaning(rule: Rule, data: map<string, Value>, b: Builtins)
    ensures EntryFor(rule, data, b).key == rule.key
    ensures IsOk(EntryFor(rule, data, b)) <==> Passes(rule, data, b)
    ensures Passes(rule, data, b) ==> EntryFor(rule, data, b).msg == VALID_TEXT
    ensures !Passes(rule, data, b) ==>
              EntryFor(rule, data, b).code == Code(rule.kind) &&
              EntryFor(rule, data, b).msg == FailureText(rule.kind)
  {
  }

  /** The loop of validateArray: every rule, in order, is checked, logged and
      folded into the verdict with AND; no rule is skipped after a failure. */
  function RunRules(rules: seq<Rule>, data: map<string, Value>, b: Builtins,
                    log: MessageList, acc: bool): (res: (MessageList, bool))
    ensures res.0.messages == log.messages + Entries(rules, data, b)
    ensures res.1 <==> acc && AllPass(rules, data, b)
    decreases |rules|
  {
    if rules == [] then (log, acc)
    else
      var rule := rules[0];
      var isValid := Passes(rule, data, b);
      var log' := log.CreateMessage(isValid, rule.key, Code(rule.kind), FailureText(rule.kind));
      var res := RunRules(rules[1..], data, b, log', acc && isValid);
      EntriesCons(rules, data, b);
      AllPassCons(rules, data, b);
      assert log'.messages == log.messages + [EntryFor(rule, data, b)];
      assert log.messages + Entries(rules, data, b) == log'.messages + Entries(rules[1..], data, b);
      res
  }

  lemma EntriesCons(rules: seq<Rule>, data: map<string, Value>, b: Builtins)
    requires rules != []
    ensures Entries(rules, data, b) == [EntryFor(rules[0], data, b)] + Entries(rules[1..], data, b)
  {
  }

  lemma AllPassCons(rules: seq<Rule>, data: map<string, Value>, b: Builtins)
    requires rules != []
    ensures AllPass(rules, data, b) <==> Passes(rules[0], data, b) && AllPass(rules[1..], data, b)
  {
    if Passes(rules[0], data, b) && AllPass(rules[1..], data, b) {
      forall i | 0 <= i < |rules|
        ensures Passes(rules[i], data, b)
      {
        if i > 0 {
          assert rules[i] == rules[1..][i - 1];
        }
      }
    }
  }

  /** validateArray: runs every rule and appends one entry per rule to the
      log as it stands. It does not clear the log; only Validate does. */
  function ValidateArray(v: Validator, data: map<string, Value>, b: Builtins): (res: (Validator, bool))
    ensures res.0.rules == v.rules
    ensures res.0.messages.messages == v.messages.messages + Entries(v.rules, data, b)
    ensures res.1 <==> AllPass(v.rules, data, b)
  {
    var (log, ok) := RunRules(v.rules, data, b, v.messages, true);
    (v.(messages := log), ok)
  }

  /** validateObject: a non-object yields false and leaves the engine as it
      is; an object is validated through its public properties. */
  function ValidateObject(v: Validator, data: Value, b: Builtins): (res: (Validator, bool))
    ensures res.0.rules == v.rules
    ensures !data.VObj? ==> res.0 == v && !res.1
    ensures data.VObj? ==>
              res.0.messages.messages == v.messages.messages + Entries(v.rules, data.props, b)
    ensures data.VObj? ==> (res.1 <==> AllPass(v.rules, data.props, b))
  {
    if !data.VObj? then (v, false)
    else ValidateArray(v, data.props, b)
  }

  predicate IsRecord(data: Value)
  {
    data.VArr? || data.VObj?
  }

  function Fields(data: Value): map<string, Value>
    requires IsRecord(data)
  {
    if data.VArr? then data.entries else data.props
  }

  /** validate: clears the log, then runs the rules on an array or object.
      Any other input yields false with the log left empty. */
  function Validate(v: Validator, data: Value, b: Builtins): (res: (Validator, bool))
    ensures res.0.rules == v.rules
    ensures IsRecord(data) ==>
              res.0.messages.messages == Entries(v.rules, Fields(data), b)
    ensures IsRecord(data) ==> (res.1 <==> AllPass(v.rules, Fields(data), b))
    ensures !IsRecord(data) ==> res.0.messages.messages == [] && !res.1
  {
    var cleared := v.(messages := v.messages.ClearMessages());
    if data.VArr? then ValidateArray(cleared, data.entries, b)
    else if data.VObj? then ValidateObject(cleared, data, b)
    else (cleared, false)
  }

  function GetResult(v: Validator): seq<Message>
  {
    v.messages.GetMessages()
  }

  function GetResultSuccess(v: Validator): seq<Message>
  {
    Successes(GetResult(v))
  }

  function GetResultErrors(v: Validator): seq<Message>
  {
    Errors(GetResult(v))
  }

  /** After validating a record the log has one entry per rule, in rule
      order: entry i carries rule i's key and passed exactly when rule i did. */
  lemma ValidateLogShape(v: Validator, data: Value, b: Builtins)
    requires IsRecord(data)
    ensures |GetResult(Validate(v, data, b).0)| == |v.rules|
    ensures forall i :: 0 <= i < |v.rules| ==>
              GetResult(Validate(v, data, b).0)[i].key == v.rules[i].key &&
              (IsOk(GetResult(Validate(v, data, b).0)[i]) <==> Passes(v.rules[i], Fields(data), b))
  {
    forall i | 0 <= i < |v.rules|
      ensures GetResult(Validate(v, data, b).0)[i] == EntryFor(v.rules[i], Fields(data), b)
    {
    }
  }

  /** The verdict is true exactly when the error view is empty, exactly when
      the success view is the whole log; the two views always split the log. */
  lemma ResultMatchesViews(v: Validator, data: Value, b: Builtins)
    requires IsRecord(data)
    ensures Validate(v, data, b).1 <==> GetResultErrors(Validate(v, data, b).0) == []
    ensures Validate(v, data, b).1 <==>
              GetResultSuccess(Validate(v, data, b).0) == GetResult(Validate(v, data, b).0)
    ensures |GetResultSuccess(Validate(v, data, b).0)| + |GetResultErrors(Validate(v, data, b).0)|
              == |v.rules|
  {
    var log := GetResult(Validate(v, data, b).0);
    ValidateLogShape(v, data, b);
    NoErrorsIffAllOk(log);
    ViewsPartition(log);
  }

  /** With no rules, a record validates vacuously and the log stays empty. */
  lemma NoRulesVacuous(v: Validator, data: Value, b: Builtins)
    requires v.rules == [] && IsRecord(data)
    ensures Validate(v, data, b).1
    ensures GetResult(Validate(v, data, b).0) == []
  {
  }

  /** Nothing from an earlier run reaches a later one: the outcome depends on
      the rules and the input only, so validating again changes nothing. */
  lemma ValidateForgetsEarlierRuns(v1: Validator, v2: Validator, data: Value, b: Builtins)
    requires v1.rules == v2.rules
    ensures Validate(v1, data, b).0 == Validate(v2, data, b).0
    ensures Validate(v1, data, b).1 == Validate(v2, data, b).1
  {
  }

  lemma ValidateIdempotent(v: Validator, data: Value, b: Builtins)
    ensures Validate(Validate(v, data, b).0, data, b) == Validate(v, data, b)
  {
    ValidateForgetsEarlierRuns(Validate(v, data, b).0, v, data, b);
  }

  /** A missing key reads as the empty string: adding it with "" changes no
      entry and no verdict. */
  lemma AbsentKeyReadsEmptyString(rules: seq<Rule>, data: map<string, Value>, key: string, b: Builtins)
    requires key !in data
    ensures Entries(rules, data, b) == Entries(rules, data[key := VStr("")], b)
    ensures AllPass(rules, data, b) <==> AllPass(rules, data[key := VStr("")], b)
  {
    var data' := data[key := VStr("")];
    forall rule: Rule
      ensures FieldValue(data, rule.key) == FieldValue(data', rule.key)
    {
    }
  }

  /** A key present with null is not the same as a missing key: STRING
      passes on the missing key ("") and fails on the null. */
  lemma NullIsNotAbsent(key: string, b: Builtins)
    ensures Passes(Rule(key, StringRule, []), map[], b)
    ensures !Passes(Rule(key, StringRule, []), map[key := VNull], b)
  {
  }

  /** Registering one more rule adds exactly one entry, at the end, and
      ANDs the new rule's outcome into the verdict; earlier entries stay. */
  lemma AddRuleExtendsRun(v: Validator, key: string, kind: Kind, params: seq<Value>,
                          data: Value, b: Builtins)
    requires IsRecord(data)
    ensures var w := AddRule(v, key, kind, params);
            GetResult(Validate(w, data, b).0) ==
              GetResult(Validate(v, data, b).0) + [EntryFor(Rule(key, kind, params), Fields(data), b)]
    ensures var w := AddRule(v, key, kind, params);
            Validate(w, data, b).1 <==>
              Validate(v, data, b).1 && Passes(Rule(key, kind, params), Fields(data), b)
  {
    var rule := Rule(key, kind, params);
    var w := AddRule(v, key, kind, params);
    var f := Fields(data);
    assert Entries(w.rules, f, b) == Entries(v.rules, f, b) + [EntryFor(rule, f, b)];
    if AllPass(v.rules, f, b) && Passes(rule, f, b) {
      forall i | 0 <= i < |w.rules|
        ensures Passes(w.rules[i], f, b)
      {
        if i < |v.rules| {
          assert w.rules[i] == v.rules[i];
        }
      }
    }
  }

  /** After a run in which every rule passed, one more rule that fails turns
      the verdict false and is the only entry of the error view. */
  lemma AddFailingRuleCounts(v: Validator, key: string, kind: Kind, params: seq<Value>,
                             data: Value, b: Builtins)
    requires IsRecord(data)
    requires AllPass(v.rules, Fields(data), b)
    requires !Passes(Rule(key, kind, params), Fields(data), b)
    ensures var res := Validate(AddRule(v, key, kind, params), data, b);
            && !res.1
            && |GetResult(res.0)| == |v.rules| + 1
            && |GetResultSuccess(res.0)| == |v.rules|
            && |GetResultErrors(res.0)| == 1
  {
    var last := EntryFor(Rule(key, kind, params), Fields(data), b);
    var log := GetResult(Validate(v, data, b).0);
    AddRuleExtendsRun(v, key, kind, params, data, b);
    ResultMatchesViews(v, data, b);
    SuccessesAppend(log, [last]);
    ErrorsAppend(log, [last]);
  }

  /** Registering the same rule twice yields two entries, both logged. */
  lemma DuplicateRulesBothLogged(v: Validator, key: string, kind: Kind, params: seq<Value>,
                                 data: Value, b: Builtins)
    requires IsRecord(data)
    ensures var w := AddRule(AddRule(v, key, kind, params), key, kind, params);
            var log := GetResult(Validate(w, data, b).0);
            |log| == |v.rules| + 2 &&
            log[|v.rules|] == log[|v.rules| + 1] &&
            log[|v.rules|].key == key
  {
  }
}
