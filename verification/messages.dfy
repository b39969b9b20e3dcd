/** Result entries and the ordered result log (Validator.php, classes
    ValidationMessage and ValidationMessageList), with the success and error
    views the engine derives from the log. */
module Messages {

  /** The code of a passed check. Failed checks carry a nonzero code. */
  const CODE_OK: int := 0

  /** The text of every passed check. */
  const VALID_TEXT: string := "Input is valid"

  /** One outcome: the field key, the code and the message. */
  datatype Message = Message(key: string, code: int, msg: string)

  predicate IsOk(m: Message)
  {
    m.code == CODE_OK
  }

  /** A passed check is logged with CODE_OK and the fixed text, whatever code
      and text the caller offered; a failed one with the caller's. */
  function MakeMessage(valid: bool, key: string, code: int, msg: string): Message
  {
    Message(key, if valid then CODE_OK else code, if valid then VALID_TEXT else msg)
  }

  /** The order-preserving view of passed entries. */
  function Successes(l: seq<Message>): (r: seq<Message>)
    ensures |r| <= |l|
    ensures forall m :: m in r ==> m in l && IsOk(m)
    ensures forall m :: m in l && IsOk(m) ==> m in r
  {
    if l == [] then []
    else if IsOk(l[0]) then [l[0]] + Successes(l[1..])
    else Successes(l[1..])
  }

  /** The order-preserving view of failed entries. */
  function Errors(l: seq<Message>): (r: seq<Message>)
    ensures |r| <= |l|
    ensures forall m :: m in r ==> m in l && !IsOk(m)
    ensures forall m :: m in l && !IsOk(m) ==> m in r
  {
    if l == [] then []
    else if !IsOk(l[0]) then [l[0]] + Errors(l[1..])
    else Errors(l[1..])
  }

  /** The ordered, append-only log. */
  datatype MessageList = MessageList(messages: seq<Message>) {

    /** Appends one entry built from a pass/fail flag. The new entry lands in
        the success view exactly when the flag is set or the offered code is
        CODE_OK, and in the error view otherwise; earlier entries stay. */
    function CreateMessage(valid: bool, key: string, code: int, msg: string): (r: MessageList)
      ensures |r.messages| == |messages| + 1
      ensures r.messages[..|messages|] == messages
      ensures r.messages[|messages|].key == key
      ensures valid ==> r.messages[|messages|].msg == VALID_TEXT
      ensures !valid ==> r.messages[|messages|].code == code
      ensures !valid ==> r.messages[|messages|].msg == msg
      ensures Successes(r.messages) ==
                Successes(messages) + (if valid || code == CODE_OK then [r.messages[|messages|]] else [])
      ensures Errors(r.messages) ==
                Errors(messages) + (if valid || code == CODE_OK then [] else [r.messages[|messages|]])
    {
      var m := MakeMessage(valid, key, code, msg);
      SuccessesAppend(messages, [m]);
      ErrorsAppend(messages, [m]);
      MessageList(messages + [m])
    }

    function ClearMessages(): MessageList
    {
      MessageList([])
    }

    function GetMessages(): seq<Message>
    {
      messages
    }
  }

  /** The success view distributes over concatenation: filtering keeps order. */
  lemma {:induction false} SuccessesAppend(a: seq<Message>, b: seq<Message>)
    ensures Successes(a + b) == Successes(a) + Successes(b)
  {
    if a == [] {
      assert a + b == b;
    } else {
      assert (a + b)[0] == a[0];
      assert (a + b)[1..] == a[1..] + b;
      SuccessesAppend(a[1..], b);
    }
  }

  /** The error view distributes over concatenation: filtering keeps order. */
  lemma {:induction false} ErrorsAppend(a: seq<Message>, b: seq<Message>)
    ensures Errors(a + b) == Errors(a) + Errors(b)
  {
    if a == [] {
      assert a + b == b;
    } else {
      assert (a + b)[0] == a[0];
      assert (a + b)[1..] == a[1..] + b;
      ErrorsAppend(a[1..], b);
    }
  }

  /** The two views split the log: every entry is in exactly one of them. */
  lemma {:induction false} ViewsPartition(l: seq<Message>)
    ensures |Successes(l)| + |Errors(l)| == |l|
    ensures multiset(Successes(l)) + multiset(Errors(l)) == multiset(l)
  {
    if l != [] {
      ViewsPartition(l[1..]);
      assert l == [l[0]] + l[1..];
    }
  }

  /** A log has no errors exactly when every entry passed, which is exactly
      when the success view is the whole log. */
  lemma {:induction false} NoErrorsIffAllOk(l: seq<Message>)
    ensures Errors(l) == [] <==> forall i :: 0 <= i < |l| ==> IsOk(l[i])
    ensures Successes(l) == l <==> forall i :: 0 <= i < |l| ==> IsOk(l[i])
  {
    if forall i :: 0 <= i < |l| ==> IsOk(l[i]) {
      AllOkFilters(l);
    } else {
      var i :| 0 <= i < |l| && !IsOk(l[i]);
      assert l[i] in l;
    }
  }

  lemma {:induction false} AllOkFilters(l: seq<Message>)
    requires forall i :: 0 <= i < |l| ==> IsOk(l[i])
    ensures Errors(l) == [] && Successes(l) == l
  {
    if l != [] {
      AllOkFilters(l[1..]);
      assert l == [l[0]] + l[1..];
    }
  }
}
