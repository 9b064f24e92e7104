/** The shared part of the provider contract: `LLMProvider.validate_messages`, the check
    every provider runs on a conversation before it calls its backend. A conversation is
    a list of Python values; a well-formed message is a mapping with a `role` among
    system/user/assistant and a `content` entry (whose value is not inspected). */
module Provider {
  import opened Wrappers
  import opened Values

  /** The roles a message may carry. */
  const ValidRoles: seq<Value> := [Str("system"), Str("user"), Str("assistant")]

  /** What validation promises of one message. */
  predicate WellFormedMessage(msg: Value) {
    && HasField(msg, "role")
    && HasField(msg, "content")
    && Field(msg, "role") in ValidRoles
  }

  /** The error validation raises for one message, None when the message passes.
      The checks run in a fixed order: not a mapping, then no `role`, then no
      `content`, then a role outside the valid set. */
  function CheckMessage(msg: Value): (r: Option<Error>)
    ensures r.None? <==> WellFormedMessage(msg)
    ensures r == Some(MessageNotDict) <==> !msg.Dict?
    ensures r == Some(MissingRole) <==> msg.Dict? && !HasField(msg, "role")
    ensures r == Some(MissingContent) <==> HasField(msg, "role") && !HasField(msg, "content")
    ensures r.Some? && r.value.InvalidRole? <==>
              HasField(msg, "role") && HasField(msg, "content") && Field(msg, "role") !in ValidRoles
    ensures r.Some? && r.value.InvalidRole? ==> r.value.role == Field(msg, "role")
  {
    if !msg.Dict? then Some(MessageNotDict)
    else if "role" !in Keys(msg.entries) then Some(MissingRole)
    else if "content" !in Keys(msg.entries) then Some(MissingContent)
    else
      var role := Field(msg, "role");
      if role !in ValidRoles then Some(InvalidRole(role)) else None
  }

  /** The `for msg in messages` loop: the first failing message decides. */
  function CheckEach(msgs: seq<Value>): (r: Result<(), Error>)
    ensures r.Err? ==> r.error in {MessageNotDict, MissingRole, MissingContent} || r.error.InvalidRole?
  {
    if msgs == [] then Ok(())
    else
      match CheckMessage(msgs[0])
      case Some(e) => Err(e)
      case None => CheckEach(msgs[1..])
  }

  /** `LLMProvider.validate_messages`: Ok when the conversation may be sent, otherwise
      the ValueError it raises. */
  function ValidateMessages(msgs: seq<Value>): (r: Result<(), Error>)
    ensures r == Err(EmptyMessages) <==> msgs == []
  {
    if msgs == [] then Err(EmptyMessages) else CheckEach(msgs)
  }

  lemma {:induction false} CheckEachIff(msgs: seq<Value>)
    ensures CheckEach(msgs).Ok? <==> forall i :: 0 <= i < |msgs| ==> WellFormedMessage(msgs[i])
  {
    if msgs != [] {
      CheckEachIff(msgs[1..]);
      assert forall i :: 1 <= i < |msgs| ==> msgs[i] == msgs[1..][i - 1];
    }
  }

  /** A conversation is accepted exactly when it is non-empty and every message is a
      mapping with a valid `role` and some `content`. */
  lemma ValidateMessagesIff(msgs: seq<Value>)
    ensures ValidateMessages(msgs).Ok? <==>
              |msgs| > 0 && forall i :: 0 <= i < |msgs| ==> WellFormedMessage(msgs[i])
  {
    CheckEachIff(msgs);
  }

  /** Messages are checked in list order: when message k is the first bad one, the
      error is the one message k alone would give, whatever follows it. */
  lemma {:induction false} FirstBadMessageDecides(msgs: seq<Value>, k: nat)
    requires k < |msgs|
    requires CheckMessage(msgs[k]).Some?
    requires forall j :: 0 <= j < k ==> CheckMessage(msgs[j]).None?
    ensures ValidateMessages(msgs) == Err(CheckMessage(msgs[k]).value)
  {
    if k > 0 {
      assert forall j :: 0 <= j < k - 1 ==> msgs[1..][j] == msgs[j + 1];
      FirstBadMessageDecides(msgs[1..], k - 1);
    }
  }

  lemma {:induction false} CheckEachCause(msgs: seq<Value>)
    requires CheckEach(msgs).Err?
    ensures exists k :: 0 <= k < |msgs| && CheckMessage(msgs[k]) == Some(CheckEach(msgs).error)
                        && forall j :: 0 <= j < k ==> CheckMessage(msgs[j]).None?
  {
    if CheckMessage(msgs[0]).None? {
      CheckEachCause(msgs[1..]);
      var k :| 0 <= k < |msgs[1..]| && CheckMessage(msgs[1..][k]) == Some(CheckEach(msgs[1..]).error)
               && forall j :: 0 <= j < k ==> CheckMessage(msgs[1..][j]).None?;
      assert msgs[k + 1] == msgs[1..][k];
      assert forall j :: 1 <= j < k + 1 ==> msgs[j] == msgs[1..][j - 1];
    } else {
      assert CheckMessage(msgs[0]) == Some(CheckEach(msgs).error);
    }
  }

  /** Every rejection of a non-empty conversation is the fault of its first bad message. */
  lemma RejectionHasCause(msgs: seq<Value>)
    requires ValidateMessages(msgs).Err?
    ensures msgs == [] <==> ValidateMessages(msgs).error == EmptyMessages
    ensures msgs != [] ==> exists k :: 0 <= k < |msgs| && CheckMessage(msgs[k]) == Some(ValidateMessages(msgs).error)
                                       && forall j :: 0 <= j < k ==> CheckMessage(msgs[j]).None?
  {
    if msgs != [] {
      CheckEachCause(msgs);
    }
  }
}
