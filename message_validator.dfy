/** validate_message: the required-field and type check on an incoming message. */
module MessageValidator {
  import opened Wrappers
  import opened Json

  /** The fields every message must carry, in the order they are checked. */
  const RequiredFields: seq<string> := ["id", "chat_jid", "sender", "content", "timestamp", "is_from_me"]

  const BooleanError: string := "is_from_me must be boolean"

  /** The error for a message that lacks `field`. */
  function MissingField(field: string): string {
    "Missing field: " + field
  }

  /** The position of the first of `fields` that `msg` lacks, or |fields| when it has them all. */
  function FirstAbsent(fields: seq<string>, msg: Object): (i: nat)
    ensures i <= |fields|
    ensures forall j :: 0 <= j < i ==> fields[j] in msg
    ensures i < |fields| ==> fields[i] !in msg
  {
    if fields == [] then 0
    else if fields[0] !in msg then 0
    else 1 + FirstAbsent(fields[1..], msg)
  }

  /** Every required field is present and `is_from_me` is a JSON boolean. */
  predicate WellFormed(msg: Object) {
    && (forall f :: f in RequiredFields ==> f in msg)
    && "is_from_me" in msg
    && msg["is_from_me"].JBool?
  }

  /**
   * validate_message. Dafny values cannot change, so validation leaves the message as it
   * was; the thrown runtime_error becomes a Fail carrying its text.
   */
  function ValidateMessage(msg: Object): (r: Outcome<string>)
    ensures r.Pass? <==> WellFormed(msg)
    ensures r.Fail? ==> r.error == BooleanError || exists f :: f in RequiredFields && r.error == MissingField(f)
  {
    var i := FirstAbsent(RequiredFields, msg);
    if i < |RequiredFields| then Fail(MissingField(RequiredFields[i]))
    else
      assert RequiredFields[5] in msg;
      if !msg["is_from_me"].JBool? then Fail(BooleanError)
    else Pass
  }

  /**
   * An absent field is reported by name when every field before it is present, whatever
   * the other fields hold: presence is checked before any type.
   */
  lemma ReportsFirstAbsent(msg: Object, i: nat)
    requires i < |RequiredFields| && RequiredFields[i] !in msg
    requires forall j :: 0 <= j < i ==> RequiredFields[j] in msg
    ensures ValidateMessage(msg) == Fail(MissingField(RequiredFields[i]))
  {
  }

  /** With every field present, a non-boolean `is_from_me` is the one error. */
  lemma RejectsNonBoolean(msg: Object)
    requires forall f :: f in RequiredFields ==> f in msg
    requires "is_from_me" in msg && !msg["is_from_me"].JBool?
    ensures ValidateMessage(msg) == Fail(BooleanError)
  {
  }

  /** No field other than `is_from_me` has its type or value looked at. */
  lemma OnlyPresenceAndFlagMatter(a: Object, b: Object)
    requires a.Keys == b.Keys
    requires "is_from_me" in a ==> (a["is_from_me"].JBool? <==> b["is_from_me"].JBool?)
    ensures ValidateMessage(a) == ValidateMessage(b)
  {
  }
}
