/** `ArgumentError` and the six argument checks of src/index.js. A check that
    throws is modelled as returning `Throws(error)`; one that returns normally
    as `Returns`. */
module Arguments {
  import opened Text
  import opened MoyalErrors

  datatype Outcome = Returns | Throws(error: MoyalRec)

  /** `new ArgumentError(message, argumentName)`: a MoyalError built with
      `super(message)`, so with no cause, that also keeps the argument name. */
  function NewArgumentError(host: Host, message: Value, argumentName: Option<string>): (e: MoyalRec)
    ensures e.name == "ArgumentError" && e.typeName == "ArgumentError"
    ensures e.argumentName == argumentName
    ensures !Truthy(Cause(e))
    ensures message.Str? ==> e.message == message.s
    ensures message.Undefined? ==> e.message == DefaultMessage
    ensures e.stack == host.stack && e.timestamp == host.timestamp
  {
    Construct(host, "ArgumentError", message, Undefined).(argumentName := argumentName)
  }

  /** `argumentName ?? "argument"` */
  function ArgLabel(argumentName: Option<string>): string
  {
    match argumentName
    case Some(n) => n
    case None => "argument"
  }

  /** The error every check throws: the display name followed by the check's
      fixed suffix, and the argument name as given. */
  function Raise(host: Host, suffix: string, argumentName: Option<string>): (r: Outcome)
    ensures r.Throws? && r.error.name == "ArgumentError"
    ensures r.error.message == ArgLabel(argumentName) + suffix
    ensures r.error.argumentName == argumentName
    ensures !Truthy(Cause(r.error))
  {
    Throws(NewArgumentError(host, Str(ArgLabel(argumentName) + suffix), argumentName))
  }

  /** `throwIfNull`: throws exactly when the value is `null`. */
  function ThrowIfNull(host: Host, value: Value, argumentName: Option<string>): (r: Outcome)
    ensures r.Throws? <==> value.Null?
    ensures r.Throws? ==> r.error.message == ArgLabel(argumentName) + " can not be 'null'"
                          && r.error.argumentName == argumentName && r.error.name == "ArgumentError"
  {
    if value.Null? then Raise(host, " can not be 'null'", argumentName) else Returns
  }

  /** `throwIfUndefined`: throws exactly when the value is `undefined`. */
  function ThrowIfUndefined(host: Host, value: Value, argumentName: Option<string>): (r: Outcome)
    ensures r.Throws? <==> value.Undefined?
    ensures r.Throws? ==> r.error.message == ArgLabel(argumentName) + " can not be 'undefined'"
                          && r.error.argumentName == argumentName && r.error.name == "ArgumentError"
  {
    if value.Undefined? then Raise(host, " can not be 'undefined'", argumentName) else Returns
  }

  /** `throwIfNullOrUndefined`: throws exactly when `value == null`. */
  function ThrowIfNullOrUndefined(host: Host, value: Value, argumentName: Option<string>): (r: Outcome)
    ensures r.Throws? <==> value.Null? || value.Undefined?
    ensures r.Throws? ==> r.error.message == ArgLabel(argumentName) + " can not be 'null' or 'undefined'"
                          && r.error.argumentName == argumentName && r.error.name == "ArgumentError"
  {
    if Nullish(value) then Raise(host, " can not be 'null' or 'undefined'", argumentName) else Returns
  }

  /** `throwMissingArgument`: always throws. */
  function ThrowMissingArgument(host: Host, argumentName: Option<string>): (r: Outcome)
    ensures r.Throws?
    ensures r.error.message == ArgLabel(argumentName) + " is missing"
    ensures r.error.argumentName == argumentName && r.error.name == "ArgumentError"
  {
    Raise(host, " is missing", argumentName)
  }

  /** `throwIfEmptyString`: throws exactly when the value is the empty string. */
  function ThrowIfEmptyString(host: Host, value: Value, argumentName: Option<string>): (r: Outcome)
    ensures r.Throws? <==> value == Str("")
    ensures r.Throws? ==> r.error.message == ArgLabel(argumentName) + " cannot be an empty string"
                          && r.error.argumentName == argumentName && r.error.name == "ArgumentError"
  {
    if value == Str("") then Raise(host, " cannot be an empty string", argumentName) else Returns
  }

  /** `throwIfNullOrWhitespace`: throws exactly when the value is `null`,
      `undefined`, or a string made only of white space (trimmed to ""). */
  function ThrowIfNullOrWhitespace(host: Host, value: Value, argumentName: Option<string>): (r: Outcome)
    ensures r.Throws? <==> value.Null? || value.Undefined? || (value.Str? && AllWhitespace(value.s))
    ensures r.Throws? ==> r.error.message == ArgLabel(argumentName) + " cannot be null, empty, or whitespace"
                          && r.error.argumentName == argumentName && r.error.name == "ArgumentError"
  {
    assert value.Str? ==> (Trim(value.s) == "" <==> AllWhitespace(value.s)) by {
      if value.Str? { TrimEmptyIff(value.s); }
    }
    if Nullish(value) || (value.Str? && Trim(value.s) == "") then
      Raise(host, " cannot be null, empty, or whitespace", argumentName)
    else Returns
  }

  /** The null-or-undefined check throws exactly when one of the two single checks does. */
  lemma NullOrUndefinedIsEither(host: Host, value: Value, argumentName: Option<string>)
    ensures ThrowIfNullOrUndefined(host, value, argumentName).Throws?
        <==> ThrowIfNull(host, value, argumentName).Throws? || ThrowIfUndefined(host, value, argumentName).Throws?
  {
  }

  /** Whatever the empty-string check rejects, the white-space check rejects
      too; a non-empty string of white space passes the first and fails the
      second. */
  lemma WhitespaceCheckIsStricter(host: Host, value: Value, argumentName: Option<string>)
    ensures ThrowIfEmptyString(host, value, argumentName).Throws? ==> ThrowIfNullOrWhitespace(host, value, argumentName).Throws?
    ensures value.Str? && value.s != "" && AllWhitespace(value.s) ==>
      ThrowIfEmptyString(host, value, argumentName) == Returns && ThrowIfNullOrWhitespace(host, value, argumentName).Throws?
  {
  }

  /** `throwMissingArgument("id")` throws an ArgumentError with message
      "id is missing" and argument name "id". */
  lemma MissingIdScenario(host: Host)
    ensures var r := ThrowMissingArgument(host, Some("id"));
      r.Throws? && r.error.message == "id is missing" && r.error.argumentName == Some("id")
  {
  }

  /** `throwIfNullOrWhitespace("   ", "name")` throws; with "ok" it returns. */
  lemma WhitespaceScenario(host: Host)
    ensures ThrowIfNullOrWhitespace(host, Str("   "), Some("name")).Throws?
    ensures ThrowIfNullOrWhitespace(host, Str("ok"), Some("name")) == Returns
  {
    assert AllWhitespace("   ") by {
      forall i | 0 <= i < 3 ensures IsWhitespace("   "[i]) {
        assert "   "[i] == ' ';
      }
    }
    assert !AllWhitespace("ok") by {
      assert !IsWhitespace("ok"[0]);
    }
  }
}
