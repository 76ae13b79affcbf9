/** The older MoyalError of src/MoyalError.js. Its `cause` accessor,
    `toString`, `#_tabify`, `toJSON`, `fullStack` and static
    `printCauseChain` are the same code as in src/index.js and are modelled
    by the same members; its constructor decides differently whether the
    second argument is an options bag. */
module LegacyMoyalError {
  import opened Text
  import opened MoyalErrors
  import opened CauseWalks

  /** src/MoyalError.js:66: any truthy object with a `cause` key is taken as
      options; unlike src/index.js, Errors are not excluded. */
  predicate IsOptionsObject(second: Value)
  {
    Truthy(second) && TypeofObject(second) && HasCauseKey(second)
  }

  /** src/MoyalError.js:67 */
  function ResolveCause(second: Value): Value
  {
    if IsOptionsObject(second) then CauseOf(second) else second
  }

  /** `new <target>(message, second)` with the constructor of src/MoyalError.js. */
  function Construct(host: Host, target: string, message: Value, second: Value): MoyalRec
  {
    Build(host, target, message, ResolveCause(DefaultSecond(second)))
  }

  /** Options are an ordinary object with a `cause` key, a native error that
      carries a cause, or any MoyalError at all (its class defines a `cause`
      accessor). On every other value both constructors agree. */
  lemma OptionsObjectIff(second: Value)
    ensures IsOptionsObject(second) <==>
      (second.Plain? && second.causeKey.Some?) || (second.Native? && second.ownCause.Some?) || second.Moyal?
    ensures !(second.Native? && second.ownCause.Some?) && !second.Moyal? ==>
      ResolveCause(second) == MoyalErrors.ResolveCause(second)
  {
  }

  /** The accessor: with native support it returns whatever value was
      resolved; without it only an Error survives; the name comes from
      `new.target`, the message defaults only for `undefined`. */
  lemma CauseGetter(host: Host, target: string, message: Value, second: Value)
    ensures var e := Construct(host, target, message, second);
      var resolved := ResolveCause(DefaultSecond(second));
      && (host.supportsNativeCause ==> Cause(e) == resolved)
      && (!host.supportsNativeCause ==> Cause(e) == if IsError(resolved) then resolved else Undefined)
      && e.name == target
      && (message.Undefined? ==> e.message == DefaultMessage)
      && (message.Str? ==> e.message == message.s)
  {
  }

  /** An Error that has a `cause` key, passed directly as the second argument,
      is unwrapped: the new error's cause is that Error's own cause (or
      nothing), and the Error itself appears nowhere on the new chain. */
  lemma DropsErrorWithCause(host: Host, target: string, message: Value, inner: Value)
    requires IsError(inner) && HasCauseKey(inner)
    ensures var e := Construct(host, target, message, inner);
      && (host.supportsNativeCause ==> Cause(e) == CauseOf(inner))
      && inner !in Chain(Cause(e))
  {
    var c := Cause(Construct(host, target, message, inner));
    assert Size(c) < Size(inner);
    ChainSizes(c, Size(inner));
  }

  /** With native support, wrapping an Error that has a cause prints one
      line fewer with this constructor than with the one of src/index.js:
      the wrapped Error's own line is missing. */
  lemma PrintsOneLineFewer(host: Host, target: string, message: Value, inner: Value)
    requires host.supportsNativeCause && IsError(inner) && HasCauseKey(inner)
    ensures |CauseLines(Moyal(Construct(host, target, message, inner)))| + 1
         == |CauseLines(Moyal(MoyalErrors.Construct(host, target, message, inner)))|
  {
    var legacy := Moyal(Construct(host, target, message, inner));
    var fixed := Moyal(MoyalErrors.Construct(host, target, message, inner));
    WalkLength(legacy, 0, Line);
    WalkLength(fixed, 0, Line);
    ChainStep(legacy);
    ChainStep(fixed);
    ChainStep(inner);
  }

  /** `new MoyalError("inner")` with the constructor of src/MoyalError.js. */
  function InnerError(host: Host): Value
  {
    Moyal(Construct(host, "MoyalError", Str("inner"), Undefined))
  }

  /** The inner error is a MoyalError with message "inner" and no cause:
      its `cause` reads `null` with native support and `undefined` without.
      Both constructors build the same record for it. */
  lemma InnerErrorFacts(host: Host)
    ensures InnerError(host).Moyal? && !Truthy(CauseOf(InnerError(host)))
    ensures CauseOf(InnerError(host)) == if host.supportsNativeCause then Null else Undefined
    ensures InnerError(host) == Moyal(MoyalErrors.Construct(host, "MoyalError", Str("inner"), Undefined))
    ensures InnerError(host).err.name == "MoyalError" && InnerError(host).err.message == "inner"
  {
    CauseGetter(host, "MoyalError", Str("inner"), Undefined);
  }

  /** How `printCauseChain` prints a MoyalError at depth 0 and 1. */
  lemma MoyalErrorLine(e: MoyalRec)
    requires e.name == "MoyalError"
    ensures Line(Moyal(e), 0) == "MoyalError: " + e.message
    ensures Line(Moyal(e), 1) == "  MoyalError: " + e.message
  {
    assert Indent(1) == "  ";
  }

  /** `new MoyalError("outer", new MoyalError("inner"))` with this
      constructor: the inner error is lost and `printCauseChain` prints one
      line, with or without native cause support. */
  lemma WrappedMoyalErrorIsLost(host: Host)
    ensures CauseLines(Moyal(Construct(host, "MoyalError", Str("outer"), InnerError(host)))) == ["MoyalError: outer"]
  {
    var inner := InnerError(host);
    var legacy := Construct(host, "MoyalError", Str("outer"), inner);
    InnerErrorFacts(host);
    MoyalErrorLine(legacy);
    assert "MoyalError: " + "outer" == "MoyalError: outer";
    WalkStep(Moyal(legacy), 0, Line);
    assert Walk(CauseOf(Moyal(legacy)), 1, Line) == [];
  }

  /** The same two errors with the constructor of src/index.js: both lines
      are printed, the inner one indented, with or without native cause
      support. */
  lemma WrappedMoyalErrorIsKept(host: Host)
    ensures CauseLines(Moyal(MoyalErrors.Construct(host, "MoyalError", Str("outer"), InnerError(host))))
         == ["MoyalError: outer", "  MoyalError: inner"]
  {
    var inner := InnerError(host);
    var fixed := MoyalErrors.Construct(host, "MoyalError", Str("outer"), inner);
    InnerErrorFacts(host);
    CauseIsThePassedError(host, "MoyalError", Str("outer"), inner);
    MoyalErrorLine(fixed);
    MoyalErrorLine(inner.err);
    assert "MoyalError: " + "outer" == "MoyalError: outer";
    assert "  MoyalError: " + "inner" == "  MoyalError: inner";
    WalkStep(Moyal(fixed), 0, Line);
    WalkStep(inner, 1, Line);
    assert Walk(CauseOf(inner), 2, Line) == [];
  }
}
