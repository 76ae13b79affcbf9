/** The `MoyalError` class of src/index.js: how a cause is resolved and stored,
    the `cause` accessor, `toString` with its nested indentation, `#_tabify`,
    and `toJSON`.

    A MoyalError is never changed after its constructor returns, so an instance
    is a value (`MoyalRec`) and the constructor a function from its arguments
    and what the host supplies (native-cause support, stack text, timestamp).
    The values a cause chain can reach are one datatype, `Value`; a chain is
    therefore finite and cannot loop back on itself. */
module MoyalErrors {
  import opened Text

  datatype Option<+T> = None | Some(value: T)

  /** A JavaScript value, as far as the cause chain looks at it. */
  datatype Value =
    | Undefined
    | Null
    | Bool(b: bool)
    | Num(n: int)
      /** an ordinary object; `causeKey` is `Some(c)` when it has a `cause` property holding `c` */
    | Plain(causeKey: Option<Value>)
      /** an instance of the host's `Error` that is not a MoyalError;
          `ownCause` is its own `cause` property, if it has one */
    | Native(errName: string, errType: string, errMessage: string, errStack: Option<string>, ownCause: Option<Value>)
    | Moyal(err: MoyalRec)
    | Str(s: string)

  /** The state of a MoyalError (or ArgumentError) instance.
      `ownCause` is the own `cause` data property that the host's `Error`
      constructor installs when it is given `{ cause }`; it shadows the `cause`
      accessor of the class. `privateCause` is the `#_cause` field used when the
      host has no native cause support. `argumentName` is what the
      `argumentName` accessor reads (`None` stands for `undefined`). */
  datatype MoyalRec = MoyalRec(
    name: string,
    typeName: string,
    message: string,
    stack: Option<string>,
    timestamp: string,
    ownCause: Option<Value>,
    privateCause: Value,
    argumentName: Option<string>)

  /** What the host supplies to one construction: the process-wide result of the
      native-cause probe, the captured stack text and the ISO-8601 timestamp. */
  datatype Host = Host(supportsNativeCause: bool, stack: Option<string>, timestamp: string)

  const DefaultMessage: string := "No message description was set to this error."

  // ---------------------------------------------------------------------------
  // JavaScript operators on values

  /** The size of a value; every `.cause` read of a value other than
      `undefined` gives a smaller one. */
  function Size(v: Value): nat
  {
    match v
    case Undefined => 0
    case Plain(k) => 1 + (if k.Some? then Size(k.value) else 0)
    case Native(_, _, _, _, k) => 1 + (if k.Some? then Size(k.value) else 0)
    case Moyal(e) => 1 + (if e.ownCause.Some? then Size(e.ownCause.value) else 0) + Size(e.privateCause)
    case _ => 1
  }

  /** `if (v)` */
  predicate Truthy(v: Value)
  {
    match v
    case Undefined => false
    case Null => false
    case Bool(b) => b
    case Num(n) => n != 0
    case Str(s) => s != ""
    case _ => true
  }

  /** `v == null`, that is `v` is `null` or `undefined` */
  predicate Nullish(v: Value)
  {
    v.Undefined? || v.Null?
  }

  /** `v instanceof Error` */
  predicate IsError(v: Value)
  {
    v.Native? || v.Moyal?
  }

  /** `typeof v === 'object'` */
  predicate TypeofObject(v: Value)
  {
    v.Null? || v.Plain? || IsError(v)
  }

  /** `'cause' in v`, for an object `v`. Every MoyalError answers yes: its
      class defines a `cause` accessor on the prototype. */
  predicate HasCauseKey(v: Value)
  {
    match v
    case Plain(k) => k.Some?
    case Native(_, _, _, _, k) => k.Some?
    case Moyal(_) => true
    case _ => false
  }

  /** The `cause` accessor of a MoyalError (src/index.js:109-113). With native
      support the own property installed at construction is what a read finds;
      without it the accessor returns `#_cause`. */
  function Cause(e: MoyalRec): Value
  {
    match e.ownCause
    case Some(c) => c
    case None => e.privateCause
  }

  /** `v.cause`, for a value other than `null`/`undefined` */
  function CauseOf(v: Value): Value
  {
    match v
    case Plain(k) => if k.Some? then k.value else Undefined
    case Native(_, _, _, _, k) => if k.Some? then k.value else Undefined
    case Moyal(e) => Cause(e)
    case _ => Undefined
  }

  /** The cause of a MoyalError is smaller than the error. */
  lemma CauseShrinks(e: MoyalRec)
    ensures Size(Cause(e)) < Size(Moyal(e))
  {
  }

  /** Reading `.cause` of anything but `undefined` gives a smaller value,
      so every walk along causes ends. */
  lemma CauseOfShrinks(v: Value)
    requires !v.Undefined?
    ensures Size(CauseOf(v)) < Size(v)
  {
    if v.Moyal? {
      CauseShrinks(v.err);
    }
  }

  /** `v.name`, a string or `undefined` (`None`) */
  function NameOf(v: Value): Option<string>
  {
    match v
    case Native(name, _, _, _, _) => Some(name)
    case Moyal(e) => Some(e.name)
    case _ => None
  }

  /** `v.message`, a string or `undefined` (`None`) */
  function MessageOf(v: Value): Option<string>
  {
    match v
    case Native(_, _, message, _, _) => Some(message)
    case Moyal(e) => Some(e.message)
    case _ => None
  }

  /** `v.stack`, a string or `undefined` (`None`) */
  function StackOf(v: Value): Option<string>
  {
    match v
    case Native(_, _, _, stack, _) => stack
    case Moyal(e) => e.stack
    case _ => None
  }

  /** `p ?? d` for a property that is a string or `undefined` */
  function OrElse(p: Option<string>, d: string): string
  {
    if p.Some? then p.value else d
  }

  /** `${p}` for a property that is a string or `undefined` */
  function PropText(p: Option<string>): string
  {
    OrElse(p, "undefined")
  }

  /** `p` is a non-empty string, so `p || q` picks it */
  predicate PropTruthy(p: Option<string>)
  {
    p.Some? && p.value != ""
  }

  // ---------------------------------------------------------------------------
  // Construction (src/index.js:88-103)

  /** The default parameter `second = null`: an `undefined` second argument becomes `null`. */
  function DefaultSecond(second: Value): (r: Value)
    ensures !r.Undefined?
  {
    if second.Undefined? then Null else second
  }

  /** src/index.js:90: a truthy object that is not an Error and has a `cause` key is an options bag. */
  predicate IsOptionsObject(second: Value)
  {
    Truthy(second) && !IsError(second) && TypeofObject(second) && HasCauseKey(second)
  }

  /** src/index.js:91: the cause the constructor settles on. */
  function ResolveCause(second: Value): Value
  {
    if IsOptionsObject(second) then CauseOf(second) else second
  }

  /** Lines 92-102 once the cause is resolved: `super(String(message), restOptions)`,
      the name taken from `new.target`, and the fallback `#_cause`. Shared by the
      constructors of src/index.js and src/MoyalError.js, which differ only in how
      they resolve the cause. */
  function Build(host: Host, target: string, message: Value, cause: Value): (e: MoyalRec)
    ensures e.name == target && e.typeName == target
    ensures e.stack == host.stack && e.timestamp == host.timestamp
    ensures message.Undefined? ==> e.message == DefaultMessage
    ensures message.Str? ==> e.message == message.s
    ensures host.supportsNativeCause ==> Cause(e) == cause
    ensures !host.supportsNativeCause ==> Cause(e) == if IsError(cause) then cause else Undefined
    ensures e.argumentName.None?
  {
    var text := if message.Undefined? then DefaultMessage else ToStr(message);
    MoyalRec(
      name := target,
      typeName := target,
      message := text,
      stack := host.stack,
      timestamp := host.timestamp,
      ownCause := if host.supportsNativeCause then Some(cause) else None,
      privateCause := if !host.supportsNativeCause && IsError(cause) then cause else Undefined,
      argumentName := None)
  }

  /** `new <target>(message, second)` for `MoyalError` or a subclass named `target`. */
  function Construct(host: Host, target: string, message: Value, second: Value): MoyalRec
  {
    Build(host, target, message, ResolveCause(DefaultSecond(second)))
  }

  /** Only an ordinary object with a `cause` key is taken as options; an Error
      is never unwrapped, even one that carries its own cause. */
  lemma OptionsObjectIff(second: Value)
    ensures IsOptionsObject(second) <==> second.Plain? && second.causeKey.Some?
    ensures IsError(second) ==> ResolveCause(second) == second
  {
  }

  /** The accessor gives back the error that was passed, directly or as `{ cause }`,
      whether or not the host supports native causes. */
  lemma CauseIsThePassedError(host: Host, target: string, message: Value, inner: Value)
    requires IsError(inner)
    ensures Cause(Construct(host, target, message, inner)) == inner
    ensures Cause(Construct(host, target, message, Plain(Some(inner)))) == inner
  {
    OptionsObjectIff(inner);
  }

  /** With native support the accessor returns whatever value was resolved,
      `null` for a missing second argument; without it, only an Error survives. */
  lemma CauseGetter(host: Host, target: string, message: Value, second: Value)
    ensures var resolved := ResolveCause(DefaultSecond(second));
      && (host.supportsNativeCause ==> Cause(Construct(host, target, message, second)) == resolved)
      && (!host.supportsNativeCause ==>
            Cause(Construct(host, target, message, second)) == if IsError(resolved) then resolved else Undefined)
    ensures second.Undefined? ==> ResolveCause(DefaultSecond(second)) == Null
  {
  }

  // ---------------------------------------------------------------------------
  // #_tabify (src/index.js:144-146)

  /** `String(str).replace(/\n/g, "\n  ")` */
  function Tabify(s: string): (r: string)
    ensures |r| == |s| + 2 * NewlineCount(s)
  {
    if s == [] then [] else (if s[0] == '\n' then "\n  " else [s[0]]) + Tabify(s[1..])
  }

  /** Undoes `Tabify`: drops the two spaces after each newline. */
  function Untabify(s: string): string
  {
    if s == [] then []
    else if |s| >= 3 && s[0] == '\n' && s[1] == ' ' && s[2] == ' ' then "\n" + Untabify(s[3..])
    else [s[0]] + Untabify(s[1..])
  }

  /** Nothing is lost: the original text can be recovered from the indented one. */
  lemma {:induction false} UntabifyTabify(s: string)
    ensures Untabify(Tabify(s)) == s
  {
    if s != [] {
      UntabifyTabify(s[1..]);
      if s[0] == '\n' {
        assert Tabify(s) == "\n  " + Tabify(s[1..]);
        assert (Tabify(s))[3..] == Tabify(s[1..]);
      } else {
        assert Tabify(s) == [s[0]] + Tabify(s[1..]);
        assert (Tabify(s))[1..] == Tabify(s[1..]);
      }
    }
  }

  /** Text without a newline is left as it is. */
  lemma {:induction false} TabifyNoNewline(s: string)
    requires '\n' !in s
    ensures Tabify(s) == s
  {
    if s != [] {
      assert s[0] != '\n';
      assert forall c :: c in s[1..] ==> c in s;
      TabifyNoNewline(s[1..]);
    }
  }

  /** Indenting a concatenation indents each part. */
  lemma {:induction false} TabifyConcat(a: string, b: string)
    ensures Tabify(a + b) == Tabify(a) + Tabify(b)
  {
    if a == [] {
      assert a + b == b;
    } else {
      assert (a + b)[0] == a[0];
      assert (a + b)[1..] == a[1..] + b;
      TabifyConcat(a[1..], b);
    }
  }

  /** Indentation keeps substrings: an occurrence of `a` in `b` becomes an
      occurrence of the indented `a` in the indented `b`. */
  lemma TabifySubstring(a: string, b: string)
    requires IsSubstring(a, b)
    ensures IsSubstring(Tabify(a), Tabify(b))
  {
    var i :| OccursAt(a, b, i);
    assert b == b[..i] + a + b[i + |a|..];
    TabifyConcat(b[..i] + a, b[i + |a|..]);
    TabifyConcat(b[..i], a);
    SubstringOfConcat(Tabify(b[..i]), Tabify(a), Tabify(b[i + |a|..]));
  }

  // ---------------------------------------------------------------------------
  // toString (src/index.js:119-137)

  /** `#_toStringNonRecursive`: the name, `": " + message` when the message is
      not empty, and the indented stack on a new line when there is one. */
  function Head(e: MoyalRec): (s: string)
    ensures |e.name| <= |s| && s[..|e.name|] == e.name
    ensures e.message != "" ==> IsSubstring(": " + e.message, s)
    ensures e.message == "" && !PropTruthy(e.stack) ==> s == e.name
    ensures PropTruthy(e.stack) ==>
      var t := "\n" + Tabify(e.stack.value); |t| <= |s| && s[|s| - |t|..] == t
  {
    var withMessage := e.name + (if e.message != "" then ": " + e.message else "");
    var s := withMessage + (if PropTruthy(e.stack) then "\n" + Tabify(e.stack.value) else "");
    if e.message != "" then
      SubstringOfConcat(e.name, ": " + e.message, s[|withMessage|..]);
      assert s == e.name + (": " + e.message) + s[|withMessage|..];
      s
    else s
  }

  /** Error.prototype.toString (ECMA-262, section 20.5.3.4), for a native error. */
  function NativeToString(name: string, message: string): string
  {
    if name == "" then message else if message == "" then name else name + ": " + message
  }

  /** `String(v)`; for a MoyalError this is its `toString()`, which appends
      "\nCaused by...\n" and the cause's own `toString()`, indented one level,
      when the cause is truthy. */
  function ToStr(v: Value): string
    decreases Size(v)
  {
    match v
    case Undefined => "undefined"
    case Null => "null"
    case Bool(b) => if b then "true" else "false"
    case Num(n) => IntToDecimal(n)
    case Str(s) => s
    case Plain(_) => "[object Object]"
    case Native(name, _, message, _, _) => NativeToString(name, message)
    case Moyal(e) =>
      var c := Cause(e);
      Head(e) + (if Truthy(c) then "\nCaused by...\n" + Tabify(ToStr(c)) else "")
  }

  /** `Tabify` applied `depth` times: the indentation of a cause `depth` links down. */
  function Nest(depth: nat, s: string): string
  {
    if depth == 0 then s else Tabify(Nest(depth - 1, s))
  }

  /** The values `while (x) { ...; x = x.cause }` visits, starting at `v`. */
  function Chain(v: Value): (links: seq<Value>)
    ensures forall k :: 0 <= k < |links| ==> Truthy(links[k])
    decreases Size(v)
  {
    if Truthy(v) then [v] + Chain(CauseOf(v)) else []
  }

  /** One step of the walk: a truthy value is followed by the chain of its cause. */
  lemma ChainStep(v: Value)
    requires Truthy(v)
    ensures Chain(v) == [v] + Chain(CauseOf(v))
  {
  }

  /** Number of MoyalErrors at the front of the chain from `v`. */
  function MoyalRun(v: Value): nat
    decreases Size(v)
  {
    if v.Moyal? then 1 + MoyalRun(CauseOf(v)) else 0
  }

  /** The links before position `d` of a chain are MoyalErrors when `d` is
      within the run of MoyalErrors at its front. */
  lemma {:induction false} ChainMoyalRun(v: Value, k: nat)
    requires k < MoyalRun(v)
    ensures k < |Chain(v)| && Chain(v)[k].Moyal?
    decreases Size(v)
  {
    if k > 0 {
      CauseOfShrinks(v);
      ChainMoyalRun(CauseOf(v), k - 1);
    }
  }

  /** The chain's values are pairwise distinct: a cause chain has no cycle. */
  lemma {:induction false} ChainIsAcyclic(v: Value)
    ensures forall i, j :: 0 <= i < j < |Chain(v)| ==> Chain(v)[i] != Chain(v)[j]
    decreases Size(v)
  {
    if Truthy(v) {
      CauseOfShrinks(v);
      ChainIsAcyclic(CauseOf(v));
      ChainSizes(CauseOf(v), Size(v));
    }
  }

  /** Every value on the chain from `v` is no larger than `v`. */
  lemma {:induction false} ChainSizes(v: Value, bound: nat)
    requires Size(v) < bound
    ensures forall k :: 0 <= k < |Chain(v)| ==> Size(Chain(v)[k]) < bound
    decreases Size(v)
  {
    if Truthy(v) {
      CauseOfShrinks(v);
      ChainSizes(CauseOf(v), bound);
    }
  }

  /** `toString()` of a MoyalError starts with `#_toStringNonRecursive()`. */
  lemma ToStringStartsWithHead(e: MoyalRec)
    ensures |Head(e)| <= |ToStr(Moyal(e))| && ToStr(Moyal(e))[..|Head(e)|] == Head(e)
  {
    var c := Cause(e);
    var rest := if Truthy(c) then "\nCaused by...\n" + Tabify(ToStr(c)) else "";
    assert ToStr(Moyal(e)) == Head(e) + rest;
  }

  /** "Caused by..." is appended exactly when the cause is truthy: with a
      falsy cause `toString()` is `#_toStringNonRecursive()` alone. */
  lemma ToStringWithoutCause(e: MoyalRec)
    ensures ToStr(Moyal(e)) == Head(e) <==> !Truthy(Cause(e))
  {
    if Truthy(Cause(e)) {
      assert |ToStr(Moyal(e))| >= |Head(e)| + |"\nCaused by...\n"|;
    }
  }

  /** `toString()` of a MoyalError starts with its name and contains its message. */
  lemma ToStringHasMessage(e: MoyalRec)
    ensures ToStr(Moyal(e))[..|e.name|] == e.name
    ensures IsSubstring(e.message, ToStr(Moyal(e)))
  {
    var s := ToStr(Moyal(e));
    var h := Head(e);
    ToStringStartsWithHead(e);
    assert s[..|e.name|] == h[..|e.name|];
    if e.message != "" {
      assert IsSubstring(h, s) by {
        assert OccursAt(h, s, 0);
      }
      assert IsSubstring(e.message, ": " + e.message) by {
        assert OccursAt(e.message, ": " + e.message, 2);
      }
      SubstringTransitive(": " + e.message, h, s);
      SubstringTransitive(e.message, ": " + e.message, s);
    } else {
      assert OccursAt(e.message, s, 0);
    }
  }

  /** The `toString()` of a MoyalError with a truthy cause holds the cause's
      own `toString()`, indented one level, after "Caused by...". */
  lemma ToStringHoldsCause(e: MoyalRec)
    requires Truthy(Cause(e))
    ensures IsSubstring("\nCaused by...\n" + Tabify(ToStr(Cause(e))), ToStr(Moyal(e)))
  {
    var c := Cause(e);
    assert ToStr(Moyal(e)) == Head(e) + ("\nCaused by...\n" + Tabify(ToStr(c))) + [];
    SubstringOfConcat(Head(e), "\nCaused by...\n" + Tabify(ToStr(c)), []);
  }

  /** Indentation compounds with depth: when every link before depth `d` is a
      MoyalError, the `toString()` of the link at depth `d`, indented `d`
      times, is part of the `toString()` of the first link. */
  lemma {:induction false} ToStringNestsCauses(v: Value, d: nat)
    requires d < |Chain(v)| && d <= MoyalRun(v)
    ensures IsSubstring(Nest(d, ToStr(Chain(v)[d])), ToStr(v))
    decreases d
  {
    if d == 0 {
      assert OccursAt(ToStr(v), ToStr(v), 0);
    } else {
      var c := CauseOf(v);
      ChainStep(v);
      assert Chain(v)[d] == Chain(c)[d - 1];
      ToStringNestsCauses(c, d - 1);
      TabifySubstring(Nest(d - 1, ToStr(Chain(c)[d - 1])), ToStr(c));
      ToStringHoldsCause(v.err);
      SubstringOfConcat("\nCaused by...\n", Tabify(ToStr(c)), []);
      assert "\nCaused by...\n" + Tabify(ToStr(c)) + [] == "\nCaused by...\n" + Tabify(ToStr(c));
      SubstringTransitive(Tabify(ToStr(c)), "\nCaused by...\n" + Tabify(ToStr(c)), ToStr(v));
      SubstringTransitive(Nest(d, ToStr(Chain(v)[d])), Tabify(ToStr(c)), ToStr(v));
    }
  }

  // ---------------------------------------------------------------------------
  // toJSON (src/index.js:153-165)

  /** What `toJSON()` returns. `Record` is a MoyalError's record; `Shallow` is
      the record a native error gives once its prototype has been extended
      with a `toJSON`; `Raw` is a cause embedded as it is. */
  datatype Json =
    | JNull
    | Raw(value: Value)
    | Record(name: string, typeName: string, timestamp: string, message: string, stack: Option<string>, cause: Json)
    | Shallow(sName: string, sType: string, sMessage: string, sStack: Option<string>, sCause: Option<Value>)

  /** `toJSON()` of a MoyalError. `nativeToJson` tells whether the host's
      `Error.prototype` has been given a `toJSON` (extendNativeError). */
  function ToJson(e: MoyalRec, nativeToJson: bool): (j: Json)
    ensures j.Record? && j.name == e.name && j.typeName == e.typeName
    ensures j.timestamp == e.timestamp && j.message == e.message && j.stack == e.stack
    decreases Size(Moyal(e)), 0
  {
    Record(e.name, e.typeName, e.timestamp, e.message, e.stack, CauseJson(Cause(e), nativeToJson))
  }

  /** The `cause` field: `cause.toJSON()` when the cause is an Error with a
      `toJSON`, otherwise `cause ?? null`. */
  function CauseJson(c: Value, nativeToJson: bool): (j: Json)
    ensures Nullish(c) ==> j == JNull
    ensures c.Plain? || c.Bool? || c.Num? || c.Str? ==> j == Raw(c)
    ensures c.Native? ==> j == if nativeToJson then Shallow(c.errName, c.errType, c.errMessage, c.errStack,
                                                               if Truthy(CauseOf(c)) then Some(CauseOf(c)) else None)
                                                  else Raw(c)
    ensures c.Moyal? ==> j == ToJson(c.err, nativeToJson)
    decreases Size(c), 1
  {
    match c
    case Moyal(e) => ToJson(e, nativeToJson)
    case Native(name, typeName, message, stack, _) =>
      if nativeToJson then
        var inner := CauseOf(c);
        Shallow(name, typeName, message, stack, if Truthy(inner) then Some(inner) else None)
      else Raw(c)
    case _ => if Nullish(c) then JNull else Raw(c)
  }

  /** The record `depth` levels down, following `cause` fields of `Record`s. */
  function JsonAt(j: Json, depth: nat): Option<Json>
  {
    if depth == 0 then Some(j)
    else if j.Record? then JsonAt(j.cause, depth - 1)
    else None
  }

  /** The first value of the chain that is not a MoyalError. */
  function RunEnd(v: Value): (r: Value)
    ensures !r.Moyal?
    decreases Size(v)
  {
    if v.Moyal? then RunEnd(CauseOf(v)) else v
  }

  /** The end of the run is the chain's link right after the run of
      MoyalErrors, or a falsy value when every link is a MoyalError. */
  lemma {:induction false} RunEndInChain(v: Value)
    ensures MoyalRun(v) <= |Chain(v)|
    ensures MoyalRun(v) < |Chain(v)| ==> RunEnd(v) == Chain(v)[MoyalRun(v)]
    ensures MoyalRun(v) == |Chain(v)| ==> !Truthy(RunEnd(v))
    decreases Size(v)
  {
    if v.Moyal? {
      CauseOfShrinks(v);
      RunEndInChain(CauseOf(v));
      ChainStep(v);
    }
  }

  /** `toJSON()` nests one record per MoyalError of the chain, each carrying the
      name, type, timestamp, message and stack of its link, and ends with
      the serialised first link that is not a MoyalError (`null` when the run
      ends in `null` or `undefined`). */
  lemma {:induction false} ToJsonFollowsChain(e: MoyalRec, nativeToJson: bool, d: nat)
    requires d < MoyalRun(Moyal(e))
    ensures d < |Chain(Moyal(e))| && Chain(Moyal(e))[d].Moyal?
    ensures var link := Chain(Moyal(e))[d].err;
      && JsonAt(ToJson(e, nativeToJson), d).Some?
      && var j := JsonAt(ToJson(e, nativeToJson), d).value;
      && j.Record? && j.name == link.name && j.typeName == link.typeName
      && j.timestamp == link.timestamp && j.message == link.message && j.stack == link.stack
    decreases d
  {
    ChainMoyalRun(Moyal(e), d);
    if d > 0 {
      var c := Cause(e);
      ToJsonFollowsChain(c.err, nativeToJson, d - 1);
      assert Chain(Moyal(e))[d] == Chain(c)[d - 1];
    }
  }

  /** The level below the last MoyalError is the serialised end of the run. */
  lemma {:induction false} ToJsonEnds(e: MoyalRec, nativeToJson: bool)
    ensures JsonAt(ToJson(e, nativeToJson), MoyalRun(Moyal(e))) == Some(CauseJson(RunEnd(Moyal(e)), nativeToJson))
    ensures Nullish(RunEnd(Moyal(e))) ==> JsonAt(ToJson(e, nativeToJson), MoyalRun(Moyal(e))) == Some(JNull)
    decreases Size(Moyal(e))
  {
    var c := Cause(e);
    if c.Moyal? {
      CauseShrinks(e);
      ToJsonEnds(c.err, nativeToJson);
    }
  }

  /** `new MoyalError("Outer", { cause: new MoyalError("Inner") }).toJSON()`:
      the record of "Outer" holds the record of "Inner", whose own `cause`
      field is `null`, with or without native cause support. */
  lemma NestedToJson(host: Host, nativeToJson: bool)
    ensures var inner := Construct(host, "MoyalError", Str("Inner"), Undefined);
      var j := ToJson(Construct(host, "MoyalError", Str("Outer"), Plain(Some(Moyal(inner)))), nativeToJson);
      && j.name == "MoyalError" && j.message == "Outer"
      && j.cause.Record? && j.cause.name == "MoyalError" && j.cause.message == "Inner"
      && j.cause.cause == JNull
  {
    var inner := Construct(host, "MoyalError", Str("Inner"), Undefined);
    CauseIsThePassedError(host, "MoyalError", Str("Outer"), Moyal(inner));
    CauseGetter(host, "MoyalError", Str("Inner"), Undefined);
    assert Nullish(Cause(inner));
    assert ToJson(inner, nativeToJson).cause == CauseJson(Cause(inner), nativeToJson);
  }
}
