# moyal.js.error in Dafny

A model of the error library `@moyal/js-error`. The model covers the following parts of the library:

- `MoyalError`: an `Error` subclass that carries a cause. With ES2022 native `cause` support, the cause is kept as the own `cause` property that the host's `Error` constructor installs. Without that support, only a cause that is an `Error` is kept, in a private field; any other cause is dropped and the accessor returns `undefined`.
- The four renderers of a cause chain:
  - `toString()`, which nests causes one indentation level deeper each;
  - `toJSON()`, which nests records;
  - the `fullStack` getter, which appends one "Caused by:" segment per cause;
  - `printCauseChain`, which prints one indented line per link.
- `ArgumentError`, a `MoyalError` that also records an argument name.
- The six argument checks `throwIfNull`, `throwIfUndefined`, `throwIfNullOrUndefined`, `throwMissingArgument`, `throwIfEmptyString` and `throwIfNullOrWhitespace`.

The library ships two copies of the class:

- `src/index.js`, the module the package exports;
- `src/MoyalError.js`, an older file.

Their accessor, renderers and `printCauseChain` are the same code, and the same members model both. Their constructors differ in one condition; see "## Findings".

How the model is built:

- JavaScript values are the datatype `MoyalErrors.Value`.
  - It covers `undefined`, `null`, booleans, integral numbers, strings, ordinary objects that may have a `cause` key, native errors, and MoyalErrors.
  - A chain of causes is therefore finite and cannot loop.
- A MoyalError never changes after its constructor returns. Its state is therefore a record (`MoyalRec`), and `new` is a function of:
  - its arguments;
  - what the host supplies: whether it supports native causes, the captured stack text, and the creation timestamp.
- `toString` and `toJSON` recurse through the cause in the source, and they are recursive functions here. `#_tabify` is a single global `replace` in the source; here it is a recursive function over the characters.
- `fullStack` and `printCauseChain` are loops in the source. They are methods here, with the source's `while` loops. Each is proved against a recursive function over `Chain(v)`, the values that `while (x) { …; x = x.cause }` visits.

Two fallbacks apply only to nullish values:

- The message falls back to the placeholder text only when it is `undefined`. Any other value goes through `String(message)`, so `null` gives "null" and "" stays "".
- `printCauseChain` writes "(no message)" only when `message` is `null` or `undefined` (operator `??`). An empty message stays empty.

Module layout:

- `text.dfy` (`Text`): `repeat`, `join`, `split`, `trim` and the decimal form of integers.
- `errors.dfy` (`MoyalErrors`): the values, construction, the `cause` accessor, `toString`, `#_tabify` and `toJSON`.
- `walks.dfy` (`CauseWalks`): `fullStack` and `printCauseChain`.
- `arguments.dfy` (`Arguments`): `ArgumentError` and the six checks.
- `legacy.dfy` (`LegacyMoyalError`): the constructor of `src/MoyalError.js`.

## Model

| member | source | states |
|---|---|---|
| MoyalErrors.Truthy | src/index.js:90 | `if (v)`: `undefined`, `null`, `false`, `0` and "" are falsy, everything else truthy. It is used by the options test and by every `while (current)` loop; `CauseLinesShape` shows a falsy input prints nothing. |
| MoyalErrors.IsError | src/index.js:90 | `v instanceof Error`: native errors and MoyalErrors. `OptionsObjectIff` shows an Error is never options. |
| MoyalErrors.TypeofObject | src/index.js:90 | `typeof v === 'object'`: `null`, ordinary objects and errors. Together with the other three tests it lets through only ordinary objects with a `cause` key, as `OptionsObjectIff` states. |
| MoyalErrors.HasCauseKey | src/index.js:90 | `'cause' in v`: an ordinary object or native error with a `cause` property, and every MoyalError, through the accessor on its prototype. `LegacyMoyalError.OptionsObjectIff` shows that this makes every MoyalError an options bag at src/MoyalError.js:66. |
| MoyalErrors.CauseOf | src/index.js:177 | `v.cause`: a MoyalError's accessor, a native error's or an ordinary object's own property, else `undefined`. `CauseOfShrinks` shows it gives a smaller value. |
| MoyalErrors.Nullish | src/index.js:280 | `value == null`: exactly `null` and `undefined`. `ThrowIfNullOrUndefined` throws exactly for these, and `CauseJson` turns them into `null` (the `?? null` of line 163). |
| MoyalErrors.NameOf | src/index.js:193 | `v.name`: an error's name, else `undefined`. `LabelFallbacks` states how `printCauseChain` uses it. |
| MoyalErrors.MessageOf | src/index.js:193 | `v.message`: an error's message, else `undefined`. `LabelFallbacks` states how `printCauseChain` uses it; `FullStackMentionsEveryCause` how `fullStack` does. |
| MoyalErrors.StackOf | src/index.js:176 | `v.stack`: an error's stack, if any, else `undefined`. `FullStackMentionsEveryCause` states how `fullStack` uses it. |
| MoyalErrors.OrElse | src/index.js:193 | `p ?? d` on a string property: the property when it is defined, else the default. `LabelFallbacks` shows that only a missing name or message is replaced. |
| MoyalErrors.PropText | src/index.js:176 | A property in a template literal: its text, or "undefined" when it is missing, so a primitive cause adds "\nCaused by: undefined" to `fullStack`. `FullStackMentionsEveryCause` covers it. |
| MoyalErrors.PropTruthy | src/index.js:135 | The truth test on a string property: defined and non-empty. `Head` shows the stack is appended only then, and `StackOrMessage` uses the same test at line 176. |
| MoyalErrors.DefaultSecond | src/index.js:88 | The default parameter `second = null` never leaves the second argument `undefined`. |
| MoyalErrors.IsOptionsObject | src/index.js:90 | The options test; `OptionsObjectIff` states which values pass it. |
| MoyalErrors.ResolveCause | src/index.js:91 | The cause the constructor settles on; `OptionsObjectIff` shows that an Error is kept as it is and `CauseIsThePassedError` that an options bag gives up its `cause`. |
| MoyalErrors.Construct | src/index.js:88-103 | `new MoyalError(message, second)`; `CauseGetter` and `CauseIsThePassedError` state what its `cause` accessor returns, `Build` the other fields. |
| MoyalErrors.Cause | src/index.js:109-113 | The `cause` accessor; `CauseGetter` states what it returns on either host, `CauseShrinks` that it gives a smaller value. |
| MoyalErrors.OptionsObjectIff | src/index.js:90-91 | The second argument counts as options exactly when it is an ordinary object with a `cause` key. An Error passed directly is never unwrapped, even when it has its own cause. |
| MoyalErrors.Build | src/index.js:92-102 | After construction: the name and type are `new.target`'s name; stack and timestamp come from the host; the message is the placeholder for `undefined` and the string itself for a string; the `cause` accessor returns the resolved cause with native support, and without it only an Error (else `undefined`). |
| MoyalErrors.CauseIsThePassedError | src/index.js:88-113 | An Error passed directly, or as `{ cause: err }`, is exactly what the `cause` accessor returns, with or without native support. |
| MoyalErrors.CauseGetter | src/index.js:91-113 | The accessor returns the resolved cause, or `undefined` for a non-Error without native support. A missing second argument resolves to `null`; the accessor returns it with native support and `undefined` without. |
| MoyalErrors.CauseShrinks | src/index.js:109-113 | A MoyalError's cause is strictly smaller than the error itself, so no error is its own cause. |
| MoyalErrors.CauseOfShrinks | src/index.js:177 | Reading `.cause` of anything other than `null` or `undefined` gives a strictly smaller value, so every `while (current)` walk ends. |
| MoyalErrors.Tabify | src/index.js:144-146 | Indenting adds exactly two characters per newline. |
| MoyalErrors.UntabifyTabify | src/index.js:144-146 | Indenting loses nothing: removing the two spaces after each newline gives back the original text. |
| MoyalErrors.TabifyNoNewline | src/index.js:144-146 | Text without a newline is unchanged by indenting. |
| MoyalErrors.TabifyConcat | src/index.js:144-146 | Indenting a concatenation indents each part separately. |
| MoyalErrors.TabifySubstring | src/index.js:144-146 | An occurrence of `a` in `b` is still an occurrence after both are indented. |
| MoyalErrors.Head | src/index.js:132-137 | `#_toStringNonRecursive` starts with the name. It contains ": " + message when the message is non-empty. It ends with "\n" and the indented stack when the stack is non-empty. It is just the name when there is no message and no stack. |
| MoyalErrors.NativeToString | src/index.js:123 | `toString()` of a native cause (section 20.5.3.4 of ECMA-262); used by `ToStr`. |
| MoyalErrors.ToStr | src/index.js:119-126 | `String(v)`, and `toString()` for a MoyalError; `ToStringStartsWithHead`, `ToStringWithoutCause`, `ToStringHasMessage`, `ToStringHoldsCause` and `ToStringNestsCauses` state its layout. |
| MoyalErrors.ToStringWithoutCause | src/index.js:120-125 | `toString()` equals `#_toStringNonRecursive()` exactly when the cause is falsy: "Caused by..." is appended only for a truthy cause. |
| MoyalErrors.ToStringStartsWithHead | src/index.js:119-126 | `toString()` starts with `#_toStringNonRecursive()`. |
| MoyalErrors.ToStringHasMessage | src/index.js:119-137 | `toString()` starts with the name and contains the message. |
| MoyalErrors.ToStringHoldsCause | src/index.js:121-124 | When the cause is truthy, "\nCaused by...\n" followed by the cause's own `toString()`, indented once, is part of the output. |
| MoyalErrors.ToStringNestsCauses | src/index.js:119-126 | Indentation compounds: through a run of MoyalErrors, the `toString()` of the link `d` levels down, indented `d` times, is part of the first link's `toString()`. |
| MoyalErrors.Chain | src/index.js:175-177 | Every value the walk visits is truthy. |
| MoyalErrors.ChainMoyalRun | src/index.js:175-177 | Within the leading run of MoyalErrors, every link of the chain is a MoyalError. |
| MoyalErrors.ChainIsAcyclic | src/index.js:175-177 | The values on a chain are pairwise distinct, so the walk never revisits a link. |
| MoyalErrors.ChainSizes | src/index.js:175-177 | Every link of a chain is smaller than any bound above its start. |
| MoyalErrors.ToJson | src/index.js:153-165 | The record carries the error's name, type (the constructor's name), timestamp, message and stack. |
| MoyalErrors.CauseJson | src/index.js:161-163 | The `cause` field: `null` for a nullish cause; a primitive or an ordinary object as it is; a native error as it is, or as its shallow record once native errors have a `toJSON`; a MoyalError as its own record. |
| MoyalErrors.RunEnd | src/index.js:161-163 | The value that ends the nested records is never a MoyalError; `RunEndInChain` places it on the chain. |
| MoyalErrors.RunEndInChain | src/index.js:174-177 | The run of MoyalErrors is no longer than the chain. When the chain goes on past the run, the end of the run is the chain's next link. When every link is a MoyalError, the run ends in a falsy value. |
| MoyalErrors.ToJsonFollowsChain | src/index.js:153-165 | At depth `d` of the nested records there is the record of link `d` of the chain, with that link's name, type, timestamp, message and stack. |
| MoyalErrors.ToJsonEnds | src/index.js:153-165 | Below the last MoyalError the records end with the serialised first link that is not a MoyalError. That is `null` when the run ends in `null` or `undefined`. |
| MoyalErrors.NestedToJson | src/index.js:153-165 | `new MoyalError("Outer", { cause: new MoyalError("Inner") }).toJSON()` holds the record of "Inner", whose own `cause` is `null`, on any host. |
| CauseWalks.StackText | src/index.js:173 | The receiver's stack, or "" when it is missing or empty (line 173); `FullStack` starts its result with it. |
| CauseWalks.StackOrMessage | src/index.js:176 | The cause's stack when it is non-empty, else its message (line 176); `FullStackMentionsEveryCause` shows it appears for every cause. |
| CauseWalks.Segment | src/index.js:176 | The text one cause link adds; `CausedByIsPerLink` and `FullStackSegments` place it in the result. |
| CauseWalks.FullStackStep | src/index.js:175-178 | One turn of the `fullStack` loop keeps "text so far + segments still to come" equal to the whole result. |
| CauseWalks.FullStack | src/index.js:172-180 | `fullStack` is the receiver's stack (or "") followed by one "\nCaused by: " segment per link of its cause chain. |
| CauseWalks.CausedByIsPerLink | src/index.js:175-178 | The appended text is exactly the concatenation of one segment per chain link, in chain order. |
| CauseWalks.FullStackSegments | src/index.js:172-180 | Link `k`'s segment sits between the segments of the links before it and those after it. |
| CauseWalks.FullStackMentionsEveryCause | src/index.js:176 | Every cause's stack, or its message when it has no stack, appears in `fullStack` after "Caused by: ". |
| CauseWalks.WalkLength | src/index.js:192-196 | A walk makes one line per link of the chain. |
| CauseWalks.WalkAt | src/index.js:192-196 | The line for link `d` is made for that link at depth `depth + d`. |
| CauseWalks.PrintStep | src/index.js:192-196 | One turn of the `printCauseChain` loop keeps "lines pushed + lines still to come" equal to all the lines. |
| CauseWalks.PrintCauseChain | src/index.js:189-198 | The result is the chain's lines joined by "\n". |
| CauseWalks.CauseLinesShape | src/index.js:189-198 | There is one line per link. Line `d` is `2*d` spaces followed by that link's label. A falsy input gives "". When no label contains a newline, splitting the output on "\n" gives back exactly the lines. |
| CauseWalks.Line | src/index.js:193 | The line pushed for a link: the indentation for its depth followed by its label; `CauseLinesShape` states its layout in the output. |
| CauseWalks.Label | src/index.js:193 | The label of one line; `LabelFallbacks` states its fallbacks and `CauseLinesShape` where it sits in the line. |
| CauseWalks.LabelFallbacks | src/index.js:193 | A value with no name or message gets "Error: (no message)". An error gets its own name and message. An empty message stays empty. |
| Text.Join | src/index.js:197 | `lines.join('\n')`; `SplitJoin` and `CauseLinesShape` show that splitting the output on "\n" gives the lines back when none holds a newline. |
| Text.Indent | src/index.js:193 | `"  ".repeat(depth)` is `2*depth` characters long. |
| Text.IndentIsSpaces | src/index.js:193 | The indentation consists of spaces only. |
| Text.TrimStart | src/index.js:316 | Leading trim drops exactly a white-space prefix and leaves a suffix that is empty or starts with a non-white-space character. |
| Text.TrimEnd | src/index.js:316 | Trailing trim drops exactly a white-space suffix and leaves a prefix that is empty or ends with a non-white-space character. |
| Text.IsWhitespace | src/index.js:316 | The code points `trim` removes: ECMA-262's WhiteSpace and LineTerminator. `TrimStart`, `TrimEnd` and `TrimEmptyIff` are stated in terms of it. |
| Text.Trim | src/index.js:316 | `s.trim()`, both trims in turn; `TrimStart`, `TrimEnd` and `TrimEmptyIff` characterise it. |
| Text.TrimEmptyIff | src/index.js:316 | `s.trim() === ""` holds exactly when every character of `s` is ECMAScript white space or a line terminator. |
| Text.NatToDecimal | src/index.js:95 | `String(n)` of a natural number below 10^21 is a non-empty string of decimal digits. |
| Text.IntToDecimal | src/index.js:95 | `String(n)` for an integral number: a "-" for a negative one, then the digits of its magnitude, which `NatToDecimal` and `NatToDecimalValue` characterise. |
| Text.NatToDecimalValue | src/index.js:95 | Those digits denote `n`, and they start with '0' only when `n` is 0 (written "0"). |
| Arguments.NewArgumentError | src/index.js:233-245 | The error is named "ArgumentError", keeps the given argument name, has no cause, takes a string message as it is, and gets the placeholder message when the message is `undefined`. |
| Arguments.ArgLabel | src/index.js:257 | `argumentName ?? "argument"`: the given name, or "argument" when it is `undefined`; `Raise` and the six checks put it at the head of the message. |
| Arguments.Raise | src/index.js:257 | Every check throws an ArgumentError whose message is the argument name (or "argument") followed by the check's fixed text. |
| Arguments.ThrowIfNull | src/index.js:255-258 | Throws exactly when the value is `null`, with "<name> can not be 'null'". |
| Arguments.ThrowIfUndefined | src/index.js:267-270 | Throws exactly when the value is `undefined`, with "<name> can not be 'undefined'". |
| Arguments.ThrowIfNullOrUndefined | src/index.js:279-282 | Throws exactly when `value == null`, with "<name> can not be 'null' or 'undefined'". |
| Arguments.ThrowMissingArgument | src/index.js:290-292 | Always throws, with "<name> is missing". |
| Arguments.ThrowIfEmptyString | src/index.js:301-304 | Throws exactly when the value is the string "", with "<name> cannot be an empty string". |
| Arguments.ThrowIfNullOrWhitespace | src/index.js:314-318 | Throws exactly when the value is `null`, `undefined`, or a string made only of white space (the empty string included), with "<name> cannot be null, empty, or whitespace". |
| Arguments.NullOrUndefinedIsEither | src/index.js:255-282 | The combined check throws exactly when the null check or the undefined check throws. |
| Arguments.WhitespaceCheckIsStricter | src/index.js:301-318 | Whatever the empty-string check rejects, the white-space check rejects too. A non-empty all-white-space string passes the first and fails the second. |
| Arguments.MissingIdScenario | src/index.js:290-292 | `throwMissingArgument("id")` throws "id is missing" with argument name "id". |
| Arguments.WhitespaceScenario | src/index.js:314-318 | `throwIfNullOrWhitespace("   ", "name")` throws and `throwIfNullOrWhitespace("ok", "name")` returns. |
| LegacyMoyalError.IsOptionsObject | src/MoyalError.js:66 | The options test of this constructor; `OptionsObjectIff` states which values pass it. |
| LegacyMoyalError.ResolveCause | src/MoyalError.js:67 | The cause this constructor settles on; `DropsErrorWithCause` shows that an Error with a `cause` key is unwrapped. |
| LegacyMoyalError.Construct | src/MoyalError.js:64-79 | `new MoyalError(message, second)` with this constructor; `CauseGetter` states its fields and accessor. |
| LegacyMoyalError.OptionsObjectIff | src/MoyalError.js:66-67 | This constructor treats as options: any ordinary object with a `cause` key, any native error that has its own cause, and every MoyalError. On all other values it agrees with the constructor of src/index.js. |
| LegacyMoyalError.CauseGetter | src/MoyalError.js:64-89 | The accessor returns the resolved cause with native support, and only an Error without it. The name comes from `new.target`. The message defaults only for `undefined`. |
| LegacyMoyalError.DropsErrorWithCause | src/MoyalError.js:66-67 | An Error that has a `cause` key, passed directly, is unwrapped. With native support the new cause is that Error's own cause. The Error itself appears nowhere on the new chain. |
| LegacyMoyalError.PrintsOneLineFewer | src/MoyalError.js:164-173 | With native support, wrapping such an Error prints one line fewer than with the constructor of src/index.js. |
| LegacyMoyalError.InnerErrorFacts | src/MoyalError.js:64-79 | `new MoyalError("inner")` with this constructor has name "MoyalError", message "inner" and a falsy cause: `null` with native support, `undefined` without. It is the same record the constructor of src/index.js builds. |
| LegacyMoyalError.MoyalErrorLine | src/MoyalError.js:168 | `printCauseChain` prints a MoyalError as "MoyalError: " + message, indented by its depth. |
| LegacyMoyalError.WrappedMoyalErrorIsLost | src/MoyalError.js:66 | `new MoyalError("outer", new MoyalError("inner"))` prints only "MoyalError: outer", with or without native cause support. |
| LegacyMoyalError.WrappedMoyalErrorIsKept | src/index.js:90 | The same errors built with the constructor of src/index.js print "MoyalError: outer" and then "  MoyalError: inner", with or without native cause support. |

## Left out

- `version()` and `MoyalError.version`: they read a generated build-info file, which is not part of this model.
- The native-cause probe `#_testCauseSupport`: it runs the host's `Error` constructor. Its result is the `supportsNativeCause` field of `Host`.
- `Host`: in the source, native-cause support is one process-wide static field, while the model takes it per construction. The model can therefore build chains that mix native and fallback errors, which the source cannot; every lemma holds for all values, these included.
- The stack trace and the `Date` timestamp come from the host. They are opaque strings supplied through `Host`, and `toISOString` is not modelled.
- `extendNativeError`: it mutates the global `Error.prototype`. Its only effect on this library's output is the `nativeToJson` flag of `ToJson`, which selects the shallow record for native causes.
- `JSON.stringify` of the records is not modelled. `Raw` stands for a value embedded as it is.
- `isString` comes from the `@moyal/js-type` package. It is modelled as the `Str` case of `Value`, so boxed `String` objects are not covered.
- Argument names are a string or `undefined`. Other values passed as a name (numbers, objects) are not modelled.
- `ToStr`, `IntToDecimal`, `NatToDecimal`: a number is written with all its digits. JavaScript writes a magnitude of 10^21 or more in exponent form ("1e+21"), and integers above 2^53 are not all exact numbers; neither is modelled.
- Numbers are integers. `NaN`, infinities, fractions and `-0` are not modelled, nor are symbols, functions, BigInt or arrays.
- Identity of objects is not modelled: two structurally equal errors are equal values, and `!==` between distinct but equal objects cannot be expressed.
- Cyclic cause chains cannot be built with `Value`. On such a chain the source's `toString` recursion and loops would not end.
- Property reads on arbitrary objects are modelled only for `cause` (ordinary objects) and for `name`, `message`, `stack` and `cause` (errors). Getters defined by users, `name` or `toString` overridden by users, are not modelled. Subclasses are modelled by their name only (`new.target.name`); a subclass with its own constructor, fields or overrides, other than `ArgumentError`, is not modelled.
- Native errors are stringified with `Error.prototype.toString` (section 20.5.3.4 of ECMA-262). A native error whose `toString` was replaced is not covered.
- `ArgumentError.argumentName`: the getter just returns the stored field, which is the `argumentName` field of `MoyalRec`.
- Text is a sequence of Unicode code points (Dafny `char`s), not of UTF-16 code units. Lengths therefore count code points: a character outside the Basic Multilingual Plane has length 1 here and 2 in JavaScript. Lone surrogates are not modelled. `trim` uses the WhiteSpace and LineTerminator code points of ECMA-262.

## Findings

| source | as written | input that shows it | evidently intended | confidence | as-written member | corrected member |
|---|---|---|---|---|---|---|
| src/MoyalError.js:66 | Any truthy object with a `cause` key is taken as an options bag. Every MoyalError has a `cause` accessor, and a native error given a cause has its own `cause` key, so passing such an error directly unwraps it. The error itself is lost, and its cause takes its place. | `new MoyalError("outer", new MoyalError("inner"))`: `printCauseChain` prints "MoyalError: outer" only. | The passed error becomes the cause, as the documentation of the second parameter allows a direct error and as src/index.js:90 does by excluding `instanceof Error`. | not executed | LegacyMoyalError.WrappedMoyalErrorIsLost | MoyalErrors.CauseIsThePassedError |
