/** Error classification for the GitButler core: a closed set of error codes
    that the user interface relies on, a context pairing a code with an
    optional user-facing message, and the rule that picks the richest such
    context attached to an error. */
module ErrorContext {

  datatype Option<+T> = None | Some(value: T)

  // ---------------------------------------------------------------------------
  // Code
  // ---------------------------------------------------------------------------

  /** The error classes the backend reports and the frontend tells apart.
      The derived ordering follows the order in which the variants are listed. */
  datatype Code = Unknown | Validation | ProjectGitAuth

  /** The default code: the catch-all `Unknown`. */
  function DefaultCode(): (c: Code)
    ensures c == Unknown
    ensures forall d: Code :: CodeLe(c, d)
    ensures CodeString(c) == "errors.unknown"
  {
    Unknown
  }

  /** Position of a code in its declaration, the basis of the derived ordering. */
  function Discriminant(c: Code): (n: nat)
    ensures n < 3
    ensures n == 0 <==> c == Unknown
  {
    match c
    case Unknown => 0
    case Validation => 1
    case ProjectGitAuth => 2
  }

  /** Derived partial order on codes: compares declaration positions. */
  function CodeLt(a: Code, b: Code): (r: bool)
    ensures r ==> a != b
    ensures r <==> (a == Unknown && b != Unknown) || (a == Validation && b == ProjectGitAuth)
  {
    Discriminant(a) < Discriminant(b)
  }

  /** Derived non-strict order: strictly smaller, or the same code. */
  function CodeLe(a: Code, b: Code): (r: bool)
    ensures r <==> CodeLt(a, b) || a == b
  {
    Discriminant(a) <= Discriminant(b)
  }

  /** The derived ordering is a strict total order that follows the
      declaration: Unknown < Validation < ProjectGitAuth. */
  lemma CodeOrderIsTotal(a: Code, b: Code, c: Code)
    ensures CodeLt(a, b) || a == b || CodeLt(b, a)
    ensures !(CodeLt(a, b) && CodeLt(b, a))
    ensures !CodeLt(a, a)
    ensures CodeLt(a, b) && CodeLt(b, c) ==> CodeLt(a, c)
    ensures CodeLe(a, b) <==> (CodeLt(a, b) || a == b)
    ensures CodeLt(Unknown, Validation) && CodeLt(Validation, ProjectGitAuth)
  {
  }

  /** The string key under which the frontend knows a code. */
  function CodeString(c: Code): (s: string)
    ensures |s| > |"errors."| && s[..|"errors."|] == "errors."
    ensures CodeFromString(s) == Some(c)
  {
    match c
    case Unknown => "errors.unknown"
    case Validation => "errors.validation"
    case ProjectGitAuth => "errors.projects.git.auth"
  }

  /** The inverse of `CodeString`: which code, if any, a key names. */
  function CodeFromString(s: string): (r: Option<Code>)
  {
    if s == "errors.unknown" then Some(Unknown)
    else if s == "errors.validation" then Some(Validation)
    else if s == "errors.projects.git.auth" then Some(ProjectGitAuth)
    else None
  }

  /** Every key that names a code is exactly that code's display string. */
  lemma CodeFromStringSound(s: string, c: Code)
    requires CodeFromString(s) == Some(c)
    ensures CodeString(c) == s
  {
  }

  /** The display mapping is injective: distinct codes have distinct keys. */
  lemma CodeStringInjective(a: Code, b: Code)
    ensures CodeString(a) == CodeString(b) <==> a == b
  {
  }

  // ---------------------------------------------------------------------------
  // Context
  // ---------------------------------------------------------------------------

  /** What an error carries for the user interface: its class, possibly
      `Unknown`, and optionally a text for the user. */
  datatype Context = Context(code: Code, message: Option<string>)

  /** Text shown when a context carries no message. */
  const FallbackMessage: string := "Something went wrong"

  /** The default context: code `Unknown` and no message. */
  function DefaultContext(): (ctx: Context)
    ensures ctx.code == DefaultCode() && ctx.message == None
    ensures Display(ctx) == FallbackMessage
  {
    Context(DefaultCode(), None)
  }

  /** Displaying a context yields its message, or the fallback text. */
  function Display(ctx: Context): (s: string)
    ensures ctx.message.Some? ==> s == ctx.message.value
    ensures ctx.message.None? ==> s == FallbackMessage
  {
    match ctx.message
    case Some(m) => m
    case None => FallbackMessage
  }

  /** The fallback text is shown exactly when there is no message, or when the
      message happens to be that same text. */
  lemma DisplayIsFallback(ctx: Context)
    ensures Display(ctx) == FallbackMessage <==>
      (ctx.message == None || ctx.message == Some(FallbackMessage))
  {
  }

  /** Two contexts with the same message display the same, whatever their codes. */
  lemma DisplayIgnoresCode(x: Context, y: Context)
    requires x.message == y.message
    ensures Display(x) == Display(y)
  {
  }

  /** Conversion from a bare code: the code is kept and there is no message. */
  function FromCode(code: Code): (ctx: Context)
    ensures ctx.code == code && ctx.message.None?
    ensures Display(ctx) == FallbackMessage
  {
    Context(code, None)
  }

  /** A context with an owned message, always classified as `Unknown`. */
  function New(message: string): (ctx: Context)
    ensures ctx.code == Unknown && ctx.message == Some(message)
    ensures Display(ctx) == message
  {
    Context(Unknown, Some(message))
  }

  /** A context with a given code and a statically known message. */
  function NewStatic(code: Code, message: string): (ctx: Context)
    ensures ctx.code == code && ctx.message == Some(message)
    ensures Display(ctx) == message
  {
    Context(code, Some(message))
  }

  /** Replace the code of a context, keeping its message. */
  function WithCode(ctx: Context, code: Code): (r: Context)
    ensures r.code == code && r.message == ctx.message
    ensures Display(r) == Display(ctx)
  {
    ctx.(code := code)
  }

  /** `New` followed by `WithCode` is `NewStatic`. */
  lemma NewWithCodeIsNewStatic(message: string, code: Code)
    ensures WithCode(New(message), code) == NewStatic(code, message)
  {
  }

  /** Replacing the code twice is the same as replacing it once with the last
      code, and replacing it with the code it already has changes nothing. */
  lemma WithCodeLastWins(ctx: Context, a: Code, b: Code)
    ensures WithCode(WithCode(ctx, a), b) == WithCode(ctx, b)
    ensures WithCode(ctx, ctx.code) == ctx
  {
  }

  /** A chain of `WithCode` calls, applied left to right. */
  function WithCodes(ctx: Context, codes: seq<Code>): (r: Context)
    ensures r.message == ctx.message
    decreases |codes|
  {
    if codes == [] then ctx else WithCodes(WithCode(ctx, codes[0]), codes[1..])
  }

  /** Any non-empty chain of `WithCode` calls equals its last call alone. */
  lemma {:induction false} WithCodesLastWins(ctx: Context, codes: seq<Code>)
    requires codes != []
    ensures WithCodes(ctx, codes) == WithCode(ctx, codes[|codes| - 1])
    decreases |codes|
  {
    if |codes| == 1 {
      assert WithCodes(WithCode(ctx, codes[0]), codes[1..]) == WithCode(ctx, codes[0]);
    } else {
      WithCodesLastWins(WithCode(ctx, codes[0]), codes[1..]);
      WithCodeLastWins(ctx, codes[0], codes[|codes| - 1]);
    }
  }

  // ---------------------------------------------------------------------------
  // Looking up context attached to an error
  // ---------------------------------------------------------------------------

  /** An error as seen by the context lookup: the context attached to it, if
      any, the code attached to it, if any, and the text of its root cause. */
  datatype AnyError = AnyError(
    attachedContext: Option<Context>,
    attachedCode: Option<Code>,
    rootCause: string)

  /** The custom context attached to an error, preferring a full `Context`
      over a bare `Code`. */
  function CustomContext(e: AnyError): (r: Option<Context>)
    ensures e.attachedContext.Some? ==> r == e.attachedContext
    ensures e.attachedContext.None? && e.attachedCode.Some? ==>
      r == Some(FromCode(e.attachedCode.value))
    ensures r.None? <==> e.attachedContext.None? && e.attachedCode.None?
  {
    match e.attachedContext
    case Some(ctx) => Some(ctx)
    case None =>
      match e.attachedCode
      case Some(code) => Some(FromCode(code))
      case None => None
  }

  /** The custom context of an error, or else an `Unknown` context whose
      message is the text of the error's root cause. */
  function CustomContextOrRootCause(e: AnyError): (r: Context)
    ensures CustomContext(e).Some? ==> r == CustomContext(e).value
    ensures CustomContext(e).None? ==> r == New(e.rootCause)
  {
    match CustomContext(e)
    case Some(ctx) => ctx
    case None => Context(Unknown, Some(e.rootCause))
  }

  /** The lookup never reports a message the error did not carry: the
      result has no message exactly when only a bare code is attached, or the
      attached context itself has none. */
  lemma LookupMessage(e: AnyError)
    ensures CustomContextOrRootCause(e).message.None? <==>
      ((e.attachedContext.None? && e.attachedCode.Some?) ||
       (e.attachedContext.Some? && e.attachedContext.value.message.None?))
  {
  }

  /** How the looked-up context displays: as the attached context does, as the
      fallback text for a bare code, and as the root cause when nothing is
      attached. */
  lemma LookupDisplay(e: AnyError)
    ensures e.attachedContext.Some? ==>
      Display(CustomContextOrRootCause(e)) == Display(e.attachedContext.value)
    ensures e.attachedContext.None? && e.attachedCode.Some? ==>
      Display(CustomContextOrRootCause(e)) == FallbackMessage
    ensures e.attachedContext.None? && e.attachedCode.None? ==>
      Display(CustomContextOrRootCause(e)) == e.rootCause
  {
  }

  /** When nothing is attached the result is classified `Unknown`; when only a
      code is attached the result carries that code. */
  lemma LookupCode(e: AnyError)
    ensures e.attachedContext.None? && e.attachedCode.None? ==>
      CustomContextOrRootCause(e).code == Unknown
    ensures e.attachedContext.None? && e.attachedCode.Some? ==>
      CustomContextOrRootCause(e).code == e.attachedCode.value
    ensures e.attachedContext.Some? ==>
      CustomContextOrRootCause(e).code == e.attachedContext.value.code
  {
  }
}
