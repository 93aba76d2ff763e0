# Error classification in the GitButler core

This project models the error-classification vocabulary of the GitButler
core (`crates/gitbutler-core/src/error.rs`) in Dafny and proves its
properties. The vocabulary has three parts:

- `Code`: a closed set of error codes that the user interface relies on.
  `Unknown` is the default. Each code has a fixed string key, such as
  `errors.unknown`. Codes are ordered by declaration, as the derived
  `PartialOrd` orders them.
- `Context`: a code plus an optional user-facing message. It can be built
  from a bare code, with `new` (code `Unknown`) or with `new_static`, and
  `with_code` replaces its code. Displaying it shows the message, or
  "Something went wrong" when there is none.
- The context lookup on an error (`custom_context`,
  `custom_context_or_root_cause`). An attached `Context` is preferred over
  an attached bare `Code`. When neither is attached, the lookup falls back to
  an `Unknown` context whose message is the text of the error's root cause.

Everything lives in one module, `ErrorContext`, in `error.dfy`. The `anyhow`
error is modelled as a record `AnyError` with three fields: the `Context`
attached to it (if any), the `Code` attached to it (if any), and the text of
its root cause. `CodeFromString` is the inverse of the key mapping. The
source has no such function; the model uses it as the partner that proves the
mapping injective. `WithCodes` applies `with_code` repeatedly and states the
composition law of the builder for chains of any length.

## Model

| member | source | states |
|---|---|---|
| ErrorContext.DefaultCode | crates/gitbutler-core/src/error.rs:84-89 | the default code is `Unknown`, the least code in the derived order, and its key is "errors.unknown" |
| ErrorContext.Discriminant | crates/gitbutler-core/src/error.rs:84-92 | a code's declaration position, below 3, and 0 exactly for `Unknown`; the derived ordering compares these positions |
| ErrorContext.CodeLt | crates/gitbutler-core/src/error.rs:84-92 | the derived `<`: holds exactly for Unknown before Validation or ProjectGitAuth, and Validation before ProjectGitAuth; never between equal codes |
| ErrorContext.CodeLe | crates/gitbutler-core/src/error.rs:84-92 | the derived `<=`: strictly smaller, or the same code |
| ErrorContext.CodeOrderIsTotal | crates/gitbutler-core/src/error.rs:84-92 | the derived order is a strict total order following declaration order: Unknown < Validation < ProjectGitAuth |
| ErrorContext.CodeString | crates/gitbutler-core/src/error.rs:94-103 | every code has a key in the "errors." namespace, and the key maps back to the same code |
| ErrorContext.CodeFromStringSound | crates/gitbutler-core/src/error.rs:94-103 | any key that names a code is exactly that code's display string |
| ErrorContext.CodeStringInjective | crates/gitbutler-core/src/error.rs:94-103 | two codes have the same key if and only if they are the same code |
| ErrorContext.DefaultContext | crates/gitbutler-core/src/error.rs:109-115 | the default context has the default code and no message, so it displays the fallback text |
| ErrorContext.Display | crates/gitbutler-core/src/error.rs:117-121 | a context displays its message when one is present, and otherwise "Something went wrong" |
| ErrorContext.DisplayIsFallback | crates/gitbutler-core/src/error.rs:117-121 | the fallback text is shown if and only if there is no message or the message is that same text |
| ErrorContext.DisplayIgnoresCode | crates/gitbutler-core/src/error.rs:117-121 | the displayed text depends only on the message, never on the code |
| ErrorContext.FromCode | crates/gitbutler-core/src/error.rs:123-130 | converting a code keeps the code, sets no message, and displays the fallback text |
| ErrorContext.New | crates/gitbutler-core/src/error.rs:133-139 | `new` always gives code Unknown and the given message, which is what it displays |
| ErrorContext.NewStatic | crates/gitbutler-core/src/error.rs:141-147 | `new_static` keeps the given code and message, and displays that message |
| ErrorContext.WithCode | crates/gitbutler-core/src/error.rs:149-153 | `with_code` sets the code and leaves the message, and so the displayed text, unchanged |
| ErrorContext.NewWithCodeIsNewStatic | crates/gitbutler-core/src/error.rs:133-153 | `new` followed by `with_code` equals `new_static` with the same code and message |
| ErrorContext.WithCodeLastWins | crates/gitbutler-core/src/error.rs:149-153 | applying `with_code` twice equals applying only the last code, and re-applying the current code changes nothing |
| ErrorContext.WithCodesLastWins | crates/gitbutler-core/src/error.rs:149-153 | any non-empty chain of `with_code` calls equals its last call alone |
| ErrorContext.CustomContext | crates/gitbutler-core/src/error.rs:174-180 | an attached context is returned whatever code is attached; otherwise an attached code becomes a context without message; the result is absent if and only if nothing is attached |
| ErrorContext.CustomContextOrRootCause | crates/gitbutler-core/src/error.rs:182-187 | equals the custom context when there is one, and otherwise a context with code Unknown and the root-cause text as message |
| ErrorContext.LookupMessage | crates/gitbutler-core/src/error.rs:174-187 | the lookup result has no message if and only if only a bare code is attached, or the attached context has no message |
| ErrorContext.LookupDisplay | crates/gitbutler-core/src/error.rs:174-187 | the looked-up context displays (by the rule at lines 117-121) as the attached context does, as the fallback text for a bare code, and as the root-cause text when nothing is attached |
| ErrorContext.LookupCode | crates/gitbutler-core/src/error.rs:182-187 | the lookup result carries the attached context's code, else the attached code, else Unknown |

## Left out

- How `anyhow` finds attached context and codes (`downcast_ref` over the context chain) and how it computes the root cause. This is foreign library code. The model takes its results as the three fields of `AnyError`.
- What the frontend shows for an error that carries only a bare code (crates/gitbutler-core/src/error.rs:29-32 says it then uses a message provided earlier). The model states only how the looked-up context itself displays.
- Backtrace capture by `anyhow`. It has no effect on classification.
- Formatter plumbing (`std::fmt::Formatter`, `write_str`). Display is modelled as a function that returns a string.
- The borrowed-versus-owned distinction of the message (`Cow`). Both forms are modelled as `string`.
- The sealed-trait device that restricts who may implement the lookup trait. It is a visibility rule with no behaviour.
- `src-tauri/src/project_repository/mod.rs` declares modules and re-exports names only. It has no logic to model.
