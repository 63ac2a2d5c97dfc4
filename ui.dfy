/** What the client pages hand to the user besides their state: `sonner`
    toasts (recorded as the message they would show) and chat turns. */
module Ui {
  import opened Wrappers
  import Locale

  /** A string-or-null value as a JavaScript condition sees it: `null` and `""` are false. */
  predicate Truthy(s: Option<string>) {
    s.Some? && s.value != ""
  }

  /** The text of a toast: a translation key with its parameters, resolved by
      `t` when shown, or a fixed English text. */
  datatype Msg = Key(key: string, params: Locale.Params) | Plain(text: string)

  /** `toast.error(...)` or `toast.success(...)`. */
  datatype Toast = Error(msg: Msg) | Success(msg: Msg)

  /** A translation key without parameters. */
  function KeyOnly(key: string): Msg {
    Key(key, [])
  }

  /** Whether an optional callback prop (`onUploaded?.(x)`) was called, and with what. */
  datatype Notice<+T> = NotCalled | Called(arg: T)

  /** The author of a chat turn. */
  datatype Role = User | Assistant

  /** One chat turn, `{ role, content }`. */
  datatype Message = Message(role: Role, content: string)
}
