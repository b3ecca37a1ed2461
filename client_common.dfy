/** Value types shared by the client pages: what a component renders and how an awaited API call ended. */
module ClientCommon {
  import opened Common

  /** What a guard component returns: the loading spinner, a `<Navigate to=...>` redirect, or its children. */
  datatype Screen = Spinner | Redirect(to: string) | Children

  /**
   * The settled outcome of an awaited API call: its response data, or a rejection carrying the response status and
   * `response.data.message` when a response arrived.
   */
  datatype Call<+T> = Done(value: T) | Failed(status: Option<int>, message: Option<string>)

  /** JavaScript `message || fallback`: a missing or empty message falls back. */
  function OrElse(message: Option<string>, fallback: string): (r: string)
    ensures message.Some? && message.value != "" ==> r == message.value
    ensures message.None? || message.value == "" ==> r == fallback
  {
    if message.Some? && message.value != "" then message.value else fallback
  }

  /** The decimal digits of a number as a template literal writes it, for the request URLs that carry an id. */
  function Decimal(n: int): string
    decreases if n < 0 then 1 - n else n
  {
    if n < 0 then "-" + Decimal(-n)
    else if n < 10 then ["0123456789"[n]]
    else Decimal(n / 10) + ["0123456789"[n % 10]]
  }
}
