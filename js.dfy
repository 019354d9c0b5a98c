/** The few pieces of JavaScript and browser semantics that the pages rely on:
    optional values, JS numbers with their truthiness, the library functions
    the pages call but this model does not define, and navigation as a
    recorded value. */
module Js {

  datatype Option<+T> = None | Some(value: T)

  /** A JavaScript number: NaN or an ordinary value. Float rounding and the
      infinities are not modelled; the pages only store, compare and format
      numbers. */
  datatype Number = NaN | Num(value: real)

  /** `if (n)` on a number: false for NaN and for 0. */
  predicate Truthy(n: Number) {
    n.Num? && n.value != 0.0
  }

  /** `if (x)` on an optional number (`undefined`, NaN and 0 are falsy). */
  predicate TruthyId(x: Option<Number>) {
    x.Some? && Truthy(x.value)
  }

  /** `if (s)` on a string that may be `null`: false for null and for "". */
  predicate TruthyText(s: Option<string>) {
    s.Some? && s.value != ""
  }

  /** `a === b` on numbers: NaN equals nothing, not even itself. */
  predicate StrictEquals(a: Option<Number>, b: Number) {
    b.Num? && a == Some(b)
  }

  /** Library functions of the JavaScript runtime that the pages call and
      this model does not define: number-to-text conversion in template
      strings, `parseFloat`, `parseInt`, `new Date(s).toISOString()` (None
      when it throws on an invalid date) and the project's
      `formatDateForInput`. */
  datatype Runtime = Runtime(
    show: Number -> string,
    parseFloat: string -> Number,
    parseInt: string -> Number,
    toIsoString: string -> Option<string>,
    formatDateForInput: string -> string)

  /** A router location: a path and its decoded query parameters. */
  datatype Location = Location(path: string, query: map<string, string>)

  /** What a click handler does outside the page's own state. */
  datatype Effect = Stay | Navigate(to: Location) | Alert(message: string)
}
