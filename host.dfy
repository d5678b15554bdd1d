/** What the JavaScript runtime supplies and the model does not define: floating-point transcendental
    functions, the local-time calendar, and number/date parsing and printing. Each model operation that
    needs one of them takes a `Runtime` argument, so every property proved holds for any runtime. */
module Host {
  import opened Numeric

  datatype Runtime = Runtime(
    /** `Math.exp` */
    exp: real -> real,
    /** `Math.pow` */
    pow: (real, real) -> real,
    /** `Math.sqrt` */
    sqrt: real -> real,
    /** The weekdays from `new Date(start)` to `new Date(end)`, each as `toISOString().slice(0, 10)` */
    businessDays: (string, string) -> seq<string>,
    /** `new Date(d).getMonth()` */
    month: string -> int,
    /** `new Date(d).getFullYear()` */
    year: string -> int,
    /** `Date.parse(d)` in milliseconds; `None` for NaN */
    parseDate: string -> Option<int>,
    /** `x.toString()` for a finite number */
    showNumber: real -> string,
    /** `Number(s)`; `None` when the result is not finite */
    parseNumber: string -> Option<real>)
}
