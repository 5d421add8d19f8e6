/** What the app writes to the console on its error and warning paths. Only
    the fixed label of each call is kept; the error object printed after it
    comes from a library and is not modelled. */
module Console {

  datatype Entry =
    | Error(text: string)    // console.error
    | Warning(text: string)  // console.warn
}
