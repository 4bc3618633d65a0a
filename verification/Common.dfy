/** Small shared vocabulary: optional values, results, errors and the content of files. */
module Common {
  datatype Option<+T> = None | Some(value: T)

  datatype Result<+T, +E> = Ok(value: T) | Err(error: E)

  /**
  An error is a text, possibly wrapped in the contexts it passed through. NotFound stands
  for the API server's answer to a failed read, NilReference for a dereferenced nil pointer.
  */
  datatype Error =
    | Leaf(text: string)
    | Wrap(context: string, cause: Error)
    | NotFound(kind: string, namespace: string, name: string)
    | NilReference

  /** The context that an error was wrapped in last. */
  function Context(e: Error): string {
    if e.Wrap? then e.context else ""
  }

  /** File contents; converting between a Go string and a []byte keeps the bytes. */
  type Bytes = string

  type Files = map<string, Bytes>

  /** Decoded JSON; numbers are kept as they are written. */
  datatype Json =
    | Null
    | Bool(b: bool)
    | Number(n: string)
    | Str(s: string)
    | Arr(items: seq<Json>)
    | Obj(fields: map<string, Json>)

  predicate HasPrefix(s: string, prefix: string) {
    |prefix| <= |s| && s[..|prefix|] == prefix
  }

  predicate HasSuffix(s: string, suffix: string) {
    |suffix| <= |s| && s[|s| - |suffix|..] == suffix
  }

  /** strings.TrimSuffix */
  function TrimSuffix(s: string, suffix: string): string {
    if HasSuffix(s, suffix) then s[..|s| - |suffix|] else s
  }
}
