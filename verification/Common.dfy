/** Small vocabulary shared by the models. */
module Common {

  /** Seconds between two looks at a process's remaining time (src/process.h). */
  const HEARTBEAT := 60

  datatype Option<+T> = None | Some(value: T)

  /** g_slist_next: the rest of a list, and NULL stays NULL. */
  function Next<T>(s: seq<T>): seq<T> {
    if s == [] then [] else s[1..]
  }

  function Min(a: int, b: int): int {
    if a < b then a else b
  }

  function Max(a: int, b: int): int {
    if a < b then b else a
  }
}
