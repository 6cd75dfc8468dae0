/** Optional values, error-carrying results and the text tests shared by every component. */
module Common {

  datatype Option<+T> = None | Some(value: T)

  datatype Result<+T, +E> = Ok(value: T) | Err(error: E)

  /** Instants are counted from Go's zero Time, so 0 is the unset time. */
  type Time = int

  const NO_TIME: Time := 0

  function Get<K, V>(m: map<K, V>, k: K): Option<V> {
    if k in m then Some(m[k]) else None
  }

  /** A deadline that is set and not after now. */
  predicate Due(expiresAt: Time, now: Time) {
    expiresAt != NO_TIME && expiresAt <= now
  }

  /** Unicode white space, as strings.TrimSpace understands it. */
  predicate IsSpace(c: char) {
    || 9 <= c as int <= 13
    || c as int in {0x20, 0x85, 0xA0, 0x1680, 0x2028, 0x2029, 0x202F, 0x205F, 0x3000}
    || 0x2000 <= c as int <= 0x200A
  }

  /** strings.TrimSpace(s) == "" */
  predicate Blank(s: string) {
    forall i | 0 <= i < |s| :: IsSpace(s[i])
  }

  /** strings.TrimSpace */
  function Trim(s: string): string {
    if s != [] && IsSpace(s[0]) then Trim(s[1..])
    else if s != [] && IsSpace(s[|s| - 1]) then Trim(s[..|s| - 1])
    else s
  }
}
