/**
 * The user entity as the profile plugin reads it, and PHP's truthiness for the
 * few values whose truth the plugin tests.
 */
module Entities {
  import opened Wrappers

  /**
   * An ElggUser as seen by the plugin: its GUID, its username, whether it is
   * banned, whether it is an administrator, and its `icontime` metadata (absent
   * when the user never uploaded an avatar).
   */
  datatype User = User(guid: nat, username: string, banned: bool, admin: bool, iconTime: Option<nat>)

  /** PHP truthiness of a string: every string except "" and "0" is true. */
  predicate TruthyString(s: string) {
    s != "" && s != "0"
  }

  /** PHP truthiness of a string or null. */
  predicate Truthy(v: Option<string>) {
    v.Some? && TruthyString(v.value)
  }

  /** PHP truthiness of the `icontime` metadata: null and 0 are false. */
  predicate IconTimeSet(t: Option<nat>) {
    t.Some? && t.value != 0
  }
}
