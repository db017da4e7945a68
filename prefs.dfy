/**
 * The profile's preference store, seen as a map from key to value.
 * Only the shapes of value that the startup code distinguishes are kept apart:
 * strings (`stringForKey`), integers (`setInt`), arrays whose elements are all
 * integers (`as? [Int]`), other arrays (`arrayForKey` succeeds, the cast fails),
 * and everything else.
 */
module Prefs {
  import opened Wrappers

  datatype PrefValue =
    | StrPref(text: string)
    | IntPref(number: int)
    | IntArrayPref(items: seq<int>)
    | OtherArrayPref
    | OtherPref

  type Store = map<string, PrefValue>

  /** `prefs.stringForKey(key) != nil`: some string is stored under the key; any other kind of value reads as nil. */
  predicate HoldsString(p: Store, key: string) {
    key in p && p[key].StrPref?
  }

  /** The key has the same presence, and the same value, in both stores. */
  predicate SameAt(p: Store, q: Store, key: string) {
    (key in p <==> key in q) && (key in p ==> p[key] == q[key])
  }

  /** The raw object stored under `key`, if any. */
  function Lookup(p: Store, key: string): (v: Option<PrefValue>)
    ensures v.Some? <==> key in p
    ensures v.Some? ==> v.value == p[key]
  {
    if key in p then Some(p[key]) else None
  }

  /** `arrayForKey` succeeds on this value. */
  predicate IsArray(v: PrefValue) {
    v.IntArrayPref? || v.OtherArrayPref?
  }
}
