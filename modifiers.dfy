/** How the tooltip directive turns its binding options into the flag object
    that the rest of the directive reads (getModifiers in Tooltip.js). */
module Modifiers {

  /** A JavaScript property that may be undefined. */
  datatype Option<+T> = None | Some(value: T)

  /** A modifier object: each property name with the truthiness of its value. */
  type Flags = map<string, bool>

  /** The directive argument (`v-tooltip:arg`). For an object argument,
      `entries` is `Object.entries(arg)`: its own properties in order, each
      value written in the string form it takes when used as a property key. */
  datatype Arg =
    | NoArg                                    // undefined, null or any other falsy value
    | ScalarArg(text: string)                  // a truthy value that is not an object
    | ObjectArg(entries: seq<(string, string)>)

  /** `flags[name]` is truthy. */
  predicate Has(flags: Flags, name: string) {
    name in flags && flags[name]
  }

  /** The two argument keys whose values become flags. */
  predicate IsSelectorKey(key: string) {
    key == "event" || key == "position"
  }

  /** `k` is the value stored under `event` or `position` in some entry. */
  predicate Selected(entries: seq<(string, string)>, k: string) {
    exists i :: 0 <= i < |entries| && IsSelectorKey(entries[i].0) && entries[i].1 == k
  }

  lemma SelectedUncons(entries: seq<(string, string)>, k: string)
    requires entries != []
    ensures Selected(entries, k) <==>
      (IsSelectorKey(entries[0].0) && entries[0].1 == k) || Selected(entries[1..], k)
  {
  }

  /** The `reduce` over the argument's entries, starting from `acc`: every
      value stored under a selector key becomes a key set to true; every other
      key of `acc` keeps its value. */
  function CollectFlags(entries: seq<(string, string)>, acc: Flags): (r: Flags)
    ensures forall k :: k in r <==> k in acc || Selected(entries, k)
    ensures forall k :: Selected(entries, k) ==> k in r && r[k]
    ensures forall k :: k in acc && !Selected(entries, k) ==> r[k] == acc[k]
    decreases |entries|
  {
    if entries == [] then acc
    else
      var key := entries[0].0;
      var val := entries[0].1;
      var acc' := if IsSelectorKey(key) then acc[val := true] else acc;
      assert forall k :: Selected(entries, k) <==>
        (IsSelectorKey(key) && val == k) || Selected(entries[1..], k) by {
        forall k { SelectedUncons(entries, k); }
      }
      CollectFlags(entries[1..], acc')
  }

  /** getModifiers: a non-empty modifier object wins and is returned as it is;
      otherwise an object argument contributes exactly the values under its
      `event` and `position` keys, each set to true; otherwise nothing. */
  function GetModifiers(modifiers: Option<Flags>, arg: Arg): (r: Flags)
    ensures modifiers.Some? && |modifiers.value| > 0 ==> r == modifiers.value
    ensures !(modifiers.Some? && |modifiers.value| > 0) && arg.ObjectArg? ==>
      (forall k :: k in r <==> Selected(arg.entries, k)) && (forall k :: k in r ==> r[k])
    ensures !(modifiers.Some? && |modifiers.value| > 0) && !arg.ObjectArg? ==> r == map[]
  {
    if modifiers.Some? && |modifiers.value| > 0 then modifiers.value
    else if arg.ObjectArg? then CollectFlags(arg.entries, map[])
    else map[]
  }

  /** An object argument with keys other than `event` and `position` only
      yields no flags, whatever those keys hold. */
  lemma OtherKeysIgnored(modifiers: Option<Flags>, entries: seq<(string, string)>)
    requires modifiers.None? || modifiers.value == map[]
    requires forall i :: 0 <= i < |entries| ==> !IsSelectorKey(entries[i].0)
    ensures GetModifiers(modifiers, ObjectArg(entries)) == map[]
  {
  }

  /** A string argument such as `v-tooltip:top` is not an object, so without
      modifiers it yields no flags at all. */
  lemma ScalarArgIgnored(text: string)
    ensures GetModifiers(None, ScalarArg(text)) == map[]
    ensures GetModifiers(Some(map[]), ScalarArg(text)) == map[]
  {
  }
}
