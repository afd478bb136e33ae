/**
 * The guarded one-slot selection machine that both the language and the theme provider
 * implement: a setter that adopts a candidate only when it passes the validity guard and
 * then writes it through to storage, and a startup restore that adopts a saved value only
 * when it is present, non-empty and passes the same guard.
 */
module Preference {

  /** What a provider holds together with the storage it writes through to. */
  datatype Selection = Selection(current: string, store: map<string, string>)

  /** The setter: the candidate becomes current and is stored under `slot`, or nothing happens. */
  function Choose(s: Selection, slot: string, candidate: string, allowed: set<string>): (r: Selection)
    ensures candidate in allowed ==> r.current == candidate && slot in r.store && r.store[slot] == candidate
    ensures candidate !in allowed ==> r == s
  {
    if candidate in allowed then Selection(candidate, s.store[slot := candidate]) else s
  }

  /**
   * The startup restore: a saved value is adopted only if it is truthy (present and
   * non-empty) and allowed. Restoring never writes to storage.
   */
  function Restore(s: Selection, slot: string, allowed: set<string>): (r: Selection)
    ensures r.store == s.store
    ensures r.current == s.current || (slot in s.store && r.current == s.store[slot] && r.current in allowed)
    ensures r.current != s.current ==> s.store[slot] != ""
    ensures slot in s.store && s.store[slot] != "" && s.store[slot] in allowed ==> r.current == s.store[slot]
  {
    if slot in s.store && s.store[slot] != "" && s.store[slot] in allowed
    then s.(current := s.store[slot])
    else s
  }

  /** Applying the setter twice with the same candidate is the same as applying it once. */
  lemma ChooseIdempotent(s: Selection, slot: string, candidate: string, allowed: set<string>)
    ensures Choose(Choose(s, slot, candidate, allowed), slot, candidate, allowed)
         == Choose(s, slot, candidate, allowed)
  {
  }

  /** The setter never makes a disallowed value current if the current one was allowed. */
  lemma ChooseKeepsAllowed(s: Selection, slot: string, candidate: string, allowed: set<string>)
    requires s.current in allowed
    ensures Choose(s, slot, candidate, allowed).current in allowed
  {
  }

  /** The setter touches no storage key but its own slot. */
  lemma ChooseLeavesOtherSlots(s: Selection, slot: string, candidate: string, allowed: set<string>, other: string)
    requires other != slot
    ensures var r := Choose(s, slot, candidate, allowed);
      (other in r.store <==> other in s.store) && (other in s.store ==> r.store[other] == s.store[other])
  {
  }

  /** Restoring keeps the current value allowed. */
  lemma RestoreKeepsAllowed(s: Selection, slot: string, allowed: set<string>)
    requires s.current in allowed
    ensures Restore(s, slot, allowed).current in allowed
  {
  }

  /** With nothing saved, the startup value stays in place. */
  lemma RestoreFreshStore(initial: string, slot: string, allowed: set<string>)
    ensures Restore(Selection(initial, map[]), slot, allowed) == Selection(initial, map[])
  {
  }

  /**
   * The reload round trip: after choosing an allowed, non-empty value, a fresh start
   * from any initial value over the same storage resumes with that value.
   */
  lemma ChooseThenReload(s: Selection, slot: string, candidate: string, allowed: set<string>, initial: string)
    requires candidate in allowed && candidate != ""
    ensures Restore(Selection(initial, Choose(s, slot, candidate, allowed).store), slot, allowed).current == candidate
  {
  }
}
