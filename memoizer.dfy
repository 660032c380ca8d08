/**
 * The process-local memo cache: entries keyed by the owning class, the
 * operation and its argument tuple, filled by read-through and emptied by
 * explicit clears.
 */
module Memoizer {
  import opened Wrappers
  import opened Entities

  datatype Owner = ApplicationClass | UserClass

  datatype Op = OpLoad | OpLoadBang | OpExists | OpKeys | OpReferrerFilters | OpLoadIdByKey | OpLoadOrCreate

  datatype Key = Key(owner: Owner, op: Op, args: seq<Option<string>>)

  /** A memoized result; each operation memoizes one shape of value. */
  datatype Value =
    | AppValue(app: Option<App>)
    | FlagValue(flag: bool)
    | TextValue(text: Option<string>)
    | MembersValue(members: set<string>)
    | UserValue(user: Option<User>)

  /** `build_keys_for_class`: one key per operation, all with the same arguments. */
  function KeysForClass(owner: Owner, ops: set<Op>, args: seq<Option<string>>): (ks: set<Key>)
    ensures forall k :: k in ks <==> k.owner == owner && k.op in ops && k.args == args
  {
    set op | op in ops :: Key(owner, op, args)
  }

  class Cache {
    var entries: map<Key, Value>

    constructor ()
      ensures entries == map[]
    {
      entries := map[];
    }

    function Lookup(k: Key): Option<Value>
      reads this
    {
      if k in entries then Some(entries[k]) else None
    }

    method Memoize(k: Key, v: Value)
      modifies this
      ensures entries == old(entries)[k := v]
    {
      entries := entries[k := v];
    }

    method Clear(ks: set<Key>)
      modifies this
      ensures entries == old(entries) - ks
    {
      entries := entries - ks;
    }
  }
}
