/** The plugin entry points the `plugin_get_game_methods!` and
    `plugin_get_frontend_methods!` macros generate (src/surena/game.rs and
    src/gui/frontend.rs): a static array of method tables, filled once by
    `plugin_init_*`, and `plugin_get_*_methods`, which reports how many
    tables there are and copies them out when given room.  A pointer to a
    table is modelled by the table it points to. */
module Plugin {
  import opened Common

  class MethodsExport<T> {
    /** The number of tables the macro was given. */
    const count: u32
    /** The static array; `None` until `plugin_init_*` has run. */
    var tables: Option<seq<T>>

    ghost predicate Valid()
      reads this
    {
      tables.Some? ==> |tables.value| == count
    }

    /** The static array starts out uninitialised. */
    constructor (count: u32)
      ensures this.count == count && tables.None? && Valid()
    {
      this.count := count;
      tables := None;
    }

    /** `plugin_init_*`: writes the tables built from the macro's list. */
    method Init(built: seq<T>)
      requires |built| == count
      modifies this
      ensures tables == Some(built) && Valid()
    {
      tables := Some(built);
    }

    /** `plugin_get_*_methods`: always reports `count`; with a null
        `methods` array it stops there, otherwise it writes exactly the
        first `count` entries, in order. */
    method GetMethods(methods: Option<array<T>>) returns (retCount: u32)
      requires Valid()
      requires methods.Some? ==> tables.Some? && count <= methods.value.Length
      modifies if methods.Some? then {methods.value} else {}
      ensures retCount == count
      ensures methods.Some? ==> methods.value[..count] == tables.value
      ensures methods.Some? ==> methods.value[count..] == old(methods.value[..])[count..]
    {
      retCount := count;
      if methods.None? {
        return;
      }
      var out := methods.value;
      var src := tables.value;
      var i: nat := 0;
      while i < count
        invariant i <= count
        invariant out[..i] == src[..i]
        invariant out[i..] == old(out[..])[i..]
      {
        out[i] := src[i];
        i := i + 1;
      }
    }
  }
}
