/**
 * The property master: a table from prop name to prop (file name plus the
 * file's data once loaded), updated in place. Lookups through `map.at`
 * raise `std::out_of_range` for a missing name; here that is the
 * `OutOfRange` outcome, and nothing changes.
 */
module Property {
  import opened Wrappers

  /** `file_data`: either no data (null) or the loaded bytes. */
  datatype FileData = NoData | Loaded(bytes: seq<bv8>)

  datatype Prop = Prop(filename: string, data: FileData)

  /** The result of a lookup through `map.at`. */
  datatype Lookup<T> = Found(value: T) | Missing

  /** `prop(filename)`: the given file name, no data yet. */
  function NewProp(filename: string): (p: Prop)
    ensures p.filename == filename && !p.data.Loaded?
  {
    Prop(filename, NoData)
  }

  /** Every prop of `m` with its data dropped. */
  function UnloadedAll(m: map<string, Prop>): map<string, Prop> {
    map k | k in m :: m[k].(data := NoData)
  }

  /** Dropping all data keeps every name and every file name and leaves nothing loaded. */
  lemma UnloadedAllKeepsNames(m: map<string, Prop>)
    ensures UnloadedAll(m).Keys == m.Keys
    ensures forall k :: k in m ==> UnloadedAll(m)[k].filename == m[k].filename
    ensures forall k :: k in m ==> !UnloadedAll(m)[k].data.Loaded?
  {
  }

  class PropertyMaster {
    /** `prop::map map`: a `std::map<string, prop>`. */
    var props: map<string, Prop>

    constructor ()
      ensures props == map[]
    {
      props := map[];
    }

    /** `exists`: `map.count(name)`. */
    function Exists(name: string): (r: bool)
      reads this
      ensures r <==> name in props
    {
      name in props
    }

    /** `get_filename`: `map.at(name).filename`. */
    function GetFilename(name: string): (r: Lookup<string>)
      reads this
      ensures r.Found? <==> Exists(name)
      ensures r.Found? ==> r.value == props[name].filename
    {
      if name in props then Found(props[name].filename) else Missing
    }

    /** `empty`: despite its name, true when the prop's data IS loaded. */
    function Empty(name: string): (r: Lookup<bool>)
      reads this
      ensures r.Found? <==> Exists(name)
      ensures r.Found? ==> (r.value <==> props[name].data.Loaded?)
    {
      if name in props then Found(props[name].data != NoData) else Missing
    }

    /** `get_all`: the whole table. */
    function GetAll(): (m: map<string, Prop>)
      reads this
      ensures forall n :: n in m <==> Exists(n)
    {
      props
    }

    /** `set_filename`: replaces the file name of one existing prop, keeping its data. */
    method SetFilename(name: string, filename: string) returns (r: Outcome)
      modifies this
      ensures r == Done <==> old(Exists(name))
      ensures r == Done ==> props == old(props)[name := old(props)[name].(filename := filename)]
      ensures r == OutOfRange ==> props == old(props)
    {
      if name in props {
        props := props[name := props[name].(filename := filename)];
        r := Done;
      } else {
        r := OutOfRange;
      }
    }

    /** `unload`: drops the data of one existing prop. */
    method Unload(name: string) returns (r: Outcome)
      modifies this
      ensures r == Done <==> old(Exists(name))
      ensures r == Done ==> props == old(props)[name := old(props)[name].(data := NoData)]
      ensures r == OutOfRange ==> props == old(props)
    {
      if name in props {
        props := props[name := props[name].(data := NoData)];
        r := Done;
      } else {
        r := OutOfRange;
      }
    }

    /** `unload_all`: walks every entry and drops its data. */
    method UnloadAll()
      modifies this
      ensures props == UnloadedAll(old(props))
    {
      var todo := props.Keys;
      ghost var done: set<string> := {};
      while todo != {}
        invariant todo !! done && todo + done == old(props).Keys
        invariant props.Keys == old(props).Keys
        invariant forall k :: k in done ==> props[k] == old(props)[k].(data := NoData)
        invariant forall k :: k in todo ==> props[k] == old(props)[k]
        decreases todo
      {
        var k :| k in todo;
        props := props[k := props[k].(data := NoData)];
        todo := todo - {k};
        done := done + {k};
      }
    }

    /** `clear`: removes every prop. */
    method Clear()
      modifies this
      ensures props == map[]
      ensures forall n :: !Exists(n)
    {
      props := map[];
    }
  }
}
