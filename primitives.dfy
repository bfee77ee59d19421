// Registration of the four place primitives in the `#%place` module
// (scheme_init_place) and what a call to one of them does before its body runs:
// the arity check that every registered primitive gets, and, when the runtime is
// built without places, the stub that raises "not supported".
module Primitives {
  import opened Values

  datatype Primitive = Primitive(name: string, minArity: nat, maxArity: nat)

  /** The bindings of `#%place`, in registration order. */
  const Registered: seq<Primitive> := [
    Primitive("place", 1, 2),
    Primitive("place-sleep", 1, 1),
    Primitive("place-wait", 1, 1),
    Primitive("place?", 1, 1)
  ]

  /** What happens when a primitive is applied to `argc` arguments. */
  datatype CallOutcome =
    | Raised(exn: Exn)     // the call fails before (or instead of) the body
    | RunsBody(name: string)  // the primitive's own C function runs

  /** Finds the primitive registered under `name`. */
  function Lookup(name: string): (r: Option<Primitive>)
    ensures r.Some? <==> exists i :: 0 <= i < |Registered| && Registered[i].name == name
    ensures r.Some? ==> r.value in Registered && r.value.name == name
  {
    if name == "place" then Some(Registered[0])
    else if name == "place-sleep" then Some(Registered[1])
    else if name == "place-wait" then Some(Registered[2])
    else if name == "place?" then Some(Registered[3])
    else None
  }

  /** Applies primitive `p` to `argc` arguments; `placesEnabled` says whether the
      runtime was built with places (otherwise every binding is the stub). */
  function Call(placesEnabled: bool, p: Primitive, argc: nat): (r: CallOutcome)
    ensures r.RunsBody? <==> placesEnabled && p.minArity <= argc <= p.maxArity
    ensures r.RunsBody? ==> r.name == p.name
    ensures !(p.minArity <= argc <= p.maxArity) ==>
              r == Raised(ArityError(p.name, p.minArity, p.maxArity, argc))
    ensures !placesEnabled && p.minArity <= argc <= p.maxArity ==>
              r == Raised(Unsupported("not supported"))
  {
    if argc < p.minArity || p.maxArity < argc then
      Raised(ArityError(p.name, p.minArity, p.maxArity, argc))
    else if placesEnabled then
      RunsBody(p.name)
    else
      Raised(Unsupported("not supported"))
  }

  /** Without places all four bindings still exist, and every call to them fails,
      with the unsupported-operation error exactly when the arity is right. */
  lemma CompiledOutNeverRuns(name: string, argc: nat)
    requires name in ["place", "place-sleep", "place-wait", "place?"]
    ensures Lookup(name).Some?
    ensures Call(false, Lookup(name).value, argc).Raised?
    ensures Call(false, Lookup(name).value, argc).exn.Unsupported? <==>
              1 <= argc <= Lookup(name).value.maxArity
  {
  }

  /** The body of `place` only ever sees one or two arguments, so its own
      wrong-count branch is reached only by a direct C call. */
  lemma PlaceBodySeesOneOrTwo(argc: nat)
    requires Call(true, Lookup("place").value, argc).RunsBody?
    ensures argc == 1 || argc == 2
  {
  }
}
