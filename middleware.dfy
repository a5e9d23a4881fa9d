/** The part of the Middleware package that the API section relies on.
    The package itself is not part of this model: only the behaviour the
    API section assumes of it is written down here. A chain is an ordered,
    growable list of stages; `MakeHandler` takes a snapshot of the stages
    present at the moment it is called, and `Pop` removes the last one. */
module Middleware {

  /** A request handler function (Go's `http.HandlerFunc`), identified by name. */
  datatype Stage = Stage(name: string)

  /** What gets registered for a route: either a single handler function,
      or a compiled chain that runs a fixed list of stages in order. */
  datatype Handler =
    | Plain(f: Stage)
    | Compiled(stages: seq<Stage>)

  /** The stages a handler runs, in the order it runs them. */
  function Stages(h: Handler): seq<Stage>
  {
    match h
    case Plain(f) => [f]
    case Compiled(ss) => ss
  }

  /** A chain under construction. */
  class Chain {
    var stages: seq<Stage>
    /** The flag given to `NewChain`; its meaning lies inside the package. */
    const flag: bool

    /** `NewChain(flag)`: a chain with no stages. */
    constructor (flag: bool)
      ensures stages == [] && this.flag == flag
    {
      stages := [];
      this.flag := flag;
    }

    /** Appends a stage at the end. */
    method Push(f: Stage)
      modifies this
      ensures stages == old(stages) + [f]
    {
      stages := stages + [f];
    }

    /** Removes the most recently pushed stage; on an empty chain it
        reports failure and changes nothing. */
    method Pop() returns (ok: bool)
      modifies this
      ensures ok <==> old(stages) != []
      ensures ok ==> stages == old(stages)[..|old(stages)| - 1]
      ensures !ok ==> stages == old(stages)
    {
      ok := stages != [];
      if ok {
        stages := stages[..|stages| - 1];
      }
    }

    /** Compiles the current stages into a handler; later pushes and pops
        do not affect the handler returned. */
    method MakeHandler() returns (h: Handler)
      ensures h.Compiled? && Stages(h) == stages
    {
      h := Compiled(stages);
    }
  }
}
