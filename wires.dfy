/**
 * The wire hazard set shared by the multiplayer engine, the client mock and the
 * single-player game: a row of wires with ids 0..n-1, some of them bombs, each
 * with a multiplier that raises the odds when it is cut safely.
 */
module Wires {
  import opened Wrappers

  datatype WireStatus = Intact | Cut

  /** A wire; its display colour is not modelled. */
  datatype Wire = Wire(id: int, status: WireStatus, isBomb: bool, multiplier: real)

  /** The ceiling every probability is clamped to: `Math.min(0.99, p)`. */
  const ProbCap: real := 0.99

  function CapProb(p: real): (r: real)
    ensures r <= ProbCap
    ensures r == p || r == ProbCap
    ensures p <= ProbCap ==> r == p
  {
    if p < ProbCap then p else ProbCap
  }

  /** Fresh intact wires, one per multiplier, id = position, bombs at the positions in `bombs`. */
  function SeedWires(mults: seq<real>, bombs: set<nat>): seq<Wire>
  {
    seq(|mults|, i requires 0 <= i < |mults| => Wire(i, Intact, i in bombs, mults[i]))
  }

  /** Number of bomb wires, counted from the back. */
  function BombCount(ws: seq<Wire>): nat
  {
    if ws == [] then 0
    else BombCount(ws[..|ws| - 1]) + (if ws[|ws| - 1].isBomb then 1 else 0)
  }

  /** Seeding with a set of in-range positions yields exactly that many bombs. */
  lemma {:induction false} SeededBombCount(mults: seq<real>, bombs: set<nat>)
    requires forall b :: b in bombs ==> b < |mults|
    ensures BombCount(SeedWires(mults, bombs)) == |bombs|
  {
    var ws := SeedWires(mults, bombs);
    if |mults| == 0 {
      assert bombs == {} by {
        forall b | b in bombs ensures false { }
      }
    } else {
      var n := |mults| - 1;
      var rest := bombs - {n};
      assert ws[..n] == SeedWires(mults[..n], rest);
      SeededBombCount(mults[..n], rest);
      if n in bombs {
        assert bombs == rest + {n};
      } else {
        assert bombs == rest;
      }
    }
  }

  /** `Array.prototype.find` by id: the position of the first wire with that id. */
  function FindWire(ws: seq<Wire>, id: int): (r: Option<nat>)
    ensures r.Some? ==> r.value < |ws| && ws[r.value].id == id
    ensures r.Some? ==> forall j :: 0 <= j < r.value ==> ws[j].id != id
    ensures r.None? <==> forall j :: 0 <= j < |ws| ==> ws[j].id != id
  {
    if ws == [] then None
    else if ws[0].id == id then Some(0)
    else match FindWire(ws[1..], id)
      case None => None
      case Some(j) => Some(j + 1)
  }

  /** In seeded wires the wire with id k sits at position k. */
  lemma FindSeededWire(mults: seq<real>, bombs: set<nat>, id: int)
    ensures FindWire(SeedWires(mults, bombs), id) ==
            (if 0 <= id < |mults| then Some(id as nat) else None)
  {
    var ws := SeedWires(mults, bombs);
    if 0 <= id < |mults| {
      assert ws[id].id == id;
    }
  }

  /** The wire at position j marked cut, every other wire untouched. */
  function MarkCut(ws: seq<Wire>, j: nat): seq<Wire>
    requires j < |ws|
  {
    ws[j := ws[j].(status := Cut)]
  }

  /** Position of the wire a cut of `id` acts on, if the cut is valid (wire exists and is intact). */
  function CuttableAt(ws: seq<Wire>, id: int): (r: Option<nat>)
    ensures r.Some? ==> r.value < |ws| && ws[r.value].id == id && ws[r.value].status == Intact
    ensures r.None? <==> (FindWire(ws, id).None? || ws[FindWire(ws, id).value].status != Intact)
  {
    match FindWire(ws, id)
    case None => None
    case Some(j) => if ws[j].status == Intact then Some(j) else None
  }
}
