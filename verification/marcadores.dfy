/** The route-marker ordering page (src/pages/ConfigurarMarcadores/ConfigurarMarcadores.tsx):
    drag-to-reorder of the marker list, renumbering of `ordem` in place before the order is
    saved, and the guards that make every backend action a no-op while no route is selected. */
module Marcadores {
  import opened Js

  /** A route marker; coordinates and the attached students are not part of this model. */
  datatype Marcador = Marcador(id: int, idTemporario: string, ordem: int, enderecoId: int, tipoMarcador: int, titulo: string)

  /** A drag-end event: the dragged item's id and the id of the item it was dropped over. */
  datatype DragEvent = DragEvent(active: string, over: Option<string>)

  /** The backend requests the page issues. */
  datatype MarkerCall =
    | FetchMarcadores(rota: int)      // GET /Routes/v1/Trajeto/Rota/{rota}/Marcadores
    | GerarMelhorTrajeto(rota: int)   // POST /Routes/v1/Trajeto/Rota/{rota}/GerarMelhorTrajeto
    | SalvarTrajeto(rota: int, body: seq<Marcador>)  // POST /Routes/v1/Trajeto/Rota/{rota}

  /** `findIndex(m => m.idTemporario === key)`: the first marker with that id, or -1. */
  function FindIndex(s: seq<Marcador>, key: string): (i: int)
    ensures -1 <= i < |s|
    ensures i == -1 <==> forall j :: 0 <= j < |s| ==> s[j].idTemporario != key
    ensures 0 <= i ==> s[i].idTemporario == key && forall j :: 0 <= j < i ==> s[j].idTemporario != key
  {
    if s == [] then -1
    else if s[0].idTemporario == key then 0
    else
      var k := FindIndex(s[1..], key);
      if k == -1 then -1 else k + 1
  }

  /** `s` without its element at `i`. */
  function Remove<T>(s: seq<T>, i: nat): (r: seq<T>)
    requires i < |s|
    ensures |r| == |s| - 1
    ensures forall j :: 0 <= j < |r| ==> r[j] == if j < i then s[j] else s[j + 1]
    ensures multiset(r) + multiset{s[i]} == multiset(s)
  {
    assert s == s[..i] + [s[i]] + s[i + 1..];
    s[..i] + s[i + 1..]
  }

  /** `s` with `x` inserted before position `i`. */
  function Insert<T>(s: seq<T>, i: nat, x: T): (r: seq<T>)
    requires i <= |s|
    ensures |r| == |s| + 1 && r[i] == x
    ensures Remove(r, i) == s
    ensures multiset(r) == multiset(s) + multiset{x}
  {
    var r := s[..i] + [x] + s[i..];
    assert r[..i] == s[..i] && r[i + 1..] == s[i..];
    assert s == s[..i] + s[i..];
    r
  }

  /** `arrayMove` of @dnd-kit/sortable: take the element at `from` out and insert it at `to`.
      The result is a permutation of `s` with the moved element at `to`, and the other
      elements keep their relative order. */
  function ArrayMove<T>(s: seq<T>, from: nat, to: nat): (r: seq<T>)
    requires from < |s| && to < |s|
    ensures |r| == |s| && multiset(r) == multiset(s)
    ensures r[to] == s[from]
    ensures Remove(r, to) == Remove(s, from)
  {
    Insert(Remove(s, from), to, s[from])
  }

  /** The indices `handleDragEnd` moves between, or None when it returns early: no drop
      target, a drop onto itself, or either id not found. */
  function DragIndices(list: seq<Marcador>, e: DragEvent): (p: Option<(nat, nat)>)
    ensures p.None? <==>
      || e.over.None? || e.active == e.over.value
      || FindIndex(list, e.active) == -1 || FindIndex(list, e.over.value) == -1
    ensures p.Some? ==>
      && p.value.0 < |list| && p.value.1 < |list|
      && p.value.0 == FindIndex(list, e.active) && p.value.1 == FindIndex(list, e.over.value)
  {
    if e.over.None? || e.active == e.over.value then None
    else
      var oldIndex := FindIndex(list, e.active);
      var newIndex := FindIndex(list, e.over.value);
      if oldIndex == -1 || newIndex == -1 then None else Some((oldIndex, newIndex))
  }

  /** The marker list after `handleDragEnd`: unchanged when it returns early, otherwise the
      dragged marker (first with the active id) moved to the position of the first marker
      with the target id, the rest in their old relative order. */
  function Reordered(list: seq<Marcador>, e: DragEvent): (r: seq<Marcador>)
    ensures |r| == |list| && multiset(r) == multiset(list)
    ensures DragIndices(list, e).None? ==> r == list
    ensures DragIndices(list, e).Some? ==>
      var (oldIndex, newIndex) := DragIndices(list, e).value;
      && r[newIndex] == list[oldIndex] && r[newIndex].idTemporario == e.active
      && Remove(r, newIndex) == Remove(list, oldIndex)
  {
    match DragIndices(list, e)
    case None => list
    case Some((oldIndex, newIndex)) => ArrayMove(list, oldIndex, newIndex)
  }

  /** The list `salvarOrdem` sends: marker i gets `ordem` i + 1; no other field changes and
      the order is kept. */
  function Renumbered(s: seq<Marcador>): (r: seq<Marcador>)
    ensures |r| == |s|
    ensures forall i :: 0 <= i < |r| ==> r[i].ordem == i + 1
    ensures forall i :: 0 <= i < |r| ==> r[i].(ordem := s[i].ordem) == s[i]
  {
    seq(|s|, i requires 0 <= i < |s| => s[i].(ordem := i + 1))
  }

  /** Renumbering is idempotent: saving twice sends the same list. */
  lemma RenumberedIdempotent(s: seq<Marcador>)
    ensures Renumbered(Renumbered(s)) == Renumbered(s)
  {
  }

  /** The `ordem` values after renumbering are exactly 1, 2, ..., n. */
  function Ordens(s: seq<Marcador>): (r: seq<int>)
    ensures |r| == |s| && forall i :: 0 <= i < |s| ==> r[i] == s[i].ordem
  {
    seq(|s|, i requires 0 <= i < |s| => s[i].ordem)
  }

  lemma RenumberedOrdens(s: seq<Marcador>)
    ensures Ordens(Renumbered(s)) == seq(|s|, i => i + 1)
  {
  }

  class MarcadoresPage {
    /** The route from the URL (`Number(id)`); None stands for null and NaN. */
    var rotaSelecionada: Option<int>
    var marcadores: array<Marcador>

    constructor (rota: Option<int>)
      ensures rotaSelecionada == rota && marcadores.Length == 0
    {
      rotaSelecionada := rota;
      marcadores := new Marcador[0];
    }

    /** `buscarMarcadores`, with `data` the list the backend answers. */
    method BuscarMarcadores(data: seq<Marcador>) returns (call: Option<MarkerCall>)
      modifies this
      ensures rotaSelecionada == old(rotaSelecionada)
      ensures !TruthyNumber(rotaSelecionada) ==> call == None && marcadores == old(marcadores)
      ensures TruthyNumber(rotaSelecionada) ==>
        call == Some(FetchMarcadores(rotaSelecionada.value)) && fresh(marcadores) && marcadores[..] == data
    {
      if !TruthyNumber(rotaSelecionada) {
        return None;
      }
      call := Some(FetchMarcadores(rotaSelecionada.value));
      marcadores := new Marcador[|data|](i requires 0 <= i < |data| => data[i]);
    }

    /** `handleDragEnd`: the state holds the reordered list (a new array when it moved). */
    method HandleDragEnd(e: DragEvent)
      modifies this
      ensures rotaSelecionada == old(rotaSelecionada)
      ensures marcadores[..] == Reordered(old(marcadores[..]), e)
    {
      var list := marcadores[..];
      if DragIndices(list, e).Some? {
        var novaOrdem := Reordered(list, e);
        marcadores := new Marcador[|novaOrdem|](i requires 0 <= i < |novaOrdem| => novaOrdem[i]);
      }
    }

    /** `gerarMelhorRota`; `ok` tells whether the POST succeeded (then the list is fetched again). */
    method GerarMelhorRota(ok: bool) returns (calls: seq<MarkerCall>)
      ensures !TruthyNumber(rotaSelecionada) ==> calls == []
      ensures TruthyNumber(rotaSelecionada) ==>
        calls == [GerarMelhorTrajeto(rotaSelecionada.value)] + (if ok then [FetchMarcadores(rotaSelecionada.value)] else [])
    {
      if !TruthyNumber(rotaSelecionada) {
        return [];
      }
      calls := [GerarMelhorTrajeto(rotaSelecionada.value)];
      if ok {
        calls := calls + [FetchMarcadores(rotaSelecionada.value)];
      }
    }

    /** `salvarOrdem`: renumber the live markers in place, post them, and on success fetch
        the list again; with no route selected nothing happens. */
    method SalvarOrdem(ok: bool) returns (calls: seq<MarkerCall>)
      modifies marcadores
      ensures !TruthyNumber(rotaSelecionada) ==> calls == [] && marcadores[..] == old(marcadores[..])
      ensures TruthyNumber(rotaSelecionada) ==>
        && marcadores[..] == Renumbered(old(marcadores[..]))
        && calls == [SalvarTrajeto(rotaSelecionada.value, marcadores[..])]
                    + (if ok then [FetchMarcadores(rotaSelecionada.value)] else [])
    {
      if !TruthyNumber(rotaSelecionada) {
        return [];
      }
      var data := marcadores;
      var i := 0;
      while i < data.Length
        invariant 0 <= i <= data.Length
        invariant forall j :: 0 <= j < i ==> data[j] == old(data[j]).(ordem := j + 1)
        invariant forall j :: i <= j < data.Length ==> data[j] == old(data[j])
      {
        data[i] := data[i].(ordem := i + 1);
        i := i + 1;
      }
      assert data[..] == Renumbered(old(data[..]));
      calls := [SalvarTrajeto(rotaSelecionada.value, data[..])];
      if ok {
        calls := calls + [FetchMarcadores(rotaSelecionada.value)];
      }
    }
  }
}
