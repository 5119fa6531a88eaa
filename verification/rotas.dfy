/** The route management page (src/pages/GerenciarRotas.tsx): the route form, the choice
    between updating and creating on save, the status checkbox, the weekday table and the
    labels and link shown on each route card. */
module Rotas {
  import opened Js
  import opened Types

  /** The requests the page issues; a body is the JSON object sent. */
  datatype RotaCall =
    | PutRota(body: Rota)          // PUT /Routes/v1/Rota
    | PostRota(body: Rota)         // POST /Routes/v1/Rota
    | DeleteRota(id: Option<int>)  // DELETE /Routes/v1/Rota/{id}
    | FetchRotas                   // GET /Routes/v1/Rota?...

  /** One entry of the weekday table. */
  datatype DiaSemana = DiaSemana(id: int, description: string)

  /** The empty object `{}`: the form before anything resets it. */
  const EmptyRota := Rota(None, None, None, None, None, None, None, None)

  /** The form `resetFormData` writes: active, not bound to Google Maps, nothing else set. */
  const ResetForm := Rota(None, None, None, None, None, None, Some(1), Some(false))

  const DiaSemanaTable: seq<DiaSemana> := [
    DiaSemana(0, "Nenhum"), DiaSemana(1, "Domingo"), DiaSemana(2, "Segunda"),
    DiaSemana(3, "Terça"), DiaSemana(4, "Quarta"), DiaSemana(5, "Quinta"),
    DiaSemana(6, "Sexta"), DiaSemana(7, "Sábado"), DiaSemana(8, "Dias utéis"),
    DiaSemana(9, "Todos")]

  /** `{ id: editando.id, ...formData }`: the form's own id, when it has one, overrides. */
  function PutBody(editandoId: int, form: Rota): (r: Rota)
    ensures r.id == (if form.id.Some? then form.id else Some(editandoId))
    ensures r.(id := form.id) == form
  {
    if form.id.Some? then form else form.(id := Some(editandoId))
  }

  /** The status checkbox is checked exactly when the status is 1. */
  predicate StatusChecked(form: Rota): (b: bool)
    ensures b <==> StatusLabel(form.status) == "Ativo"
  {
    form.status == Some(1)
  }

  /** Toggling the checkbox: status 1 when checked, 2 when not; nothing else changes. */
  function WithStatusChecked(form: Rota, checked: bool): (r: Rota)
    ensures StatusChecked(r) == checked
    ensures r.status == Some(if checked then 1 else 2)
    ensures r.(status := form.status) == form
  {
    form.(status := Some(if checked then 1 else 2))
  }

  /** Writing back the state the checkbox shows changes nothing for a status of 1 or 2. */
  lemma StatusCheckboxRoundTrip(form: Rota)
    requires form.status == Some(1) || form.status == Some(2)
    ensures WithStatusChecked(form, StatusChecked(form)) == form
  {
  }

  /** `diaSemana.find(x => x.id === id)`: the first entry with that id. */
  function FindDia(table: seq<DiaSemana>, id: Option<int>): (r: Option<DiaSemana>)
    ensures r.None? <==> forall j :: 0 <= j < |table| ==> Some(table[j].id) != id
    ensures r.Some? ==> r.value in table && Some(r.value.id) == id
    ensures r.Some? ==> exists i :: 0 <= i < |table| && table[i] == r.value && forall j :: 0 <= j < i ==> Some(table[j].id) != id
  {
    if table == [] then None
    else if Some(table[0].id) == id then Some(table[0])
    else FindDia(table[1..], id)
  }

  /** The weekday shown on a route card, or nothing. */
  function DiaSemanaLabel(id: Option<int>): (r: Option<string>)
    ensures r.None? <==> !(id.Some? && 0 <= id.value <= 9)
    ensures r.Some? ==> r.value == DiaSemanaTable[id.value].description
  {
    DiaSemanaIds();
    var d := FindDia(DiaSemanaTable, id);
    if d.Some? then Some(d.value.description) else None
  }

  /** Each entry of the weekday table carries its own position as id, so ids are unique. */
  lemma DiaSemanaIds()
    ensures |DiaSemanaTable| == 10
    ensures forall i :: 0 <= i < |DiaSemanaTable| ==> DiaSemanaTable[i].id == i
  {
  }

  /** The "Configurar Marcadores" link is shown only for an active route bound to Google Maps. */
  predicate ShowMarkerLink(r: Rota): (b: bool)
    ensures b <==> r.deveBuscarRotaNoGoogleMaps == Some(true) && StatusChecked(r)
  {
    r.deveBuscarRotaNoGoogleMaps == Some(true) && r.status == Some(1)
  }

  /** `tipoRota === 1 ? "Ida" : "Volta"`. */
  function TipoRotaLabel(tipo: Option<int>): (r: string)
    ensures r == "Ida" <==> tipo == Some(1)
    ensures r == "Ida" || r == "Volta"
  {
    if tipo == Some(1) then "Ida" else "Volta"
  }

  /** `status == 1 ? "Ativo" : "Deletado"`. */
  function StatusLabel(status: Option<int>): (r: string)
    ensures r == "Ativo" <==> status == Some(1)
    ensures r == "Ativo" || r == "Deletado"
  {
    if status == Some(1) then "Ativo" else "Deletado"
  }

  /** A route whose card shows the marker link also shows "Ativo". */
  lemma MarkerLinkOnlyOnActive(r: Rota)
    requires ShowMarkerLink(r)
    ensures StatusLabel(r.status) == "Ativo"
  {
  }

  class RotasPage {
    var dialogOpen: bool
    var editando: Option<Rota>
    var formData: Rota

    constructor ()
      ensures !dialogOpen && editando == None && formData == EmptyRota
    {
      dialogOpen := false;
      editando := None;
      formData := EmptyRota;
    }

    /** `resetFormData`. */
    method ResetFormData()
      modifies this`formData, this`editando
      ensures formData == ResetForm && editando == None
    {
      formData := ResetForm;
      editando := None;
    }

    /** "Nova Rota": a reset form in an open dialog. */
    method Nova()
      modifies this
      ensures dialogOpen && editando == None && formData == ResetForm
    {
      ResetFormData();
      dialogOpen := true;
    }

    /** `abrirEditar`: the route itself becomes the form. */
    method AbrirEditar(r: Rota)
      modifies this
      ensures dialogOpen && editando == Some(r) && formData == r
    {
      editando := Some(r);
      formData := r;
      dialogOpen := true;
    }

    /** The status checkbox changed. */
    method ToggleStatus(checked: bool)
      modifies this`formData
      ensures formData == WithStatusChecked(old(formData), checked)
      ensures StatusChecked(formData) == checked
    {
      formData := WithStatusChecked(formData, checked);
    }

    /** `salvarRota`; `ok` tells whether the PUT or POST succeeded. An update is sent when
        the route being edited has a truthy id (so id 0 is created again), a creation
        otherwise. When the request fails nothing else happens. */
    method SalvarRota(ok: bool) returns (calls: seq<RotaCall>)
      modifies this
      ensures 1 <= |calls| <= 2
      ensures old(editando).Some? && TruthyNumber(old(editando).value.id) ==>
        calls[0] == PutRota(PutBody(old(editando).value.id.value, old(formData)))
      ensures !(old(editando).Some? && TruthyNumber(old(editando).value.id)) ==>
        calls[0] == PostRota(old(formData))
      ensures ok ==> |calls| == 2 && calls[1] == FetchRotas && !dialogOpen && editando == None && formData == ResetForm
      ensures !ok ==> |calls| == 1 && dialogOpen == old(dialogOpen) && editando == old(editando) && formData == old(formData)
    {
      if editando.Some? && TruthyNumber(editando.value.id) {
        calls := [PutRota(PutBody(editando.value.id.value, formData))];
      } else {
        calls := [PostRota(formData)];
      }
      if !ok {
        return;
      }
      calls := calls + [FetchRotas];
      dialogOpen := false;
      ResetFormData();
    }

    /** Removal of a route card: the request targets its id, then the list is fetched. */
    method RemoverRota(r: Rota, ok: bool) returns (calls: seq<RotaCall>)
      ensures 1 <= |calls| && calls[0] == DeleteRota(r.id)
      ensures calls == [calls[0]] + (if ok then [FetchRotas] else [])
    {
      calls := [DeleteRota(r.id)];
      if ok {
        calls := calls + [FetchRotas];
      }
    }
  }
}
