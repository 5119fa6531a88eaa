/** The driver management page (src/pages/GerenciarMotoristas.tsx): the edit form and how
    it is filled from a driver, the choice between updating and creating on save, and the
    removal request. */
module Motoristas {
  import opened Js
  import opened Types

  /** The form state: every field present except the two dates, which may be undefined. */
  datatype MotoristaForm = MotoristaForm(
    cpf: string,
    status: int,
    contato: string,
    email: string,
    primeiroNome: string,
    ultimoNome: string,
    perfil: int,
    planoId: int,
    usuarioValidado: bool,
    enderecoPrincipalId: int,
    senha: string,
    refreshToken: string,
    refreshTokenExpiryTime: Option<DateText>,
    empresaId: int,
    cnh: string,
    vencimento: Option<DateText>,
    tipoCNH: int,
    foto: string)

  /** The requests the page issues; a body is the JSON object sent. */
  datatype MotoristaCall =
    | PutMotorista(body: Motorista)   // PUT /Pessoas/v1/Motorista
    | PostMotorista(body: Motorista)  // POST /Pessoas/v1/Motorista
    | DeleteMotorista(id: int)        // DELETE /Pessoas/v1/Motorista/{id}
    | FetchMotoristas                 // GET /Pessoas/v1/Motorista?...

  /** The initial form and what `resetFormData` restores. */
  const DefaultForm := MotoristaForm("", 0, "", "", "", "", 0, 0, false, 0, "", "", None, 0, "", None, 0, "")

  /** A date field of `abrirEditar`: copied when truthy, undefined otherwise. */
  function DateField(d: Option<DateText>): (r: Option<DateText>)
    ensures r.Some? <==> Truthy(d)
    ensures r.Some? ==> r == d
  {
    if Truthy(d) then d else None
  }

  /** `field = source ?? default`: a present source is kept, even when falsy; an absent one
      gives the default. */
  predicate Coalesced<T(==)>(source: Option<T>, field: T, default: T) {
    && (source.Some? ==> field == source.value)
    && (source.None? ==> field == default)
  }

  /** The form `abrirEditar` builds for a driver: each field the driver has (even 0, "" or
      false) is kept, each missing one takes the default; the dates go through DateField. */
  function FormFor(m: Motorista): (f: MotoristaForm)
    ensures Complete(m) ==> Export(f, m.id) == m
    ensures && Coalesced(m.cpf, f.cpf, DefaultForm.cpf)
            && Coalesced(m.status, f.status, DefaultForm.status)
            && Coalesced(m.contato, f.contato, DefaultForm.contato)
            && Coalesced(m.email, f.email, DefaultForm.email)
            && Coalesced(m.primeiroNome, f.primeiroNome, DefaultForm.primeiroNome)
            && Coalesced(m.ultimoNome, f.ultimoNome, DefaultForm.ultimoNome)
            && Coalesced(m.perfil, f.perfil, DefaultForm.perfil)
            && Coalesced(m.planoId, f.planoId, DefaultForm.planoId)
            && Coalesced(m.usuarioValidado, f.usuarioValidado, DefaultForm.usuarioValidado)
            && Coalesced(m.enderecoPrincipalId, f.enderecoPrincipalId, DefaultForm.enderecoPrincipalId)
            && Coalesced(m.senha, f.senha, DefaultForm.senha)
            && Coalesced(m.refreshToken, f.refreshToken, DefaultForm.refreshToken)
            && Coalesced(m.empresaId, f.empresaId, DefaultForm.empresaId)
            && Coalesced(m.cnh, f.cnh, DefaultForm.cnh)
            && Coalesced(m.tipoCNH, f.tipoCNH, DefaultForm.tipoCNH)
            && Coalesced(m.foto, f.foto, DefaultForm.foto)
    ensures f.refreshTokenExpiryTime == DateField(m.refreshTokenExpiryTime)
    ensures f.vencimento == DateField(m.vencimento)
  {
    MotoristaForm(
      m.cpf.GetOr(DefaultForm.cpf),
      m.status.GetOr(DefaultForm.status),
      m.contato.GetOr(DefaultForm.contato),
      m.email.GetOr(DefaultForm.email),
      m.primeiroNome.GetOr(DefaultForm.primeiroNome),
      m.ultimoNome.GetOr(DefaultForm.ultimoNome),
      m.perfil.GetOr(DefaultForm.perfil),
      m.planoId.GetOr(DefaultForm.planoId),
      m.usuarioValidado.GetOr(DefaultForm.usuarioValidado),
      m.enderecoPrincipalId.GetOr(DefaultForm.enderecoPrincipalId),
      m.senha.GetOr(DefaultForm.senha),
      m.refreshToken.GetOr(DefaultForm.refreshToken),
      DateField(m.refreshTokenExpiryTime),
      m.empresaId.GetOr(DefaultForm.empresaId),
      m.cnh.GetOr(DefaultForm.cnh),
      DateField(m.vencimento),
      m.tipoCNH.GetOr(DefaultForm.tipoCNH),
      m.foto.GetOr(DefaultForm.foto))
  }

  /** Every field present, and both dates truthy. */
  predicate Complete(m: Motorista) {
    && m.cpf.Some? && m.status.Some? && m.contato.Some? && m.email.Some?
    && m.primeiroNome.Some? && m.ultimoNome.Some? && m.perfil.Some? && m.planoId.Some?
    && m.usuarioValidado.Some? && m.enderecoPrincipalId.Some? && m.senha.Some?
    && m.refreshToken.Some? && Truthy(m.refreshTokenExpiryTime) && m.empresaId.Some?
    && m.cnh.Some? && Truthy(m.vencimento) && m.tipoCNH.Some? && m.foto.Some?
  }

  /** The JSON object a save sends for the form, with `id` added when given: an undefined
      date is dropped by serialisation. */
  function Export(f: MotoristaForm, id: Option<int>): (m: Motorista)
    ensures m.id == id
    ensures m.vencimento == f.vencimento && m.refreshTokenExpiryTime == f.refreshTokenExpiryTime
    ensures && m.cpf == Some(f.cpf) && m.status == Some(f.status) && m.contato == Some(f.contato)
            && m.email == Some(f.email) && m.primeiroNome == Some(f.primeiroNome)
            && m.ultimoNome == Some(f.ultimoNome) && m.perfil == Some(f.perfil)
            && m.planoId == Some(f.planoId) && m.usuarioValidado == Some(f.usuarioValidado)
            && m.enderecoPrincipalId == Some(f.enderecoPrincipalId) && m.senha == Some(f.senha)
            && m.refreshToken == Some(f.refreshToken) && m.empresaId == Some(f.empresaId)
            && m.cnh == Some(f.cnh) && m.tipoCNH == Some(f.tipoCNH) && m.foto == Some(f.foto)
  {
    Motorista(id, Some(f.cpf), Some(f.status), Some(f.contato), Some(f.email), Some(f.primeiroNome),
              Some(f.ultimoNome), Some(f.perfil), Some(f.planoId), Some(f.usuarioValidado),
              Some(f.enderecoPrincipalId), Some(f.senha), Some(f.refreshToken), f.refreshTokenExpiryTime,
              Some(f.empresaId), Some(f.cnh), f.vencimento, Some(f.tipoCNH), Some(f.foto))
  }

  /** Opening a saved body for editing gives back the form it was exported from, unless a
      date was the empty text (which is falsy and so comes back undefined). */
  lemma ExportThenFormFor(f: MotoristaForm, id: Option<int>)
    requires f.refreshTokenExpiryTime != Some("") && f.vencimento != Some("")
    ensures FormFor(Export(f, id)) == f
  {
  }

  /** Editing a driver without any field produces exactly the reset form. */
  lemma FormForEmpty()
    ensures FormFor(EmptyMotorista) == DefaultForm
  {
  }

  /** Present falsy values survive `??`: a status of 0, an empty name and an unvalidated
      user are kept, not replaced by their defaults. */
  lemma FormForKeepsFalsy(m: Motorista)
    requires m.status == Some(0) && m.primeiroNome == Some("") && m.usuarioValidado == Some(false)
    ensures var f := FormFor(m); f.status == 0 && f.primeiroNome == "" && !f.usuarioValidado
  {
  }

  /** An empty date text is falsy, so it is dropped rather than copied. */
  lemma EmptyDateDropped(m: Motorista)
    requires m.vencimento == Some("")
    ensures FormFor(m).vencimento == None
  {
  }

  /** `motorista.status === 1 ? "Ativo" : "Desativado"`. */
  function StatusLabel(status: Option<int>): (r: string)
    ensures r == "Ativo" <==> status == Some(1)
    ensures r == "Ativo" || r == "Desativado"
  {
    if status == Some(1) then "Ativo" else "Desativado"
  }

  class MotoristasPage {
    var dialogOpen: bool
    var editando: Option<Motorista>
    var formData: MotoristaForm

    constructor ()
      ensures !dialogOpen && editando == None && formData == DefaultForm
    {
      dialogOpen := false;
      editando := None;
      formData := DefaultForm;
    }

    /** "Novo Motorista": nothing being edited, a default form, the dialog open. */
    method Novo()
      modifies this
      ensures dialogOpen && editando == None && formData == DefaultForm
    {
      editando := None;
      formData := DefaultForm;
      dialogOpen := true;
    }

    /** `abrirEditar`. */
    method AbrirEditar(m: Motorista)
      modifies this
      ensures dialogOpen && editando == Some(m) && formData == FormFor(m)
    {
      editando := Some(m);
      formData := FormFor(m);
      dialogOpen := true;
    }

    /** `salvarMotorista`; `ok` tells whether the PUT or POST succeeded. An update is sent
        when the driver being edited has an id (0 included), a creation otherwise. When the
        request fails nothing else happens. */
    method SalvarMotorista(ok: bool) returns (calls: seq<MotoristaCall>)
      modifies this
      ensures 1 <= |calls| <= 2
      ensures old(editando).Some? && old(editando).value.id.Some? ==>
        calls[0] == PutMotorista(Export(old(formData), old(editando).value.id))
      ensures !(old(editando).Some? && old(editando).value.id.Some?) ==>
        calls[0] == PostMotorista(Export(old(formData), None))
      ensures ok ==> |calls| == 2 && calls[1] == FetchMotoristas && !dialogOpen && editando == None && formData == DefaultForm
      ensures !ok ==> |calls| == 1 && dialogOpen == old(dialogOpen) && editando == old(editando) && formData == old(formData)
    {
      if editando.Some? && editando.value.id.Some? {
        calls := [PutMotorista(Export(formData, editando.value.id))];
      } else {
        calls := [PostMotorista(Export(formData, None))];
      }
      if !ok {
        return;
      }
      dialogOpen := false;
      editando := None;
      formData := DefaultForm;
      calls := calls + [FetchMotoristas];
    }

    /** Removal confirmed for a driver: the request targets `id ?? 0`, then the list is fetched. */
    method RemoverMotorista(m: Motorista, ok: bool) returns (calls: seq<MotoristaCall>)
      ensures 1 <= |calls| && calls[0] == DeleteMotorista(if m.id.Some? then m.id.value else 0)
      ensures calls == [calls[0]] + (if ok then [FetchMotoristas] else [])
    {
      calls := [DeleteMotorista(m.id.GetOr(0))];
      if ok {
        calls := calls + [FetchMotoristas];
      }
    }
  }
}
