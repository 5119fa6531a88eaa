/** The route/driver page (src/pages/ConfigurarRotaMotorista.tsx): choose a route, see the
    driver linked to it, pick another one, and on save link the new driver and unlink the
    previous one. */
module RotaMotorista {
  import opened Js
  import opened Types

  /** An entry of the route selector: `{value: r.id, label: r.nome}`. */
  datatype RotaOption = RotaOption(value: Option<int>, caption: Option<string>)

  /** An entry of the driver selector: `{value: m.id, label}`. */
  datatype DriverOption = DriverOption(value: Option<int>, caption: string)

  /** The requests the page issues. */
  datatype DriverCall =
    | FetchVinculado(rota: Option<int>)                      // GET /Routes/v1/MotoristaRota/Motorista/Rota/{rota}
    | Vincular(motoristaId: Option<int>, rotaId: Option<int>) // PUT /Routes/v1/MotoristaRota/Vincular
    | Desvincular(anteriorId: int, rotaId: Option<int>)      // PUT /Routes/v1/MotoristaRota/Desvincular

  /** How a GET ended: it threw, or it answered with `data` (possibly null). */
  datatype Reply<T> = Failed | Answered(data: Option<T>)

  const SemNome := "Motorista sem nome"
  const SalvoComSucesso := "Configuração salva com sucesso!"
  const FalhaAoSalvar := "Falha ao salvar. Tente novamente."
  const ErroMotoristas := "Erro ao carregar motoristas"
  const ErroRotas := "Erro ao carregar rotas"

  /** `m?.id`. */
  function IdOf(m: Option<Motorista>): (r: Option<int>)
    ensures m.None? ==> r.None?
    ensures m.Some? ==> r == m.value.id
  {
    if m.Some? then m.value.id else None
  }

  /** The requests `handleSalvar` issues, in order, when every one of them succeeds: a
      Vincular when the driver changed (by id), then a Desvincular of the previous driver
      when it had a truthy id. */
  function SavePlan(backup: Option<Motorista>, current: Option<Motorista>, rota: Option<int>): (calls: seq<DriverCall>)
    ensures calls == [] <==> IdOf(backup) == IdOf(current)
    ensures calls != [] ==> calls[0] == Vincular(IdOf(current), rota)
    ensures |calls| == 2 <==> TruthyNumber(IdOf(backup)) && IdOf(backup) != IdOf(current)
    ensures |calls| == 2 ==> calls[1] == Desvincular(IdOf(backup).value, rota)
    ensures |calls| <= 2
  {
    (if IdOf(backup) != IdOf(current) then [Vincular(IdOf(current), rota)] else [])
    + (if TruthyNumber(IdOf(backup)) && IdOf(backup) != IdOf(current)
       then [Desvincular(IdOf(backup).value, rota)] else [])
  }

  /** A save never unlinks the driver it links, and never links the driver already linked. */
  lemma SavePlanNeverUndoesItself(backup: Option<Motorista>, current: Option<Motorista>, rota: Option<int>)
    ensures var calls := SavePlan(backup, current, rota);
      && (|calls| == 2 ==> Some(calls[1].anteriorId) != calls[0].motoristaId)
      && (calls != [] ==> calls[0].motoristaId != IdOf(backup))
  {
  }

  /** `motoristas.filter(m => m.id !== key)`. */
  function Candidates(s: seq<Motorista>, key: Option<int>): (r: seq<Motorista>)
    ensures |r| <= |s|
    ensures forall m :: m in r <==> m in s && m.id != key
  {
    if s == [] then []
    else (if s[0].id == key then [] else [s[0]]) + Candidates(s[1..], key)
  }

  /** The filter keeps the remaining drivers in their order: filtering a concatenation
      filters each part in place. */
  lemma {:induction false} CandidatesConcat(s: seq<Motorista>, t: seq<Motorista>, key: Option<int>)
    ensures Candidates(s + t, key) == Candidates(s, key) + Candidates(t, key)
  {
    if s == [] {
      assert s + t == t;
    } else {
      assert (s + t)[0] == s[0] && (s + t)[1..] == s[1..] + t;
      CandidatesConcat(s[1..], t, key);
    }
  }

  /** The raw text of an option label before trimming. */
  function FullName(m: Motorista): (r: string)
    ensures var first, last := m.primeiroNome.GetOr(""), m.ultimoNome.GetOr("");
      && |r| == |first| + 1 + |last| && r[|first|] == ' '
      && r[..|first|] == first && r[|first| + 1..] == last
  {
    m.primeiroNome.GetOr("") + " " + m.ultimoNome.GetOr("")
  }

  /** The option label: the trimmed full name, or "Motorista sem nome" when that is empty. */
  function Label(m: Motorista): (r: string)
    ensures r != [] && !IsSpace(r[0]) && !IsSpace(r[|r| - 1])
    ensures AllSpace(FullName(m)) ==> r == SemNome
    ensures !AllSpace(FullName(m)) ==> r == Trim(FullName(m))
  {
    var t := Trim(FullName(m));
    if t == "" then SemNome else t
  }

  /** A driver with no name parts gets the fallback label. */
  lemma LabelWithoutNames(m: Motorista)
    requires m.primeiroNome.None? && m.ultimoNome.None?
    ensures Label(m) == SemNome
  {
    assert FullName(m) == " ";
  }

  /** A driver with only a first name (already without surrounding white space) is labelled
      by it: the separating blank is trimmed away. */
  lemma LabelFirstNameOnly(m: Motorista)
    requires m.primeiroNome.Some? && m.ultimoNome.None?
    requires var p := m.primeiroNome.value; p != [] && !IsSpace(p[0]) && !IsSpace(p[|p| - 1])
    ensures Label(m) == m.primeiroNome.value
  {
    var p := m.primeiroNome.value;
    var raw := FullName(m);
    assert raw == p + " ";
    assert TrimStart(raw) == raw;
    assert raw[..|raw| - 1] == p;
    assert TrimEnd(raw) == TrimEnd(p);
    assert TrimEnd(p) == p;
  }

  /** The options of the driver selector: every driver but the linked one, in order. */
  function DriverOptions(s: seq<Motorista>, current: Option<Motorista>): (r: seq<DriverOption>)
    ensures var c := Candidates(s, IdOf(current));
      |r| == |c| && forall i :: 0 <= i < |r| ==> r[i] == DriverOption(c[i].id, Label(c[i]))
  {
    var c := Candidates(s, IdOf(current));
    seq(|c|, i requires 0 <= i < |c| => DriverOption(c[i].id, Label(c[i])))
  }

  /** The options of the route selector. */
  function RotaOptions(rotas: seq<Rota>): (r: seq<RotaOption>)
    ensures |r| == |rotas| && forall i :: 0 <= i < |r| ==> r[i] == RotaOption(rotas[i].id, rotas[i].nome)
  {
    seq(|rotas|, i requires 0 <= i < |rotas| => RotaOption(rotas[i].id, rotas[i].nome))
  }

  /** `motoristas.find(m => m.id === key)`: the first driver with that id, or undefined. */
  function FindById(s: seq<Motorista>, key: Option<int>): (r: Option<Motorista>)
    ensures r.None? <==> forall j :: 0 <= j < |s| ==> s[j].id != key
    ensures r.Some? ==> exists i :: (0 <= i < |s| && s[i] == r.value && s[i].id == key
      && forall j :: 0 <= j < i ==> s[j].id != key)
  {
    if s == [] then None
    else if s[0].id == key then Some(s[0])
    else
      var r := FindById(s[1..], key);
      if r.Some? then
        var i :| 0 <= i < |s[1..]| && s[1..][i] == r.value && s[1..][i].id == key
          && forall j :: 0 <= j < i ==> s[1..][j].id != key;
        assert s[i + 1] == r.value && forall j :: 0 <= j < i + 1 ==> s[j].id != key by {
          forall j | 0 <= j < i + 1 ensures s[j].id != key {
            if j > 0 { assert s[j] == s[1..][j - 1]; }
          }
        }
        r
      else
        r
  }

  /** Once the linked driver is removed, a save unlinks it: a Vincular without a driver,
      then a Desvincular of the previous driver when its id is truthy. */
  lemma RemovalThenSaveUnlinks(backup: Option<Motorista>, rota: Option<int>)
    requires TruthyNumber(IdOf(backup))
    ensures SavePlan(backup, None, rota) == [Vincular(None, rota), Desvincular(IdOf(backup).value, rota)]
  {
  }

  class RotaMotoristaPage {
    var motoristas: seq<Motorista>
    var motoristaVinculado: Option<Motorista>
    var motoristaVinculadoBackUp: Option<Motorista>
    var rotas: seq<Rota>
    var rotaSelecionada: Option<RotaOption>
    var erro: string
    var sucesso: string

    constructor ()
      ensures motoristas == [] && rotas == [] && erro == "" && sucesso == ""
      ensures motoristaVinculado == None && motoristaVinculadoBackUp == None && rotaSelecionada == None
    {
      motoristas := [];
      motoristaVinculado := None;
      motoristaVinculadoBackUp := None;
      rotas := [];
      rotaSelecionada := None;
      erro := "";
      sucesso := "";
    }

    /** The driver list arrives (`response.data || []`), or its request fails. */
    method CarregarMotoristas(reply: Reply<seq<Motorista>>)
      modifies this`motoristas, this`erro
      ensures reply.Failed? ==> motoristas == old(motoristas) && erro == ErroMotoristas
      ensures reply.Answered? ==> motoristas == reply.data.GetOr([]) && erro == old(erro)
    {
      match reply
      case Failed => erro := ErroMotoristas;
      case Answered(data) => motoristas := data.GetOr([]);
    }

    /** The route list arrives (`response.data || []`), or its request fails. */
    method CarregarRotas(reply: Reply<seq<Rota>>)
      modifies this`rotas, this`erro
      ensures reply.Failed? ==> rotas == old(rotas) && erro == ErroRotas
      ensures reply.Answered? ==> rotas == reply.data.GetOr([]) && erro == old(erro)
    {
      match reply
      case Failed => erro := ErroRotas;
      case Answered(data) => rotas := data.GetOr([]);
    }

    /** A route is chosen; its linked driver is fetched (`response.data || {}`) and becomes
        both the current driver and the backup. A failed fetch changes nothing else. */
    method SelecionarRota(rota: RotaOption, reply: Reply<Motorista>) returns (call: DriverCall)
      modifies this`rotaSelecionada, this`motoristaVinculado, this`motoristaVinculadoBackUp
      ensures rotaSelecionada == Some(rota) && call == FetchVinculado(rota.value)
      ensures reply.Failed? ==>
        motoristaVinculado == old(motoristaVinculado) && motoristaVinculadoBackUp == old(motoristaVinculadoBackUp)
      ensures reply.Answered? ==>
        && motoristaVinculado == Some(reply.data.GetOr(EmptyMotorista))
        && motoristaVinculadoBackUp == motoristaVinculado
    {
      rotaSelecionada := Some(rota);
      call := FetchVinculado(rota.value);
      if reply.Answered? {
        var vinculado := reply.data.GetOr(EmptyMotorista);
        motoristaVinculado := Some(vinculado);
        motoristaVinculadoBackUp := Some(vinculado);
      }
    }

    /** An option is picked (None when the selector reports no option): the current driver
        becomes the first driver with that id. */
    method SelecionarMotorista(selected: Option<DriverOption>)
      modifies this`motoristaVinculado
      ensures var key := if selected.Some? then selected.value.value else None;
        motoristaVinculado == FindById(motoristas, key)
    {
      var key := if selected.Some? then selected.value.value else None;
      motoristaVinculado := FindById(motoristas, key);
    }

    /** "Remover" on the linked driver. */
    method RemoverVinculado()
      modifies this`motoristaVinculado
      ensures motoristaVinculado == None
    {
      motoristaVinculado := None;
    }

    /** `handleSalvar`: `vincularOk` and `desvincularOk` say whether each PUT succeeds. The
        Vincular is awaited before the Desvincular is built, so its failure, or a missing
        route when it must be built, stops the save with nothing more sent. On success every
        selection is reset. */
    method HandleSalvar(vincularOk: bool, desvincularOk: bool) returns (calls: seq<DriverCall>)
      modifies this
      ensures rotas == old(rotas)
      ensures var plan := SavePlan(old(motoristaVinculadoBackUp), old(motoristaVinculado),
                                   if old(rotaSelecionada).Some? then old(rotaSelecionada).value.value else None);
        var failed := (plan != [] && (old(rotaSelecionada).None? || !vincularOk))
                      || (|plan| == 2 && !desvincularOk);
        && (failed ==>
              && erro == FalhaAoSalvar && sucesso == ""
              && calls == (if old(rotaSelecionada).None? then [] else if !vincularOk then plan[..1] else plan)
              && motoristas == old(motoristas) && motoristaVinculado == old(motoristaVinculado)
              && motoristaVinculadoBackUp == old(motoristaVinculadoBackUp) && rotaSelecionada == old(rotaSelecionada))
        && (!failed ==>
              && calls == plan && erro == "" && sucesso == SalvoComSucesso
              && rotaSelecionada == None && motoristaVinculado == None
              && motoristas == [] && motoristaVinculadoBackUp == None)
    {
      erro := "";
      sucesso := "";
      calls := [];
      var backupId := IdOf(motoristaVinculadoBackUp);
      var currentId := IdOf(motoristaVinculado);
      if backupId != currentId {
        if rotaSelecionada.None? {
          erro := FalhaAoSalvar;
          return;
        }
        calls := calls + [Vincular(currentId, rotaSelecionada.value.value)];
        if !vincularOk {
          erro := FalhaAoSalvar;
          return;
        }
      }
      if TruthyNumber(backupId) && backupId != currentId {
        calls := calls + [Desvincular(backupId.value, rotaSelecionada.value.value)];
        if !desvincularOk {
          erro := FalhaAoSalvar;
          return;
        }
      }
      rotaSelecionada := None;
      motoristaVinculado := None;
      motoristas := [];
      motoristaVinculadoBackUp := None;
      sucesso := SalvoComSucesso;
    }
  }
}
